/**
 Initialising a VM over the API: one request after another until one fails.  All requests of a run are a prefix of one
 plan that the configuration determines.
 */
module BootPlan {
  import opened Wrappers
  import opened Configuration
  import opened Process
  import opened VmTypes
  import opened Api

  datatype Route =
    | BootSourceRoute | DriveRoute(id: string) | MachineConfigRoute | CpuConfigRoute | NetworkRoute(id: string)
    | BalloonRoute | VsockRoute | LoggerRoute | MetricsRoute | MmdsConfigRoute | EntropyRoute | ActionsRoute
    | SnapshotLoadRoute
  {
    function Text(): string {
      match this
      case BootSourceRoute => "/boot-source"
      case DriveRoute(id) => "/drives/" + id
      case MachineConfigRoute => "/machine-config"
      case CpuConfigRoute => "/cpu-config"
      case NetworkRoute(id) => "/network-interfaces/" + id
      case BalloonRoute => "/balloon"
      case VsockRoute => "/vsock"
      case LoggerRoute => "/logger"
      case MetricsRoute => "/metrics"
      case MmdsConfigRoute => "/mmds/config"
      case EntropyRoute => "/entropy"
      case ActionsRoute => "/actions"
      case SnapshotLoadRoute => "/snapshot/load"
    }
  }

  datatype Body =
    | BootBody(boot: BootSource)
    | DriveBody(drive: Drive)
    | NetworkBody(network: NetworkInterface)
    | VsockBody(vsock: VsockDevice)
    | LoggerBody(logger: LoggerSystem)
    | MetricsBody(metrics: MetricsSystem)
    | SettingsBody(settings: Settings)
    | LoadBody(load: LoadSnapshot)
    | InstanceStart

  datatype Request = Put(route: Route, body: Body)

  function OptionalRequest(route: Route, body: Option<Body>): seq<Request> {
    match body
    case None => []
    case Some(b) => [Put(route, b)]
  }

  function AsSettings(s: Option<Settings>): Option<Body> {
    if s.Some? then Some(SettingsBody(s.value)) else None
  }

  function DriveRequests(drives: seq<Drive>): seq<Request> {
    seq(|drives|, i requires 0 <= i < |drives| => Put(DriveRoute(drives[i].driveId), DriveBody(drives[i])))
  }

  function NetworkRequests(networks: seq<NetworkInterface>): seq<Request> {
    seq(|networks|, i requires 0 <= i < |networks| => Put(NetworkRoute(networks[i].ifaceId), NetworkBody(networks[i])))
  }

  function Machine(data: VmConfigurationData): seq<Request> {
    [Put(MachineConfigRoute, SettingsBody(data.machineConfiguration))]
    + OptionalRequest(CpuConfigRoute, AsSettings(data.cpuTemplate))
  }

  function LoggerRequest(data: VmConfigurationData): seq<Request> {
    OptionalRequest(LoggerRoute, if data.loggerSystem.Some? then Some(LoggerBody(data.loggerSystem.value)) else None)
  }

  function MetricsRequest(data: VmConfigurationData): seq<Request> {
    OptionalRequest(MetricsRoute,
                    if data.metricsSystem.Some? then Some(MetricsBody(data.metricsSystem.value)) else None)
  }

  function Peripherals(data: VmConfigurationData): seq<Request> {
    OptionalRequest(BalloonRoute, AsSettings(data.balloonDevice))
    + OptionalRequest(VsockRoute, if data.vsockDevice.Some? then Some(VsockBody(data.vsockDevice.value)) else None)
    + LoggerRequest(data)
  }

  function Services(data: VmConfigurationData): seq<Request> {
    MetricsRequest(data)
    + OptionalRequest(MmdsConfigRoute, AsSettings(data.mmdsConfiguration))
    + OptionalRequest(EntropyRoute, AsSettings(data.entropyDevice))
  }

  function Boot(data: VmConfigurationData): seq<Request> {
    [Put(BootSourceRoute, BootBody(data.bootSource))]
  }

  /** All requests that describe the machine, before it is started. */
  function Setup(data: VmConfigurationData): seq<Request> {
    Boot(data) + DriveRequests(data.drives) + Machine(data) + NetworkRequests(data.networkInterfaces)
    + Peripherals(data) + Services(data)
  }

  const START := Put(ActionsRoute, InstanceStart)

  /** The plan of `init_new`. */
  function NewPlan(data: VmConfigurationData): seq<Request> {
    Setup(data) + [START]
  }

  /** The plan of `init_restored_from_snapshot`. */
  function RestorePlan(data: VmConfigurationData, load: LoadSnapshot): seq<Request> {
    LoggerRequest(data) + MetricsRequest(data) + [Put(SnapshotLoadRoute, LoadBody(load))]
  }

  // ---------------------------------------------------------------- following a plan

  /** The environment of a run: what it does at each request. */
  type Script = nat -> Round

  /** A run in progress: the process, the requests that left the program and those the server accepted. */
  datatype Progress = Progress(proc: Proc, sent: seq<Request>, accepted: seq<Request>)

  function SendOne(s: Progress, request: Request, r: Round): (Progress, Result<(), VmError>) {
    var (q, result) := SendExpectingNothing(s.proc, r);
    (Progress(q, s.sent + (if IsSent(s.proc, r) then [request] else []),
              s.accepted + (if IsAccepted(s.proc, r) then [request] else [])), result)
  }

  /** Sending `plan` in order, stopping at the first error; `from` counts the requests before it. */
  function Follow(s: Progress, plan: seq<Request>, script: Script, from: nat): (Progress, Result<(), VmError>)
    decreases |plan|
  {
    if plan == [] then (s, Ok(()))
    else
      var (next, result) := SendOne(s, plan[0], script(from));
      if result.Err? then (next, result) else Follow(next, plan[1..], script, from + 1)
  }

  /**
   * Whatever the server does: the requests that were sent are a prefix of the plan, each but the last was accepted,
   * and the run is Ok only when all of the plan was sent and accepted.
   */
  lemma {:induction false} FollowSendsPrefix(s: Progress, plan: seq<Request>, script: Script, from: nat)
    returns (n: nat, k: nat)
    ensures n - 1 <= k <= n <= |plan|
    ensures Follow(s, plan, script, from).0.sent == s.sent + plan[..n]
    ensures Follow(s, plan, script, from).0.accepted == s.accepted + plan[..k]
    ensures Follow(s, plan, script, from).1.Ok? ==> n == k == |plan|
    decreases |plan|
  {
    if plan == [] {
      n, k := 0, 0;
    } else {
      var (next, result) := SendOne(s, plan[0], script(from));
      OkMeansAccepted(s.proc, script(from));
      if result.Err? {
        n := if IsSent(s.proc, script(from)) then 1 else 0;
        k := if IsAccepted(s.proc, script(from)) then 1 else 0;
      } else {
        var rest := plan[1..];
        var m, j := FollowSendsPrefix(next, rest, script, from + 1);
        n, k := m + 1, j + 1;
        assert plan[..n] == [plan[0]] + rest[..m] && plan[..k] == [plan[0]] + rest[..j];
      }
    }
  }

  // ---------------------------------------------------------------- the program

  /** One `send_api_request(..).await?` of an initialisation; `s` and `rest` are where it stands in its plan. */
  method Send(process: VmmProcess, script: Script, n: nat, request: Request, ghost s: Progress,
              ghost rest: seq<Request>)
    returns (r: Result<(), VmError>, ghost next: Progress)
    requires s.proc == process.View()
    modifies process
    ensures next.proc == process.View()
    ensures r.Ok? ==> r == Ok(()) && Follow(s, [request] + rest, script, n) == Follow(next, rest, script, n + 1)
    ensures r.Err? ==> Follow(s, [request] + rest, script, n) == (next, r)
  {
    next := SendOne(s, request, script(n)).0;
    r := Submit(process, script(n));
    assert ([request] + rest)[1..] == rest;
  }

  /** A request that is only made for a device that is configured. */
  method SendOptional(process: VmmProcess, script: Script, n: nat, route: Route, body: Option<Body>, ghost s: Progress,
                      ghost rest: seq<Request>)
    returns (r: Result<(), VmError>, n': nat, ghost next: Progress)
    requires s.proc == process.View()
    modifies process
    ensures next.proc == process.View()
    ensures r.Ok? ==> Follow(s, OptionalRequest(route, body) + rest, script, n) == Follow(next, rest, script, n')
    ensures r.Err? ==> Follow(s, OptionalRequest(route, body) + rest, script, n) == (next, r)
  {
    if body.Some? {
      r, next := Send(process, script, n, Put(route, body.value), s, rest);
      n' := n + 1;
    } else {
      assert [] + rest == rest;
      r, n', next := Ok(()), n, s;
    }
  }

  method SendDrives(process: VmmProcess, script: Script, n: nat, drives: seq<Drive>, ghost s: Progress,
                    ghost rest: seq<Request>)
    returns (r: Result<(), VmError>, n': nat, ghost next: Progress)
    requires s.proc == process.View()
    modifies process
    ensures next.proc == process.View()
    ensures r.Ok? ==> Follow(s, DriveRequests(drives) + rest, script, n) == Follow(next, rest, script, n')
    ensures r.Err? ==> Follow(s, DriveRequests(drives) + rest, script, n) == (next, r)
  {
    n', next, r := n, s, Ok(());
    var i := 0;
    assert drives[0..] == drives;
    while i < |drives|
      invariant 0 <= i <= |drives| && next.proc == process.View() && r.Ok?
      invariant Follow(s, DriveRequests(drives) + rest, script, n)
                == Follow(next, DriveRequests(drives[i..]) + rest, script, n')
    {
      var request := Put(DriveRoute(drives[i].driveId), DriveBody(drives[i]));
      assert DriveRequests(drives[i..]) + rest == [request] + (DriveRequests(drives[i + 1..]) + rest);
      r, next := Send(process, script, n', request, next, DriveRequests(drives[i + 1..]) + rest);
      if r.Err? {
        return;
      }
      i, n' := i + 1, n' + 1;
    }
    assert DriveRequests(drives[i..]) + rest == rest;
  }

  method SendNetworks(process: VmmProcess, script: Script, n: nat, networks: seq<NetworkInterface>, ghost s: Progress,
                      ghost rest: seq<Request>)
    returns (r: Result<(), VmError>, n': nat, ghost next: Progress)
    requires s.proc == process.View()
    modifies process
    ensures next.proc == process.View()
    ensures r.Ok? ==> Follow(s, NetworkRequests(networks) + rest, script, n) == Follow(next, rest, script, n')
    ensures r.Err? ==> Follow(s, NetworkRequests(networks) + rest, script, n) == (next, r)
  {
    n', next, r := n, s, Ok(());
    var i := 0;
    assert networks[0..] == networks;
    while i < |networks|
      invariant 0 <= i <= |networks| && next.proc == process.View() && r.Ok?
      invariant Follow(s, NetworkRequests(networks) + rest, script, n)
                == Follow(next, NetworkRequests(networks[i..]) + rest, script, n')
    {
      var request := Put(NetworkRoute(networks[i].ifaceId), NetworkBody(networks[i]));
      assert NetworkRequests(networks[i..]) + rest == [request] + (NetworkRequests(networks[i + 1..]) + rest);
      r, next := Send(process, script, n', request, next, NetworkRequests(networks[i + 1..]) + rest);
      if r.Err? {
        return;
      }
      i, n' := i + 1, n' + 1;
    }
    assert NetworkRequests(networks[i..]) + rest == rest;
  }

  method SendMachine(process: VmmProcess, script: Script, n: nat, data: VmConfigurationData, ghost s: Progress,
                         ghost rest: seq<Request>)
    returns (r: Result<(), VmError>, n': nat, ghost next: Progress)
    requires s.proc == process.View()
    modifies process
    ensures next.proc == process.View()
    ensures r.Ok? ==> Follow(s, Machine(data) + rest, script, n) == Follow(next, rest, script, n')
    ensures r.Err? ==> Follow(s, Machine(data) + rest, script, n) == (next, r)
  {
    var machine := Put(MachineConfigRoute, SettingsBody(data.machineConfiguration));
    ghost var b := OptionalRequest(CpuConfigRoute, AsSettings(data.cpuTemplate)) + rest;
    assert Machine(data) + rest == [machine] + b;
    r, next := Send(process, script, n, machine, s, b);
    n' := n + 1;
    if r.Ok? {
      r, n', next := SendOptional(process, script, n', CpuConfigRoute, AsSettings(data.cpuTemplate), next, rest);
    }
  }

  method SendPeripherals(process: VmmProcess, script: Script, n: nat, data: VmConfigurationData, ghost s: Progress,
                         ghost rest: seq<Request>)
    returns (r: Result<(), VmError>, n': nat, ghost next: Progress)
    requires s.proc == process.View()
    modifies process
    ensures next.proc == process.View()
    ensures r.Ok? ==> Follow(s, Peripherals(data) + rest, script, n) == Follow(next, rest, script, n')
    ensures r.Err? ==> Follow(s, Peripherals(data) + rest, script, n) == (next, r)
  {
    ghost var b := LoggerRequest(data) + rest;
    var vsock := if data.vsockDevice.Some? then Some(VsockBody(data.vsockDevice.value)) else None;
    ghost var a := OptionalRequest(VsockRoute, vsock) + b;
    assert Peripherals(data) + rest == OptionalRequest(BalloonRoute, AsSettings(data.balloonDevice)) + a;
    r, n', next := SendOptional(process, script, n, BalloonRoute, AsSettings(data.balloonDevice), s, a);
    if r.Err? {
      return;
    }
    r, n', next := SendOptional(process, script, n', VsockRoute, vsock, next, b);
    if r.Err? {
      return;
    }
    r, n', next := SendLogger(process, script, n', data, next, rest);
  }

  method SendServices(process: VmmProcess, script: Script, n: nat, data: VmConfigurationData, ghost s: Progress,
                         ghost rest: seq<Request>)
    returns (r: Result<(), VmError>, n': nat, ghost next: Progress)
    requires s.proc == process.View()
    modifies process
    ensures next.proc == process.View()
    ensures r.Ok? ==> Follow(s, Services(data) + rest, script, n) == Follow(next, rest, script, n')
    ensures r.Err? ==> Follow(s, Services(data) + rest, script, n) == (next, r)
  {
    ghost var b := OptionalRequest(EntropyRoute, AsSettings(data.entropyDevice)) + rest;
    ghost var a := OptionalRequest(MmdsConfigRoute, AsSettings(data.mmdsConfiguration)) + b;
    assert Services(data) + rest == MetricsRequest(data) + a;
    r, n', next := SendMetrics(process, script, n, data, s, a);
    if r.Err? {
      return;
    }
    r, n', next := SendOptional(process, script, n', MmdsConfigRoute, AsSettings(data.mmdsConfiguration), next, b);
    if r.Err? {
      return;
    }
    r, n', next := SendOptional(process, script, n', EntropyRoute, AsSettings(data.entropyDevice), next, rest);
  }

  method SendLogger(process: VmmProcess, script: Script, n: nat, data: VmConfigurationData, ghost s: Progress,
                    ghost rest: seq<Request>)
    returns (r: Result<(), VmError>, n': nat, ghost next: Progress)
    requires s.proc == process.View()
    modifies process
    ensures next.proc == process.View()
    ensures r.Ok? ==> Follow(s, LoggerRequest(data) + rest, script, n) == Follow(next, rest, script, n')
    ensures r.Err? ==> Follow(s, LoggerRequest(data) + rest, script, n) == (next, r)
  {
    var logger := if data.loggerSystem.Some? then Some(LoggerBody(data.loggerSystem.value)) else None;
    r, n', next := SendOptional(process, script, n, LoggerRoute, logger, s, rest);
  }

  method SendMetrics(process: VmmProcess, script: Script, n: nat, data: VmConfigurationData, ghost s: Progress,
                     ghost rest: seq<Request>)
    returns (r: Result<(), VmError>, n': nat, ghost next: Progress)
    requires s.proc == process.View()
    modifies process
    ensures next.proc == process.View()
    ensures r.Ok? ==> Follow(s, MetricsRequest(data) + rest, script, n) == Follow(next, rest, script, n')
    ensures r.Err? ==> Follow(s, MetricsRequest(data) + rest, script, n) == (next, r)
  {
    var metrics := if data.metricsSystem.Some? then Some(MetricsBody(data.metricsSystem.value)) else None;
    r, n', next := SendOptional(process, script, n, MetricsRoute, metrics, s, rest);
  }

  /** The last request of a plan decides. */
  method SendLast(process: VmmProcess, script: Script, n: nat, request: Request, ghost s: Progress)
    returns (r: Result<(), VmError>, ghost end: Progress)
    requires s.proc == process.View()
    modifies process
    ensures end.proc == process.View()
    ensures Follow(s, [request], script, n) == (end, r)
  {
    assert [request] + [] == [request];
    r, end := Send(process, script, n, request, s, []);
    assert Follow(end, [], script, n + 1) == (end, Ok(()));
  }

  /** What is left of the plan when the network interfaces, or the machine, come next. */
  function FromNetworks(data: VmConfigurationData): seq<Request> {
    NetworkRequests(data.networkInterfaces) + (Peripherals(data) + (Services(data) + [START]))
  }

  function FromMachine(data: VmConfigurationData): seq<Request> {
    Machine(data) + FromNetworks(data)
  }

  function FromDrives(data: VmConfigurationData): seq<Request> {
    DriveRequests(data.drives) + FromMachine(data)
  }

  lemma PlanParts(data: VmConfigurationData)
    ensures NewPlan(data) == [Put(BootSourceRoute, BootBody(data.bootSource))] + FromDrives(data)
  {
  }

  /** `init_new`: it follows its plan. */
  method InitNew(process: VmmProcess, data: VmConfigurationData, script: Script)
    returns (r: Result<(), VmError>, ghost end: Progress)
    modifies process
    ensures end.proc == process.View()
    ensures (end, r) == Follow(Progress(old(process.View()), [], []), NewPlan(data), script, 0)
  {
    PlanParts(data);
    end := Progress(process.View(), [], []);
    r, end := Send(process, script, 0, Put(BootSourceRoute, BootBody(data.bootSource)), end, FromDrives(data));
    if r.Ok? {
      r, end := InitDrives(process, script, 1, data, end);
    }
  }

  /** The part of `init_new` from the drives on. */
  method InitDrives(process: VmmProcess, script: Script, n: nat, data: VmConfigurationData, ghost s: Progress)
    returns (r: Result<(), VmError>, ghost end: Progress)
    requires s.proc == process.View()
    modifies process
    ensures end.proc == process.View()
    ensures (end, r) == Follow(s, FromDrives(data), script, n)
  {
    var n';
    r, n', end := SendDrives(process, script, n, data.drives, s, FromMachine(data));
    if r.Ok? {
      r, end := InitMachine(process, script, n', data, end);
    }
  }

  /** The part of `init_new` from the machine configuration on. */
  method InitMachine(process: VmmProcess, script: Script, n: nat, data: VmConfigurationData, ghost s: Progress)
    returns (r: Result<(), VmError>, ghost end: Progress)
    requires s.proc == process.View()
    modifies process
    ensures end.proc == process.View()
    ensures (end, r) == Follow(s, FromMachine(data), script, n)
  {
    var n';
    r, n', end := SendMachine(process, script, n, data, s, FromNetworks(data));
    if r.Err? {
      return;
    }
    ghost var rest := Peripherals(data) + (Services(data) + [START]);
    r, n', end := SendNetworks(process, script, n', data.networkInterfaces, end, rest);
    if r.Err? {
      return;
    }
    r, end := FinishNew(process, script, n', data, end);
  }

  /** The last part of `init_new`, from the balloon device on. */
  method FinishNew(process: VmmProcess, script: Script, n: nat, data: VmConfigurationData, ghost s: Progress)
    returns (r: Result<(), VmError>, ghost end: Progress)
    requires s.proc == process.View()
    modifies process
    ensures end.proc == process.View()
    ensures (end, r) == Follow(s, Peripherals(data) + (Services(data) + [START]), script, n)
  {
    var n';
    r, n', end := SendPeripherals(process, script, n, data, s, Services(data) + [START]);
    if r.Err? {
      return;
    }
    r, n', end := SendServices(process, script, n', data, end, [START]);
    if r.Err? {
      return;
    }
    r, end := SendLast(process, script, n', START, end);
  }

  /** `init_restored_from_snapshot`: it follows its plan. */
  method InitRestored(process: VmmProcess, data: VmConfigurationData, load: LoadSnapshot, script: Script)
    returns (r: Result<(), VmError>, ghost end: Progress)
    modifies process
    ensures end.proc == process.View()
    ensures (end, r) == Follow(Progress(old(process.View()), [], []), RestorePlan(data, load), script, 0)
  {
    ghost var s := Progress(process.View(), [], []);
    var last := Put(SnapshotLoadRoute, LoadBody(load));
    assert RestorePlan(data, load) == LoggerRequest(data) + (MetricsRequest(data) + [last]);
    var n;
    r, n, end := SendLogger(process, script, 0, data, s, MetricsRequest(data) + [last]);
    if r.Err? {
      return;
    }
    r, n, end := SendMetrics(process, script, n, data, end, [last]);
    if r.Err? {
      return;
    }
    r, end := SendLast(process, script, n, last, end);
  }

  // ---------------------------------------------------------------- what the server ends up with

  lemma StartOnlyLast(data: VmConfigurationData, i: nat)
    requires i < |NewPlan(data)|
    ensures NewPlan(data)[i] == START <==> i == |NewPlan(data)| - 1
  {
    if i < |Setup(data)| {
      assert NewPlan(data)[i] == Setup(data)[i];
      SetupIsNoStart(data, Setup(data)[i]);
    }
  }

  lemma SetupIsNoStart(data: VmConfigurationData, request: Request)
    requires request in Setup(data)
    ensures request.route != ActionsRoute
  {
    assert request in Boot(data) || request in DriveRequests(data.drives) || request in Machine(data)
        || request in NetworkRequests(data.networkInterfaces) || request in Peripherals(data)
        || request in Services(data);
  }

  /**
   * Every run of `init_new`: what was sent is a prefix of the plan; the instance is started at most once, last, and
   * only after everything else was accepted; and Ok means that all of the plan was accepted.
   */
  lemma NewRunIsAPlan(p: Proc, data: VmConfigurationData, script: Script)
    ensures var (end, result) := Follow(Progress(p, [], []), NewPlan(data), script, 0);
            && end.sent <= NewPlan(data) && end.accepted <= end.sent
            && (START in end.sent ==> end.sent == NewPlan(data) && Setup(data) <= end.accepted)
            && (result.Ok? ==> end.accepted == NewPlan(data))
  {
    var n, k := FollowSendsPrefix(Progress(p, [], []), NewPlan(data), script, 0);
    PrefixesOfPlan(data, n, k);
  }

  /** The same for a restored VM: loading the snapshot is the last request, after logger and metrics were accepted. */
  lemma RestoredRunIsAPlan(p: Proc, data: VmConfigurationData, load: LoadSnapshot, script: Script)
    ensures var (end, result) := Follow(Progress(p, [], []), RestorePlan(data, load), script, 0);
            && end.sent <= RestorePlan(data, load) && end.accepted <= end.sent
            && (Put(SnapshotLoadRoute, LoadBody(load)) in end.sent ==>
                  LoggerRequest(data) + MetricsRequest(data) <= end.accepted)
            && (result.Ok? ==> end.accepted == RestorePlan(data, load))
  {
    var plan := RestorePlan(data, load);
    var n, k := FollowSendsPrefix(Progress(p, [], []), plan, script, 0);
    var before := LoggerRequest(data) + MetricsRequest(data);
    assert plan[..|before|] == before;
    assert forall i :: 0 <= i < |before| ==> plan[i] == before[i] && !before[i].route.SnapshotLoadRoute?;
    assert plan[..k] == plan[..n][..k];
  }

  lemma PrefixesOfPlan(data: VmConfigurationData, n: nat, k: nat)
    requires n - 1 <= k <= n <= |NewPlan(data)|
    ensures [] + NewPlan(data)[..k] == NewPlan(data)[..k] <= NewPlan(data)[..n] <= NewPlan(data)
    ensures START in NewPlan(data)[..n] ==>
              NewPlan(data)[..n] == NewPlan(data) && Setup(data) <= NewPlan(data)[..k]
  {
    var plan := NewPlan(data);
    if START in plan[..n] {
      var i :| 0 <= i < n && plan[..n][i] == START;
      StartOnlyLast(data, i);
      assert plan[..|Setup(data)|] == Setup(data);
    }
  }

  /** A server that stores each accepted body under its route. */
  function Store(requests: seq<Request>): map<Route, Body> {
    if requests == [] then map[]
    else Store(requests[..|requests| - 1])[requests[|requests| - 1].route := requests[|requests| - 1].body]
  }

  predicate LastOf(requests: seq<Request>, k: nat, route: Route) {
    && k < |requests| && requests[k].route == route
    && forall j :: k < j < |requests| ==> requests[j].route != route
  }

  /** Of several bodies under one route the last one stays. */
  lemma {:induction false} StoreKeepsLast(requests: seq<Request>, route: Route) returns (k: nat)
    ensures route in Store(requests) <==> exists r :: r in requests && r.route == route
    ensures route in Store(requests) ==> LastOf(requests, k, route) && Store(requests)[route] == requests[k].body
  {
    k := 0;
    if requests == [] {
    } else {
      var last := |requests| - 1;
      assert requests == requests[..last] + [requests[last]];
      k := StoreKeepsLast(requests[..last], route);
      if requests[last].route == route {
        assert requests[last] in requests;
        k := last;
      }
    }
  }

  /** The server knows every body that was sent to it exactly when no route was used for two different bodies. */
  lemma StoreHoldsAllIff(requests: seq<Request>)
    ensures (forall r :: r in requests ==> r.route in Store(requests) && Store(requests)[r.route] == r.body)
            <==> (forall a, b :: a in requests && b in requests && a.route == b.route ==> a.body == b.body)
    ensures forall route :: route in Store(requests) ==> Put(route, Store(requests)[route]) in requests
  {
    forall route | route in Store(requests)
      ensures Put(route, Store(requests)[route]) in requests
    {
      var k := StoreKeepsLast(requests, route);
      assert requests[k] == Put(route, Store(requests)[route]);
    }
    forall r | r in requests
      ensures r.route in Store(requests)
    {
      var k := StoreKeepsLast(requests, r.route);
    }
  }

  /** Drives of the same identifier are the same drive, and likewise for network interfaces. */
  predicate IdsIdentify(data: VmConfigurationData) {
    && (forall a, b :: a in data.drives && b in data.drives && a.driveId == b.driveId ==> a == b)
    && (forall a, b :: a in data.networkInterfaces && b in data.networkInterfaces && a.ifaceId == b.ifaceId ==> a == b)
  }

  /** What a request of the plan can be. */
  lemma PlanRequests(data: VmConfigurationData, r: Request)
    requires r in NewPlan(data)
    ensures match r.route
            case DriveRoute(id) => r.body.DriveBody? && r.body.drive in data.drives && r.body.drive.driveId == id
            case NetworkRoute(id) =>
              r.body.NetworkBody? && r.body.network in data.networkInterfaces && r.body.network.ifaceId == id
            case BootSourceRoute => r.body == BootBody(data.bootSource)
            case ActionsRoute => r.body == InstanceStart
            case _ => r in Machine(data) || r in Peripherals(data) || r in Services(data)
  {
    assert r in Boot(data) || r in DriveRequests(data.drives) || r in Machine(data)
        || r in NetworkRequests(data.networkInterfaces) || r in Peripherals(data) || r in Services(data) || r == START;
  }

  lemma DeviceRequestsAreUnique(data: VmConfigurationData, a: Request, b: Request)
    requires a in Machine(data) || a in Peripherals(data) || a in Services(data)
    requires b in Machine(data) || b in Peripherals(data) || b in Services(data)
    requires a.route == b.route
    ensures a == b
  {
  }

  /**
   * Replaying an accepted plan on the keyed store rebuilds every configured device exactly when identifiers identify
   * drives and interfaces; the store never holds anything that was not configured.
   */
  lemma AcceptedPlanRebuildsDevicesIff(data: VmConfigurationData)
    ensures var store := Store(NewPlan(data));
            && ((forall r :: r in NewPlan(data) ==> r.route in store && store[r.route] == r.body)
                <==> IdsIdentify(data))
            && (forall route :: route in store ==> Put(route, store[route]) in NewPlan(data))
  {
    var plan := NewPlan(data);
    StoreHoldsAllIff(plan);
    if IdsIdentify(data) {
      forall a, b | a in plan && b in plan && a.route == b.route
        ensures a.body == b.body
      {
        PlanRequests(data, a);
        PlanRequests(data, b);
        if a.route.DriveRoute? || a.route.NetworkRoute? || a.route.BootSourceRoute? || a.route.ActionsRoute? {
        } else {
          DeviceRequestsAreUnique(data, a, b);
        }
      }
    }
    if forall a, b :: a in plan && b in plan && a.route == b.route ==> a.body == b.body {
      IdsIdentifyFromPlan(data);
    }
  }

  lemma IdsIdentifyFromPlan(data: VmConfigurationData)
    requires forall a, b :: a in NewPlan(data) && b in NewPlan(data) && a.route == b.route ==> a.body == b.body
    ensures IdsIdentify(data)
  {
    forall a, b | a in data.drives && b in data.drives && a.driveId == b.driveId
      ensures a == b
    {
      DriveIsInPlan(data, a);
      DriveIsInPlan(data, b);
      assert Put(DriveRoute(a.driveId), DriveBody(a)).body == Put(DriveRoute(b.driveId), DriveBody(b)).body;
    }
    forall a, b | a in data.networkInterfaces && b in data.networkInterfaces && a.ifaceId == b.ifaceId
      ensures a == b
    {
      NetworkIsInPlan(data, a);
      NetworkIsInPlan(data, b);
      assert Put(NetworkRoute(a.ifaceId), NetworkBody(a)).body == Put(NetworkRoute(b.ifaceId), NetworkBody(b)).body;
    }
  }

  lemma DriveIsInPlan(data: VmConfigurationData, drive: Drive)
    requires drive in data.drives
    ensures Put(DriveRoute(drive.driveId), DriveBody(drive)) in NewPlan(data)
  {
    var i :| 0 <= i < |data.drives| && data.drives[i] == drive;
    assert DriveRequests(data.drives)[i] in DriveRequests(data.drives);
  }

  lemma NetworkIsInPlan(data: VmConfigurationData, network: NetworkInterface)
    requires network in data.networkInterfaces
    ensures Put(NetworkRoute(network.ifaceId), NetworkBody(network)) in NewPlan(data)
  {
    var i :| 0 <= i < |data.networkInterfaces| && data.networkInterfaces[i] == network;
    assert NetworkRequests(data.networkInterfaces)[i] in NetworkRequests(data.networkInterfaces);
  }

  /** Different routes are different paths on the API socket, whatever the identifiers are. */
  lemma RouteTextsDiffer(a: Route, b: Route)
    requires a.Text() == b.Text()
    ensures a == b
  {
    RouteInitials(a);
    RouteInitials(b);
    if a.DriveRoute? && b.DriveRoute? {
      assert a.id == a.Text()[8..] && b.id == b.Text()[8..];
    } else if a.NetworkRoute? && b.NetworkRoute? {
      assert a.id == a.Text()[20..] && b.id == b.Text()[20..];
    }
  }

  function Initials(route: Route): (char, char) {
    match route
    case BootSourceRoute => ('b', 'o')
    case DriveRoute(_) => ('d', 'r')
    case MachineConfigRoute => ('m', 'a')
    case CpuConfigRoute => ('c', 'p')
    case NetworkRoute(_) => ('n', 'e')
    case BalloonRoute => ('b', 'a')
    case VsockRoute => ('v', 's')
    case LoggerRoute => ('l', 'o')
    case MetricsRoute => ('m', 'e')
    case MmdsConfigRoute => ('m', 'm')
    case EntropyRoute => ('e', 'n')
    case ActionsRoute => ('a', 'c')
    case SnapshotLoadRoute => ('s', 'n')
  }

  lemma RouteInitials(route: Route)
    ensures |route.Text()| > 2 && Initials(route) == (route.Text()[1], route.Text()[2])
  {
  }
}
