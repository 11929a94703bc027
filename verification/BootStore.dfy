/**
 What the API server holds after an initialisation, read back into the configuration: every device that is configured
 and none that is not.  The server stores each accepted body under its route.
 */
module BootStore {
  import opened Wrappers
  import opened Configuration
  import opened Process
  import opened VmTypes
  import opened BootPlan

  // ---------------------------------------------------------------- what a configuration calls for

  predicate IsListed(route: Route) {
    route.DriveRoute? || route.NetworkRoute?
  }

  function OptionalSettings(settings: Option<Settings>): Option<Body> {
    match settings
    case None => None
    case Some(s) => Some(SettingsBody(s))
  }

  /** The body for a part of which there is at most one, if it is configured. */
  function PartOf(data: VmConfigurationData, route: Route): Option<Body> {
    match route
    case BootSourceRoute => Some(BootBody(data.bootSource))
    case MachineConfigRoute => Some(SettingsBody(data.machineConfiguration))
    case CpuConfigRoute => OptionalSettings(data.cpuTemplate)
    case BalloonRoute => OptionalSettings(data.balloonDevice)
    case VsockRoute => if data.vsockDevice.Some? then Some(VsockBody(data.vsockDevice.value)) else None
    case LoggerRoute => if data.loggerSystem.Some? then Some(LoggerBody(data.loggerSystem.value)) else None
    case MetricsRoute => if data.metricsSystem.Some? then Some(MetricsBody(data.metricsSystem.value)) else None
    case MmdsConfigRoute => OptionalSettings(data.mmdsConfiguration)
    case EntropyRoute => OptionalSettings(data.entropyDevice)
    case ActionsRoute => Some(InstanceStart)
    case _ => None
  }

  /** The request is one that the configuration of a new VM calls for. */
  predicate IsCalledFor(data: VmConfigurationData, r: Request) {
    match r.route
    case DriveRoute(id) => r.body.DriveBody? && r.body.drive in data.drives && r.body.drive.driveId == id
    case NetworkRoute(id) =>
      r.body.NetworkBody? && r.body.network in data.networkInterfaces && r.body.network.ifaceId == id
    case route => PartOf(data, route) == Some(r.body)
  }

  /** Loading a snapshot leaves everything to it but the logger, the metrics and the snapshot itself. */
  function RestoredPartOf(data: VmConfigurationData, load: LoadSnapshot, route: Route): Option<Body> {
    match route
    case LoggerRoute => PartOf(data, LoggerRoute)
    case MetricsRoute => PartOf(data, MetricsRoute)
    case SnapshotLoadRoute => Some(LoadBody(load))
    case _ => None
  }

  // ---------------------------------------------------------------- the requests of a plan

  lemma DriveMembers(drives: seq<Drive>, r: Request)
    ensures r in DriveRequests(drives)
            <==> r.body.DriveBody? && r.body.drive in drives && r.route == DriveRoute(r.body.drive.driveId)
  {
    if r.body.DriveBody? && r.body.drive in drives && r.route == DriveRoute(r.body.drive.driveId) {
      var i :| 0 <= i < |drives| && drives[i] == r.body.drive;
      assert DriveRequests(drives)[i] == r;
    }
  }

  lemma NetworkMembers(networks: seq<NetworkInterface>, r: Request)
    ensures r in NetworkRequests(networks)
            <==> r.body.NetworkBody? && r.body.network in networks && r.route == NetworkRoute(r.body.network.ifaceId)
  {
    if r.body.NetworkBody? && r.body.network in networks && r.route == NetworkRoute(r.body.network.ifaceId) {
      var i :| 0 <= i < |networks| && networks[i] == r.body.network;
      assert NetworkRequests(networks)[i] == r;
    }
  }

  lemma MachineMembers(data: VmConfigurationData, r: Request)
    ensures r in Machine(data)
            <==> (r.route.MachineConfigRoute? || r.route.CpuConfigRoute?) && PartOf(data, r.route) == Some(r.body)
  {
  }

  lemma PeripheralMembers(data: VmConfigurationData, r: Request)
    ensures r in Peripherals(data)
            <==> (r.route.BalloonRoute? || r.route.VsockRoute? || r.route.LoggerRoute?)
                 && PartOf(data, r.route) == Some(r.body)
  {
  }

  lemma ServiceMembers(data: VmConfigurationData, r: Request)
    ensures r in Services(data)
            <==> (r.route.MetricsRoute? || r.route.MmdsConfigRoute? || r.route.EntropyRoute?)
                 && PartOf(data, r.route) == Some(r.body)
  {
  }

  /** The plan of a new VM consists of exactly the requests that its configuration calls for. */
  lemma NewPlanIsExact(data: VmConfigurationData, r: Request)
    ensures r in NewPlan(data) <==> IsCalledFor(data, r)
  {
    DriveMembers(data.drives, r);
    NetworkMembers(data.networkInterfaces, r);
    MachineMembers(data, r);
    PeripheralMembers(data, r);
    ServiceMembers(data, r);
    assert r in NewPlan(data)
      <==> r in Boot(data) || r in DriveRequests(data.drives) || r in Machine(data)
           || r in NetworkRequests(data.networkInterfaces) || r in Peripherals(data) || r in Services(data)
           || r == START;
  }

  /** And that of a restored one of logger, metrics and the snapshot to load. */
  lemma RestorePlanIsExact(data: VmConfigurationData, load: LoadSnapshot, r: Request)
    ensures r in RestorePlan(data, load) <==> RestoredPartOf(data, load, r.route) == Some(r.body)
  {
  }

  // ---------------------------------------------------------------- reading back

  /** Under the route the server holds exactly this body, or nothing. */
  predicate Holds(store: map<Route, Body>, route: Route, part: Option<Body>) {
    match part
    case None => route !in store
    case Some(body) => route in store && store[route] == body
  }

  /** Where at most one body is called for, the server has it. */
  lemma StoreOfPart(requests: seq<Request>, route: Route, part: Option<Body>)
    requires forall r :: r in requests && r.route == route ==> part == Some(r.body)
    requires part.Some? ==> Put(route, part.value) in requests
    ensures Holds(Store(requests), route, part)
  {
    var k := StoreKeepsLast(requests, route);
    if part.Some? {
      assert Put(route, part.value).route == route;
    }
  }

  /** Every part of which there is at most one is held exactly if it is configured. */
  ghost predicate HoldsParts(store: map<Route, Body>, data: VmConfigurationData) {
    forall route: Route :: !IsListed(route) ==> Holds(store, route, PartOf(data, route))
  }

  /** Each drive and each network interface is held under its identifier. */
  ghost predicate HoldsLists(store: map<Route, Body>, data: VmConfigurationData) {
    && (forall d :: d in data.drives ==> Holds(store, DriveRoute(d.driveId), Some(DriveBody(d))))
    && (forall n :: n in data.networkInterfaces ==> Holds(store, NetworkRoute(n.ifaceId), Some(NetworkBody(n))))
  }

  /** Under any identifier there is a drive or an interface of the configuration with that identifier, or nothing. */
  ghost predicate HoldsNoOthers(store: map<Route, Body>, data: VmConfigurationData) {
    forall route :: route in store && IsListed(route) ==> IsCalledFor(data, Put(route, store[route]))
  }

  lemma ListsAreHeld(data: VmConfigurationData)
    requires IdsIdentify(data)
    ensures HoldsLists(Store(NewPlan(data)), data)
  {
    var plan := NewPlan(data);
    forall d | d in data.drives
      ensures Holds(Store(plan), DriveRoute(d.driveId), Some(DriveBody(d)))
    {
      forall r | r in plan && r.route == DriveRoute(d.driveId)
        ensures r.body == DriveBody(d)
      {
        NewPlanIsExact(data, r);
      }
      NewPlanIsExact(data, Put(DriveRoute(d.driveId), DriveBody(d)));
      StoreOfPart(plan, DriveRoute(d.driveId), Some(DriveBody(d)));
    }
    forall n | n in data.networkInterfaces
      ensures Holds(Store(plan), NetworkRoute(n.ifaceId), Some(NetworkBody(n)))
    {
      forall r | r in plan && r.route == NetworkRoute(n.ifaceId)
        ensures r.body == NetworkBody(n)
      {
        NewPlanIsExact(data, r);
      }
      NewPlanIsExact(data, Put(NetworkRoute(n.ifaceId), NetworkBody(n)));
      StoreOfPart(plan, NetworkRoute(n.ifaceId), Some(NetworkBody(n)));
    }
  }

  lemma HeldListsIdentify(store: map<Route, Body>, data: VmConfigurationData)
    requires HoldsLists(store, data)
    ensures IdsIdentify(data)
  {
    forall a, b | a in data.drives && b in data.drives && a.driveId == b.driveId
      ensures a == b
    {
      assert Holds(store, DriveRoute(a.driveId), Some(DriveBody(a)));
      assert Holds(store, DriveRoute(b.driveId), Some(DriveBody(b)));
    }
    forall a, b | a in data.networkInterfaces && b in data.networkInterfaces && a.ifaceId == b.ifaceId
      ensures a == b
    {
      assert Holds(store, NetworkRoute(a.ifaceId), Some(NetworkBody(a)));
      assert Holds(store, NetworkRoute(b.ifaceId), Some(NetworkBody(b)));
    }
  }

  /**
   * The configuration can be read back from a server that has accepted the whole plan: it holds every part that is
   * configured and no part that is not, all drives and interfaces exactly if identifiers identify them, and under no
   * identifier anything that is not configured.
   */
  lemma AcceptedPlanReadsBack(data: VmConfigurationData)
    ensures var store := Store(NewPlan(data));
            && HoldsParts(store, data) && HoldsNoOthers(store, data)
            && (HoldsLists(store, data) <==> IdsIdentify(data))
  {
    var plan := NewPlan(data);
    forall route: Route | !IsListed(route)
      ensures Holds(Store(plan), route, PartOf(data, route))
    {
      forall r | r in plan && r.route == route
        ensures PartOf(data, route) == Some(r.body)
      {
        NewPlanIsExact(data, r);
      }
      if PartOf(data, route).Some? {
        NewPlanIsExact(data, Put(route, PartOf(data, route).value));
      }
      StoreOfPart(plan, route, PartOf(data, route));
    }
    forall route | route in Store(plan) && IsListed(route)
      ensures IsCalledFor(data, Put(route, Store(plan)[route]))
    {
      var k := StoreKeepsLast(plan, route);
      NewPlanIsExact(data, plan[k]);
    }
    if IdsIdentify(data) {
      ListsAreHeld(data);
    }
    if HoldsLists(Store(plan), data) {
      HeldListsIdentify(Store(plan), data);
    }
  }

  /** The same for a restored VM, which names no drive and no interface. */
  lemma AcceptedRestoreReadsBack(data: VmConfigurationData, load: LoadSnapshot)
    ensures forall route: Route :: Holds(Store(RestorePlan(data, load)), route, RestoredPartOf(data, load, route))
  {
    var plan := RestorePlan(data, load);
    forall route: Route
      ensures Holds(Store(plan), route, RestoredPartOf(data, load, route))
    {
      forall r | r in plan && r.route == route
        ensures RestoredPartOf(data, load, route) == Some(r.body)
      {
        RestorePlanIsExact(data, load, r);
      }
      if RestoredPartOf(data, load, route).Some? {
        RestorePlanIsExact(data, load, Put(route, RestoredPartOf(data, load, route).value));
      }
      StoreOfPart(plan, route, RestoredPartOf(data, load, route));
    }
  }

  // ---------------------------------------------------------------- the order of a plan

  /** The stages of an initialisation, in the order in which the server has to see them. */
  function StageOf(route: Route): nat {
    match route
    case BootSourceRoute => 0
    case DriveRoute(_) => 1
    case MachineConfigRoute => 2
    case CpuConfigRoute => 3
    case NetworkRoute(_) => 4
    case BalloonRoute => 5
    case VsockRoute => 6
    case LoggerRoute => 7
    case MetricsRoute => 8
    case MmdsConfigRoute => 9
    case EntropyRoute => 10
    case ActionsRoute => 11
    case SnapshotLoadRoute => 12
  }

  ghost predicate InStages(plan: seq<Request>) {
    forall i, j :: 0 <= i < j < |plan| ==> StageOf(plan[i].route) <= StageOf(plan[j].route)
  }

  ghost predicate Between(plan: seq<Request>, low: nat, high: nat) {
    InStages(plan) && forall r :: r in plan ==> low <= StageOf(r.route) <= high
  }

  lemma StagesConcat(a: seq<Request>, b: seq<Request>, low: nat, middle: nat, next: nat, high: nat)
    requires Between(a, low, middle) && Between(b, next, high) && low <= middle <= next <= high
    ensures Between(a + b, low, high)
  {
    var plan := a + b;
    forall i, j | 0 <= i < j < |plan|
      ensures StageOf(plan[i].route) <= StageOf(plan[j].route)
    {
      assert plan[i] in (if i < |a| then a else b) && plan[j] in (if j < |a| then a else b);
    }
  }

  lemma PeripheralStages(data: VmConfigurationData)
    ensures Between(Peripherals(data), 5, 7)
  {
  }

  lemma ServiceStages(data: VmConfigurationData)
    ensures Between(Services(data), 8, 10)
  {
  }

  lemma ListStages(data: VmConfigurationData)
    ensures Between(DriveRequests(data.drives), 1, 1) && Between(NetworkRequests(data.networkInterfaces), 4, 4)
  {
  }

  lemma MachineStages(data: VmConfigurationData)
    ensures Between(Boot(data) + DriveRequests(data.drives) + Machine(data), 0, 3)
  {
    ListStages(data);
    StagesConcat(Boot(data), DriveRequests(data.drives), 0, 0, 1, 1);
    StagesConcat(Boot(data) + DriveRequests(data.drives), Machine(data), 0, 1, 2, 3);
  }

  lemma NetworkStages(data: VmConfigurationData)
    ensures Between(Boot(data) + DriveRequests(data.drives) + Machine(data) + NetworkRequests(data.networkInterfaces),
                    0, 4)
  {
    var networks := NetworkRequests(data.networkInterfaces);
    MachineStages(data);
    ListStages(data);
    StagesConcat(Boot(data) + DriveRequests(data.drives) + Machine(data), networks, 0, 3, 4, 4);
  }

  lemma SetupStages(data: VmConfigurationData)
    ensures Between(Setup(data), 0, 10)
  {
    var first := Boot(data) + DriveRequests(data.drives) + Machine(data) + NetworkRequests(data.networkInterfaces);
    NetworkStages(data);
    PeripheralStages(data);
    ServiceStages(data);
    StagesConcat(first, Peripherals(data), 0, 4, 5, 7);
    StagesConcat(first + Peripherals(data), Services(data), 0, 7, 8, 10);
  }

  /** The requests of a new VM come in the order of the stages. */
  lemma NewPlanGoesByStages(data: VmConfigurationData)
    ensures InStages(NewPlan(data))
  {
    SetupStages(data);
    StagesConcat(Setup(data), [START], 0, 10, 11, 11);
  }

  /** And those of a restored one. */
  lemma RestorePlanGoesByStages(data: VmConfigurationData, load: LoadSnapshot)
    ensures InStages(RestorePlan(data, load))
  {
  }

  /** What comes behind the drives. */
  function BehindDrives(data: VmConfigurationData): seq<Request> {
    Machine(data) + NetworkRequests(data.networkInterfaces) + Peripherals(data) + Services(data) + [START]
  }

  lemma PlanAroundDrives(data: VmConfigurationData)
    ensures NewPlan(data) == Boot(data) + DriveRequests(data.drives) + BehindDrives(data)
  {
  }

  /** The position of a drive's request in the plan. */
  lemma DriveAt(data: VmConfigurationData, i: nat)
    requires i < |data.drives|
    ensures 1 + i < |NewPlan(data)|
    ensures NewPlan(data)[1 + i] == Put(DriveRoute(data.drives[i].driveId), DriveBody(data.drives[i]))
  {
    PlanAroundDrives(data);
  }

  /** Drives are attached in the order of the configuration, so of drives with one identifier the last one counts. */
  lemma LastDriveCounts(data: VmConfigurationData, i: nat)
    requires i < |data.drives| && forall j :: i < j < |data.drives| ==> data.drives[j].driveId != data.drives[i].driveId
    ensures Holds(Store(NewPlan(data)), DriveRoute(data.drives[i].driveId), Some(DriveBody(data.drives[i])))
  {
    var plan, route := NewPlan(data), DriveRoute(data.drives[i].driveId);
    DriveAt(data, i);
    var k := StoreKeepsLast(plan, route);
    assert plan[1 + i] in plan && plan[1 + i].route == route;
    if k != 1 + i {
      DriveBehind(data, k);
    }
  }

  /** What goes to a drive's route stands at a drive's position. */
  lemma DriveBehind(data: VmConfigurationData, k: nat)
    requires 0 < k < |NewPlan(data)| && NewPlan(data)[k].route.DriveRoute?
    ensures k - 1 < |data.drives|
  {
    PlanAroundDrives(data);
    if k - 1 >= |data.drives| {
      LastPart(Boot(data), DriveRequests(data.drives), BehindDrives(data), k);
      NoDriveInRest(data, NewPlan(data)[k]);
    }
  }

  lemma LastPart(a: seq<Request>, b: seq<Request>, c: seq<Request>, k: nat)
    requires |a| + |b| <= k < |a + b + c|
    ensures (a + b + c)[k] in c
  {
    assert (a + b + c)[k] == c[k - |a| - |b|];
  }

  lemma NoDriveInRest(data: VmConfigurationData, r: Request)
    requires r in BehindDrives(data)
    ensures !r.route.DriveRoute?
  {
    MachineMembers(data, r);
    NetworkMembers(data.networkInterfaces, r);
    PeripheralMembers(data, r);
    ServiceMembers(data, r);
  }

  /** Network interfaces are attached in the order of the configuration as well. */
  lemma NetworkAt(data: VmConfigurationData, i: nat)
    requires i < |data.networkInterfaces|
    ensures var k := 1 + |data.drives| + (if data.cpuTemplate.Some? then 2 else 1) + i;
            && k < |NewPlan(data)|
            && NewPlan(data)[k] == Put(NetworkRoute(data.networkInterfaces[i].ifaceId),
                                       NetworkBody(data.networkInterfaces[i]))
  {
    var before := Boot(data) + DriveRequests(data.drives) + Machine(data);
    var rest := Peripherals(data) + Services(data) + [START];
    assert NewPlan(data) == before + NetworkRequests(data.networkInterfaces) + rest;
  }
}
