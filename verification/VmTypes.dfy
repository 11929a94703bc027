/** What the VM layer passes around. */
module VmTypes {
  import opened Wrappers
  import opened Paths
  import opened Process

  datatype VmState = NotStarted | Running | Paused | VmExited | VmCrashed(status: ExitStatus)

  datatype VmError =
    | ProcessFailed(error: ProcessError)
    | ExpectedVmState(expected: VmState, actual: VmState)
    | VmExpectedExitedOrCrashed(actual: VmState)
    | ExpectedPausedOrRunning(actual: VmState)
    | SerdeFailed
    | IoFailed
    | ApiRespondedWithFault(status: nat)
    | ApiResponseCouldNotBeReceived
    | ApiResponseExpectedEmpty(body: string)
    | TimedOut
    | DisabledApiSocketIsUnsupported
    | MissingMapping

  datatype AccessiblePaths = AccessiblePaths(
    driveSockets: map<string, PathBuf>,
    metricsPath: Option<PathBuf>,
    logPath: Option<PathBuf>,
    vsockMultiplexerPath: Option<PathBuf>,
    vsockListenerPaths: seq<PathBuf>)
}
