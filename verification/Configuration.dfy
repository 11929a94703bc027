/**
 The configuration of a VM.  Fields that carry a path, an identifier or a resume flag are modelled one by one; what the
 program only passes on (rate limiters, cache types, machine sizes) is one opaque `Settings` text per device.
 */
module Configuration {
  import opened Wrappers
  import opened Paths

  type Settings = string

  datatype BootSource = BootSource(kernelImagePath: PathBuf, bootArgs: Option<string>, initrdPath: Option<PathBuf>)

  datatype Drive = Drive(
    driveId: string, isRootDevice: bool, pathOnHost: Option<PathBuf>, socket: Option<PathBuf>, settings: Settings)

  datatype NetworkInterface = NetworkInterface(ifaceId: string, settings: Settings)

  datatype VsockDevice = VsockDevice(guestCid: nat, udsPath: PathBuf)

  datatype LoggerSystem = LoggerSystem(logPath: Option<PathBuf>, settings: Settings)

  datatype MetricsSystem = MetricsSystem(metricsPath: PathBuf)

  datatype VmConfigurationData = VmConfigurationData(
    bootSource: BootSource,
    drives: seq<Drive>,
    machineConfiguration: Settings,
    cpuTemplate: Option<Settings>,
    networkInterfaces: seq<NetworkInterface>,
    balloonDevice: Option<Settings>,
    vsockDevice: Option<VsockDevice>,
    loggerSystem: Option<LoggerSystem>,
    metricsSystem: Option<MetricsSystem>,
    mmdsConfiguration: Option<Settings>,
    entropyDevice: Option<Settings>)

  datatype MemoryBackendType = FileBackend | UffdBackend

  datatype LoadSnapshot = LoadSnapshot(
    enableDiffSnapshots: Option<bool>, backendType: MemoryBackendType, backendPath: PathBuf, snapshotPath: PathBuf,
    resumeVm: Option<bool>)

  datatype InitMethod = ViaApiCalls | ViaJsonConfiguration(path: PathBuf)

  datatype VmConfiguration =
    | New(initMethod: InitMethod, data: VmConfigurationData)
    | RestoredFromSnapshot(loadSnapshot: LoadSnapshot, data: VmConfigurationData)
}
