/** What the two executors share. */
module ExecutorTypes {
  import opened Paths

  datatype VmmInstallation = VmmInstallation(firecrackerPath: string, jailerPath: string)

  datatype RenamerError = PathHasNoFilename | PathIsUnmapped(path: PathBuf) | OtherRenamerError

  datatype ExecutorError =
    | IoError
    | ShellCommandFailed
    | ExpectedResourceMissing(path: PathBuf)
    | ExpectedDirectoryParentMissing
    | JailRenamerFailed(error: RenamerError)
}
