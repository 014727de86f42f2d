/** Terms shared by the three revisions of the process record: the status
    names, the CPU and memory strings of a process with no sample, and the
    OS process handle. */
module ProcTerms {
  const Online: string := "online"
  const Stopped: string := "stopped"
  const Stopping: string := "stopping"

  /** The CPU and memory strings of a process with no sample. */
  const ZeroCpu: string := "0.0%"
  const ZeroMemory: string := "0.0MB"

  /** An `*os.Process`; only the pid it wraps is observable here. On Unix
      `os.FindProcess` always succeeds and yields `Handle(pid)`. */
  datatype Handle = Handle(pid: int)
}
