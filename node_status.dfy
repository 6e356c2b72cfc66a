/** What a behaviour-tree node reports to the executor on a tick. */
module NodeStatus {
  import opened PVTypes

  datatype NodeStatus = RUNNING | SUCCESS | FAILURE

  /** A tick either returns a status or throws (`BT::RuntimeError` or an
      exception escaping from the handle), which the executor treats as
      fatal. */
  datatype Tick = Status(status: NodeStatus) | Fatal(error: Error)

  /** The default of the `timeout` port, in milliseconds. */
  const kDefaultTimeoutMs: int := 1000
}
