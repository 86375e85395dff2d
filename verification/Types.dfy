/** Vocabulary shared by every component: identifiers, tasks, time and results. */
module Types {
  type AgentId = string
  type TaskId = string
  type NodeId = string

  /** Nanoseconds on one monotone clock. */
  type Time = int

  /** A queued unit of work.  Priorities are ordered numbers; NaN is not modelled. */
  datatype Task = Task(id: TaskId, priority: real)

  datatype Option<+T> = None | Some(value: T)

  datatype Result<+T, +E> = Ok(value: T) | Err(error: E)

  /** The go `UnixMilli` view of a clock reading. */
  function Millis(t: Time): int {
    t / 1_000_000
  }
}
