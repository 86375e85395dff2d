/** The agent lifecycle: its states, its events and its transition table. */
module Agent {
  import opened Types

  /** `Unrecognised` is any stored string outside the four lifecycle constants. */
  datatype AgentState = Idle | Assigned | Working | Reporting | Unrecognised(raw: string)

  datatype AgentEvent = TaskAssigned | WorkStarted | OutputReady | OutputDelivered | AgentFailed

  /** The four states are one ring; a failure leads back to idle from anywhere. */
  function ValidTransition(from: AgentState, event: AgentEvent): (next: Option<AgentState>) {
    match (from, event)
    case (_, AgentFailed) => Some(Idle)
    case (Idle, TaskAssigned) => Some(Assigned)
    case (Assigned, WorkStarted) => Some(Working)
    case (Working, OutputReady) => Some(Reporting)
    case (Reporting, OutputDelivered) => Some(Idle)
    case _ => None
  }

  /** The accepted triples: the ring, and the way back to idle. */
  lemma AcceptedTransitions(from: AgentState, event: AgentEvent, to: AgentState)
    ensures ValidTransition(from, event) == Some(to) <==>
              || (event == AgentFailed && to == Idle)
              || (from, event, to) == (Idle, TaskAssigned, Assigned)
              || (from, event, to) == (Assigned, WorkStarted, Working)
              || (from, event, to) == (Working, OutputReady, Reporting)
              || (from, event, to) == (Reporting, OutputDelivered, Idle)
  {
  }

  /** What ApplyEvent validates after its read: a parse error counts as invalid too. */
  function NextState(seen: AgentState, event: AgentEvent): Option<AgentState> {
    if seen.Unrecognised? then None else ValidTransition(seen, event)
  }

  predicate Busy(s: AgentState) {
    s != Idle
  }
}
