/** The frozen catalogue of event types, as far as the ingest tells them apart. */
module Catalog {
  import opened StateMachines

  datatype StepVerb = StepStarted | StepCompleted | StepFailed

  datatype Kind =
    | RunBecame(state: RunState)
    | StepNoted(verb: StepVerb)
    | UsageReported
    | AgentNoted(name: string)
    | OtherKnown(name: string)
    | Uncatalogued(name: string)

  function StateName(s: RunState): string {
    match s
    case Queued => "queued"
    case Starting => "starting"
    case Running => "running"
    case WaitingApproval => "waiting_approval"
    case Blocked => "blocked"
    case Succeeded => "succeeded"
    case Failed => "failed"
    case Cancelled => "cancelled"
    case TimedOut => "timed_out"
  }

  /** The event type a producer sends. */
  function NameOf(kind: Kind): string {
    match kind
    case RunBecame(state) => "run." + StateName(state)
    case StepNoted(StepStarted) => "run.step.started"
    case StepNoted(StepCompleted) => "run.step.completed"
    case StepNoted(StepFailed) => "run.step.failed"
    case UsageReported => "usage.recorded"
    case AgentNoted(name) => name
    case OtherKnown(name) => name
    case Uncatalogued(name) => name
  }
}
