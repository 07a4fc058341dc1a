/** The frozen transition tables of runs, commands and approvals. */
module StateMachines {

  datatype RunState =
    | Queued | Starting | Running | WaitingApproval | Blocked | Succeeded | Failed | Cancelled | TimedOut

  datatype CommandState =
    | CommandQueued | Delivered | Acknowledged | CommandSucceeded | CommandFailed | CommandExpired | CommandCancelled

  datatype ApprovalState = Pending | Approved | Rejected | Expired | ApprovalCancelled

  function RunTargets(s: RunState): set<RunState> {
    match s
    case Queued => {Starting, Cancelled, TimedOut}
    case Starting => {Running, Failed, Cancelled}
    case Running => {WaitingApproval, Blocked, Succeeded, Failed, Cancelled, TimedOut}
    case WaitingApproval => {Running, Cancelled, TimedOut, Failed}
    case Blocked => {Running, Cancelled, TimedOut, Failed}
    case Succeeded => {}
    case Failed => {}
    case Cancelled => {}
    case TimedOut => {}
  }

  function CommandTargets(s: CommandState): set<CommandState> {
    match s
    case CommandQueued => {Delivered, CommandExpired, CommandCancelled}
    case Delivered => {Acknowledged, CommandExpired, CommandCancelled}
    case Acknowledged => {CommandSucceeded, CommandFailed}
    case CommandSucceeded => {}
    case CommandFailed => {}
    case CommandExpired => {}
    case CommandCancelled => {}
  }

  function ApprovalTargets(s: ApprovalState): set<ApprovalState> {
    match s
    case Pending => {Approved, Rejected, Expired, ApprovalCancelled}
    case Approved => {}
    case Rejected => {}
    case Expired => {}
    case ApprovalCancelled => {}
  }

  predicate TerminalRun(s: RunState) { RunTargets(s) == {} }

  predicate StartedRun(s: RunState) { s == Starting || s == Running }

  /** The table of runs read backwards: what may come before each state, and where no move leads on. */
  lemma RunsComeFrom(s: RunState, t: RunState)
    ensures t in RunTargets(s) <==>
            match t
            case Queued => false
            case Starting => s == Queued
            case Running => s == Starting || s == WaitingApproval || s == Blocked
            case WaitingApproval => s == Running
            case Blocked => s == Running
            case Succeeded => s == Running
            case Failed => s == Starting || s == Running || s == WaitingApproval || s == Blocked
            case Cancelled => s == Queued || s == Starting || s == Running || s == WaitingApproval || s == Blocked
            case TimedOut => s == Queued || s == Running || s == WaitingApproval || s == Blocked
  {
  }
}
