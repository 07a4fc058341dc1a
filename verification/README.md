# Agent Control V1, modelled and proved

This project models the control plane of Agent Control V1 and proves what its services promise:

* **Governed commands.** An operator submits a command for a run; the policy engine and the budget
  gate refuse it, hold it behind an approval, or release it. Approvals are decided by a versioned
  compare-and-set. The agent polls, acknowledges and reports. `Control` states what each service
  call does to the tables, `ControlPlane.Service` carries it out in place, `ControlSafety` proves the
  approval gate over every interleaving, `Calls` what each call does, `Delivery` the FIFO hand-out,
  `Submissions` the outcome, `Notices` what outbox, audit log and time stamps say of it.
* **Ingest.** An append-only, sequenced, idempotent journal drives runs, steps, usage, budget alerts
  and the outbox (`Runs`, `Ingest`, with their laws in `RunLaws`, `IngestLaws`, `JournalSafety`), and a
  run's timeline is read from the journal page by page (`Timeline`).
* **Outbox relay.** Several relays drain the outbox in locked batches, with failing publications and
  crashes between publication and commit (`Relay`).
* **One platform.** `Platform` runs ingestion and governance side by side on one outbox; `Broadcast` follows
  every row of it to the channel.
* **Money and paging.** Prices and rounding (`Pricing`), usage totals (`Usage`), keyset pages over any
  ordered query (`Keyset`), what they show as rows come and go (`Arrivals`), their cursors (`Cursor`),
  budgets (`Budgets`) and alerts (`Alerts`).
* **Two algorithms.** Redaction of JSON-like values (`Redaction`) and the geometry of the hierarchy
  view (`Layout`).

`dafny verify dfyconfig.toml` checks everything. Services that change state are classes whose methods
are proved equal to functions on values; the laws are lemmas about those functions.
Identifiers and clock readings are drawn by the environment and enter as parameters. Each service call
is one atomic step, except the approval decision, whose guard and whose conditional update are separate
steps so that decisions race. Instants are integers in microseconds, costs integers in units of 1e-8.

## What the proofs found

* **An approved command can still be cancelled.** An expiry that passed its guard and settles after an
  approval has won updates no approval row, yet cancels the queued command
  (`apps/api/agent_control/control/approvals.py:240-260`): the approval stays approved, its command is
  cancelled. The single-decision promise holds for the approval row only.
  `ControlSafety.ApprovedYetCancelled` builds the schedule for every held command and
  `ControlSafety.LateExpiryCancels` says exactly when it happens.
* **A reported verdict can be overwritten.** An agent that reports once more the verdict its command
  already has passes the idempotent transition and replaces the stored report, with another outbox row
  (`apps/api/agent_control/control/commands.py:510-536`). `ControlSafety.FirstReportIsLost` is such a run from
  empty tables; `ControlSafety.TerminalStep` shows that this is the only way a terminal command changes, and
  exactly when it does.
* **Reported token counts are not checked for sign.** A report with negative counts is accepted, stored at
  a negative cost and can reopen an exceeded budget (`IngestLaws.NegativeReportIsStored`).
  `Budgets.OnlyNegativeCostsLoosen`: a record loosens no gate in any situation exactly when its cost is not
  negative; `Budgets.NegativeUsageLoosens` gives the exact condition for one blocking budget.
* **A row can be given up.** The relay's own comment says a failing publication never loses a row, but
  after eight failures the row is marked failed and is not tried again. `Relay.ARowIsGivenUp` is the run
  that does it, `Relay.GivenUpExactly` the commit that does it, and `Relay.FailedMeansEightFailures` says
  of every run that a row is failed exactly when its publication failed in eight committed passes.
* **A released command is announced without its identifier.** The `command.queued` row of a submission
  is built before the identifier is drawn (`apps/api/agent_control/control/commands.py:231-246`):
  `Submissions.OutcomeIsRecorded` states the row. `Platform.QueuedIsNamedExactly`: in every reachable state
  the service's own rows of the outbox name a command as queued exactly when it was held and has been released.
* **A producer may use the service's event types.** The catalogue is one for both
  (`apps/api/integrations/events_catalog.py:11-56`), and ingest writes a row of the very type it is sent
  (`apps/api/agent_control/ingest/service.py:212-222`): the outbox can hold a `command.queued` where no command
  exists (`Platform.QueuedWithoutACommand`). `Platform.NumberedIsFromProducer`: heartbeats aside, a row repeats a
  producer's event exactly when it has a sequence, and by `Outbox.UnnumberedTells` the unnumbered rows of those
  types are the service's. What is proved of announced cost, budget notices and queue notices is about these.
* **A timeline belongs to a run, not to its agent.** It selects journal rows by tenant and run alone, so
  another agent of the tenant may name the run, and its rows can sort before a reader's cursor.
  `Timeline.SecondVoiceIsMissed` is such a schedule on a run that exists, with two agents and one row a page;
  `Timeline.TimelineIsComplete` is the exact condition, and with one reporting agent nothing is missed
  (`Timeline.OneVoiceMissesNothing`).
* **Source events are shared by a tenant's agents.** Usage is idempotent per tenant and event identifier,
  the journal per agent and event identifier: two agents of one tenant that use the same identifier are
  both journaled and have one usage record, the first (`IngestLaws.SharedEventIsRecordedOnce`, and
  `RunLaws.UsageIsFirstReports` for every journal).
* **Rounding is half up.** The comment on the cost function promises banker's rounding
  (`apps/api/agent_control/operations/pricing.py:82-83`); the code rounds ties away from zero. The two differ
  exactly on ties whose neighbour away from zero is odd (`Pricing.RoundingsAgreeExactly`), which a rate of six
  decimals meets with one token (`Pricing.RoundingsCanDiffer`) and no shipped rate ever does
  (`Pricing.ShippedPricesAreBoth`).

## Model

| member | source | states |
|---|---|---|
| ControlSafety.ApprovalGate | apps/api/agent_control/control/commands.py:199-275 | in every state of every run, an approval's state fixes what its command may be, and whatever was delivered was released earlier, before its deadline, with its approval approved |
| ControlSafety.DeliveredOnceSettledOnce | apps/api/agent_control/control/approvals.py:123-167 | over any run no command is handed out twice and no approval settled twice; pending exactly at version 1 |
| ControlSafety.DecisionsAreFinal | apps/api/agent_control/control/approvals.py:142-167 | a settled approval keeps its whole row, whatever follows |
| ControlSafety.LosersChangeNothing | apps/api/agent_control/control/approvals.py:142-167 | a decision takes effect exactly when it finds its approval pending and was made at version 1, else every table is unchanged |
| ControlSafety.SecondDecisionLoses | apps/api/agent_control/control/approvals.py:123-167 | after a settlement, at any later point of any run, every guard refuses and every decision still under way changes nothing |
| ControlSafety.LateExpiryCancels | apps/api/agent_control/control/approvals.py:240-260 | a late expiry touches the command and not the approval exactly when the approval is approved and the command still queued |
| ControlSafety.ApprovedYetCancelled | apps/api/agent_control/control/approvals.py:114-140 | for every held command there is a schedule that ends with the approval approved and the released command cancelled |
| ControlSafety.StepsFollowTheTables | apps/api/integrations/state_machines.py:79-106 | every step moves every command and approval along its frozen table, one version a move |
| ControlSafety.TerminalStep | apps/api/agent_control/control/commands.py:510-536 | a terminal command changes in one way only: the same verdict reported again by its agent overwrites the stored report |
| ControlSafety.ReportIsOverwritten | apps/api/agent_control/control/commands.py:510-536 | every delivered command can be reported on twice: the second report replaces the first, with a row of its own |
| ControlSafety.FirstReportIsLost | apps/api/agent_control/control/commands.py:510-536 | from empty tables, a run of five calls that reaches a succeeded command and loses its first report |
| ControlSafety.TerminalCommandsStay | apps/api/integrations/state_machines.py:79-91 | over any run a terminal command keeps every column but its report |
| ControlSafety.StepKeepsInv | apps/api/agent_control/control/commands.py:105-125 | every kind of step keeps the invariant that relates the two tables, the clock and the histories |
| ControlSafety.LinkedIs | apps/api/agent_control/control/approvals.py:107-111 | the approval link finds the one command it holds |
| Calls.GuardExactly | apps/api/agent_control/control/approvals.py:114-138 | a decision gets under way exactly on a pending approval of the tenant: as itself before the deadline, as an expiry from the deadline on |
| Calls.DecisionTakesEffect | apps/api/agent_control/control/approvals.py:140-223 | a decision that finds its approval pending at version 1 gives it the verdict, the time and the user, and releases or cancels the held command if it is still queued; no other row changes |
| Calls.ExpiryTakesEffect | apps/api/agent_control/control/approvals.py:240-260 | an expiry that finds its approval pending expires it and cancels the held command if it is still queued; no other row changes |
| Calls.CancelExactly | apps/api/agent_control/control/commands.py:363-376 | a cancellation takes exactly on the tenant's queued, delivered or already cancelled command; its whole effect |
| Calls.AckExactly | apps/api/agent_control/control/commands.py:471-507 | an acknowledgement takes exactly on the agent's own delivered or already acknowledged command; its whole effect |
| Calls.ReportExactly | apps/api/agent_control/control/commands.py:510-536 | a verdict takes exactly on the agent's own acknowledged command, or as a repetition; every refusal changes nothing |
| Calls.SuccessIsStored | apps/api/agent_control/control/commands.py:510-536 | what a success stores and announces |
| Calls.FailureIsStored | apps/api/agent_control/control/commands.py:510-536 | what a failure stores, its error included, and announces |
| Calls.PollRewrites | apps/api/agent_control/control/commands.py:382-436 | a poll delivers what it hands out, may expire what is overdue in the agent's queue, and changes no other command |
| Calls.OverdueExpire | apps/api/agent_control/control/commands.py:413-436 | an overdue command is passed over only when the limit is reached and every one handed out is older |
| Delivery.PollIsFifo | apps/api/agent_control/control/commands.py:399-436 | a poll returns exactly the first unexpired commands of the queue, up to the limit, and leaves the later ones in order |
| Delivery.PollHandsOutTheOldest | apps/api/agent_control/control/commands.py:399-436 | a poll hands out ready commands only, and leaves a ready one behind only when the limit is reached and everything handed out is older |
| Delivery.PollsConcatenate | apps/api/agent_control/control/commands.py:439-468 | successive polls at one instant hand out the whole sorted live queue without gap or repetition |
| Delivery.WalkPointwise | apps/api/agent_control/control/commands.py:382-436 | a poll expires or delivers each row it walks over, once, and touches no other row and no approval |
| Submissions.SubmissionIsJoin | apps/api/agent_control/control/commands.py:149-199 | a new submission is exactly as strict as the strictest of the winning policy and the exceeded covering budgets |
| Submissions.OutcomeIsRecorded | apps/api/agent_control/control/commands.py:199-275 | refused exactly when no command was created, held exactly when an approval was; for each outcome the command, the approval and the very outbox row appended, if any |
| Submissions.SubmissionByCases | apps/api/agent_control/control/commands.py:137-199 | which of the six answers a submission gets, by run, key, winning policy and gate |
| Submissions.SubmissionFillsTheRow | apps/api/agent_control/control/commands.py:201-293 | every column of the command and the approval a submission stores, lifetimes included, and its audit lines |
| Notices.DecisionsAreTold | apps/api/agent_control/control/approvals.py:169-223 | in every reachable state a request, an approval and a rejection are each announced exactly once, exactly when the approval is there, approved, rejected, and the decision is audited with the status it left |
| Notices.CommandsAreTold | apps/api/agent_control/control/commands.py:77-125 | in every reachable state the outbox tells of a command exactly what its row says, deliveries, expiries and releases exactly once, and its submission is audited once with its effect |
| Notices.RowsAreAddressed | apps/api/agent_control/control/commands.py:77-102 | every row goes to the tenant of its command or approval, on the topic of the command's run or of the approvals |
| Notices.AnonymousAreCounted | apps/api/agent_control/control/commands.py:231-246 | as many queue rows without an identifier as commands released at their submission |
| Notices.StampsTell | apps/api/agent_control/control/commands.py:105-125 | in every reachable state the time stamps of a command are set exactly by the states it went through, in order; its report says how it ended; it expired only after its deadline |
| Notices.NamedExactlyWhenReleasedLater | apps/api/agent_control/control/commands.py:231-246 | in every reachable state the rows of the control services name a command as queued exactly when it was held by an approval and has been released |
| Notices.StepWrites | apps/api/agent_control/control/commands.py:77-97 | every call appends to the outbox, and only rows about commands and approvals |
| Platform.OneOutbox | apps/api/agent_control/ingest/service.py:206-224 | with ingestion and governance interleaved on one outbox, it holds exactly what the journal publishes and exactly what the control services wrote, each in order, and announces the cost the usage table sums to |
| Platform.QueuedIsNamedExactly | apps/api/agent_control/control/commands.py:231-246 | among the unnumbered rows of the shared outbox, a command is named as queued exactly when it was held and has been released |
| Platform.NumberedIsFromProducer | apps/api/agent_control/ingest/service.py:212-222 | heartbeats aside, a row of the shared outbox repeats a journaled producer's event exactly when it has a sequence |
| Platform.QueuedWithoutACommand | apps/api/integrations/events_catalog.py:11-56 | a reachable state without commands whose outbox holds a row of type command.queued |
| Outbox.UnnumberedTells | apps/api/agent_control/operations/outbox.py:26-52 | of the types of usage, budgets and commands, the rows without a sequence are the service's own, each of its own fact |
| Outbox.UnnumberedTellsToo | apps/api/agent_control/operations/outbox.py:26-52 | the same of the types of approvals and alerts |
| Outbox.RunEventsNameStates | apps/api/integrations/events_catalog.py:11-56 | the event types of runs name the state they announce |
| Outbox.ReportsAreNamed | apps/api/integrations/events_catalog.py:11-56 | the event types of steps and of usage |
| Submissions.SubmissionNeverLoosens | apps/api/agent_control/operations/budgets.py:228-265 | more budgets and more consumption of non-negative cost never soften the outcome |
| Submissions.ResubmitIsSilent | apps/api/agent_control/control/commands.py:152-160 | submitting a key again after any run answers with the same command and changes nothing |
| ControlPlane.Service.SubmitCommand | apps/api/agent_control/control/commands.py:137-298 | the service's effect on all tables is the reference submission, and the tables stay sound |
| ControlPlane.Service.SettleDecision | apps/api/agent_control/control/approvals.py:140-223 | the conditional update with its effects is the reference decision |
| ControlPlane.Service.DecideApproval | apps/api/agent_control/control/approvals.py:114-223 | an undisturbed decision: guard, then update or expiry |
| ControlPlane.Service.ExpireApproval | apps/api/agent_control/control/approvals.py:240-260 | the expiry's conditional update and its unconditional cancellation |
| ControlPlane.Service.Transition | apps/api/agent_control/control/commands.py:105-125 | a command moves along its table with version and milestone, or the call refuses |
| ControlPlane.Service.CancelCommand | apps/api/agent_control/control/commands.py:363-376 | cancellation is the reference one, refusals included |
| ControlPlane.Service.AckCommand | apps/api/agent_control/control/commands.py:471-507 | acknowledgement within the agent's own scope |
| ControlPlane.Service.ReportResult | apps/api/agent_control/control/commands.py:510-536 | result reporting, with invalid, foreign and refused reports changing nothing |
| ControlPlane.Service.ExpireIfNeeded | apps/api/agent_control/control/commands.py:382-396 | a queued or delivered command past its deadline expires, any other is left alone |
| ControlPlane.Service.FetchAndDeliver | apps/api/agent_control/control/commands.py:413-436 | the delivery loop is the reference walk over the candidates |
| ControlPlane.Service.PollCommands | apps/api/agent_control/control/commands.py:439-468 | one poll is the reference poll of the sorted queue |
| Policies.WinnerIsUnique | apps/api/agent_control/control/policies.py:90-140 | a rule decides exactly when no other applicable rule precedes it |
| Policies.PrecedenceIsDocumented | apps/api/agent_control/control/policies.py:90-99 | one rule precedes another by priority, then narrower scope, then exact action over wildcard, then seniority and identifier |
| Policies.BeatsIsTotal | apps/api/agent_control/control/policies.py:90-99 | the resolution key orders rules strictly and totally |
| Policies.OneMoreRule | apps/api/agent_control/control/policies.py:102-140 | one more rule decides by itself exactly when it applies and precedes all others, else nothing changes |
| Policies.OnlyRelevantRulesDecide | apps/api/agent_control/control/policies.py:76-139 | a rule decides only if it is active, of the tenant, on the command or on any, and scoped to the installation, the agent or the project; the fallback decides exactly when there is none |
| Policies.IrrelevantRulesDoNotCount | apps/api/agent_control/control/policies.py:76-130 | removing an inactive, foreign, differently aimed or out-of-scope rule changes no decision |
| Policies.SortedHeadDecides | apps/api/agent_control/control/policies.py:102-140 | any two sorted listings of the applicable rules are the same listing, and its head decides |
| Policies.EvaluatePolicy | apps/api/agent_control/control/policies.py:102-140 | filter, sort and take the first compute the reference decision |
| Budgets.ApplicableBudgets | apps/api/agent_control/operations/budgets.py:90-112 | exactly the covering budgets, in row order |
| Budgets.BudgetGate | apps/api/agent_control/operations/budgets.py:228-265 | the early-returning loop computes the strictest demand whatever the row order, and names a budget that asks for it |
| Budgets.GateIsStrictestDemand | apps/api/agent_control/operations/budgets.py:228-265 | the gate is the least behaviour meeting every exceeded covering budget |
| Budgets.GateWrittenOut | apps/api/agent_control/operations/budgets.py:90-132 | the gate blocks, or requires approval, exactly by an active budget of the tenant, the agent or the project whose records of the window add up to its positive limit |
| Budgets.ConsumedIsCounted | apps/api/agent_control/operations/budgets.py:115-132 | what a budget counts: the records of its tenant, agent or project from the start of its window on |
| Budgets.MoreBudgetsNeverLoosen | apps/api/agent_control/operations/budgets.py:228-265 | the gate is monotone in the set of budgets |
| Budgets.MoreUsageNeverLoosens | apps/api/agent_control/operations/budgets.py:115-132 | the gate is monotone in consumption of non-negative cost |
| Budgets.NegativeUsageLoosens | apps/api/agent_control/operations/budgets.py:228-265 | for one blocking budget that is exceeded, a further record reopens the gate exactly when it brings the total under the limit |
| Budgets.OnlyNegativeCostsLoosen | apps/api/agent_control/operations/budgets.py:228-265 | a record loosens no gate, whatever the budgets, the subject and the other records, exactly when its cost is not negative |
| IngestLaws.NegativeReportIsStored | apps/api/agent_control/operations/usage.py:80-90 | a new report of negative token counts is accepted and stored at a negative cost, which loosens some gate |
| Budgets.PeriodStartIsLatest | apps/api/agent_control/operations/budgets.py:71-81 | a window starts at the last midnight, Monday midnight or first of the month not after now; the total period has no start |
| Budgets.ReachesIsPercentage | apps/api/agent_control/operations/budgets.py:115-132 | the integer comparison used is the comparison of the consumed percentage with the threshold, zero for a budget without a positive limit |
| Budgets.ThresholdsUsed | apps/api/agent_control/operations/budgets.py:84-87 | the thresholds used are the valid ones if there are any, else the defaults; ascending, each once |
| Alerts.AlertsAreConserved | infra/migrations/versions/0015_costs_budgets_alerts_audit.py:158-167 | over any run from a sound desk, alerts opened minus the resolutions the run performs is one or zero, one exactly when an alert is active, and budget announcements never exceed one plus resolutions |
| Alerts.AlertsBalance | apps/api/agent_control/operations/alerts.py:53-116 | the same from an empty desk, with every budget alert announced exactly once, as exceeded from a hundred percent on and as a threshold below |
| Alerts.AlertsAreSpokenOf | apps/api/agent_control/operations/alerts.py:66-261 | over any run each alert is announced to its tenant once when opened, once if acknowledged, once exactly when resolved; its version counts the changes |
| Alerts.DeskCallsExactly | apps/api/agent_control/operations/alerts.py:196-261 | acknowledging takes exactly on the tenant's open alert, resolving exactly on an unresolved one; every other call changes nothing |
| Alerts.EvaluationSettles | apps/api/agent_control/operations/budgets.py:144-209 | after an evaluation every reached threshold of every covering budget has an active alert; it changes nothing exactly when that held before |
| Alerts.EvaluatingAgainIsSilent | apps/api/agent_control/operations/budgets.py:144-209 | evaluating twice is evaluating once |
| Alerts.AlertDesk.FindActive | apps/api/agent_control/operations/alerts.py:53-63 | finds an active alert of the condition exactly when there is one |
| Alerts.AlertDesk.Open | apps/api/agent_control/operations/alerts.py:66-116 | opens and announces an alert exactly when none is active |
| Alerts.AlertDesk.AcknowledgeAlert | apps/api/agent_control/operations/alerts.py:196-229 | the acknowledgement, refused on a resolved alert |
| Alerts.AlertDesk.ResolveAlert | apps/api/agent_control/operations/alerts.py:232-261 | the resolution, silent when repeated |
| Alerts.AlertDesk.EvaluateBudgets | apps/api/agent_control/operations/budgets.py:144-209 | the evaluation loop over budgets and thresholds is the reference evaluation |
| RunLaws.RunsWalkTheTable | apps/api/agent_control/runs/service.py:91-121 | a run's history is a walk in the run table ending in its state, its version counts the states, and it is finished exactly when terminal |
| RunLaws.RunsEvolve | apps/api/agent_control/runs/service.py:162-209 | any journaled event moves a known run along the table or not at all; the state, version and first results of a terminal run stay |
| RunLaws.RunAdvances | apps/api/agent_control/runs/service.py:91-121 | an announcement the table allows takes place: state, version, heartbeat, start, finish and first results after it |
| RunLaws.RunRefuses | apps/api/agent_control/runs/service.py:91-121 | a state neither current nor allowed changes nothing |
| RunLaws.RunBeats | apps/api/agent_control/runs/service.py:91-106 | the state a run already has moves its heartbeat, and a late first result if it is terminal |
| RunLaws.RunIsBorn | apps/api/agent_control/runs/service.py:212-271 | every column of a run at its first event; it is a retry exactly of a known run of the same agent and tenant, one attempt later |
| RunLaws.StrangersAreIgnored | apps/api/agent_control/runs/service.py:149-209 | an event on another agent's or tenant's run, or on none, changes no table |
| StateMachines.RunsComeFrom | apps/api/integrations/state_machines.py:53-77 | the run table read backwards, state by state |
| RunLaws.StepIsWritten | apps/api/agent_control/runs/service.py:274-353 | a step event writes one step, under the number sent or one past the highest of its run, opened or closed by its own verb, and nothing else but the heartbeat |
| RunLaws.TerminalRunStep | apps/api/agent_control/runs/service.py:91-121 | which columns of a terminal run an event changes and exactly when: the heartbeat when its state is announced again or a step is reported, a missing result when its state is announced again |
| RunLaws.TerminalRunsStay | apps/api/agent_control/runs/service.py:91-121 | over any further events a terminal run keeps every column but its heartbeat and the results it lacked |
| RunLaws.AttemptIsChainLength | apps/api/agent_control/runs/service.py:212-259 | retry chains end: as many runs as the attempt says, none twice, one agent and tenant |
| RunLaws.RetriesComeLater | apps/api/agent_control/runs/service.py:225-233 | a retry was born later in the journal than the run it retries |
| RunLaws.ReplayOk | apps/api/agent_control/runs/service.py:274-353 | after any journal runs and steps are well formed: steps belong to known runs, closed exactly when finished, timed exactly when both ends are known |
| RunLaws.AgentsAreIsolated | apps/api/agent_control/runs/service.py:149-209 | events of other agents never change an agent's runs or steps |
| IngestLaws.SharedEventIsRecordedOnce | apps/api/agent_control/operations/usage.py:71-78 | two agents of one tenant under one event identifier are both journaled, and the first alone is recorded |
| RunLaws.UsageIsFirstReports | apps/api/agent_control/operations/usage.py:71-110 | the usage table holds exactly the first report of each source event in its tenant, priced by the server |
| RunLaws.FirstReportIsStored | apps/api/agent_control/operations/usage.py:71-110 | the one row of a source event, column by column from the payload of its first report, priced by its own input and output at the rate of its own provider, model and version |
| Runs.RunStore.TransitionRun | apps/api/agent_control/runs/service.py:91-121 | the authoritative transition, or a conflict that changes nothing |
| Runs.RunStore.CreateRun | apps/api/agent_control/runs/service.py:212-259 | birth at the first event seen, with its retry link and attempt |
| Runs.RunStore.ApplyTerminalResult | apps/api/agent_control/runs/service.py:262-271 | results are written only when terminal, once each, clipped |
| Runs.RunStore.ProjectRunEvent | apps/api/agent_control/runs/service.py:162-209 | a run event is the reference projection, foreign identifiers ignored |
| Runs.RunStore.ProjectStepEvent | apps/api/agent_control/runs/service.py:274-353 | a step event is the reference projection: numbering, opening, closing, duration |
| Runs.RunStore.LastStep | apps/api/agent_control/runs/service.py:299-307 | the highest number in use for the run, none exactly when it has no step |
| Runs.RunStore.RecordUsage | apps/api/agent_control/operations/usage.py:48-127 | a source event is recorded once per tenant |
| IngestLaws.BatchIsFold | apps/api/agent_control/ingest/service.py:160-243 | one batch does what its events do alone, in stable sequence order |
| IngestLaws.BatchOrder | apps/api/agent_control/ingest/service.py:177-178 | a batch is taken by rising sequence, events of one sequence in the order sent |
| IngestLaws.CuttingIsFree | apps/api/agent_control/ingest/service.py:160-243 | any two ways of cutting an ordered stream into batches end in the same state |
| IngestLaws.SendingOrderIsIrrelevant | apps/api/agent_control/ingest/service.py:177-178 | a permutation of a batch with distinct sequences has the same effect and answer |
| IngestLaws.BatchIsAccountedFor | apps/api/agent_control/ingest/service.py:172-243 | accepted, duplicates and rejected add up to the batch; the accepted are the rows journaled |
| IngestLaws.EventIsJudged | apps/api/agent_control/ingest/service.py:177-192 | duplicate, accepted or rejected, each exactly when; only acceptance changes anything |
| IngestLaws.AcceptedIsJournaled | apps/api/agent_control/ingest/service.py:194-224 | the journal row, the sequence and the first outbox row of an accepted event, with its topic |
| IngestLaws.NewUsageIsAnnounced | apps/api/agent_control/operations/usage.py:111-127 | a first report is stored and its cost announced right after it, on its run or else on its agent |
| IngestLaws.NewUsageIsEvaluated | apps/api/agent_control/ingest/service.py:89-123 | after a first report every covering active budget has an active alert for each threshold reached with it, at the event's own time |
| IngestLaws.BatchIsRefused | apps/api/agent_control/ingest/service.py:137-158 | a batch is refused whole exactly when it is too large or holds another agent's key, and then changes nothing |
| IngestLaws.HeartbeatIsHeard | apps/api/agent_control/ingest/service.py:246-309 | which answer a heartbeat gets, and every column it moves, late ones included |
| JournalSafety.JournalIsTheTruth | apps/api/agent_control/ingest/service.py:177-236 | in every reachable state the derived tables are the replay of the journal, sequences rise per agent below its last one with no identifier twice, and the ingest's outbox rows are exactly what that journal publishes, in order |
| JournalSafety.AnnouncedIsRecorded | apps/api/agent_control/operations/usage.py:111-127 | over any run, the cost announced by the service's own usage rows, those without a sequence, is the cost the usage table sums to |
| JournalSafety.ReplayIsSilent | apps/api/agent_control/ingest/service.py:160-192 | the same envelopes sent again at any later point, whatever identifiers are drawn, are accepted nowhere and change nothing |
| JournalSafety.UsageIdsDiffer | apps/api/agent_control/operations/usage.py:242-272 | in every reachable state usage rows have identifiers of their own, as their pages need |
| JournalSafety.RunGrows | apps/api/agent_control/ingest/service.py:246-309 | the journal is append-only and no last sequence decreases, heartbeats included |
| JournalSafety.OthersLeaveRunsAlone | apps/api/agent_control/runs/service.py:149-159 | no run of other agents' batches, heartbeats or operator actions changes an agent's runs or steps |
| JournalSafety.BudgetAlertsStayConserved | apps/api/agent_control/ingest/service.py:89-123 | at most one active alert a condition, and one announcement of the service's own a budget alert, while ingestion, resolutions and budget changes interleave |
| Ingest.Service.IngestEvents | apps/api/agent_control/ingest/service.py:137-243 | the batch service, refusals included, is the reference ingest |
| Ingest.Service.TakeBatch | apps/api/agent_control/ingest/service.py:172-236 | the loop with its preloaded identifiers, running sequence and counters equals admitting event by event |
| Ingest.Service.Journal | apps/api/agent_control/ingest/service.py:195-233 | journal row, outbox row and projections of one accepted event |
| Ingest.Service.ProjectUsageOf | apps/api/agent_control/ingest/service.py:89-123 | new usage is recorded, announced and held against the budgets in the same step |
| Ingest.Service.HearBeat | apps/api/agent_control/ingest/service.py:246-309 | the heartbeat, whose stale form refreshes liveness alone |
| Relay.NothingIsLost | apps/api/agent_control/realtime.py:267-309 | under any interleaving of relays, failures and crashes the relay invariant holds, settled rows stay as they are, the channel only grows |
| Relay.EveryRowIsAccountedFor | apps/api/agent_control/realtime.py:267-309 | every row ever inserted is pending below eight attempts, failed at eight, or published below eight and then tenantless or on the channel |
| Relay.FailedMeansEightFailures | apps/api/agent_control/realtime.py:298-305 | over any run a row's attempts are the committed passes in which its publication failed, and it is failed exactly when they are eight |
| Relay.GivenUpExactly | apps/api/agent_control/realtime.py:298-305 | a step gives a row up exactly when it is a commit whose publication of that row failed for the eighth time |
| Relay.ARowIsGivenUp | apps/api/agent_control/realtime.py:267-309 | eight refused passes end with the row failed and nothing on the channel |
| Broadcast.WaitsDeliveredOrGivenUp | apps/api/agent_control/realtime.py:267-309 | whatever relays do, every outbox row with a tenant waits, is on the channel, or was refused in eight committed passes |
| Broadcast.JournaledIsBroadcast | apps/api/agent_control/ingest/service.py:206-224 | in every reachable state every journaled event has an outbox row of its own, in journal order, and that row waits, is on the channel or was given up |
| Broadcast.GovernedIsBroadcast | apps/api/agent_control/control/commands.py:77-97 | the same of every row the control services wrote about commands and approvals |
| Relay.ExactlyOnceWithoutCrash | apps/api/agent_control/realtime.py:284-309 | without a crash between publication and commit every published row is on the channel exactly once |
| Relay.CommitIsPass | apps/api/agent_control/realtime.py:288-309 | what a relay commits is one pass over its locked batch with the answers Redis gave, and what was answered for is on the channel |
| Relay.PassUsesTries | apps/api/agent_control/realtime.py:288-309 | a pass uses up at least one remaining try per row, whatever Redis answers |
| Relay.CommitsAreBounded | apps/api/agent_control/realtime.py:267-309 | over any run, non-empty commits are at most eight per inserted row |
| Relay.DrainEnds | apps/api/agent_control/realtime.py:312-321 | without inserts the pending rows are gone after boundedly many passes |
| Relay.OutboxRelay.SelectBatch | apps/api/agent_control/realtime.py:278-286 | the oldest pending rows not locked elsewhere, at most a batch |
| Relay.BatchTakesTheOldest | apps/api/agent_control/realtime.py:278-286 | a batch is as many pending unlocked rows as there are, two hundred at most, oldest first, and with a row it holds every older one |
| Relay.OutboxRelay.PublishPendingBatch | apps/api/agent_control/realtime.py:267-309 | one pass: the rows, the channel and the count returned |
| Relay.OutboxRelay.Drain | apps/api/agent_control/realtime.py:312-321 | the inner loop ends; every repetition removed a full batch |
| Keyset.WalkIsExact | apps/api/agent_control/runs/service.py:382-424 | following cursors while rows enter and leave the query shows rows in order, none twice, and at the end every row that was there at each request |
| Arrivals.ShownExactly | apps/api/agent_control/runs/service.py:400-424 | whatever enters or leaves, a row is shown exactly when it was there at a request whose page covers its place in the order |
| Keyset.FirstRowsAreSeen | apps/api/agent_control/runs/service.py:382-424 | with insertions alone a finished walk has shown every row present at its first request |
| Arrivals.ArrivalIsSeen | apps/api/agent_control/runs/service.py:400-424 | a row that arrives during a walk is shown exactly when it sorts after the cursor of the first page that could have held it |
| Arrivals.CompleteExactly | apps/api/agent_control/runs/service.py:400-424 | a finished walk has shown everything there was at its last request exactly when every arrival sorted after the cursor of the request that could first have met it |
| Arrivals.AppendsAreSeen | apps/api/agent_control/runs/service.py:459-491 | when rows only arrive at the end, a finished walk has shown everything there was at its last request |
| Timeline.TimelineIsOrdered | apps/api/agent_control/runs/service.py:442-491 | reading a timeline page by page while ingestion goes on, whoever reports: rows by sequence and identifier, none twice, and everything present at the first request |
| Timeline.TimelineIsComplete | apps/api/agent_control/runs/service.py:442-491 | a finished reader has seen the whole timeline of its last request exactly when every row journaled between two requests sorts after the later one's cursor |
| Timeline.SecondVoiceIsMissed | apps/api/agent_control/runs/service.py:459-472 | from an empty journal, a schedule with two agents on a run known at every request after which a finished reader has missed a row |
| Timeline.OneVoiceMissesNothing | apps/api/agent_control/runs/service.py:442-491 | with one reporting agent a finished reader has seen exactly what was accepted on the run, in that order |
| Timeline.AcceptedIsTimeline | apps/api/agent_control/runs/service.py:471-472 | the timeline is the order of acceptance exactly when what concerns the run was accepted by rising sequence and identifier |
| Keyset.QuietWalk | apps/api/agent_control/runs/service.py:382-424 | with no inserts the walk shows the query itself in the expected number of pages |
| Keyset.PagesForIsCeiling | apps/api/agent_control/operations/usage.py:242-272 | that number is the ceiling of rows over limit, at least one |
| Keyset.ListPage | apps/api/agent_control/operations/usage.py:242-272 | look-ahead row, cut and cursor compute the reference page |
| Cursor.SplitUndoesJoin | apps/api/agent_control/runs/service.py:370-379 | a cursor decodes to its parts exactly when no part holds the separator |
| Cursor.PartitionUndoesJoin | apps/api/agent_control/operations/usage.py:213-229 | the two-part cursor decodes exactly when its first part is clean |
| Usage.PagesReconcile | apps/api/agent_control/operations/usage.py:133-210 | the pages of an unchanging table end on time and add up to the aggregate, and unfiltered to the budget's figure |
| Usage.PagesSurviveInserts | apps/api/agent_control/operations/usage.py:232-272 | with records arriving between pages, rows show newest first, none twice, and nothing present at the start is missed |
| Usage.ComputeConsumption | apps/api/agent_control/operations/usage.py:133-161 | the sum over scope and window, both ends |
| Usage.ConsumptionIsSum | apps/api/agent_control/operations/usage.py:133-161 | which records the sum is over, written out |
| Usage.ReportIsSum | apps/api/agent_control/operations/usage.py:164-210 | cost, tokens, calls and number of the records the report adds up |
| Usage.ListUsage | apps/api/agent_control/operations/usage.py:232-272 | one page of the filtered records, newest first |
| Pricing.RoundingErrorIsBounded | apps/api/agent_control/operations/pricing.py:71-97 | a sum of n stored costs, at whatever rates, is within n half-units of the exact amount |
| RunLaws.StoredCostIsNearExact | apps/api/agent_control/operations/usage.py:80-110 | for every journal the usage table's cost is within half a unit a record of the exact cost, models and versions mixed |
| RunLaws.ConsumptionIsNearExact | apps/api/agent_control/operations/usage.py:133-161 | the same for every scope and window, each record priced from its own tokens and rate |
| Pricing.RoundingsAgreeExactly | apps/api/agent_control/operations/pricing.py:71-97 | half up is banker's rounding except on ties whose neighbour away from zero is odd |
| Pricing.RoundingsCanDiffer | apps/api/agent_control/operations/pricing.py:82-83 | a rate at which one token costs one unit where the documented rounding gives none |
| Pricing.ShippedPricesAreBoth | apps/api/agent_control/operations/pricing.py:41-57 | at every rate the shipped grid answers the documented rounding gives the same cost |
| Pricing.LosslessIffShort | apps/api/agent_control/operations/pricing.py:71-97 | every consumption is priced without loss exactly when both rates have at most five decimals |
| Pricing.SplittingIsFree | apps/api/agent_control/operations/pricing.py:71-97 | with such rates the total does not depend on how consumption is cut into records |
| Pricing.PriceIsAlwaysFound | apps/api/agent_control/operations/pricing.py:54-57 | an unknown version is priced as the current one, an unknown model at the fallback, whatever the letter case |
| Pricing.PricePerThousand | apps/api/agent_control/operations/pricing.py:71-97 | a thousand tokens cost the rate: input at the input rate, output at the output rate |
| Pricing.PublishedPrices | apps/api/agent_control/operations/pricing.py:41-57 | the prices of three published models, input and output |
| Pricing.PublishedPricesToo | apps/api/agent_control/operations/pricing.py:41-57 | those of the others and of an unpublished model |
| Pricing.ShippedRatesAreShort | apps/api/agent_control/operations/pricing.py:41-57 | every rate the shipped grid answers is such a rate, and none is free |
| Redaction.RedactionIsProjection | apps/api/agent_control/operations/redaction.py:83-103 | the result is clean at every depth, and equals the input exactly when the input is clean |
| Redaction.RedactionIsIdempotent | apps/api/agent_control/operations/redaction.py:83-103 | masking twice is masking once |
| Redaction.RedactionKeepsForm | apps/api/agent_control/operations/redaction.py:83-103 | path by path outside sensitive keys, keys, lengths and harmless leaves are kept |
| Redaction.SentinelIsHarmless | apps/api/agent_control/operations/redaction.py:29-80 | the sentinel does not look like a secret |
| Redaction.SecretsHaveShapes | apps/api/agent_control/operations/redaction.py:52-80 | a text looks like a secret exactly when, blanks around it aside, it is a concatenation of the parts one of the four patterns names |
| Redaction.NamesSpellMarkers | apps/api/agent_control/operations/redaction.py:29-65 | a name is sensitive exactly when it spells a marker somewhere, in any mixture of letter cases |
| Redaction.Redact | apps/api/agent_control/operations/redaction.py:83-103 | the recursive function with its dictionary loop computes the reference masking |
| Layout.NoOverlap | apps/web/components/mc/HierarchyFlow.tsx:193-215 | no two boxes overlap, with five units to spare on a row and 56 between rows, and none leaves the canvas right or below |
| Layout.DrawnExactly | apps/web/components/mc/HierarchyFlow.tsx:193-215 | one box for every position of the tree with no folded node above it, and no other, showing the node there, open exactly when it has children and is not folded |
| Layout.LinksDrawn | apps/web/components/mc/HierarchyFlow.tsx:193-215 | from every such position but the root's a link to its parent, one link fewer than boxes in all |
| Layout.AllIsDrawn | apps/web/components/mc/HierarchyFlow.tsx:193-215 | with nothing folded as many boxes as nodes |
| Layout.SlotsAreFilled | apps/web/components/mc/HierarchyFlow.tsx:193-215 | the closed boxes stand in consecutive slots, in drawing order |
| Layout.PictureFits | apps/web/components/mc/HierarchyFlow.tsx:193-215 | width and height of the picture, from its closed boxes and its deepest one |
| Layout.ParentsCentred | apps/web/components/mc/HierarchyFlow.tsx:193-215 | every open box stands for a node of the tree and hangs midway over the boxes of its first and last child, linked and one row below |
| Layout.SiblingsInOrder | apps/web/components/mc/HierarchyFlow.tsx:193-215 | siblings are placed left to right |
| Layout.OneLinkPerChild | apps/web/components/mc/HierarchyFlow.tsx:193-215 | a drawing has one link fewer than boxes, whatever is folded |
| Layout.LiveFleetNeverOverlaps | apps/web/components/mc/HierarchyFlow.tsx:108-190 | the tree built from the live fleet is levelled as the layout needs, so its drawing never overlaps |
| Layout.LiveTreeMirrorsFleet | apps/web/components/mc/HierarchyFlow.tsx:108-190 | the live tree has a node for every project, every agent of its detail and every card: one for each task the agent takes part in, or else one for its current task |
| Layout.Canvas.Layout | apps/web/components/mc/HierarchyFlow.tsx:193-215 | the recursive closure that pushes boxes and links and counts leaves draws the reference picture |
| Layout.IndexTasks | apps/web/components/mc/HierarchyFlow.tsx:108-190 | the map from agent to the cards it takes part in |

## Left out

- Concurrent writes to `agent_commands` and simultaneous polls of one agent: the code takes no lock there and writes no version check, so service calls on commands are serial here.
- ControlPlane.Service.PollCommands: does not model waiting; a long poll is repeated polls with other transactions in between, and the default waiting time is zero.
- Budgets.PeriodStartIsLatest: takes the day of the month with the moment, as a clock reads it; the calendar that relates it to the day number is not modelled.
- Layout.IndexTasks: leaves out agent keys that name a member every JavaScript object inherits, such as `constructor`, for which the code finds that member and throws.
- Relay.OutboxRelay.Drain: is proved for one relay with no insert during its loop; with others at work `Relay.CommitsAreBounded` is what holds.
- Alerts.AlertDesk.AcknowledgeAlert: does not keep the time, the operator and the audit row of an acknowledgement, on which no rule depends.
- Alerts.AlertDesk.ResolveAlert: does not keep the time, the operator and the audit row of a resolution, on which no rule depends.
- Alerts.AlertDesk.EvaluateBudgets: does not return the list of evaluations, which its caller ignores.
- Runs.RunStore.CreateRun: does not create the project assignment, nor keep objective, key, card and metadata.
- Runs.RunStore.ProjectStepEvent: does not keep step type, name, input summary and metadata.
- Runs.RunStore.RecordUsage: does not keep currency, provider and model, of which the rate kept is a function.
- Regular expressions are modelled for ASCII text, and lower-casing for ASCII letters.
- Base64, ISO dates and UUID text: modelled as the values they stand for, with a text that is no UUID kept apart; two spellings of one UUID are one value here.
- Time zones: calendar periods are taken in UTC, while an event's own offset would shift its midnight.
- Decimal arithmetic beyond 28 digits: costs and rates are exact rationals before the rounding the code performs.
- Foreign keys: a run event that names an unknown project or card, and a usage event that names an unknown project or run, fail their batch in the database, which this model does not show; nor do the widths of integer and text columns.
- Payloads, titles, objectives, metadata, trace identifiers, risk levels, comments and the project assignments a new run creates: stored as given, with no rule about them.
- Reports that quote consumed amounts in alert and outbox payloads: only the kind, subject and topic of each outbox row are kept; generated outbox identifiers are not.
- Audit rows are kept for policy decisions, submissions and approval decisions; their redacted contents are not.
- CSV export, list filters of runs, commands, alerts and approvals: the same queries and pages as above, over a set that a status filter lets rows leave.
- Routes, authentication, capabilities, adapters, migrations, WebSocket delivery, the V0 heartbeat and all rendering.
