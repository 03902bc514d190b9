# The governed-effect protocol

A control plane takes a case (hold or release a transfer, close a case) through evidence
collection, a deterministic policy decision, a model's recommendation, a human approval, an
execution that retries against an effect ledger, verification and closure. This project models
that protocol and proves what it is for: no effect without authority, no effect twice for one
run, a status that agrees with the ledger, and an audit log that is complete and true.

`dafny verify dfyconfig.toml` checks everything.

## How it is laid out

| file | what it holds |
|---|---|
| `Domain.dfy` | the values: requests, evidence, decisions, actions, approvals, receipts, events, run records |
| `Policy.dfy` | the policy engine: the fact-merging loops, the decision, and its quantified meaning |
| `Gateway.dfy` | the synthetic tool gateway with its faults and its ledger, as a function and as a class |
| `Repository.dfy` | the in-memory repository, as functions on its state and as a class |
| `Protocol.dfy` | every node of the graph, every attempt of the execution node, pause and resumption |
| `Invariant.dfy`, `Preservation.dfy`, `Audit.dfy`, `System.dfy` | the inductive invariant, its preservation node by node, logs as words, and the whole system as a transition system |
| `Theorems.dfy`, `History.dfy`, `Trail.dfy`, `Cuts.dfy`, `Provenance.dfy` | what holds in every reachable state: ledger and status, keys, replays, immutability, the truth and the grammar of the audit log, and where the authority for an effect came from |
| `Steps.dfy` | what the steps from outside bring about: cases, runs, notes, settings, cut-offs |
| `Driver.dfy`, `Outcomes.dfy`, `Frames.dfy`, `Liveness.dfy` | whole service calls as runs of the system, exactly what each comes to and what it leaves alone, and that approved work does get done |
| `Control.dfy` | `ControlledWorkflow`, `ControlPlaneService` and the webhook handler as the mutable objects they are, proved against the functions |
| `Contract.dfy` | the retry loop against any tool at all, deduplicating or not |
| `PostgresLedger.dfy`, `LedgerUse.dfy`, `SqlStatus.dfy` | the SQL ledger under N interleaved clients, the control plane as its user, and the statuses of runs against its rows |
| `Webhooks.dfy` | interleaved and interrupted webhook deliveries |
| `EventStream.dfy`, `StreamOfRun.dfy` | the polling loop behind the event stream, and what it comes to for a run of the system |
| `Evaluation.dfy` | the evaluation harness: checkpoint file, interruption, resumption |

A *history* is any list of steps of `System.Step` from the empty system: cases, starts, replays,
single nodes and single attempts of any run, approvals, executions cut off and started over,
outcomes recorded, faults and records changed, all in any interleaving and for any number of
cases and runs. A request that is refused, or that names an identifier in use, changes nothing.

## What is assumed

- SHA-256 is injective on proposed actions, so a digest stands for its action.
- UUIDs are fresh when drawn. They come in as arguments, as do the clock, the retriever's answer
  and the model's answer; all of them are arbitrary.
- A node's update is merged into the checkpointed state, and resuming an interrupt runs
  `_human_interrupt` again from its top. The pause is therefore announced twice in the log.
- One approval of a run is in flight at a time.
- PostgreSQL runs each ledger transaction at read committed: an insertion waits while another
  open transaction holds the key. A transaction may be rolled back at any point before its commit.
- A tool behind the abstract contract tells the truth about a key's status and commits nothing
  after a call has returned. It need not deduplicate.
- The evaluation's runners are deterministic (up to latency) and a checkpoint line is written whole.

## What was found

Each of these is the code as it is, stated as a theorem with its exact condition.

- **A replayed run acts again.** Keys are per run, not per transfer. Whether an approval completes
  a run depends on that run alone (`Outcomes.ApproveCompletesIff`), so a replay of a run that has
  acted adds a second effect for the same transfer, on exactly the terms of any run
  (`Liveness.ReplayActsAgainIff`).
- **A rejected run reports `POLICY_CONDITIONS_MET`.** So does a run with unsupported claims on
  sound evidence (`Outcomes.ApproveCompletesIff`, `Outcomes.StartAwaitsIff`). A failed execution
  reports three retries even after a single attempt.
- **The race branch of the SQL ledger replays without comparing request hashes.** In isolation it
  can answer for another action, and never does exactly when calls racing for a new key ask for one action
  (`PostgresLedger.ReplaysFaithfulIffNoClash`). The control plane's own calls always satisfy that
  (`LedgerUse.EveryAnswerIsForItsAction`).
- **A reversible action can end blocked beside an effect,** its own or an earlier one, exactly when
  the failure that ends the loop is not flagged as committed (`Contract.BlockedBesideEffectIff`). The
  MCP client's empty reply is such a failure (`Contract.LostReplyBlocksBesideEffect`). Irreversible
  actions are immune (`Contract.IrreversibleAtMostOnce`).
- **An irreversible action started over can act twice** on a tool that does not deduplicate, because an
  execution begins with an execute call and no lookup. It cannot exactly when the first call of an
  execution never lands beside an effect on record (`Contract.RestartsAtMostOnceIff`,
  `Contract.RestartedMayActTwice`); the gateways deduplicate.
- **The event stream can announce the end without the closure event,** exactly when the graph ends
  between a poll's read of the log and its read of the status (`StreamOfRun.ClosureIsSentIff`,
  `StreamOfRun.ClosureCanBeMissed`).
- **A replay does touch the original's audit log.** `docs/system-design.md` says it never mutates
  the original audit record; the code appends one note to it, and nothing else
  (`Frames.ReplayLeavesOriginal`). The model follows the code.
- **Resuming an evaluation needs cases that share an id to share their results.** Unique ids, which
  `load_suite` insists on and `evaluate` itself does not, are enough
  (`Evaluation.ResumingIsPlainIffAgreeing`).

## Model

| member | source | states |
|---|---|---|
| Theorems.LedgerAgreesWithStatus | src/control_plane/workflow.py:287-356 | In every history, a run with no call in flight is COMPLETED if and only if the ledger holds its key; the ledger has one entry per run with an effect, and as many entries as COMPLETED runs once all runs are at rest. |
| Provenance.EveryEffectAuthorised | src/control_plane/workflow.py:137-288 | At no point of any history is there a ledger entry that is not the effect requested: it is of the tool and the action the request of its run names, under that run's key, for its tenant, verified, and behind it stand an allowed decision, no unsupported claim and an approval of exactly that action; and, earlier in the history and in this order, the run's collection of its records from the tools as they then were, the decision at whose time those records were sound evidence (fresh included), and a granted call of approve, by an actor of that tenant, for exactly that action, made while the run waited and nothing had been committed. |
| Provenance.ApprovalWasGranted | src/control_plane/service.py:63-66 | Every approval on file was put there by a granted call of approve for that run. |
| Theorems.ProposedAsRequested | src/control_plane/workflow.py:212-220 | In every history a proposed action is the one requested, for the tenant and transfer of the request and the case of the run's record, with the model's rationale as its reason, the run's id and the action's name as its key, and irreversible exactly if it is a release. |
| Provenance.EveryCallAnswered | src/control_plane/workflow.py:292-313 | In every history each key an execute call was ever made under is the key of a run that an approver has answered. |
| Provenance.WaitingIsUncalled | src/control_plane/workflow.py:239-288 | For a run that waits no execute call has ever been made, and there is no effect: the first call its approval leads to is the first call of its key. |
| Theorems.KeyDeterminesAction | src/control_plane/workflow.py:212-231 | In every history two proposed actions with one idempotency key are one action of one run. |
| Theorems.EffectsHaveOneCase | src/control_plane/workflow.py:212-219 | In every history each ledger entry is an effect of exactly one case. |
| Theorems.EffectsOfCaseCounted | src/control_plane/workflow.py:212-219 | A case has exactly one ledger entry for each of its runs that has acted, never more than it has runs, and with its runs at rest one for each that is COMPLETED. |
| Theorems.StatusesAreSettled | src/control_plane/service.py:32-104 | No node ever raises; before its first pause a run is RUNNING, at rest it is AWAITING_APPROVAL, COMPLETED or BLOCKED; it has a finish time exactly when it is over; what the service returns is the run's final state. |
| Theorems.NeverRecordsRunning | src/control_plane/service.py:96-104 | The fall-through status RUNNING is never what the service records, and an ended run is recorded COMPLETED exactly if its effect is on the ledger. |
| Cuts.AuditGrammar | src/control_plane/workflow.py:129-373 | The log of a finished run, its execution cut off and started over however often, is a word of one grammar: six node events and a stop; or also two pauses and a stop; or further the approval, one round of at most three failures, numbered from one, and perhaps an effect for every start cut off, and a last round that ends in effect, verification and closure exactly if there is an effect, otherwise in a stop. |
| Theorems.AuditCounts | src/control_plane/repository.py:85-101 | Cut off or not, at every point: one closure event if and only if the graph has ended, and exactly as many effect events as saved receipts. |
| Trail.AuditTrailIsTrue | src/control_plane/workflow.py:71-87 | Every event of every log is true when written and ever after: the sources of the records and the ids of the policies, one by one, the decision codes, action hash, approver, failure flags, receipt, outcome and reason it carries agree with the run's state, approvals, receipts and the ledger. |
| History.LaterExtends | src/control_plane/repository.py:70-101 | Whatever happens later, ledger entries stay as they are, logs, approvals and receipts only grow, and a run that is over never changes but for replay notes. |
| History.ReplaysFormAForest | src/control_plane/service.py:76-94 | Every replay points to an earlier run of the same case and tenant, so following replay_of ends at a first run. |
| Frames.ReplayLeavesOriginal | src/control_plane/service.py:76-86 | A whole granted replay, its start included, leaves the original's record, checkpoint, approvals, receipts and effect as they were, whether it is over or waiting; its log gains exactly the note; every other run is left alone; the new run is its replay and the tools are untouched. |
| Frames.StartLeavesOthers | src/control_plane/service.py:32-61 | A start leaves every run there was before as it was: record, checkpoint, log, approvals, receipts and effect. |
| Frames.ApproveLeavesOthers | src/control_plane/service.py:63-74 | An approval, with the execution it leads to, leaves every other run as it was. |
| History.RerunSucceedsAtOnce | src/control_plane/workflow.py:287-336 | Once the effect is on the ledger, running the execution node again, after any cut-off and under any fault, succeeds on its first call with the same effect id and leaves the ledger alone. |
| System.RunKeepsInv | src/control_plane/service.py:20-105 | The invariant behind all of this holds after every history. |
| Steps.CasesWereOpened | src/control_plane/service.py:25-30 | In every history a case is there if and only if an actor of its own tenant has opened it, and it holds the request and the visibility that the first one gave. |
| Steps.RunsWereAdmitted | src/control_plane/service.py:32-47 | A run is there if and only if one step of the history was granted it: a start of a case, or a replay of a run, by an actor of the tenant that owns it; and it remains of that case, tenant, visibility and original. |
| Steps.NotesWereReplays | src/control_plane/service.py:76-94 | A replay note with a reason stands in the log of a run if and only if a replay of it for that reason was granted to an actor of its tenant. |
| Steps.SettingsAreTheLast | src/control_plane/tool_gateway.py:50-59 | Whatever else happens, the fault and the records of a transfer are the ones set last, and none if none was ever set. |
| Steps.CutOffUndoes | src/control_plane/workflow.py:287-336 | Cutting off an execution, however far it has come and whatever has happened since its approval was taken up, makes the run what it was at that moment, and leaves ledger, log and files as they are; a run that is not executing is not changed. |
| Domain.KeyForInjective | src/control_plane/workflow.py:218 | Equal idempotency keys have equal run ids and equal actions. |
| Outcomes.StartAwaitsIff | src/control_plane/service.py:32-61 | A granted start ends AWAITING_APPROVAL if and only if the collected evidence is sound for the request, every id cited is that of some policy retrieved and nothing else is claimed; otherwise BLOCKED with the decision's codes, which on sound evidence are those of an allowed one. Field by field, the checkpoint and the record of the new run are given, and nothing happens to the tools. |
| Outcomes.CitingAllIsSupported | src/control_plane/workflow.py:203-208 | A recommendation that cites just the ids retrieved and claims nothing else is supported, and comes through the check unchanged. |
| Outcomes.StartGoesByRecordsSet | src/control_plane/tool_gateway.py:53-59 | After records are set for a transfer, a start for it has exactly them as its evidence and awaits approval if and only if they are sound and the claims supported; with none set at all, it is blocked for missing records. |
| Outcomes.ApproveConcludes | src/control_plane/workflow.py:239-373 | A granted approve has one of four ends, given to the last event, file, field of the state and entry of the ledger, and chosen by hash, answer and fault: mismatched and nothing saved; rejected and saved; drifted, with one attempt and no effect; or acted, with the effect of the first call or, after a failure that may be retried, of the second, and the retries it took. |
| Outcomes.ApproveCompletesIff | src/control_plane/service.py:63-74 | In short: COMPLETED if and only if the approval is given, is for exactly the proposed action, and the transfer's fault is not schema drift; otherwise BLOCKED, with the reason for each cause and three retries on a failed tool. |
| Outcomes.VerifyFiles | src/control_plane/workflow.py:338-356 | Whatever tool gave the receipt: the outcome is verified if and only if nothing blocks the run and the receipt is of a success or a replay whose response says that it is verified; only then the run goes on to its closure, and without a receipt nothing is noted. |
| Outcomes.RaisesIff | src/control_plane/workflow.py:129-373 | A node raises if and only if what it needs is missing, and then leaves no trace: one tenant, a decision with its policies and the run's record, a proposed action, or a reason to block for. |
| Outcomes.ModelOnlyVetoes | src/control_plane/workflow.py:197-237 | For any two model answers to the same start, the proposed actions differ in the reason alone, the ledger entry they would make does not differ, and on unsound evidence both runs are blocked. |
| Liveness.DefaultsSoundIff | src/control_plane/tool_gateway.py:56-99 | The default records are sound evidence if and only if the notes are clean, the anomaly does not stand against the action and the decision falls within a day; closing a case always needs other records. |
| Liveness.ApprovedRunActs | src/control_plane/service.py:25-74 | From every state that satisfies the invariant, a new case with clearable default records, a supported recommendation and the approver's signature on the proposed action lead, by steps of the system, to a COMPLETED run with its effect, under every fault but schema drift. |
| Liveness.ReplayActsAgainIff | src/control_plane/service.py:76-86 | A replay of a run that has acted waits for approval if and only if its evidence is sound and the model's claims are supported, and then, once answered, has acted beside the original, under another key for the same transfer, if and only if the approval is given, is for exactly the proposed action and the schema has not drifted. |
| Liveness.SomeRunActs | src/control_plane/service.py:63-74 | There is a history with a COMPLETED run and its effect. |
| Driver.StartCallOutcome | src/control_plane/service.py:32-61 | A granted start is a run of the system that leaves the new run at rest, awaiting approval or blocked, with no effect. |
| Driver.ApproveCallOutcome | src/control_plane/service.py:63-74 | A granted approve is a run of the system that ends the run, COMPLETED if and only if its effect is on the ledger. |
| Driver.ReplayCallOutcome | src/control_plane/service.py:76-86 | The start inside a granted replay is never refused, and ends like any start. |
| Control.ControlledWorkflow.ValidateNode | src/control_plane/workflow.py:129-135 | The node's whole effect on repository, tools and checkpoint, as the protocol's function gives it. |
| Control.ControlledWorkflow.CollectNode | src/control_plane/workflow.py:137-150 | Likewise, for record collection. |
| Control.ControlledWorkflow.RetrieveNode | src/control_plane/workflow.py:152-165 | Likewise, for policy retrieval, from whatever the retriever answers. |
| Control.ControlledWorkflow.CheckNode | src/control_plane/workflow.py:167-176 | Likewise, for the check event. |
| Control.ControlledWorkflow.PolicyNode | src/control_plane/workflow.py:178-195 | Likewise, for the decision, computed by the engine's loops. |
| Control.ControlledWorkflow.RecommendNode | src/control_plane/workflow.py:197-237 | Likewise: citations checked, the requested action bound (`Theorems.ProposedAsRequested` says what is in it), routed to the approver only if allowed and supported. |
| Control.ControlledWorkflow.InterruptNode | src/control_plane/workflow.py:239-262 | Likewise, up to the interrupt. |
| Control.ControlledWorkflow.ResumeNode | src/control_plane/workflow.py:239-285 | Likewise, from the top again: a hash mismatch blocks before anything is saved, otherwise the approval is saved and then noted. |
| Control.ControlledWorkflow.ExecuteNode | src/control_plane/workflow.py:287-336 | The retry loop over the gateway object does to the world what the attempts and the settlement of the protocol do. |
| Control.ControlledWorkflow.SettleNode | src/control_plane/workflow.py:314-336 | After the loop: blocked with the last failure's kind, or the receipt saved and then noted. |
| Control.ControlledWorkflow.VerifyNode | src/control_plane/workflow.py:338-356 | Likewise, for the verification and its routing. |
| Control.ControlledWorkflow.CloseNode | src/control_plane/workflow.py:358-365 | Likewise, for the closure. |
| Control.ControlledWorkflow.BlockNode | src/control_plane/workflow.py:367-373 | Likewise, for the blocked closure and its reason. |
| Control.ControlledWorkflow.Invoke | src/control_plane/workflow.py:89-127 | The compiled graph runs a thread to its next pause or end, and always gets there. |
| Control.ControlledWorkflow.Start | src/control_plane/workflow.py:375-378 | A new thread, run to its first pause or end. |
| Control.ControlledWorkflow.ResumeRun | src/control_plane/workflow.py:379-382 | A paused thread, resumed with the decision and run to its end. |
| Control.ControlPlaneService.CreateCase | src/control_plane/service.py:25-30 | A case of the actor's own tenant is stored, request and visibility as given; any other request is refused and changes nothing. |
| Control.ControlPlaneService.StartRun | src/control_plane/service.py:32-61 | Keeps the invariant, and with no call in flight leaves none; refused without a trace as not found for an unknown case and as cross-tenant for a foreign one, and only then; otherwise the start call, returned awaiting approval or blocked. |
| Control.ControlPlaneService.Approve | src/control_plane/service.py:63-74 | Keeps the invariant, and with no call in flight leaves none; refused without a trace as not found, as cross-tenant or as not awaiting approval, in that order and only then; otherwise the approve call, returned COMPLETED exactly if the effect is on the ledger. |
| Control.ControlPlaneService.Replay | src/control_plane/service.py:76-86 | Keeps the invariant, and with no call in flight leaves none; refused without a trace as not found for an unknown run and as cross-tenant for a foreign one, and only then; otherwise the note and a start that cannot be refused. |
| Control.ControlPlaneService.constructor | src/control_plane/service.py:20-23 | Over an empty repository, gateway and checkpointer the invariant holds and no call is in flight. |
| Control.WebhookCase | src/control_plane/api.py:175-198 | A delivery with differing ids or a claimed event changes nothing; a first one claims its event, opens one case and starts one run in it. |
| Contract.RetryLoop | src/control_plane/workflow.py:289-313 | For every script of tool behaviour, uncaught errors included, the loop ends as specified, and a receipt other than "not found" is always the answer to the last call made, never one left over from an earlier attempt. |
| Contract.IrreversibleAtMostOnce | src/control_plane/workflow.py:292-321 | For an irreversible action, any truthful tool without late commits, deduplicating or not, and any number of effects on record before: one execution lands at most one effect and ends blocked if and only if none is on record. |
| Contract.ReleasesActAtMostOnce | src/control_plane/workflow.py:219-321 | It is releases that are irreversible: in every history, one execution of a proposed release lands at most one effect on any such tool. |
| Contract.RestartsAtMostOnceIff | src/control_plane/workflow.py:287-321 | Over any number of executions of an irreversible action, each started over from the top, a lawful tool is made to act at most once if and only if no execution that starts with an effect on record has its first call land another. |
| Contract.RestartedMayActTwice | src/control_plane/workflow.py:292-295 | A lawful tool that does not deduplicate can fail that: the first call lands and breaks, and the execution started over acts again before any lookup. |
| Contract.LooksBeforeEveryRetry | src/control_plane/workflow.py:308-311 | For an irreversible action, between any two execute calls of one execution a status lookup answered "not found". |
| Contract.FlaggedAtMostOnce | src/control_plane/workflow.py:308-321 | The same for a reversible action when every failure beside an effect, old or new, is flagged as committed. |
| Contract.BlockedBesideEffectIff | src/control_plane/workflow.py:308-321 | For any action and any number of effects on record before, an execution ends blocked beside an effect if and only if, reading the tool's behaviour alone, the loop reaches a failure that ends it, is not flagged on a reversible action, and has an effect on record; never for an irreversible one. |
| Contract.LostReplyBlocksBesideEffect | src/control_plane/tool_gateway.py:269-280 | A reply lost after the commit does that to a reversible action, and not to an irreversible one. |
| Contract.ReversibleMayActThrice | src/control_plane/workflow.py:308-313 | A truthful tool that does not deduplicate can be made to act three times on a reversible action, and the run still ends blocked. |
| Contract.GatewayIsLawful | src/control_plane/tool_gateway.py:112-152 | Under every fault the synthetic gateway keeps the contract and flags every failure after a commit. |
| Contract.ExecutionIsTheLoop | src/control_plane/workflow.py:287-313 | The execution node over the synthetic gateway is this loop over the gateway's own behaviour. |
| Gateway.SyntheticToolGateway.Execute | src/control_plane/tool_gateway.py:112-141 | The answer and the whole new state of the gateway, for every fault and attempt. |
| Gateway.SyntheticToolGateway.StatusOf | src/control_plane/tool_gateway.py:143-152 | The ledger's entry, or "not found". |
| Gateway.SyntheticToolGateway.Collect | src/control_plane/tool_gateway.py:56-99 | The records set for the transfer whenever some are set, or the three default records. |
| Gateway.ExecuteIsPutIfAbsent | src/control_plane/tool_gateway.py:101-141 | One call touches no other key, never changes an entry, answers about the entry the ledger then holds, and a failure is flagged as committed if and only if it left an entry. |
| Gateway.ExecuteByFault | src/control_plane/tool_gateway.py:101-141 | Call by call: a key on the ledger is replayed with the new count; otherwise a drifted schema fails every call, and a timeout, rate limit, server error or lost reply the first one only, flagged as it is, the last of them beside its effect; else the effect is of the action asked for, verified. Only this key's count and entry move. |
| Gateway.StatusTells | src/control_plane/tool_gateway.py:143-152 | The entry under the key, or a receipt that says "not found" and carries no effect and no response. |
| Gateway.CollectsWhatIsSet | src/control_plane/tool_gateway.py:53-59 | Records set for a transfer, down to none at all, are what a collection for it gives, and no other collection changes. |
| Gateway.CollectsDefaults | src/control_plane/tool_gateway.py:56-99 | With nothing set: the three records, their sources, ids, tenant, times and every fact, from the request. |
| Gateway.ReplayAlwaysSucceeds | src/control_plane/tool_gateway.py:122-125 | Under a key the ledger holds, every call succeeds as a replay of that effect, whatever the fault. |
| PostgresLedger.AtMostOneEffect | src/control_plane/tool_gateway.py:177-224 | Over any interleaving of any clients with rollbacks: at most one client of a key is told "succeeded", all that are told of an effect are told of the one in the table, and ledger_race never happens. |
| PostgresLedger.RowsNeverChange | infra/sql/001_init.sql:94-105 | A committed row is never changed or removed by any step. |
| PostgresLedger.SoloFinishes | src/control_plane/tool_gateway.py:186-224 | Whatever the other clients have left behind, a client that has begun and whose key nobody holds finishes in at most four statements of its own: its row if the key was free, the row there is if it is of its action, a conflict otherwise. |
| PostgresLedger.SoloFinishesLate | src/control_plane/tool_gateway.py:216-223 | A client that finds the key taken only at its insertion is told of that row in two statements. |
| PostgresLedger.RollbackLeavesNothing | src/control_plane/tool_gateway.py:184-215 | A transaction rolled back before its commit leaves no row and lets go of its key, and of no other. |
| PostgresLedger.ReplaysFaithfulIffNoClash | src/control_plane/tool_gateway.py:216-223 | In all interleavings every replay is of the caller's own action, if and only if calls that can race for a new key ask for one action. |
| PostgresLedger.LinearizableIffNoClash | src/control_plane/tool_gateway.py:177-224 | In every interleaving each finished client is given what the atomic put-if-absent ledger gives it in the order of finishing, and the table is the same, if and only if calls that race for a new key ask for one action. |
| LedgerUse.ProposalIsFixed | src/control_plane/workflow.py:212-231 | What a run has once proposed it proposes for ever after, through pauses, cut-offs and retries. |
| LedgerUse.EveryAnswerIsForItsAction | src/control_plane/tool_gateway.py:186-224 | Over any history and any interleaving of the executions it leads to, whoever finishes is told of its own action's row: no conflict, no lost race, no foreign replay. |
| LedgerUse.ExecutionsLinearize | src/control_plane/tool_gateway.py:177-224 | So those executions, however interleaved, are the calls of the atomic ledger in the order in which they finish. |
| SqlStatus.WorkflowSeesTheTable | src/control_plane/tool_gateway.py:177-224 | In every history of the SQL gateway, which injects no faults, each attempt is answered as the table answers: created is success, repeated a replay of the same effect, and a conflict never comes up. |
| SqlStatus.StatusAgreesWithRows | src/control_plane/workflow.py:287-356 | With the executions of such a history as concurrent SQL clients that finish in its order, beside any further attempts that are rolled back or still under way, a run with no call in flight is COMPLETED if and only if the table holds a row under its key. |
| Policy.MergeFacts | src/control_plane/policy.py:127-135 | The nested loops compute the merged facts and the flagged keys, in whatever order the facts of a record are visited. |
| Policy.ConflictIffDisagree | src/control_plane/policy.py:127-135 | The last-write-wins merge flags a key if and only if two records disagree on it. |
| Policy.NoConflictIffAgree | src/control_plane/policy.py:127-135 | It flags nothing if and only if all records agree pairwise. |
| Policy.MergedIsLast | src/control_plane/policy.py:127-135 | The merged value of a key is what the last record that states it says, and there is none if no record does. |
| Policy.DetectsExactly | src/control_plane/policy.py:62-85 | Notes are refused if and only if they contain, in any case of letters, one of the ten phrases or "reveal" and later on one line "tenant". |
| Policy.DeterministicDecision | src/control_plane/policy.py:88-157 | The engine as written gives the decision function's result, whose codes are, without repetition, exactly those with a cause. |
| Policy.AllowedIffEvidenceSound | src/control_plane/policy.py:88-157 | Allowed if and only if the tenant matches, the notes are clean, the records are non-empty, all of the tenant, authoritative, fresh and pairwise agreeing, and the action's own condition holds of what some record states; stop is the negation of allowed. |
| Policy.DecisionReportsCauses | src/control_plane/policy.py:88-157 | For each of the thirteen codes its own condition on request, records and time: the four gates each when no earlier one applies, then untrusted and stale sources, conflicting records, and, for the requested action, what the last records state; a code is given if and only if its cause is there, in the fixed order, for the action asked for, and a human is always required. |
| Policy.OrderInvariant | src/control_plane/policy.py:127-149 | Permuting and duplicating records never changes whether the action is allowed, nor any reason code when the records agree. |
| Policy.BlockingCodes | src/control_plane/policy.py:115-157 | No reason code is given twice, and a blocked decision never carries the code of an allowed one. |
| Repository.MemoryRepository.UpdateRun | src/control_plane/repository.py:70-83 | Status and state are replaced, a finish time is set only when finished, everything else of the run and every other run stays; an unknown run is an error. |
| Repository.MemoryRepository.AppendEvent | src/control_plane/repository.py:85-87 | The run's log grows by the event; nothing else changes. |
| Repository.MemoryRepository.SaveApproval | src/control_plane/repository.py:95-97 | The run's approvals grow by the decision; nothing else changes. |
| Repository.MemoryRepository.SaveReceipt | src/control_plane/repository.py:99-101 | The run's receipts grow by the receipt; nothing else changes. |
| Repository.MemoryRepository.ClaimWebhook | src/control_plane/repository.py:103-108 | Claimed if and only if the event id was not claimed before, and from then on it is. |
| Webhooks.EachEventOnce | src/control_plane/api.py:187-194 | Over any deliveries, interleaved with everything else and stopped after any of claim, case and run: as many claims win as there are distinct event ids processed, one for each, and each leads to at most one case and one first run; every delivery that was let in has header and event id equal, and only one whose ids differ is rejected. |
| Webhooks.ClaimOutcome | src/control_plane/api.py:187-191 | A claim is rejected if and only if the ids differ, a duplicate if and only if they are equal and the event is claimed, and both change nothing; otherwise it wins and its event is claimed. |
| Webhooks.DeliveryIsTheHandler | src/control_plane/api.py:187-198 | Claim, case and run of a first delivery, its run driven to its pause or end, do to the world what the handler does in one go. |
| EventStream.Stream | src/control_plane/api.py:112-132 | The set-filtered loop sends, poll by poll, exactly what is new, stops at the first finished status or after thirty idle polls and no sooner, and always stops. |
| EventStream.PrefixAtEveryPoint | src/control_plane/api.py:112-132 | After any frame the subscriber has been sent a prefix of the log: in order, without gaps, without repetitions. |
| EventStream.EndComesLast | src/control_plane/api.py:125-128 | The poll that finds the run over sends what is new, then one end frame with the status read, and nothing after it; no earlier frame is an end. |
| EventStream.HeartbeatIffIdle | src/control_plane/api.py:129-131 | A poll of a run still on adds just a heartbeat if and only if nothing is new. |
| EventStream.ThirtyIdlePolls | src/control_plane/api.py:113-130 | On a silent log and a run that never ends it is the thirtieth poll, and none before, that makes the loop give up. |
| StreamOfRun.SentIsTheLog | src/control_plane/api.py:112-123 | Over any history of the system and any times of the reads, what a subscriber has been sent after so many polls is exactly the run's log as the last of them read it. |
| StreamOfRun.EndIffOver | src/control_plane/api.py:125-127 | A poll announces the end if and only if the run is over when it reads the status, and announces the status of that moment. |
| StreamOfRun.ClosureIsSentIff | src/control_plane/api.py:116-126 | When the end is announced the run has its closure event; the subscriber has been sent it if and only if the graph had ended at the first of the poll's two reads, and exactly then it misses nothing but replay notes. |
| StreamOfRun.ClosureCanBeMissed | src/control_plane/api.py:116-126 | There is a history in which a poll reads the log after the first event and the status after the end, so that the end is announced without the closure. |
| Evaluation.Evaluate | src/control_plane/eval_harness.py:293-339 | Load, run what is missing, append, assemble: the file and the result list for every completion order, and no result when interrupted. |
| Evaluation.LaterLineWins | src/control_plane/eval_harness.py:305-315 | A later line of the checkpoint file replaces what earlier ones held for its case and for no other; a blank line does nothing. |
| Evaluation.AppendedLines | src/control_plane/eval_harness.py:321-334 | One line is appended for each pair that finishes, in that order: the case's id, the baseline's result and the controlled one's. |
| Evaluation.ResumingIsPlainIffAgreeing | src/control_plane/eval_harness.py:305-339 | After any interrupted attempts and in any completion order, resuming always gives the list of a plain evaluation, if and only if cases that share an id share their results. |
| Evaluation.OneLineForEachCase | src/control_plane/eval_harness.py:315-334 | With unique ids, once an attempt has finished the file has exactly one line for each case, and evaluating again appends nothing. |

## Left out

- `McpToolGateway`, `src/tool_server`, HTTP, authentication, HMAC checks and JSON parsing: transport; only the execute/status contract behind them is modelled.
- LangGraph itself and its checkpointers, and concurrent resumptions of one run: the library is not part of this model.
- An exception other than a tool failure raised inside the execution node, which ends the call: in the retry loop it is modelled, in the whole system it is the execution being cut off at that point and possibly started over.
- `PostgresRepository`: the repository results are for the in-memory version.
- The status query of the PostgreSQL gateway, the response and timestamp columns of its rows, and its attempt counts.
- `retrieve_policies`, embeddings and vector search: what the retriever answers is an arbitrary input.
- The Vertex provider and the deterministic model: what the model answers is an arbitrary input.
- Seeding, metrics, `list_runs`, percentiles, aggregation, release gates and the two evaluation runners themselves.
- Event timestamps, invocation ids, commit times, field length limits, sleeps, latency and costs; event ids are any distinct strings.
- Facts that are lists or objects, and NaN: a fact is a text, a number, a flag or null, compared as Python compares them.
- Case folding outside ASCII in the injection patterns.
- Control.ControlPlaneService.Approve: asks of its caller that no other resumption of the same run is under way; what the graph library does with a second one is not part of this model.
