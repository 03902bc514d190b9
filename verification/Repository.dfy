/** The in-memory repository (repository.py): cases, runs, append-only audit logs,
    approvals, receipts and claimed webhook events. */
module Repository {
  import opened Domain

  /** runOrder lists the keys of the runs dictionary in insertion order. */
  datatype RepoState = RepoState(
    cases: map<Uuid, CaseState>,
    runs: map<Uuid, RunRecord>,
    runOrder: seq<Uuid>,
    events: map<Uuid, seq<Event>>,
    approvals: map<Uuid, seq<Approval>>,
    receipts: map<Uuid, seq<Receipt>>,
    webhooks: set<string>)

  const EMPTY := RepoState(map[], map[], [], map[], map[], map[], {})

  function WithCase(p: RepoState, id: Uuid, c: CaseState): RepoState {
    p.(cases := p.cases[id := c])
  }

  function WithRun(p: RepoState, id: Uuid, run: RunRecord): RepoState {
    p.(runs := p.runs[id := run], runOrder := if id in p.runs then p.runOrder else p.runOrder + [id])
  }

  /** Nothing changes for an unknown run. */
  function WithStatus(p: RepoState, id: Uuid, status: RunStatus, state: WorkflowState, finished: bool,
      now: int): RepoState {
    if id !in p.runs then p
    else
      var previous := p.runs[id];
      WithRun(p, id, previous.(status := status, state := Some(state),
                               finishedAt := if finished then Some(now) else previous.finishedAt))
  }

  function WithEvent(p: RepoState, id: Uuid, event: Event): RepoState {
    p.(events := p.events[id := GetOr(p.events, id, []) + [event]])
  }

  function WithApproval(p: RepoState, id: Uuid, approval: Approval): RepoState {
    p.(approvals := p.approvals[id := GetOr(p.approvals, id, []) + [approval]])
  }

  function WithReceipt(p: RepoState, id: Uuid, receipt: Receipt): RepoState {
    p.(receipts := p.receipts[id := GetOr(p.receipts, id, []) + [receipt]])
  }

  function WithWebhook(p: RepoState, eventId: string): RepoState {
    p.(webhooks := p.webhooks + {eventId})
  }

  class MemoryRepository {
    var cases: map<Uuid, CaseState>
    var runs: map<Uuid, RunRecord>
    var runOrder: seq<Uuid>
    var runEvents: map<Uuid, seq<Event>>
    var approvals: map<Uuid, seq<Approval>>
    var receipts: map<Uuid, seq<Receipt>>
    var webhooks: set<string>

    ghost function Value(): RepoState
      reads this
    {
      RepoState(cases, runs, runOrder, runEvents, approvals, receipts, webhooks)
    }

    constructor ()
      ensures Value() == EMPTY
    {
      cases, runs, runOrder := map[], map[], [];
      runEvents, approvals, receipts, webhooks := map[], map[], map[], {};
    }

    method CreateCase(id: Uuid, c: CaseState)
      modifies this
      ensures Value() == WithCase(old(Value()), id, c)
      ensures cases == old(cases)[id := c] && runs == old(runs)
    {
      cases := cases[id := c];
    }

    method GetCase(id: Uuid) returns (c: Option<CaseState>)
      ensures c == Find(cases, id)
    {
      c := if id in cases then Some(cases[id]) else None;
    }

    method CreateRun(id: Uuid, run: RunRecord)
      modifies this
      ensures Value() == WithRun(old(Value()), id, run)
      ensures runs == old(runs)[id := run] && runOrder == old(runOrder) + if id in old(runs) then [] else [id]
    {
      if id !in runs {
        runOrder := runOrder + [id];
      }
      runs := runs[id := run];
    }

    method GetRun(id: Uuid) returns (run: Option<RunRecord>)
      ensures run == Find(runs, id)
    {
      run := if id in runs then Some(runs[id]) else None;
    }

    /** None stands for the KeyError of an unknown run. */
    method UpdateRun(id: Uuid, status: RunStatus, state: WorkflowState, finished: bool, now: int)
      returns (updated: Option<RunRecord>)
      modifies this
      ensures Value() == WithStatus(old(Value()), id, status, state, finished, now)
      ensures updated == if id in old(runs) then Some(runs[id]) else None
      ensures
        if id !in old(runs) then runs == old(runs)
        else
          runs == old(runs)[id := old(runs)[id].(status := status, state := Some(state),
                                                 finishedAt := if finished then Some(now)
                                                     else old(runs)[id].finishedAt)]
    {
      if id !in runs {
        return None;
      }
      var previous := runs[id];
      var run := previous.(status := status, state := Some(state),
                           finishedAt := if finished then Some(now) else previous.finishedAt);
      runs := runs[id := run];
      return Some(run);
    }

    method AppendEvent(id: Uuid, event: Event)
      modifies this
      ensures Value() == WithEvent(old(Value()), id, event)
      ensures runEvents == old(runEvents)[id := (if id in old(runEvents) then old(runEvents)[id] else []) + [event]]
      ensures runs == old(runs) && approvals == old(approvals) && receipts == old(receipts)
    {
      runEvents := runEvents[id := GetOr(runEvents, id, []) + [event]];
    }

    method SaveApproval(id: Uuid, approval: Approval)
      modifies this
      ensures Value() == WithApproval(old(Value()), id, approval)
      ensures approvals == old(approvals)[id := (if id in old(approvals) then old(approvals)[id] else []) + [approval]]
      ensures runs == old(runs) && runEvents == old(runEvents) && receipts == old(receipts)
    {
      approvals := approvals[id := GetOr(approvals, id, []) + [approval]];
    }

    method SaveReceipt(id: Uuid, receipt: Receipt)
      modifies this
      ensures Value() == WithReceipt(old(Value()), id, receipt)
      ensures receipts == old(receipts)[id := (if id in old(receipts) then old(receipts)[id] else []) + [receipt]]
      ensures runs == old(runs) && runEvents == old(runEvents) && approvals == old(approvals)
    {
      receipts := receipts[id := GetOr(receipts, id, []) + [receipt]];
    }

    /** True for the first claim of an event only. */
    method ClaimWebhook(eventId: string) returns (claimed: bool)
      modifies this
      ensures claimed <==> eventId !in old(webhooks)
      ensures Value() == WithWebhook(old(Value()), eventId)
      ensures webhooks == old(webhooks) + {eventId} && runs == old(runs) && cases == old(cases)
    {
      if eventId in webhooks {
        assert webhooks + {eventId} == webhooks;
        return false;
      }
      webhooks := webhooks + {eventId};
      return true;
    }
  }
}
