/** The PostgreSQL effect ledger (tool_gateway.py, PostgresSyntheticToolGateway): any number
    of clients, each running SELECT, then INSERT ... ON CONFLICT DO NOTHING, then a second
    SELECT, in one read-committed transaction. Steps of different clients interleave freely,
    an insertion waits while another transaction holds the key, and a transaction may be
    rolled back at any point before it commits. */
module PostgresLedger {
  import opened Domain

  datatype Row = Row(key: string, effectId: Uuid, requestHash: ActionHash)

  /** What one client is asked to execute: the action, and the effect id it has drawn. */
  datatype Call = Call(action: ProposedAction, effectId: Uuid)

  datatype Outcome =
    | Created(row: Row)
    | Repeated(row: Row)
    | Conflict(row: Row)
    | LostRace

  // Created is the receipt "succeeded", Repeated the receipt "replayed".

  datatype Client =
    | Selecting
    | Inserting
    | Committing(row: Row)
    | Reselecting
    | Finished(outcome: Outcome)
    | RolledBack

  /** rows are committed and visible to all; held maps a key to the client whose uncommitted
      row occupies it. */
  datatype Db = Db(rows: map<string, Row>, held: map<string, nat>, clients: seq<Client>)

  datatype Move = Advance(client: nat) | Abort(client: nat)

  function RowOf(call: Call): Row {
    Row(call.action.idempotencyKey, call.effectId, Digest(call.action))
  }

  function Put(db: Db, i: nat, c: Client): Db
    requires i < |db.clients|
  {
    db.(clients := db.clients[i := c])
  }

  /** The next statement of client i. */
  function AdvanceClient(calls: seq<Call>, db: Db, i: nat): (db': Db)
    requires i < |calls| == |db.clients|
    ensures |db'.clients| == |calls|
  {
    var key := calls[i].action.idempotencyKey;
    match db.clients[i]
    case Selecting =>
      if key !in db.rows then Put(db, i, Inserting)
      else if db.rows[key].requestHash != Digest(calls[i].action) then Put(db, i, Finished(Conflict(db.rows[key])))
      else Put(db, i, Finished(Repeated(db.rows[key])))
    case Inserting =>
      if key in db.held then db
      else if key in db.rows then Put(db, i, Reselecting)
      else Put(db.(held := db.held[key := i]), i, Committing(RowOf(calls[i])))
    case Committing(row) =>
      Put(db.(rows := db.rows[key := row], held := db.held - {key}), i, Finished(Created(row)))
    case Reselecting =>
      if key in db.rows then Put(db, i, Finished(Repeated(db.rows[key])))
      else Put(db, i, Finished(LostRace))
    case Finished(_) => db
    case RolledBack => db
  }

  /** The transaction of client i is rolled back, if it has not come to its end. */
  function AbortClient(calls: seq<Call>, db: Db, i: nat): (db': Db)
    requires i < |calls| == |db.clients|
    ensures |db'.clients| == |calls|
  {
    match db.clients[i]
    case Finished(_) => db
    case Committing(_) => Put(db.(held := db.held - {calls[i].action.idempotencyKey}), i, RolledBack)
    case _ => Put(db, i, RolledBack)
  }

  function Step(calls: seq<Call>, db: Db, move: Move): (db': Db)
    requires |calls| == |db.clients|
    ensures |db'.clients| == |calls|
  {
    if move.client >= |calls| then db
    else match move
         case Advance(i) => AdvanceClient(calls, db, i)
         case Abort(i) => AbortClient(calls, db, i)
  }

  function Start(calls: seq<Call>, rows: map<string, Row>): Db {
    Db(rows, map[], seq(|calls|, _ => Selecting))
  }

  function Run(calls: seq<Call>, rows: map<string, Row>, moves: seq<Move>): (db: Db)
    ensures |db.clients| == |calls|
  {
    if moves == [] then Start(calls, rows)
    else Step(calls, Run(calls, rows, moves[..|moves| - 1]), moves[|moves| - 1])
  }

  // ----- What every interleaving keeps -----

  predicate RowsKeyed(rows: map<string, Row>) {
    forall k | k in rows :: rows[k].key == k
  }

  function KeyAt(calls: seq<Call>, i: nat): string
    requires i < |calls|
  {
    calls[i].action.idempotencyKey
  }

  /** Where a client stands towards the table it started from and the table as it is. */
  ghost predicate ClientOk(calls: seq<Call>, rows: map<string, Row>, db: Db, i: nat)
    requires i < |calls| == |db.clients|
  {
    var key := KeyAt(calls, i);
    match db.clients[i]
    case Inserting => key !in rows
    case Committing(row) => row == RowOf(calls[i]) && key !in db.rows && key in db.held && db.held[key] == i
    case Reselecting => key !in rows && key in db.rows
    case Finished(Created(row)) => row == RowOf(calls[i]) && key !in rows && key in db.rows && db.rows[key] == row
    case Finished(Repeated(row)) =>
      key in db.rows && db.rows[key] == row && (key in rows ==> row.requestHash == Digest(calls[i].action))
    case Finished(Conflict(row)) => key in db.rows && db.rows[key] == row && row.requestHash != Digest(calls[i].action)
    case Finished(LostRace) => false
    case _ => true
  }

  ghost predicate CreatedBy(calls: seq<Call>, db: Db, k: string, i: nat) {
    i < |calls| == |db.clients| && KeyAt(calls, i) == k && db.clients[i] == Finished(Created(RowOf(calls[i])))
  }

  /** An uncommitted row is held by exactly the client about to commit it. */
  ghost predicate HeldOk(calls: seq<Call>, db: Db) {
    forall k | k in db.held ::
      db.held[k] < |calls| == |db.clients| && db.clients[db.held[k]].Committing? && KeyAt(calls, db.held[k]) == k
  }

  /** Every row was there at the start or was created by one client. */
  ghost predicate RowsOk(calls: seq<Call>, rows: map<string, Row>, db: Db) {
    && RowsKeyed(db.rows)
    && (forall k | k in rows :: k in db.rows && db.rows[k] == rows[k])
    && (forall k | k in db.rows && k !in rows :: exists i: nat ::
        CreatedBy(calls, db, k, i) && db.rows[k] == RowOf(calls[i]))
  }

  ghost predicate CreatedOnce(calls: seq<Call>, db: Db) {
    forall k, i: nat, j: nat | CreatedBy(calls, db, k, i) && CreatedBy(calls, db, k, j) :: i == j
  }

  ghost predicate DbOk(calls: seq<Call>, rows: map<string, Row>, db: Db) {
    && |db.clients| == |calls|
    && (forall i | 0 <= i < |calls| :: ClientOk(calls, rows, db, i))
    && HeldOk(calls, db) && RowsOk(calls, rows, db) && CreatedOnce(calls, db)
  }

  lemma StepKeepsClients(calls: seq<Call>, rows: map<string, Row>, db: Db, move: Move, j: nat)
    requires DbOk(calls, rows, db) && j < |calls|
    ensures ClientOk(calls, rows, Step(calls, db, move), j)
  {
    hide CreatedOnce, RowsOk;
    assert ClientOk(calls, rows, db, j);
    if move.client < |calls| {
      assert ClientOk(calls, rows, db, move.client);
      StartingRowsStay(calls, rows, db);
      if move.client == j {
        MovingClient(calls, rows, db, move);
      } else {
        OtherClient(calls, rows, db, move, j);
      }
    }
  }

  lemma StartingRowsStay(calls: seq<Call>, rows: map<string, Row>, db: Db)
    requires RowsOk(calls, rows, db)
    ensures forall k | k in rows :: k in db.rows
  {
  }

  lemma MovingClient(calls: seq<Call>, rows: map<string, Row>, db: Db, move: Move)
    requires move.client < |calls| == |db.clients| && ClientOk(calls, rows, db, move.client)
    requires forall k | k in rows :: k in db.rows
    ensures ClientOk(calls, rows, Step(calls, db, move), move.client)
  {
  }

  lemma OtherClient(calls: seq<Call>, rows: map<string, Row>, db: Db, move: Move, j: nat)
    requires move.client < |calls| == |db.clients| && j < |calls| && j != move.client
    requires ClientOk(calls, rows, db, move.client) && ClientOk(calls, rows, db, j)
    ensures ClientOk(calls, rows, Step(calls, db, move), j)
  {
  }

  lemma StepKeepsHeld(calls: seq<Call>, rows: map<string, Row>, db: Db, move: Move)
    requires DbOk(calls, rows, db)
    ensures HeldOk(calls, Step(calls, db, move))
  {
    hide CreatedOnce, RowsOk;
    if move.client < |calls| {
      assert ClientOk(calls, rows, db, move.client);
      hide DbOk;
      HeldMoves(calls, rows, db, move);
    }
  }

  lemma HeldMoves(calls: seq<Call>, rows: map<string, Row>, db: Db, move: Move)
    requires move.client < |calls| == |db.clients| && HeldOk(calls, db) && ClientOk(calls, rows, db, move.client)
    ensures HeldOk(calls, Step(calls, db, move))
  {
  }

  /** Only a commit changes the table, and no step takes an answer back. */
  lemma StepRows(calls: seq<Call>, db: Db, move: Move)
    requires |calls| == |db.clients|
    ensures
      var db', i := Step(calls, db, move), move.client;
      || db'.rows == db.rows
      || (i < |calls| && db.clients[i].Committing?
          && db'.rows == db.rows[KeyAt(calls, i) := db.clients[i].row]
          && db'.clients[i] == Finished(Created(db.clients[i].row)))
    ensures forall k, i: nat | CreatedBy(calls, db, k, i) :: CreatedBy(calls, Step(calls, db, move), k, i)
  {
  }

  lemma StepKeepsRows(calls: seq<Call>, rows: map<string, Row>, db: Db, move: Move)
    requires DbOk(calls, rows, db)
    ensures RowsOk(calls, rows, Step(calls, db, move))
  {
    hide HeldOk, CreatedOnce, Step;
    var db' := Step(calls, db, move);
    StepRows(calls, db, move);
    if db'.rows != db.rows {
      assert ClientOk(calls, rows, db, move.client);
      assert CreatedBy(calls, db', KeyAt(calls, move.client), move.client);
    }
    forall k | k in db'.rows && k !in rows ensures exists i: nat ::
        CreatedBy(calls, db', k, i) && db'.rows[k] == RowOf(calls[i]) {
      if k in db.rows {
        var i: nat :| CreatedBy(calls, db, k, i) && db.rows[k] == RowOf(calls[i]);
        assert CreatedBy(calls, db', k, i);
      }
    }
  }

  lemma StepKeepsCreated(calls: seq<Call>, rows: map<string, Row>, db: Db, move: Move)
    requires DbOk(calls, rows, db)
    ensures CreatedOnce(calls, Step(calls, db, move))
  {
    hide HeldOk, RowsOk;
    var db' := Step(calls, db, move);
    if move.client < |calls| {
      var m := move.client;
      assert ClientOk(calls, rows, db, m);
      forall k, i: nat, j: nat | CreatedBy(calls, db', k, i) && CreatedBy(calls, db', k, j) ensures i == j {
        assert i != m ==> CreatedBy(calls, db, k, i) && ClientOk(calls, rows, db, i);
        assert j != m ==> CreatedBy(calls, db, k, j) && ClientOk(calls, rows, db, j);
        assert CreatedBy(calls, db, k, m) || db.clients[m].Committing? || (i != m && j != m);
      }
    }
  }

  lemma {:induction false} RunKeeps(calls: seq<Call>, rows: map<string, Row>, moves: seq<Move>)
    requires RowsKeyed(rows)
    ensures DbOk(calls, rows, Run(calls, rows, moves))
  {
    hide Step, ClientOk, HeldOk, RowsOk, CreatedOnce;
    if moves == [] {
      StartOk(calls, rows);
    } else {
      var db, move := Run(calls, rows, moves[..|moves| - 1]), moves[|moves| - 1];
      RunKeeps(calls, rows, moves[..|moves| - 1]);
      forall j: nat | j < |calls| ensures ClientOk(calls, rows, Step(calls, db, move), j) {
        StepKeepsClients(calls, rows, db, move, j);
      }
      StepKeepsHeld(calls, rows, db, move);
      StepKeepsRows(calls, rows, db, move);
      StepKeepsCreated(calls, rows, db, move);
    }
  }

  lemma StartOk(calls: seq<Call>, rows: map<string, Row>)
    requires RowsKeyed(rows)
    ensures DbOk(calls, rows, Start(calls, rows))
  {
  }

  // ----- The promises of the ledger -----

  function EffectTold(outcome: Outcome): Option<Uuid> {
    match outcome
    case Created(row) => Some(row.effectId)
    case Repeated(row) => Some(row.effectId)
    case _ => None
  }

  /** Over any interleaving: rows once committed never change; among the clients of a key at
      most one is told "succeeded"; all that are told of an effect are told of the same one,
      the one in the table; and the ledger_race failure never happens. */
  lemma AtMostOneEffect(calls: seq<Call>, rows: map<string, Row>, moves: seq<Move>, i: nat, j: nat)
    requires RowsKeyed(rows) && i < |calls| && j < |calls| && KeyAt(calls, i) == KeyAt(calls, j)
    requires var db := Run(calls, rows, moves); db.clients[i].Finished? && db.clients[j].Finished?
    ensures
      var db := Run(calls, rows, moves);
      var a, b, key := db.clients[i].outcome, db.clients[j].outcome, KeyAt(calls, i);
      && !a.LostRace? && !b.LostRace?
      && (a.Created? && b.Created? ==> i == j)
      && (a.Created? ==> key !in rows)
      && (EffectTold(a).Some? && EffectTold(b).Some? ==> EffectTold(a) == EffectTold(b))
      && (EffectTold(a).Some? ==> key in db.rows && EffectTold(a) == Some(db.rows[key].effectId))
      && (a.Conflict? <==> key in db.rows && db.rows[key].requestHash != Digest(calls[i].action) && !a.Repeated?)
  {
    RunKeeps(calls, rows, moves);
    var db := Run(calls, rows, moves);
    hide Run, HeldOk, RowsOk;
    assert ClientOk(calls, rows, db, i) && ClientOk(calls, rows, db, j);
    if db.clients[i].outcome.Created? && db.clients[j].outcome.Created? {
      assert CreatedBy(calls, db, KeyAt(calls, i), i) && CreatedBy(calls, db, KeyAt(calls, i), j);
    }
  }

  lemma RowsNeverChange(calls: seq<Call>, rows: map<string, Row>, moves: seq<Move>, move: Move)
    requires RowsKeyed(rows)
    ensures
      var before, after := Run(calls, rows, moves).rows, Run(calls, rows, moves + [move]).rows;
      forall k | k in before :: k in after && after[k] == before[k]
  {
    RunKeeps(calls, rows, moves);
    assert (moves + [move])[..|moves|] == moves;
    if move.client < |calls| {
      assert ClientOk(calls, rows, Run(calls, rows, moves), move.client);
    }
  }

  // ----- Every client finishes -----

  /** Client i taken so many statements further, with no other client moving. */
  function Alone(calls: seq<Call>, db: Db, i: nat, n: nat): (db': Db)
    requires i < |calls| == |db.clients|
    ensures |db'.clients| == |calls|
  {
    if n == 0 then db else Step(calls, Alone(calls, db, i, n - 1), Advance(i))
  }

  /** Whatever the others have left behind, a client whose key nobody holds and that has just
      begun needs at most four statements more: it creates its own row if the key is free, it
      repeats a row of its own action, and it refuses a row of another. */
  lemma SoloFinishes(calls: seq<Call>, db: Db, i: nat)
    requires i < |calls| == |db.clients| && db.clients[i].Selecting? && KeyAt(calls, i) !in db.held
    ensures
      var key, hash, db' := KeyAt(calls, i), Digest(calls[i].action), Alone(calls, db, i, 4);
      var mine := Row(key, calls[i].effectId, hash);
      && db'.clients[i] ==
         Finished(if key !in db.rows then Created(mine)
                  else if db.rows[key].requestHash == hash then Repeated(db.rows[key]) else Conflict(db.rows[key]))
      && db'.rows == (if key in db.rows then db.rows else db.rows[key := mine])
      && key !in db'.held && db'.clients == db.clients[i := db'.clients[i]]
  {
    var a := Advance(i);
    assert Alone(calls, db, i, 1) == Step(calls, db, a);
    assert Alone(calls, db, i, 2) == Step(calls, Alone(calls, db, i, 1), a);
    assert Alone(calls, db, i, 3) == Step(calls, Alone(calls, db, i, 2), a);
    assert Alone(calls, db, i, 4) == Step(calls, Alone(calls, db, i, 3), a);
  }

  /** A client that has found nothing and then finds the key taken is told of the row there
      is, in two statements more. */
  lemma SoloFinishesLate(calls: seq<Call>, db: Db, i: nat)
    requires i < |calls| == |db.clients| && db.clients[i].Inserting? && KeyAt(calls, i) !in db.held
    requires KeyAt(calls, i) in db.rows
    ensures Alone(calls, db, i, 2).clients[i] == Finished(Repeated(db.rows[KeyAt(calls, i)]))
    ensures Alone(calls, db, i, 2).rows == db.rows
  {
    assert Alone(calls, db, i, 1) == Step(calls, db, Advance(i));
    assert Alone(calls, db, i, 2) == Step(calls, Alone(calls, db, i, 1), Advance(i));
  }

  /** And a transaction rolled back before its commit leaves no trace of its row. */
  lemma RollbackLeavesNothing(calls: seq<Call>, rows: map<string, Row>, moves: seq<Move>, i: nat)
    requires RowsKeyed(rows) && i < |calls| && !Run(calls, rows, moves).clients[i].Finished?
    ensures
      var db, db' := Run(calls, rows, moves), Step(calls, Run(calls, rows, moves), Abort(i));
      && db'.clients[i] == RolledBack && db'.rows == db.rows
      && (db.clients[i].Committing? ==> KeyAt(calls, i) !in db'.held)
      && forall k | k in db.held && db.held[k] != i :: k in db'.held && db'.held[k] == db.held[k]
  {
    RunKeeps(calls, rows, moves);
    hide Run, RowsOk, CreatedOnce;
    assert ClientOk(calls, rows, Run(calls, rows, moves), i);
  }

  // ----- Replays and whose action they answer for -----

  /** Calls that can race for a key the table does not hold yet ask for the same action. */
  ghost predicate NoClash(calls: seq<Call>, rows: map<string, Row>) {
    forall i, j | 0 <= i < |calls| && 0 <= j < |calls| && KeyAt(calls, i) == KeyAt(calls, j)
        && KeyAt(calls, i) !in rows ::
      calls[i].action == calls[j].action
  }

  /** A replay is of the caller's own action. */
  ghost predicate FaithfulReplay(calls: seq<Call>, db: Db, i: nat)
    requires i < |calls| == |db.clients|
  {
    db.clients[i].Finished? && db.clients[i].outcome.Repeated? ==>
      db.clients[i].outcome.row.requestHash == Digest(calls[i].action)
  }

  lemma NoClashFaithful(calls: seq<Call>, rows: map<string, Row>, moves: seq<Move>, i: nat)
    requires RowsKeyed(rows) && NoClash(calls, rows) && i < |calls|
    ensures FaithfulReplay(calls, Run(calls, rows, moves), i)
  {
    RunKeeps(calls, rows, moves);
    var db := Run(calls, rows, moves);
    hide Run, HeldOk, CreatedOnce, Step;
    assert ClientOk(calls, rows, db, i);
    var key := KeyAt(calls, i);
    if db.clients[i].Finished? && db.clients[i].outcome.Repeated? && key !in rows {
      var j: nat :| CreatedBy(calls, db, key, j) && db.rows[key] == RowOf(calls[j]);
      assert calls[i].action == calls[j].action;
    }
  }

  /** Both select before either inserts; the loser is then told of the winner's effect. */
  function RaceMoves(i: nat, j: nat): seq<Move> {
    [Advance(i), Advance(j), Advance(i), Advance(i), Advance(j), Advance(j)]
  }

  lemma RunSnoc(calls: seq<Call>, rows: map<string, Row>, moves: seq<Move>, move: Move)
    ensures Run(calls, rows, moves + [move]) == Step(calls, Run(calls, rows, moves), move)
  {
    assert (moves + [move])[..|moves|] == moves;
  }

  /** Both clients have found nothing and hold nothing. */
  ghost predicate BothMissed(calls: seq<Call>, rows: map<string, Row>, db: Db, i: nat, j: nat) {
    && i < |calls| == |db.clients| && j < |calls| && i != j && KeyAt(calls, i) == KeyAt(calls, j)
    && KeyAt(calls, i) !in db.rows && db.held == map[] && db.clients[i].Inserting? && db.clients[j].Inserting?
  }

  lemma BothSelect(calls: seq<Call>, rows: map<string, Row>, i: nat, j: nat)
    requires i < |calls| && j < |calls| && i != j && KeyAt(calls, i) == KeyAt(calls, j) && KeyAt(calls, i) !in rows
    ensures BothMissed(calls, rows, Run(calls, rows, [Advance(i), Advance(j)]), i, j)
  {
    RunEmpty(calls, rows);
    RunSnoc(calls, rows, [], Advance(i));
    RunSnoc(calls, rows, [Advance(i)], Advance(j));
    hide Run;
    assert [] + [Advance(i)] == [Advance(i)] && [Advance(i)] + [Advance(j)] == [Advance(i), Advance(j)];
  }

  lemma WinnerCommits(calls: seq<Call>, rows: map<string, Row>, db: Db, i: nat, j: nat)
    requires BothMissed(calls, rows, db, i, j)
    ensures
      var db' := Step(calls, Step(calls, db, Advance(i)), Advance(i));
      && db'.clients[j].Inserting? && KeyAt(calls, j) in db'.rows && db'.rows[KeyAt(calls, j)] == RowOf(calls[i])
      && KeyAt(calls, j) !in db'.held
  {
  }

  lemma LoserRepeats(calls: seq<Call>, db: Db, j: nat)
    requires j < |calls| == |db.clients| && db.clients[j].Inserting?
    requires KeyAt(calls, j) in db.rows && KeyAt(calls, j) !in db.held
    ensures
      Step(calls, Step(calls, db, Advance(j)), Advance(j)).clients[j] == Finished(Repeated(db.rows[KeyAt(calls, j)]))
  {
  }

  lemma RaceRepeats(calls: seq<Call>, rows: map<string, Row>, i: nat, j: nat)
    requires i < |calls| && j < |calls| && i != j && KeyAt(calls, i) == KeyAt(calls, j) && KeyAt(calls, i) !in rows
    ensures Run(calls, rows, RaceMoves(i, j)).clients[j] == Finished(Repeated(RowOf(calls[i])))
  {
    hide Run, Step, BothMissed;
    var a, b := Advance(i), Advance(j);
    var db := Run(calls, rows, [a, b]);
    RunSnoc(calls, rows, [a, b], a);
    RunSnoc(calls, rows, [a, b, a], a);
    RunSnoc(calls, rows, [a, b, a, a], b);
    RunSnoc(calls, rows, [a, b, a, a, b], b);
    assert [a, b] + [a] == [a, b, a] && [a, b, a] + [a] == [a, b, a, a]
           && [a, b, a, a] + [b] == [a, b, a, a, b] && [a, b, a, a, b] + [b] == RaceMoves(i, j);
    BothSelect(calls, rows, i, j);
    WinnerCommits(calls, rows, db, i, j);
    LoserRepeats(calls, Step(calls, Step(calls, db, a), a), j);
  }

  lemma RunEmpty(calls: seq<Call>, rows: map<string, Row>)
    ensures Run(calls, rows, []) == Start(calls, rows)
  {
  }

  /** The race branch does not compare request hashes, so a replay can answer for another
      action. It never does, in any interleaving, exactly when calls racing for a new key ask
      for one and the same action. */
  lemma ReplaysFaithfulIffNoClash(calls: seq<Call>, rows: map<string, Row>)
    requires RowsKeyed(rows)
    ensures
      (forall moves, i: nat | i < |calls| :: FaithfulReplay(calls, Run(calls, rows, moves), i)) <==>
          NoClash(calls, rows)
  {
    if NoClash(calls, rows) {
      forall moves, i: nat | i < |calls| ensures FaithfulReplay(calls, Run(calls, rows, moves), i) {
        NoClashFaithful(calls, rows, moves, i);
      }
    } else {
      var i, j :| 0 <= i < |calls| && 0 <= j < |calls| && KeyAt(calls, i) == KeyAt(calls, j) && KeyAt(calls, i) !in rows
                  && calls[i].action != calls[j].action;
      RaceRepeats(calls, rows, i, j);
      hide Run;
      assert !FaithfulReplay(calls, Run(calls, rows, RaceMoves(i, j)), j);
    }
  }

  // ----- One call at a time -----

  /** The atomic ledger: put if absent, else replay, else refuse. */
  function AtomicOutcome(rows: map<string, Row>, call: Call): Outcome {
    var key := call.action.idempotencyKey;
    if key !in rows then Created(RowOf(call))
    else if rows[key].requestHash != Digest(call.action) then Conflict(rows[key])
    else Repeated(rows[key])
  }

  function AtomicRows(rows: map<string, Row>, call: Call): map<string, Row> {
    var key := call.action.idempotencyKey;
    if key in rows then rows else rows[key := RowOf(call)]
  }

  /** The clients in the order in which they finish. */
  function FinishOrder(calls: seq<Call>, rows: map<string, Row>, moves: seq<Move>): (order: seq<nat>)
    ensures forall n | 0 <= n < |order| :: order[n] < |calls|
  {
    if moves == [] then []
    else
      var before, move := moves[..|moves| - 1], moves[|moves| - 1];
      var order := FinishOrder(calls, rows, before);
      var i := move.client;
      if i < |calls| && !Run(calls, rows, before).clients[i].Finished? && Run(calls, rows, moves).clients[i].Finished?
      then order + [i] else order
  }

  /** The table after the calls of the order, one at a time. */
  function SerialRows(calls: seq<Call>, rows: map<string, Row>, order: seq<nat>): map<string, Row>
    requires forall n | 0 <= n < |order| :: order[n] < |calls|
  {
    if order == [] then rows
    else AtomicRows(SerialRows(calls, rows, order[..|order| - 1]), calls[order[|order| - 1]])
  }

  /** The table and every answer given are those of the calls made one at a time in this
      order, which lists each client that has its answer once. */
  ghost predicate Serial(calls: seq<Call>, rows: map<string, Row>, db: Db, order: seq<nat>)
    requires |db.clients| == |calls| && forall n | 0 <= n < |order| :: order[n] < |calls|
  {
    && db.rows == SerialRows(calls, rows, order)
    && (forall n | 0 <= n < |order| :: AnsweredAt(calls, rows, db, order, n))
    && (forall i | 0 <= i < |calls| && db.clients[i].Finished? :: i in order)
    && (forall n, m | 0 <= n < m < |order| :: order[n] != order[m])
  }

  /** The n-th call to finish got the answer the ledger gives after the first n calls. */
  ghost predicate AnsweredAt(calls: seq<Call>, rows: map<string, Row>, db: Db, order: seq<nat>, n: nat)
    requires |db.clients| == |calls| && forall n | 0 <= n < |order| :: order[n] < |calls|
    requires n < |order|
  {
    db.clients[order[n]] == Finished(AtomicOutcome(SerialRows(calls, rows, order[..n]), calls[order[n]]))
  }

  /** One step of the interleaving is no step, or one atomic call, of the serial ledger. */
  lemma StepIsAtomic(calls: seq<Call>, rows: map<string, Row>, db: Db, move: Move)
    requires DbOk(calls, rows, db) && NoClash(calls, rows)
    ensures
      var db' := Step(calls, db, move);
      var i := move.client;
      if i < |calls| && !db.clients[i].Finished? && db'.clients[i].Finished? then
        db'.rows == AtomicRows(db.rows, calls[i]) && db'.clients[i] == Finished(AtomicOutcome(db.rows, calls[i]))
      else db'.rows == db.rows
  {
    hide HeldOk, CreatedOnce;
    if move.client < |calls| {
      var i := move.client;
      assert ClientOk(calls, rows, db, i);
      if db.clients[i].Reselecting? {
        RacedRow(calls, rows, db, i);
      }
      hide DbOk, RowsOk, NoClash;
      ClientIsAtomic(calls, rows, db, move);
    }
  }

  lemma ClientIsAtomic(calls: seq<Call>, rows: map<string, Row>, db: Db, move: Move)
    requires move.client < |calls| == |db.clients| && ClientOk(calls, rows, db, move.client)
    requires db.clients[move.client].Reselecting? ==>
      db.rows[KeyAt(calls, move.client)].requestHash == Digest(calls[move.client].action)
    ensures
      var db' := Step(calls, db, move);
      var i := move.client;
      if !db.clients[i].Finished? && db'.clients[i].Finished? then
        db'.rows == AtomicRows(db.rows, calls[i]) && db'.clients[i] == Finished(AtomicOutcome(db.rows, calls[i]))
      else db'.rows == db.rows
  {
  }

  /** The row a late client finds was written for its own action. */
  lemma RacedRow(calls: seq<Call>, rows: map<string, Row>, db: Db, i: nat)
    requires RowsOk(calls, rows, db) && NoClash(calls, rows) && i < |calls|
    requires KeyAt(calls, i) !in rows && KeyAt(calls, i) in db.rows
    ensures db.rows[KeyAt(calls, i)].requestHash == Digest(calls[i].action)
  {
    var key := KeyAt(calls, i);
    var j: nat :| CreatedBy(calls, db, key, j) && db.rows[key] == RowOf(calls[j]);
    assert calls[i].action == calls[j].action;
  }

  lemma StepFrame(calls: seq<Call>, db: Db, move: Move)
    requires |calls| == |db.clients|
    ensures forall q | 0 <= q < |calls| && q != move.client :: Step(calls, db, move).clients[q] == db.clients[q]
    ensures forall q | 0 <= q < |calls| && db.clients[q].Finished? :: Step(calls, db, move).clients[q] == db.clients[q]
  {
  }

  /** Every interleaving is equivalent to running the finished calls one at a time, in the
      order in which they finished: same table, same answers. */
  lemma {:induction false} Linearizable(calls: seq<Call>, rows: map<string, Row>, moves: seq<Move>)
    requires RowsKeyed(rows) && NoClash(calls, rows)
    ensures Serial(calls, rows, Run(calls, rows, moves), FinishOrder(calls, rows, moves))
  {
    hide DbOk;
    if moves == [] {
      RunEmpty(calls, rows);
    } else {
      var before, move := moves[..|moves| - 1], moves[|moves| - 1];
      Linearizable(calls, rows, before);
      RunKeeps(calls, rows, before);
      StepIsAtomic(calls, rows, Run(calls, rows, before), move);
      StepFrame(calls, Run(calls, rows, before), move);
      var db, db' := Run(calls, rows, before), Run(calls, rows, moves);
      var order, order' := FinishOrder(calls, rows, before), FinishOrder(calls, rows, moves);
      assert db' == Step(calls, db, move);
      assert order' == order || order' == order + [move.client];
      hide Run, Step, FinishOrder, AtomicRows, AtomicOutcome;
      LinearStep(calls, rows, db, db', order, order', move.client);
    }
  }

  /** An answer about another action's row is no answer of the atomic ledger, whatever its
      table. */
  lemma RaceIsNotSerial(calls: seq<Call>, rows: map<string, Row>, i: nat, j: nat)
    requires i < |calls| && j < |calls| && KeyAt(calls, i) == KeyAt(calls, j) && KeyAt(calls, i) !in rows
    requires calls[i].action != calls[j].action
    ensures
      var moves := RaceMoves(i, j);
      !Serial(calls, rows, Run(calls, rows, moves), FinishOrder(calls, rows, moves))
  {
    RaceRepeats(calls, rows, i, j);
    hide Run, FinishOrder, SerialRows;
    var moves := RaceMoves(i, j);
    var db, order := Run(calls, rows, moves), FinishOrder(calls, rows, moves);
    if j in order {
      var n :| 0 <= n < |order| && order[n] == j;
      assert !AnsweredAt(calls, rows, db, order, n);
    }
  }

  /** The SQL protocol is the atomic ledger, in every interleaving and in the order in which
      its clients finish, exactly when calls that race for a new key ask for one action. */
  lemma LinearizableIffNoClash(calls: seq<Call>, rows: map<string, Row>)
    requires RowsKeyed(rows)
    ensures
      (forall moves :: Serial(calls, rows, Run(calls, rows, moves), FinishOrder(calls, rows, moves))) <==>
      NoClash(calls, rows)
  {
    hide Run, FinishOrder, Serial;
    if NoClash(calls, rows) {
      forall moves ensures Serial(calls, rows, Run(calls, rows, moves), FinishOrder(calls, rows, moves)) {
        Linearizable(calls, rows, moves);
      }
    } else {
      var i, j :|
        && 0 <= i < |calls| && 0 <= j < |calls| && KeyAt(calls, i) == KeyAt(calls, j) && KeyAt(calls, i) !in rows
        && calls[i].action != calls[j].action;
      RaceIsNotSerial(calls, rows, i, j);
    }
  }

  /** The equivalence, extended by one step. */
  lemma LinearStep(calls: seq<Call>, rows: map<string, Row>, db: Db, db': Db, order: seq<nat>, order': seq<nat>, i: nat)
    requires |db.clients| == |db'.clients| == |calls|
    requires forall n | 0 <= n < |order| :: order[n] < |calls|
    requires Serial(calls, rows, db, order)
    requires order' == if i < |calls| && !db.clients[i].Finished? && db'.clients[i].Finished? then order + [i]
        else order
    requires
      if i < |calls| && !db.clients[i].Finished? && db'.clients[i].Finished? then
        db'.rows == AtomicRows(db.rows, calls[i]) && db'.clients[i] == Finished(AtomicOutcome(db.rows, calls[i]))
      else db'.rows == db.rows
    requires forall q | 0 <= q < |calls| && q != i :: db'.clients[q] == db.clients[q]
    requires forall q | 0 <= q < |calls| && db.clients[q].Finished? :: db'.clients[q] == db.clients[q]
    ensures Serial(calls, rows, db', order')
  {
    hide AtomicRows, AtomicOutcome, SerialRows;
    if order' == order {
      forall n | 0 <= n < |order| ensures AnsweredAt(calls, rows, db', order, n) {
        assert AnsweredAt(calls, rows, db, order, n);
      }
    } else {
      LinearAppend(calls, rows, db, db', order, i);
    }
  }

  lemma LinearAppend(calls: seq<Call>, rows: map<string, Row>, db: Db, db': Db, order: seq<nat>, i: nat)
    requires |db.clients| == |db'.clients| == |calls| && i < |calls|
    requires forall n | 0 <= n < |order| :: order[n] < |calls|
    requires Serial(calls, rows, db, order)
    requires !db.clients[i].Finished? && db'.rows == AtomicRows(db.rows, calls[i])
    requires db'.clients[i] == Finished(AtomicOutcome(db.rows, calls[i]))
    requires forall q | 0 <= q < |calls| && q != i :: db'.clients[q] == db.clients[q]
    ensures Serial(calls, rows, db', order + [i])
  {
    hide AtomicRows, AtomicOutcome;
    var order' := order + [i];
    assert order'[..|order|] == order;
    assert forall n | 0 <= n < |order| && order[n] == i :: AnsweredAt(calls, rows, db, order, n);
    hide SerialRows;
    forall n | 0 <= n < |order'| ensures AnsweredAt(calls, rows, db', order', n) {
      if n < |order| {
        assert AnsweredAt(calls, rows, db, order, n);
        assert order'[..n] == order[..n];
      }
    }
    hide AnsweredAt;
    forall q | 0 <= q < |calls| && db'.clients[q].Finished? ensures q in order' {
      assert q != i ==> q in order;
    }
  }
}
