/**
 Concurrent enqueues.  Each call reads for a ready duplicate, then inserts a document and a job in
 one transaction.  An uncommitted key makes other inserts of it wait; a committed one makes them
 fail, roll back and look up the holder.  Any two calls that get as far as the insert with one
 key return one document.
 */
module EnqueueRace {
  import opened Basics
  import opened Keys
  import opened Rows
  import opened Dedup
  import Queue
  import QueueAlways

  datatype Stage =
    | Missed               // the short-circuit found nothing
    | DocInserted          // the document row is in the transaction
    | JobInserted          // so is the job row; its key is held
    | Conflicted           // unique violation, rolled back
    | ShortCircuited(id: Id)
    | Committed            // returned its own document
    | InDoubt              // committed, but returned an error
    | FoundExisting(id: Id)
    | Failed               // returned an error; the transaction is gone

  datatype Call = Call(input: Input, docId: Id, jobId: Id, stage: Stage)

  datatype Race = Race(tables: Tables, now: int, used: set<Id>, calls: map<Id, Call>)

  datatype Move =
    | Arrive(caller: Id, input: Input, docId: Id, jobId: Id, hit: Option<Id>)
    | InsertDoc(caller: Id)
    | InsertJob(caller: Id)
    | CommitTx(caller: Id, acknowledged: bool)
    | LookUp(caller: Id, ok: bool)
    | Abort(caller: Id)
    | Update(after: Tables)
    | Delete(doc: Id)

  function KeyOf(sha: string -> string, call: Call): string {
    InputKey(sha, call.input)
  }

  /** The call's rows were committed. */
  predicate Wrote(stage: Stage) {
    stage.Committed? || stage.InDoubt?
  }

  predicate AtStage(r: Race, c: Id, stage: Stage) {
    c in r.calls && r.calls[c].stage == stage
  }

  /** Some transaction holds the key without having committed. */
  ghost predicate KeyHeld(sha: string -> string, r: Race, key: string) {
    exists c :: AtStage(r, c, JobInserted) && KeyOf(sha, r.calls[c]) == key
  }

  ghost predicate Open(sha: string -> string, r: Race, m: Move) {
    match m
    case Arrive(c, input, d, j, hit) =>
      c !in r.calls && d !in r.used && j !in r.used && d != j
      && (hit.Some? ==> FastPathMatches(sha, r.tables, input, hit.value))   // a failed read finds nothing
    case InsertDoc(c) => AtStage(r, c, Missed)
    case InsertJob(c) => AtStage(r, c, DocInserted) && !KeyHeld(sha, r, KeyOf(sha, r.calls[c]))
    case CommitTx(c, _) => AtStage(r, c, JobInserted)
    case LookUp(c, _) => AtStage(r, c, Conflicted)
    case Abort(c) =>
      AtStage(r, c, Missed) || AtStage(r, c, DocInserted) || AtStage(r, c, JobInserted)
    case Update(after) => SameRows(r.tables, after)
    case Delete(d) => d in r.tables.docs
  }

  function WithStage(r: Race, c: Id, stage: Stage): Race
    requires c in r.calls
  {
    r.(calls := r.calls[c := r.calls[c].(stage := stage)])
  }

  /** What the lookup by key returns. */
  ghost function Found(sha: string -> string, t: Tables, key: string): Option<Id> {
    if j :| j in t.jobs && t.jobs[j].key == key then Some(t.jobs[j].docId) else None
  }

  ghost function Next(sha: string -> string, r: Race, m: Move): Race
    requires Open(sha, r, m)
  {
    match m
    case Arrive(c, input, d, j, hit) =>
      r.(used := r.used + {d, j},
         calls := r.calls[c := Call(input, d, j, if hit.Some? then ShortCircuited(hit.value) else Missed)])
    case InsertDoc(c) => WithStage(r, c, DocInserted)
    case InsertJob(c) => WithStage(r, c, if KeyTaken(r.tables, KeyOf(sha, r.calls[c])) then Conflicted else JobInserted)
    case CommitTx(c, acknowledged) =>
      var call := r.calls[c];
      WithStage(r, c, if acknowledged then Stage.Committed else InDoubt).(tables := InsertPair(sha, r.tables, call.docId, call.jobId, call.input, r.now))
    case LookUp(c, ok) =>
      var found := Found(sha, r.tables, KeyOf(sha, r.calls[c]));
      WithStage(r, c, if ok && found.Some? then FoundExisting(found.value) else Failed)
    case Abort(c) => WithStage(r, c, Failed)
    case Update(after) => r.(tables := after)
    case Delete(d) => r.(tables := DeleteDocRow(r.tables, d))
  }

  // ---- invariants of every run -----------------------------------------------------

  ghost predicate KeyOnce(r: Race, j: Id, k: Id) {
    j in r.tables.jobs && k in r.tables.jobs && r.tables.jobs[j].key == r.tables.jobs[k].key ==> j == k
  }

  /** A held key is in no committed row and in no other open transaction. */
  ghost predicate HeldAlone(sha: string -> string, r: Race, c: Id) {
    AtStage(r, c, JobInserted) ==>
      && !KeyTaken(r.tables, KeyOf(sha, r.calls[c]))
      && forall b :: AtStage(r, b, JobInserted) && KeyOf(sha, r.calls[b]) == KeyOf(sha, r.calls[c]) ==> b == c
  }

  /** The ids a call drew are its own, and its rows exist only after its commit. */
  ghost predicate OwnIds(r: Race, c: Id) {
    c in r.calls ==>
      && r.calls[c].docId in r.used && r.calls[c].jobId in r.used
      && (!Wrote(r.calls[c].stage) ==> r.calls[c].docId !in r.tables.docs && r.calls[c].jobId !in r.tables.jobs)
  }

  ghost predicate IdsApart(r: Race, b: Id, c: Id) {
    b in r.calls && c in r.calls && b != c ==>
      {r.calls[b].docId, r.calls[b].jobId} !! {r.calls[c].docId, r.calls[c].jobId}
  }

  ghost predicate DocHasOneJob(r: Race, d: Id) {
    d in r.tables.docs ==> exists j :: IsOnlyJobOf(r, j, d)
  }

  ghost predicate IsOnlyJobOf(r: Race, j: Id, d: Id) {
    j in r.tables.jobs && r.tables.jobs[j].docId == d
    && forall k :: k in r.tables.jobs && r.tables.jobs[k].docId == d ==> k == j
  }

  ghost predicate JobHasDoc(r: Race, j: Id) {
    j in r.tables.jobs ==> j in r.used && r.tables.jobs[j].docId in r.tables.docs && r.tables.jobs[j].docId in r.used
  }

  ghost predicate Sound(sha: string -> string, r: Race) {
    && (forall j, k :: KeyOnce(r, j, k))
    && (forall c :: HeldAlone(sha, r, c))
    && (forall c :: OwnIds(r, c))
    && (forall b, c :: IdsApart(r, b, c))
    && (forall d :: DocHasOneJob(r, d))
    && (forall j :: JobHasDoc(r, j))
    && (forall d :: d in r.tables.docs ==> d in r.used)
  }

  lemma CommitSound(sha: string -> string, r: Race, c: Id, acknowledged: bool)
    requires Sound(sha, r) && Open(sha, r, CommitTx(c, acknowledged))
    ensures Sound(sha, Next(sha, r, CommitTx(c, acknowledged)))
  {
    var m := CommitTx(c, acknowledged);
    var r' := Next(sha, r, m);
    var call := r.calls[c];
    assert HeldAlone(sha, r, c) && OwnIds(r, c);
    forall j, k ensures KeyOnce(r', j, k) { assert KeyOnce(r, j, k); }
    forall b ensures HeldAlone(sha, r', b) { assert HeldAlone(sha, r, b) && HeldAlone(sha, r, c); }
    forall b ensures OwnIds(r', b) { assert OwnIds(r, b) && IdsApart(r, b, c); }
    forall a, b ensures IdsApart(r', a, b) { assert IdsApart(r, a, b); }
    forall j ensures JobHasDoc(r', j) { assert JobHasDoc(r, j); }
    forall d ensures DocHasOneJob(r', d) { CommitPairs(sha, r, c, acknowledged, d); }
  }

  lemma CommitPairs(sha: string -> string, r: Race, c: Id, acknowledged: bool, d: Id)
    requires Sound(sha, r) && Open(sha, r, CommitTx(c, acknowledged))
    ensures DocHasOneJob(Next(sha, r, CommitTx(c, acknowledged)), d)
  {
    var r' := Next(sha, r, CommitTx(c, acknowledged));
    var call := r.calls[c];
    assert OwnIds(r, c) && DocHasOneJob(r, d);
    if d == call.docId {
      forall k | k in r.tables.jobs ensures r.tables.jobs[k].docId != d { assert JobHasDoc(r, k); }
      assert IsOnlyJobOf(r', call.jobId, d);
    } else if d in r.tables.docs {
      var j :| IsOnlyJobOf(r, j, d);
      assert IsOnlyJobOf(r', j, d);
    }
  }

  lemma UpdateSound(sha: string -> string, r: Race, after: Tables)
    requires Sound(sha, r) && Open(sha, r, Update(after))
    ensures Sound(sha, Next(sha, r, Update(after)))
  {
    var r' := Next(sha, r, Update(after));
    forall j, k ensures KeyOnce(r', j, k) { assert KeyOnce(r, j, k); }
    forall c ensures HeldAlone(sha, r', c) { assert HeldAlone(sha, r, c); }
    forall c ensures OwnIds(r', c) { assert OwnIds(r, c); }
    forall b, c ensures IdsApart(r', b, c) { assert IdsApart(r, b, c); }
    forall j ensures JobHasDoc(r', j) { assert JobHasDoc(r, j); }
    forall d ensures DocHasOneJob(r', d) {
      assert DocHasOneJob(r, d);
      if d in r.tables.docs {
        var j :| IsOnlyJobOf(r, j, d);
        assert IsOnlyJobOf(r', j, d);
      }
    }
  }

  lemma DeleteSound(sha: string -> string, r: Race, d: Id)
    requires Sound(sha, r) && Open(sha, r, Delete(d))
    ensures Sound(sha, Next(sha, r, Delete(d)))
  {
    var r' := Next(sha, r, Delete(d));
    forall j, k ensures KeyOnce(r', j, k) { assert KeyOnce(r, j, k); }
    forall c ensures HeldAlone(sha, r', c) { assert HeldAlone(sha, r, c); }
    forall c ensures OwnIds(r', c) { assert OwnIds(r, c); }
    forall b, c ensures IdsApart(r', b, c) { assert IdsApart(r, b, c); }
    forall j ensures JobHasDoc(r', j) { assert JobHasDoc(r, j); }
    forall e ensures DocHasOneJob(r', e) {
      assert DocHasOneJob(r, e);
      if e in r'.tables.docs {
        var j :| IsOnlyJobOf(r, j, e);
        assert IsOnlyJobOf(r', j, e);
      }
    }
  }

  /** Moves that only advance one call leave the tables alone. */
  lemma CallMoveSound(sha: string -> string, r: Race, m: Move)
    requires Sound(sha, r) && Open(sha, r, m) && !m.CommitTx? && !m.Update? && !m.Delete?
    ensures Sound(sha, Next(sha, r, m))
  {
    var r' := Next(sha, r, m);
    forall j, k ensures KeyOnce(r', j, k) { assert KeyOnce(r, j, k); }
    forall c ensures HeldAlone(sha, r', c) { CallMoveHeld(sha, r, m, c); }
    forall c ensures OwnIds(r', c) {
      assert OwnIds(r, c);
      if c in r'.calls { assert JobHasDoc(r, r'.calls[c].jobId); }
    }
    forall b, c ensures IdsApart(r', b, c) { assert IdsApart(r, b, c) && OwnIds(r, b) && OwnIds(r, c); }
    forall j ensures JobHasDoc(r', j) { assert JobHasDoc(r, j); }
    forall d ensures DocHasOneJob(r', d) {
      assert DocHasOneJob(r, d);
      if d in r.tables.docs {
        var j :| IsOnlyJobOf(r, j, d);
        assert IsOnlyJobOf(r', j, d);
      }
    }
  }

  lemma CallMoveHeld(sha: string -> string, r: Race, m: Move, c: Id)
    requires Sound(sha, r) && Open(sha, r, m) && !m.CommitTx? && !m.Update? && !m.Delete?
    ensures HeldAlone(sha, Next(sha, r, m), c)
  {
    assert HeldAlone(sha, r, c);
    var r' := Next(sha, r, m);
    if AtStage(r', c, JobInserted) {
      forall b | AtStage(r', b, JobInserted) && KeyOf(sha, r'.calls[b]) == KeyOf(sha, r'.calls[c]) ensures b == c {
        assert HeldAlone(sha, r, b);
      }
    }
  }

  lemma SoundStep(sha: string -> string, r: Race, m: Move)
    requires Sound(sha, r) && Open(sha, r, m)
    ensures Sound(sha, Next(sha, r, m))
  {
    match m
    case CommitTx(c, acknowledged) => CommitSound(sha, r, c, acknowledged);
    case Update(after) => UpdateSound(sha, r, after);
    case Delete(d) => DeleteSound(sha, r, d);
    case _ => CallMoveSound(sha, r, m);
  }

  // ---- runs -----------------------------------------------------------------------

  ghost predicate Played(sha: string -> string, moves: seq<Move>)
    decreases |moves|, 0
  {
    moves == [] || (Played(sha, moves[..|moves| - 1]) && Open(sha, Outcome(sha, moves[..|moves| - 1]), moves[|moves| - 1]))
  }

  ghost function Outcome(sha: string -> string, moves: seq<Move>): Race
    requires Played(sha, moves)
    decreases |moves|, 1
  {
    if moves == [] then Race(Tables(map[], map[]), 0, {}, map[])
    else Next(sha, Outcome(sha, moves[..|moves| - 1]), moves[|moves| - 1])
  }

  lemma {:induction false} AlwaysSound(sha: string -> string, moves: seq<Move>)
    requires Played(sha, moves)
    ensures Sound(sha, Outcome(sha, moves))
    decreases |moves|
  {
    if moves != [] {
      AlwaysSound(sha, moves[..|moves| - 1]);
      SoundStep(sha, Outcome(sha, moves[..|moves| - 1]), moves[|moves| - 1]);
    }
  }

  /** The id a call returned after reaching the insert. */
  function InsertResult(call: Call): Option<Id> {
    match call.stage
    case Committed => Some(call.docId)
    case FoundExisting(id) => Some(id)
    case _ => None
  }

  /** What the call returned is the document its key leads to. */
  ghost predicate ResultStands(sha: string -> string, r: Race, c: Id) {
    c in r.calls && InsertResult(r.calls[c]).Some? ==>
      KeyLeadsTo(sha, r.tables, r.calls[c].input, InsertResult(r.calls[c]).value)
  }

  lemma ResultStep(sha: string -> string, r: Race, m: Move, c: Id)
    requires Sound(sha, r) && Open(sha, r, m) && !m.Delete? && ResultStands(sha, r, c)
    ensures ResultStands(sha, Next(sha, r, m), c)
  {
    var r' := Next(sha, r, m);
    if c in r.calls && InsertResult(r.calls[c]).Some? {
      var id := InsertResult(r.calls[c]).value;
      var j :| j in r.tables.jobs && r.tables.jobs[j].key == InputKey(sha, r.calls[c].input) && r.tables.jobs[j].docId == id;
      if m.CommitTx? {
        assert OwnIds(r, m.caller);
      }
      assert j in r'.tables.jobs && r'.tables.jobs[j].key == InputKey(sha, r.calls[c].input) && r'.tables.jobs[j].docId == id;
    } else if AtStage(r, c, JobInserted) && m.CommitTx? && m.caller == c && m.acknowledged {
      var call := r.calls[c];
      assert r'.tables.jobs[call.jobId].key == InputKey(sha, call.input) && r'.tables.jobs[call.jobId].docId == call.docId;
    }
  }

  lemma {:induction false} ResultsStand(sha: string -> string, moves: seq<Move>, c: Id)
    requires Played(sha, moves) && forall n :: 0 <= n < |moves| ==> !moves[n].Delete?
    ensures ResultStands(sha, Outcome(sha, moves), c)
    decreases |moves|
  {
    if moves != [] {
      var front := moves[..|moves| - 1];
      ResultsStand(sha, front, c);
      AlwaysSound(sha, front);
      ResultStep(sha, Outcome(sha, front), moves[|moves| - 1], c);
    }
  }

  /**
   Transactional dedup: in any interleaving without deletes, two calls that reached the insert with
   one key returned the same document, which has one job, the only one with that key.
   */
  lemma SameKeySameDocument(sha: string -> string, moves: seq<Move>, b: Id, c: Id)
    requires Played(sha, moves) && forall n :: 0 <= n < |moves| ==> !moves[n].Delete?
    requires
      var r := Outcome(sha, moves);
      && b in r.calls && c in r.calls && KeyOf(sha, r.calls[b]) == KeyOf(sha, r.calls[c])
      && InsertResult(r.calls[b]).Some? && InsertResult(r.calls[c]).Some?
    ensures
      var r := Outcome(sha, moves);
      && InsertResult(r.calls[b]) == InsertResult(r.calls[c])
      && exists j :: IsOnlyJobOf(r, j, InsertResult(r.calls[b]).value) && r.tables.jobs[j].key == KeyOf(sha, r.calls[b])
           && forall k :: k in r.tables.jobs && r.tables.jobs[k].key == KeyOf(sha, r.calls[b]) ==> k == j
  {
    var r := Outcome(sha, moves);
    AlwaysSound(sha, moves);
    ResultsStand(sha, moves, b);
    ResultsStand(sha, moves, c);
    var id, key := InsertResult(r.calls[b]).value, KeyOf(sha, r.calls[b]);
    var j :| j in r.tables.jobs && r.tables.jobs[j].key == key && r.tables.jobs[j].docId == id;
    var k :| k in r.tables.jobs && r.tables.jobs[k].key == key && r.tables.jobs[k].docId == InsertResult(r.calls[c]).value;
    assert KeyOnce(r, j, k) && JobHasDoc(r, j) && DocHasOneJob(r, id);
    forall i | i in r.tables.jobs && r.tables.jobs[i].key == key ensures i == j { assert KeyOnce(r, i, j); }
    assert IsOnlyJobOf(r, j, id);
  }

  lemma AnswerStands(sha: string -> string, r: Race, m: Move, c: Id, id: Id)
    requires Open(sha, r, m) && AtStage(r, c, ShortCircuited(id))
    ensures AtStage(Next(sha, r, m), c, ShortCircuited(id))
  {
    hide FastPathMatches, KeyTaken, KeyHeld, Found, InsertPair, DeleteDocRow;
  }

  lemma ArrivalAnswered(sha: string -> string, r: Race, m: Move)
    requires Open(sha, r, m) && m.Arrive? && m.hit.Some?
    ensures FastPathMatches(sha, r.tables, m.input, m.hit.value)
    ensures AtStage(Next(sha, r, m), m.caller, ShortCircuited(m.hit.value))
  {
  }

  /** A call answered by the short-circuit keeps that answer, which matched when it was read. */
  lemma {:induction false} ShortCircuitStands(sha: string -> string, moves: seq<Move>, n: nat)
    requires Played(sha, moves) && n < |moves| && moves[n].Arrive? && moves[n].hit.Some?
    ensures Played(sha, moves[..n]) && FastPathMatches(sha, Outcome(sha, moves[..n]).tables, moves[n].input, moves[n].hit.value)
    ensures AtStage(Outcome(sha, moves), moves[n].caller, ShortCircuited(moves[n].hit.value))
    decreases |moves|
  {
    hide FastPathMatches, Next, Open, AtStage;
    var front := moves[..|moves| - 1];
    if n < |front| {
      ShortCircuitStands(sha, front, n);
      assert front[..n] == moves[..n];
      AnswerStands(sha, Outcome(sha, front), moves[|moves| - 1], moves[n].caller, moves[n].hit.value);
    } else {
      assert moves[..n] == front;
      ArrivalAnswered(sha, Outcome(sha, front), moves[n]);
    }
  }

  lemma PlayOn(sha: string -> string, moves: seq<Move>, m: Move)
    requires Played(sha, moves) && Open(sha, Outcome(sha, moves), m)
    ensures Played(sha, moves + [m]) && Outcome(sha, moves + [m]) == Next(sha, Outcome(sha, moves), m)
  {
    assert (moves + [m])[..|moves|] == moves;
  }

  /** The call has returned what its insert came to: the document that holds its key, or its own in a fresh pair of rows. */
  ghost predicate Finished(sha: string -> string, r: Race, after: Race, c: Id) {
    && c in r.calls && c in after.calls
    && var call, returned := r.calls[c], InsertResult(after.calls[c]);
    && returned.Some?
    && if KeyTaken(r.tables, InputKey(sha, call.input)) then
         after.tables == r.tables && KeyLeadsTo(sha, r.tables, call.input, returned.value)
       else returned.value == call.docId && after.tables == InsertPair(sha, r.tables, call.docId, call.jobId, call.input, r.now)
  }

  /** From its document's insert on, a call that meets no failure finishes, as long as nobody holds its key uncommitted. */
  lemma InsertFinishes(sha: string -> string, moves: seq<Move>, c: Id) returns (rest: seq<Move>)
    requires Played(sha, moves) && AtStage(Outcome(sha, moves), c, DocInserted)
    requires !KeyHeld(sha, Outcome(sha, moves), KeyOf(sha, Outcome(sha, moves).calls[c]))
    ensures |rest| == 2 && Played(sha, moves + rest) && Finished(sha, Outcome(sha, moves), Outcome(sha, moves + rest), c)
  {
    var insert := InsertJob(c);
    PlayOn(sha, moves, insert);
    var r := Outcome(sha, moves);
    var last := if KeyTaken(r.tables, KeyOf(sha, r.calls[c])) then LookUp(c, true) else CommitTx(c, true);
    PlayOn(sha, moves + [insert], last);
    rest := [insert, last];
    assert moves + rest == moves + [insert] + [last];
  }

  /** So does a call whose short-circuit found nothing. */
  lemma CallFinishes(sha: string -> string, moves: seq<Move>, c: Id) returns (rest: seq<Move>)
    requires Played(sha, moves) && AtStage(Outcome(sha, moves), c, Missed)
    requires !KeyHeld(sha, Outcome(sha, moves), KeyOf(sha, Outcome(sha, moves).calls[c]))
    ensures |rest| == 3 && Played(sha, moves + rest) && Finished(sha, Outcome(sha, moves), Outcome(sha, moves + rest), c)
  {
    hide Finished, Played, Outcome, KeyHeld, InsertPair, KeyTaken;
    PlayOn(sha, moves, InsertDoc(c));
    var begun := moves + [InsertDoc(c)];
    NobodyHolds(sha, Outcome(sha, moves), c);
    var more := InsertFinishes(sha, begun, c);
    rest := [InsertDoc(c)] + more;
    assert moves + rest == begun + more;
    FinishedFromStart(sha, Outcome(sha, moves), Outcome(sha, moves + rest), c);
  }

  lemma FinishedFromStart(sha: string -> string, r: Race, after: Race, c: Id)
    requires c in r.calls && Finished(sha, WithStage(r, c, DocInserted), after, c)
    ensures Finished(sha, r, after, c)
  {
  }

  lemma NobodyHolds(sha: string -> string, r: Race, c: Id)
    requires AtStage(r, c, Missed) && !KeyHeld(sha, r, KeyOf(sha, r.calls[c]))
    ensures !KeyHeld(sha, WithStage(r, c, DocInserted), KeyOf(sha, r.calls[c]))
  {
    forall b | AtStage(WithStage(r, c, DocInserted), b, JobInserted) ensures AtStage(r, b, JobInserted) {
    }
  }

  /** A call that fails before its commit leaves the tables as they are and its key to whoever waits for it. */
  lemma FailureFreesKey(sha: string -> string, moves: seq<Move>, c: Id)
    requires Played(sha, moves) && AtStage(Outcome(sha, moves), c, JobInserted)
    ensures Played(sha, moves + [Abort(c)]) && Outcome(sha, moves + [Abort(c)]).tables == Outcome(sha, moves).tables
    ensures AtStage(Outcome(sha, moves + [Abort(c)]), c, Failed)
    ensures !KeyHeld(sha, Outcome(sha, moves + [Abort(c)]), KeyOf(sha, Outcome(sha, moves).calls[c]))
  {
    AlwaysSound(sha, moves);
    PlayOn(sha, moves, Abort(c));
    var r, after := Outcome(sha, moves), Outcome(sha, moves + [Abort(c)]);
    assert HeldAlone(sha, r, c);
    hide Played, Outcome, Sound;
    forall b | AtStage(after, b, JobInserted) ensures AtStage(r, b, JobInserted) && b != c && after.calls[b] == r.calls[b] {
    }
  }

  /** Whatever else the queue does to existing rows can happen between the statements of a race. */
  lemma QueueStepsAreUpdates(env: Queue.Env, s: Queue.System, l: Queue.Label, r: Race)
    requires Queue.Enabled(env, s, l) && !l.Enqueue? && !l.DeleteRow? && r.tables == s.tables
    ensures Open(env.sha, r, Update(Queue.TablesAfter(env, s, l)))
  {
    hide Queue.TablesAfter, Queue.Enabled;
    QueueAlways.StepKeepsRows(env, s, l);
  }

  /** A call that lost, failed before its commit or is still open has left no row behind, in any run. */
  lemma LosersLeaveNoRow(sha: string -> string, moves: seq<Move>, c: Id)
    requires Played(sha, moves) && c in Outcome(sha, moves).calls
    requires !Wrote(Outcome(sha, moves).calls[c].stage)
    ensures
      var r := Outcome(sha, moves);
      r.calls[c].docId !in r.tables.docs && r.calls[c].jobId !in r.tables.jobs
  {
    AlwaysSound(sha, moves);
    assert OwnIds(Outcome(sha, moves), c);
  }

  ghost predicate HasRows(r: Race, c: Id) {
    c in r.calls && r.calls[c].docId in r.tables.docs && r.calls[c].jobId in r.tables.jobs
  }

  ghost predicate WroteHasRows(r: Race, c: Id) {
    c in r.calls && Wrote(r.calls[c].stage) ==> HasRows(r, c)
  }

  /** Without deletes a call's rows are there exactly when its commit happened, whether or not it was told so. */
  lemma {:induction false} RowsExactlyOfCommits(sha: string -> string, moves: seq<Move>, c: Id)
    requires Played(sha, moves) && forall n :: 0 <= n < |moves| ==> !moves[n].Delete?
    ensures c in Outcome(sha, moves).calls ==> (HasRows(Outcome(sha, moves), c) <==> Wrote(Outcome(sha, moves).calls[c].stage))
    decreases |moves|
  {
    AlwaysSound(sha, moves);
    assert OwnIds(Outcome(sha, moves), c);
    if moves != [] {
      RowsExactlyOfCommits(sha, moves[..|moves| - 1], c);
      assert WroteHasRows(Outcome(sha, moves[..|moves| - 1]), c);
      WroteStep(sha, Outcome(sha, moves[..|moves| - 1]), moves[|moves| - 1], c);
    }
  }

  lemma WroteStep(sha: string -> string, r: Race, m: Move, c: Id)
    requires Open(sha, r, m) && !m.Delete? && WroteHasRows(r, c)
    ensures WroteHasRows(Next(sha, r, m), c)
  {
  }

  /** Once the document is deleted its key is free: the next insert with it neither waits nor conflicts. */
  lemma DeletionFreesKey(sha: string -> string, moves: seq<Move>, d: Id, input: Input)
    requires Played(sha, moves) && KeyLeadsTo(sha, Outcome(sha, moves).tables, input, d)
    ensures d in Outcome(sha, moves).tables.docs
    ensures
      var after := Next(sha, Outcome(sha, moves), Delete(d));
      !KeyTaken(after.tables, InputKey(sha, input)) && !KeyHeld(sha, after, InputKey(sha, input))
  {
    var r := Outcome(sha, moves);
    AlwaysSound(sha, moves);
    var j :| j in r.tables.jobs && r.tables.jobs[j].key == InputKey(sha, input) && r.tables.jobs[j].docId == d;
    assert JobHasDoc(r, j);
    forall k | k in r.tables.jobs && r.tables.jobs[k].key == InputKey(sha, input) ensures k == j {
      assert KeyOnce(r, j, k);
    }
    forall c | AtStage(r, c, JobInserted) ensures KeyOf(sha, r.calls[c]) != InputKey(sha, input) {
      assert HeldAlone(sha, r, c);
    }
  }

  /** A commit is the queue's enqueue step: its ids are fresh to the tables and its key is taken by no row. */
  lemma CommitIsEnqueue(sha: string -> string, moves: seq<Move>, c: Id, acknowledged: bool)
    requires Played(sha, moves) && Open(sha, Outcome(sha, moves), CommitTx(c, acknowledged))
    ensures
      var r := Outcome(sha, moves);
      var call := r.calls[c];
      && call.docId !in r.tables.docs && call.jobId !in r.tables.jobs && !KeyTaken(r.tables, InputKey(sha, call.input))
      && Next(sha, r, CommitTx(c, acknowledged)).tables == InsertPair(sha, r.tables, call.docId, call.jobId, call.input, r.now)
  {
    AlwaysSound(sha, moves);
    var r := Outcome(sha, moves);
    assert HeldAlone(sha, r, c) && OwnIds(r, c);
  }
}

/** Enqueue and Retry as the ingest service runs them, one caller at a time. */
module IngestService {
  import opened Basics
  import opened Keys
  import opened Rows
  import opened Dedup
  import opened WorkerCode

  /** Which of the statements of an enqueue go through. */
  datatype EnqueueCalls = EnqueueCalls(checkOk: bool, begun: bool, docInserted: bool, jobInserted: bool, end: CommitEnd, lookupOk: bool)

  class Service {
    const sha: string -> string
    const db: Database

    constructor (sha: string -> string, db: Database)
      ensures this.sha == sha && this.db == db
    {
      this.sha, this.db := sha, db;
    }

    /**
     The document the short-circuit finds, else the one that holds the key, else a fresh pair of rows; an error
     when a statement fails, which after a commit in doubt leaves the pair.
     */
    method Enqueue(input: Input, docId: Id, jobId: Id, calls: EnqueueCalls) returns (r: Result<Id>)
      requires docId !in db.tables.docs && jobId !in db.tables.jobs
      modifies db`tables
      ensures r.Err? ==>
        || db.tables == old(db.tables)
        || (calls.end.CommitInDoubt? && !KeyTaken(old(db.tables), InputKey(sha, input))
            && db.tables == InsertPair(sha, old(db.tables), docId, jobId, input, db.now))
      ensures r.Ok? ==>
        || (db.tables == old(db.tables) && FastPathMatches(sha, old(db.tables), input, r.value))
        || (db.tables == old(db.tables) && KeyLeadsTo(sha, old(db.tables), input, r.value))
        || (r.value == docId && !KeyTaken(old(db.tables), InputKey(sha, input))
            && db.tables == InsertPair(sha, old(db.tables), docId, jobId, input, db.now))
      ensures KeyTaken(old(db.tables), InputKey(sha, input)) ==> db.tables == old(db.tables)
      ensures Matched(sha, old(db.tables), input, calls) ==>
        r.Ok? && FastPathMatches(sha, old(db.tables), input, r.value) && db.tables == old(db.tables)
      ensures calls.checkOk && !input.sourceType.Url? && (exists d :: d in old(db.tables.docs) && HasContent(sha, old(db.tables.docs[d]), input)) ==>
        r.Ok? && db.tables == old(db.tables) && r.value in old(db.tables.docs) && HasContent(sha, old(db.tables.docs[r.value]), input)
      ensures !Matched(sha, old(db.tables), input, calls) && !(calls.begun && calls.docInserted) ==>
        r.Err? && db.tables == old(db.tables)
      ensures !Matched(sha, old(db.tables), input, calls) && KeyTaken(old(db.tables), InputKey(sha, input)) ==>
        && (calls.begun && calls.docInserted && calls.lookupOk && HolderNamed(old(db.tables), InputKey(sha, input)) ==>
              r.Ok? && KeyLeadsTo(sha, old(db.tables), input, r.value))
        && (!calls.lookupOk ==> r.Err?)
      ensures
        !Matched(sha, old(db.tables), input, calls) && !KeyTaken(old(db.tables), InputKey(sha, input))
        && calls.begun && calls.docInserted ==>
          if calls.jobInserted && !calls.end.CommitLost? then
            && db.tables == InsertPair(sha, old(db.tables), docId, jobId, input, db.now)
            && (if calls.end.Committed? then r == Ok(docId) else r.Err?)
          else r.Err? && db.tables == old(db.tables)
    {
      var cs := InputChecksum(sha, input);
      if cs != "" && calls.checkOk {
        if d :| d in db.tables.docs && ReadyMatch(db.tables.docs[d], input, cs) {
          return Ok(d);
        }
      }
      var key := IdempotencyKey(sha, input.kb, input.sourceRef, input.title, cs);
      if !calls.begun || !calls.docInserted {
        return Err("ingest: insert document");
      }
      var staged := db.tables.(docs := db.tables.docs[docId := NewDoc(sha, input)]);
      if j :| j in db.tables.jobs && db.tables.jobs[j].key == key {
        if calls.lookupOk && db.tables.jobs[j].docId != "" {
          return Ok(db.tables.jobs[j].docId);
        }
        return Err("ingest: insert job");
      }
      if !calls.jobInserted {
        return Err("ingest: insert job");
      }
      staged := staged.(jobs := staged.jobs[jobId := NewJob(sha, docId, input, db.now)]);
      if calls.end.CommitLost? {
        return Err("commit");
      }
      db.tables := staged;
      r := if calls.end.Committed? then Ok(docId) else Err("commit");
    }

    /**
     Revives a dead job and then its document; any other job is refused with nothing written.  An error can
     leave the job revived alone, or both when only the answer to the second write was lost.
     */
    method Retry(kb: Id, docId: Id, jobEnd: CommitEnd, docEnd: CommitEnd) returns (r: Result<()>)
      requires forall j, k :: j in db.tables.jobs && k in db.tables.jobs && db.tables.jobs[j].docId == db.tables.jobs[k].docId ==> j == k
      modifies db`tables
      ensures r.Ok? <==> jobEnd.Committed? && docEnd.Committed? && exists j :: Revivable(old(db.tables), kb, docId, j)
      ensures r.Ok? ==> exists j :: RevivedFully(old(db.tables), db.tables, kb, docId, j, db.now)
      ensures r.Err? && db.tables != old(db.tables) ==>
        || (exists j :: RevivedHalf(old(db.tables), db.tables, kb, docId, j, db.now))
        || (docEnd.CommitInDoubt? && exists j :: RevivedFully(old(db.tables), db.tables, kb, docId, j, db.now))
      ensures !jobEnd.CommitLost? && (exists j :: Revivable(old(db.tables), kb, docId, j)) ==>
        if jobEnd.Committed? && !docEnd.CommitLost? then exists j :: RevivedFully(old(db.tables), db.tables, kb, docId, j, db.now)
        else exists j :: RevivedHalf(old(db.tables), db.tables, kb, docId, j, db.now)
      ensures (forall j :: !Revivable(old(db.tables), kb, docId, j)) ==> r.Err? && db.tables == old(db.tables)
      ensures r.Ok? ==> exists j :: Revived(old(db.tables), db.tables, kb, docId, j, db.now)
      ensures
        jobEnd.Committed? && docEnd.Committed? && docId in old(db.tables.docs) && old(db.tables.docs[docId]).kb == kb
        && (exists j :: j in old(db.tables.jobs) && old(db.tables.jobs[j]).docId == docId && old(db.tables.jobs[j]).state == JobDead)
        ==> r.Ok?
    {
      if jobEnd.CommitLost? {
        return Err("ingest: retry");
      }
      if j :| j in db.tables.jobs && Revivable(db.tables, kb, docId, j) {
        ghost var before := db.tables;
        db.tables := ReviveJob(db.tables, j, db.now);
        assert RevivedHalf(before, db.tables, kb, docId, j, db.now);
        if jobEnd.CommitInDoubt? {
          return Err("ingest: retry");
        }
        if docEnd.CommitLost? {
          return Err("update document");
        }
        db.tables := ReviveDoc(db.tables, docId);
        assert RevivedFully(before, db.tables, kb, docId, j, db.now);
        assert Revived(before, db.tables, kb, docId, j, db.now);
        r := if docEnd.Committed? then Ok(()) else Err("update document");
      } else {
        r := Err("ingest: no retryable job");
      }
    }
  }

  /** The short-circuit's query went through and found something. */
  ghost predicate Matched(sha: string -> string, t: Tables, input: Input, calls: EnqueueCalls) {
    calls.checkOk && exists d :: FastPathMatches(sha, t, input, d)
  }

  /** A ready document of the knowledge base with the upload's checksum, of the same source or else of the same title without one. */
  ghost predicate HasContent(sha: string -> string, doc: Doc, input: Input) {
    && doc.kb == input.kb && doc.status == DocReady && doc.checksum == Checksum(sha, input.raw)
    && (if doc.sourceRef != "" then doc.sourceRef == input.sourceRef else doc.title == input.title)
  }

  /** Whatever job holds the key names its document. */
  ghost predicate HolderNamed(t: Tables, key: string) {
    forall j :: j in t.jobs && t.jobs[j].key == key ==> t.jobs[j].docId != ""
  }

  predicate ReadyMatch(doc: Doc, input: Input, cs: string) {
    doc.kb == input.kb && doc.checksum == cs && doc.status.DocReady?
    && ((doc.sourceRef != "" && doc.sourceRef == input.sourceRef) || (doc.sourceRef == "" && doc.title == input.title))
  }

  /** The job the revive statement matches: this document's, in this kb, and dead. */
  predicate Revivable(t: Tables, kb: Id, docId: Id, j: Id) {
    j in t.jobs && t.jobs[j].docId == docId && docId in t.docs && t.docs[docId].kb == kb && t.jobs[j].state.JobDead?
  }

  /** The dead job is as if just enqueued, its document waits, and nothing else has changed. */
  ghost predicate Revived(t: Tables, u: Tables, kb: Id, docId: Id, j: Id, now: int) {
    && docId in t.docs && t.docs[docId].kb == kb && j in t.jobs && t.jobs[j].docId == docId && t.jobs[j].state == JobDead
    && u.docs == t.docs[docId := t.docs[docId].(status := DocPending, error := "", phase := "")]
    && u.jobs == t.jobs[j := t.jobs[j].(state := JobPending, attempts := 0, nextRunAt := now, lockedBy := "", lockedUntil := None, lastError := "")]
  }

  ghost predicate RevivedFully(t: Tables, u: Tables, kb: Id, docId: Id, j: Id, now: int) {
    Revivable(t, kb, docId, j) && u == ReviveDoc(ReviveJob(t, j, now), docId)
  }

  /** The job is pending again while its document still says failed. */
  ghost predicate RevivedHalf(t: Tables, u: Tables, kb: Id, docId: Id, j: Id, now: int) {
    Revivable(t, kb, docId, j) && u == ReviveJob(t, j, now)
  }
}
