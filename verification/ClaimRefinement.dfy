/**
 The claim transaction statement by statement: Begin fixes now() for all that follows, SELECT FOR
 UPDATE SKIP LOCKED takes a row lock some time later, the updates stay in the transaction, and commit
 or rollback ends it.  Other writers of a locked row wait.  Every run of this finer system is a run of
 the queue, in which each committed transaction is one atomic claim.
 */
module ClaimRefinement {
  import opened Basics
  import opened Rows
  import opened Queue
  import opened QueueAlways
  import opened QueueBudget
  import opened WorkerCode

  datatype Stage = Locked | JobUpdated | DocSelected | DocMarked

  /** An open claim transaction: its start time and, once it has locked a row, the row and the attempts it read. */
  datatype Tx =
    | Begun(at: int)
    | Tx(job: Id, at: int, attempts: nat, stage: Stage)

  datatype Fine = Fine(base: System, txs: map<Id, Tx>)

  datatype Act =
    | Begin(worker: Id)
    | Lock(worker: Id, job: Id)
    | Statement(worker: Id)
    | Commit(worker: Id)
    | Rollback(worker: Id)
    | Other(step: Label)

  predicate Locks(tx: Tx, j: Id) {
    tx.Tx? && tx.job == j
  }

  ghost predicate Unlocked(f: Fine, j: Id) {
    forall v :: v in f.txs ==> !Locks(f.txs[v], j)
  }

  /** What the SELECT takes: at the transaction's own now(), the earliest claimable row that nobody has locked. */
  ghost predicate Selected(f: Fine, at: int, j: Id) {
    && j in f.base.tables.jobs && Claimable(f.base.tables.jobs[j], at) && Unlocked(f, j)
    && forall k :: k in f.base.tables.jobs && Claimable(f.base.tables.jobs[k], at) && Unlocked(f, k) ==>
         f.base.tables.jobs[j].nextRunAt <= f.base.tables.jobs[k].nextRunAt
  }

  /** The step updates the job's row or deletes it with its document. */
  predicate Writes(s: System, l: Label, j: Id) {
    JobWritten(s, l) == Some(j) || (l.DeleteRow? && Lookup(s.log.jobOf, l.doc) == Some(j))
  }

  ghost predicate Possible(env: Env, f: Fine, a: Act) {
    match a
    case Begin(w) => w !in f.txs && PcOf(f.base, w).Idle?
    case Lock(w, j) => w in f.txs && f.txs[w].Begun? && Selected(f, f.txs[w].at, j)
    case Statement(w) => w in f.txs && f.txs[w].Tx? && !f.txs[w].stage.DocMarked?
    case Commit(w) => w in f.txs && f.txs[w].Tx? && f.txs[w].stage.DocMarked?
    case Rollback(w) => w in f.txs
    case Other(l) =>
      && Enabled(env, f.base, l) && !l.TakeClaim?
      && forall v :: v in f.txs && f.txs[v].Tx? ==> !Writes(f.base, l, f.txs[v].job)
  }

  function NextStage(stage: Stage): Stage {
    match stage
    case Locked => JobUpdated
    case JobUpdated => DocSelected
    case _ => DocMarked
  }

  /** What a commit makes visible, from what the transaction itself read and wrote. */
  function Committed(env: Env, s: System, w: Id, tx: Tx): System
    requires tx.Tx?
  {
    if tx.job !in s.tables.jobs || s.tables.jobs[tx.job].docId !in s.tables.docs then s
    else
      var d := s.tables.jobs[tx.job].docId;
      var until := tx.at + env.lease;
      var doc := s.tables.docs[d];
      s.(tables := Tables(
           s.tables.docs[d := doc.(status := DocParsing, phase := "parsing")],
           s.tables.jobs[tx.job := ClaimedJob(s.tables.jobs[tx.job], w, tx.attempts + 1, until)]),
         pcs := s.pcs[w := Claimed(Claim(tx.job, d, tx.attempts + 1, doc.kb, doc.sourceType, until, |s.log.grants|))],
         log := s.log.(
           half := s.log.half - {d},
           grants := s.log.grants + [Grant(w, tx.job, EpochOf(s, tx.job), tx.attempts + 1, until)],
           last := s.log.last[tx.job := |s.log.grants|]))
  }

  ghost function Perform(env: Env, f: Fine, a: Act): Fine
    requires Possible(env, f, a)
  {
    match a
    case Begin(w) => f.(txs := f.txs[w := Begun(f.base.now)])
    case Lock(w, j) => f.(txs := f.txs[w := Tx(j, f.txs[w].at, f.base.tables.jobs[j].attempts, Locked)])
    case Statement(w) => f.(txs := f.txs[w := f.txs[w].(stage := NextStage(f.txs[w].stage))])
    case Commit(w) => Fine(Committed(env, f.base, w, f.txs[w]), f.txs - {w})
    case Rollback(w) => f.(txs := f.txs - {w})
    case Other(l) => f.(base := Apply(env, f.base, l))
  }

  ghost predicate FineLegal(env: Env, acts: seq<Act>)
    decreases |acts|, 0
  {
    acts == [] || (FineLegal(env, acts[..|acts| - 1])
                   && Possible(env, FineAfter(env, acts[..|acts| - 1]), acts[|acts| - 1]))
  }

  ghost function FineAfter(env: Env, acts: seq<Act>): Fine
    requires FineLegal(env, acts)
    decreases |acts|, 1
  {
    if acts == [] then Fine(START, map[])
    else Perform(env, FineAfter(env, acts[..|acts| - 1]), acts[|acts| - 1])
  }

  /** The queue steps of a fine run: commits become claims, the rest of a transaction nothing. */
  ghost function Abstraction(env: Env, acts: seq<Act>): seq<Label>
    requires FineLegal(env, acts)
    decreases |acts|
  {
    if acts == [] then []
    else
      var front := acts[..|acts| - 1];
      Abstraction(env, front) + StepsOf(FineAfter(env, front), acts[|acts| - 1])
  }

  ghost function StepsOf(f: Fine, a: Act): seq<Label> {
    match a
    case Commit(w) => if w in f.txs && f.txs[w].Tx? then [TakeClaim(w, f.txs[w].job, f.txs[w].at)] else []
    case Other(l) => [l]
    case _ => []
  }

  // ---- locked rows stand still -----------------------------------------------------

  ghost predicate TxValid(f: Fine, w: Id) {
    w in f.txs ==>
      var tx := f.txs[w];
      && PcOf(f.base, w).Idle? && tx.at <= f.base.now
      && (tx.Tx? ==>
            && tx.job in f.base.tables.jobs
            && f.base.tables.jobs[tx.job].attempts == tx.attempts
            && Claimable(f.base.tables.jobs[tx.job], tx.at))
  }

  ghost predicate LocksApart(f: Fine, v: Id, w: Id) {
    v in f.txs && w in f.txs && f.txs[v].Tx? && Locks(f.txs[w], f.txs[v].job) ==> v == w
  }

  ghost predicate Consistent(env: Env, f: Fine) {
    && Paired(env, f.base)
    && (forall w :: TxValid(f, w))
    && (forall v, w :: LocksApart(f, v, w))
  }

  lemma UnwrittenJobStands(env: Env, s: System, l: Label, j: Id)
    requires Paired(env, s) && Enabled(env, s, l) && j in s.tables.jobs && !Writes(s, l, j)
    ensures j in TablesAfter(env, s, l).jobs && TablesAfter(env, s, l).jobs[j] == s.tables.jobs[j]
  {
    hide TablesAfter, Enabled;
    assert JobPaired(s, j);
    UnwrittenJob(env, s, l, j);
  }

  lemma OtherKeepsTx(env: Env, f: Fine, l: Label, w: Id)
    requires Consistent(env, f) && Possible(env, f, Other(l))
    ensures TxValid(Perform(env, f, Other(l)), w)
  {
    assert TxValid(f, w);
    PcMoves(env, f.base, l, w);
    if w in f.txs {
      ClockForward(env, f.base, l);
      if f.txs[w].Tx? {
        UnwrittenJobStands(env, f.base, l, f.txs[w].job);
      }
    }
  }

  lemma ClaimEnabled(env: Env, f: Fine, w: Id)
    requires Consistent(env, f) && Possible(env, f, Commit(w))
    ensures Enabled(env, f.base, TakeClaim(w, f.txs[w].job, f.txs[w].at))
    ensures f.base.tables.jobs[f.txs[w].job].attempts == f.txs[w].attempts
  {
    assert TxValid(f, w) && JobPaired(f.base, f.txs[w].job);
  }

  lemma CommittedIsApply(env: Env, s: System, w: Id, tx: Tx)
    requires tx.Tx? && Enabled(env, s, TakeClaim(w, tx.job, tx.at)) && s.tables.jobs[tx.job].attempts == tx.attempts
    ensures Committed(env, s, w, tx) == Apply(env, s, TakeClaim(w, tx.job, tx.at))
  {
    var l, after := TakeClaim(w, tx.job, tx.at), Committed(env, s, w, tx);
    assert after.tables == TablesAfter(env, s, l);
    assert after.pcs == PcsAfter(env, s, l);
    assert after.log == LogAfter(env, s, l);
  }

  /** A commit finds its row as it locked it, and is an enabled atomic claim with the same effect. */
  lemma CommitIsAClaim(env: Env, f: Fine, w: Id)
    requires Consistent(env, f) && Possible(env, f, Commit(w))
    ensures
      var l := TakeClaim(w, f.txs[w].job, f.txs[w].at);
      Enabled(env, f.base, l) && Committed(env, f.base, w, f.txs[w]) == Apply(env, f.base, l)
  {
    hide Apply, Committed, Consistent;
    ClaimEnabled(env, f, w);
    CommittedIsApply(env, f.base, w, f.txs[w]);
  }

  lemma CommitKeepsTx(env: Env, f: Fine, w: Id, v: Id)
    requires Consistent(env, f) && Possible(env, f, Commit(w))
    ensures TxValid(Perform(env, f, Commit(w)), v)
  {
    assert TxValid(f, v) && LocksApart(f, v, w);
  }

  lemma ConsistentStep(env: Env, f: Fine, a: Act)
    requires Consistent(env, f) && Possible(env, f, a)
    ensures Consistent(env, Perform(env, f, a))
  {
    var f' := Perform(env, f, a);
    match a {
      case Commit(w) =>
        CommitIsAClaim(env, f, w);
        PairedStep(env, f.base, TakeClaim(w, f.txs[w].job, f.txs[w].at));
        forall v ensures TxValid(f', v) { CommitKeepsTx(env, f, w, v); }
      case Other(l) =>
        PairedStep(env, f.base, l);
        forall v ensures TxValid(f', v) { OtherKeepsTx(env, f, l, v); }
      case _ =>
        forall v ensures TxValid(f', v) { assert TxValid(f, v); }
    }
    forall v, w ensures LocksApart(f', v, w) {
      assert LocksApart(f, v, w);
    }
  }

  /**
   Every run of the fine-grained system is a run of the queue over the same committed state, in
   which each committed transaction is one atomic claim.
   */
  lemma {:induction false} FineRefinesAtomic(env: Env, acts: seq<Act>)
    requires FineLegal(env, acts)
    ensures Consistent(env, FineAfter(env, acts))
    ensures Legal(env, Abstraction(env, acts))
    ensures After(env, Abstraction(env, acts)) == FineAfter(env, acts).base
    decreases |acts|
  {
    if acts == [] {
      AlwaysPaired(env, []);
    } else {
      var front, a := acts[..|acts| - 1], acts[|acts| - 1];
      FineRefinesAtomic(env, front);
      StepRefines(env, FineAfter(env, front), a, Abstraction(env, front));
    }
  }

  lemma StepRefines(env: Env, f: Fine, a: Act, run: seq<Label>)
    requires Consistent(env, f) && Possible(env, f, a)
    requires Legal(env, run) && After(env, run) == f.base
    ensures Consistent(env, Perform(env, f, a))
    ensures Legal(env, run + StepsOf(f, a)) && After(env, run + StepsOf(f, a)) == Perform(env, f, a).base
  {
    ConsistentStep(env, f, a);
    match a {
      case Commit(w) =>
        CommitIsAClaim(env, f, w);
        LegalExtend(env, run, TakeClaim(w, f.txs[w].job, f.txs[w].at));
      case Other(l) => LegalExtend(env, run, l);
      case _ => assert run + StepsOf(f, a) == run;
    }
  }

  /** A claimer can give up at any statement: nothing of it is visible, and its row is free again. */
  lemma RollbackFreesRow(env: Env, acts: seq<Act>, w: Id)
    requires FineLegal(env, acts) && w in FineAfter(env, acts).txs
    ensures FineLegal(env, acts + [Rollback(w)])
    ensures
      var f, g := FineAfter(env, acts), FineAfter(env, acts + [Rollback(w)]);
      g.base == f.base && w !in g.txs && (f.txs[w].Tx? ==> Unlocked(g, f.txs[w].job))
  {
    FineExtend(env, acts, Rollback(w));
    FineRefinesAtomic(env, acts);
    var f, g := FineAfter(env, acts), FineAfter(env, acts + [Rollback(w)]);
    hide FineLegal, FineAfter;
    if f.txs[w].Tx? {
      forall v | v in g.txs ensures !Locks(g.txs[v], f.txs[w].job) {
        assert LocksApart(f, w, v);
      }
    }
  }

  // ---- a claim in one piece -----------------------------------------------------------------

  /** With no other transaction open, the row that can be locked is one the worker's code takes: an earliest claimable now. */
  lemma LockTakesEarliest(env: Env, f: Fine, w: Id, j: Id)
    requires f.txs == map[] && PcOf(f.base, w).Idle?
    ensures Possible(env, f, Begin(w))
    ensures Possible(env, Perform(env, f, Begin(w)), Lock(w, j)) <==> Earliest(f.base.tables.jobs, f.base.now, j)
  {
    var begun := Perform(env, f, Begin(w));
    assert forall k :: Unlocked(begun, k);
  }

  lemma FineExtend(env: Env, acts: seq<Act>, a: Act)
    requires FineLegal(env, acts) && Possible(env, FineAfter(env, acts), a)
    ensures FineLegal(env, acts + [a]) && FineAfter(env, acts + [a]) == Perform(env, FineAfter(env, acts), a)
  {
    assert (acts + [a])[..|acts|] == acts;
  }

  /** The claim transaction from begin to commit. */
  function Whole(w: Id, j: Id): seq<Act> {
    [Begin(w), Lock(w, j), Statement(w), Statement(w), Statement(w), Commit(w)]
  }

  lemma StatementsIn(env: Env, acts: seq<Act>, w: Id, tx: Tx)
    requires FineLegal(env, acts) && tx.Tx? && tx.stage == Locked
    requires FineAfter(env, acts).txs == map[w := tx]
    ensures
      var more := acts + [Statement(w)] + [Statement(w)] + [Statement(w)];
      && FineLegal(env, more)
      && FineAfter(env, more) == Fine(FineAfter(env, acts).base, map[w := tx.(stage := DocMarked)])
  {
    hide Possible, Perform, FineLegal, FineAfter;
    var f := FineAfter(env, acts);
    OneStatement(env, f, w, tx);
    FineExtend(env, acts, Statement(w));
    OneStatement(env, FineAfter(env, acts + [Statement(w)]), w, tx.(stage := JobUpdated));
    FineExtend(env, acts + [Statement(w)], Statement(w));
    OneStatement(env, FineAfter(env, acts + [Statement(w)] + [Statement(w)]), w, tx.(stage := DocSelected));
    FineExtend(env, acts + [Statement(w)] + [Statement(w)], Statement(w));
  }

  lemma OneStatement(env: Env, f: Fine, w: Id, tx: Tx)
    requires f.txs == map[w := tx] && tx.Tx? && !tx.stage.DocMarked?
    ensures Possible(env, f, Statement(w))
    ensures Perform(env, f, Statement(w)) == Fine(f.base, map[w := tx.(stage := NextStage(tx.stage))])
  {
    assert f.txs[w := tx.(stage := NextStage(tx.stage))] == map[w := tx.(stage := NextStage(tx.stage))];
  }

  lemma CommitInOnePiece(env: Env, f: Fine, w: Id, tx: Tx)
    requires Consistent(env, f) && f.txs == map[w := tx] && tx.Tx? && tx.stage == DocMarked
    ensures Possible(env, f, Commit(w)) && Enabled(env, f.base, TakeClaim(w, tx.job, tx.at))
    ensures Perform(env, f, Commit(w)) == Fine(Apply(env, f.base, TakeClaim(w, tx.job, tx.at)), map[])
  {
    hide Apply, Committed, Consistent, Enabled;
    CommitIsAClaim(env, f, w);
    assert f.txs - {w} == map[];
  }

  /** Left alone, the transaction of such a row runs through and is its claim at this moment. */
  lemma ClaimInOnePiece(env: Env, acts: seq<Act>, w: Id, j: Id)
    requires FineLegal(env, acts) && FineAfter(env, acts).txs == map[] && PcOf(FineAfter(env, acts).base, w).Idle?
    requires Earliest(FineAfter(env, acts).base.tables.jobs, FineAfter(env, acts).base.now, j)
    ensures FineLegal(env, acts + Whole(w, j))
    ensures
      var s := FineAfter(env, acts).base;
      && Enabled(env, s, TakeClaim(w, j, s.now))
      && FineAfter(env, acts + Whole(w, j)) == Fine(Apply(env, s, TakeClaim(w, j, s.now)), map[])
  {
    hide Possible, Perform, FineLegal, FineAfter, Earliest, Apply, Enabled, Consistent;
    var f := FineAfter(env, acts);
    LockTakesEarliest(env, f, w, j);
    FineExtend(env, acts, Begin(w));
    FineExtend(env, acts + [Begin(w)], Lock(w, j));
    var locked := acts + [Begin(w)] + [Lock(w, j)];
    LockedAlone(env, f, w, j);
    var tx := Tx(j, f.base.now, f.base.tables.jobs[j].attempts, Locked);
    StatementsIn(env, locked, w, tx);
    var marked := locked + [Statement(w)] + [Statement(w)] + [Statement(w)];
    FineRefinesAtomic(env, marked);
    CommitInOnePiece(env, FineAfter(env, marked), w, tx.(stage := DocMarked));
    FineExtend(env, marked, Commit(w));
    assert marked + [Commit(w)] == acts + Whole(w, j);
  }

  lemma LockedAlone(env: Env, f: Fine, w: Id, j: Id)
    requires f.txs == map[] && Possible(env, f, Begin(w)) && Possible(env, Perform(env, f, Begin(w)), Lock(w, j))
    ensures j in f.base.tables.jobs
    ensures Perform(env, Perform(env, f, Begin(w)), Lock(w, j))
      == Fine(f.base, map[w := Tx(j, f.base.now, f.base.tables.jobs[j].attempts, Locked)])
  {
    assert f.txs[w := Begun(f.base.now)][w := Tx(j, f.base.now, f.base.tables.jobs[j].attempts, Locked)]
        == map[w := Tx(j, f.base.now, f.base.tables.jobs[j].attempts, Locked)];
  }

  /** Of any number of concurrent claimers, at most one is ever in a transaction on a given job. */
  lemma {:induction false} OneClaimerPerJob(env: Env, acts: seq<Act>, v: Id, w: Id)
    requires FineLegal(env, acts)
    requires
      var f := FineAfter(env, acts);
      v in f.txs && w in f.txs && f.txs[v].Tx? && Locks(f.txs[w], f.txs[v].job)
    ensures v == w
  {
    FineRefinesAtomic(env, acts);
    assert LocksApart(FineAfter(env, acts), v, w);
  }
}
