/**
 The storage quota of a knowledge base: an upload reads the bytes stored so far, and only later
 inserts its own.  Between the two anything may happen: other uploads, deletes, dedup hits, every
 step of the workers and of Retry.
 */
module Quota {
  import opened Basics
  import opened Keys
  import opened Rows
  import opened Queue
  import opened QueueAlways

  // ---- stored bytes ----------------------------------------------------------------

  ghost function DocsOf(t: Tables, kb: Id): set<Id> {
    set d | d in t.docs && t.docs[d].kb == kb
  }

  function BytesIn(t: Tables): Id -> nat {
    (d: Id) => if d in t.docs then t.docs[d].contentBytes else 0
  }

  /** SELECT COALESCE(sum(content_bytes), 0) over the documents of a knowledge base. */
  ghost function Stored(t: Tables, kb: Id): nat {
    Sum(DocsOf(t, kb), BytesIn(t))
  }

  lemma StoredKept(t: Tables, u: Tables, kb: Id)
    requires SameRows(t, u)
    ensures Stored(u, kb) == Stored(t, kb)
  {
    assert DocsOf(u, kb) == DocsOf(t, kb);
    SumAgree(DocsOf(t, kb), BytesIn(t), BytesIn(u));
  }

  lemma StoredAfterInsert(sha: string -> string, t: Tables, d: Id, j: Id, input: Input, now: int, kb: Id)
    requires d !in t.docs
    ensures Stored(InsertPair(sha, t, d, j, input, now), kb)
         == Stored(t, kb) + (if input.kb == kb then |input.raw| else 0)
  {
    var u := InsertPair(sha, t, d, j, input, now);
    if input.kb == kb {
      assert DocsOf(u, kb) - {d} == DocsOf(t, kb);
      SumSplit(DocsOf(u, kb), BytesIn(u), d);
    } else {
      assert DocsOf(u, kb) == DocsOf(t, kb);
    }
    SumAgree(DocsOf(t, kb), BytesIn(t), BytesIn(u));
  }

  lemma StoredAfterDelete(t: Tables, d: Id, kb: Id)
    ensures Stored(DeleteDocRow(t, d), kb) + (if d in t.docs && t.docs[d].kb == kb then t.docs[d].contentBytes else 0) == Stored(t, kb)
  {
    var u := DeleteDocRow(t, d);
    assert DocsOf(u, kb) == DocsOf(t, kb) - {d};
    if d in DocsOf(t, kb) {
      SumSplit(DocsOf(t, kb), BytesIn(t), d);
    } else {
      assert DocsOf(u, kb) == DocsOf(t, kb);
    }
    SumAgree(DocsOf(u, kb), BytesIn(t), BytesIn(u));
  }

  /** Only an insert adds to what a knowledge base stores: no worker, retry or delete step does. */
  lemma OnlyInsertsAdd(env: Env, s: System, l: Label, kb: Id)
    requires Enabled(env, s, l) && !l.Enqueue?
    ensures Stored(TablesAfter(env, s, l), kb) <= Stored(s.tables, kb)
  {
    if l.DeleteRow? {
      StoredAfterDelete(s.tables, l.doc, kb);
    } else {
      StepKeepsRows(env, s, l);
      StoredKept(s.tables, TablesAfter(env, s, l), kb);
    }
  }

  // ---- uploads in flight -----------------------------------------------------------

  /** The queue with the uploads that passed the check and have not reached their insert. */
  datatype Uploads = Uploads(s: System, flight: map<Id, Input>, failedReads: nat)

  datatype Step =
    | Check(call: Id, input: Input, readOk: bool)
    | Insert(call: Id, docId: Id, jobId: Id)
    | Leave(call: Id)   // a dedup hit or an error: no row
    | Other(l: Label)

  ghost function FlightOf(u: Uploads, kb: Id): set<Id> {
    set c | c in u.flight && u.flight[c].kb == kb
  }

  function FlightBytes(u: Uploads): Id -> nat {
    (c: Id) => if c in u.flight then |u.flight[c].raw| else 0
  }

  ghost function InFlight(u: Uploads, kb: Id): nat {
    Sum(FlightOf(u, kb), FlightBytes(u))
  }

  ghost predicate Possible(env: Env, u: Uploads, step: Step) {
    match step
    case Check(c, _, _) => c !in u.flight
    case Insert(c, d, j) => c in u.flight && Enabled(env, u.s, Enqueue(d, j, u.flight[c]))
    case Leave(c) => c in u.flight
    case Other(l) => !l.Enqueue? && Enabled(env, u.s, l)
  }

  ghost predicate OverQuota(quota: int, u: Uploads, input: Input) {
    Stored(u.s.tables, input.kb) + |input.raw| > quota
  }

  /** A check whose read fails lets the upload through. */
  ghost function Next(env: Env, quota: int, u: Uploads, step: Step): Uploads
    requires Possible(env, u, step)
  {
    match step
    case Check(c, input, readOk) =>
      if readOk && OverQuota(quota, u, input) then u
      else u.(flight := u.flight[c := input], failedReads := u.failedReads + if readOk then 0 else 1)
    case Insert(c, d, j) =>
      u.(s := Apply(env, u.s, Enqueue(d, j, u.flight[c])), flight := u.flight - {c})
    case Leave(c) => u.(flight := u.flight - {c})
    case Other(l) => u.(s := Apply(env, u.s, l))
  }

  /** One upload's size is at most `most`, and at most k of the knowledge base are in flight, at every point. */
  ghost predicate Crowd(env: Env, quota: int, kb: Id, k: nat, most: nat, steps: seq<Step>)
    decreases |steps|, 0
  {
    if steps == [] then true
    else
      var front, step := steps[..|steps| - 1], steps[|steps| - 1];
      && Crowd(env, quota, kb, k, most, front)
      && Possible(env, Reached(env, quota, kb, k, most, front), step)
      && (step.Check? && step.input.kb == kb ==> |step.input.raw| <= most)
      && |FlightOf(Next(env, quota, Reached(env, quota, kb, k, most, front), step), kb)| <= k
  }

  ghost function Reached(env: Env, quota: int, kb: Id, k: nat, most: nat, steps: seq<Step>): Uploads
    requires Crowd(env, quota, kb, k, most, steps)
    decreases |steps|, 1
  {
    if steps == [] then Uploads(START, map[], 0)
    else Next(env, quota, Reached(env, quota, kb, k, most, steps[..|steps| - 1]), steps[|steps| - 1])
  }

  /** One more possible step, within the crowd. */
  lemma CrowdExtend(env: Env, quota: int, kb: Id, k: nat, most: nat, front: seq<Step>, step: Step)
    requires Crowd(env, quota, kb, k, most, front)
    requires Possible(env, Reached(env, quota, kb, k, most, front), step)
    requires step.Check? && step.input.kb == kb ==> |step.input.raw| <= most
    requires |FlightOf(Next(env, quota, Reached(env, quota, kb, k, most, front), step), kb)| <= k
    ensures Crowd(env, quota, kb, k, most, front + [step])
    ensures Reached(env, quota, kb, k, most, front + [step]) == Next(env, quota, Reached(env, quota, kb, k, most, front), step)
  {
    hide Possible, Next;
    assert (front + [step])[..|front|] == front;
  }

  /** An upload handled in one piece, when it is let in, is its check followed by its insert, or by leaving without a row. */
  lemma UploadInOnePiece(env: Env, quota: int, u: Uploads, call: Id, input: Input, readOk: bool, docId: Id, jobId: Id)
    requires call !in u.flight && (readOk ==> Stored(u.s.tables, input.kb) + |input.raw| <= quota)
    ensures
      var check, insert, leave := Check(call, input, readOk), Insert(call, docId, jobId), Leave(call);
      var failed := u.failedReads + if readOk then 0 else 1;
      && Possible(env, u, check)
      && var checked := Next(env, quota, u, check);
      && Possible(env, checked, leave) && Next(env, quota, checked, leave) == u.(failedReads := failed)
      && (Enabled(env, u.s, Enqueue(docId, jobId, input)) ==>
            && Possible(env, checked, insert)
            && Next(env, quota, checked, insert) == Uploads(Apply(env, u.s, Enqueue(docId, jobId, input)), u.flight, failed))
  {
    hide Enabled, Apply, Stored;
    assert u.flight[call := input] - {call} == u.flight;
  }

  // ---- the bound -------------------------------------------------------------------

  ghost predicate Bounded(env: Env, quota: int, kb: Id, k: nat, most: nat, u: Uploads) {
    && Paired(env, u.s)
    && (forall c :: c in FlightOf(u, kb) ==> |u.flight[c].raw| <= most)
    && Stored(u.s.tables, kb) + InFlight(u, kb) <= quota + (k - 1) * most + u.failedReads * most
  }

  lemma FlightAfterAdd(u: Uploads, c: Id, input: Input, failed: nat, kb: Id)
    requires c !in u.flight
    ensures
      var v := u.(flight := u.flight[c := input], failedReads := failed);
      && InFlight(v, kb) == InFlight(u, kb) + (if input.kb == kb then |input.raw| else 0)
      && |FlightOf(v, kb)| == |FlightOf(u, kb)| + (if input.kb == kb then 1 else 0)
  {
    var v := u.(flight := u.flight[c := input], failedReads := failed);
    if input.kb == kb {
      assert FlightOf(v, kb) == FlightOf(u, kb) + {c};
      assert FlightOf(v, kb) - {c} == FlightOf(u, kb);
      SumSplit(FlightOf(v, kb), FlightBytes(v), c);
    } else {
      assert FlightOf(v, kb) == FlightOf(u, kb);
    }
    SumAgree(FlightOf(u, kb), FlightBytes(u), FlightBytes(v));
  }

  lemma FlightAfterRemove(u: Uploads, s: System, c: Id, kb: Id)
    requires c in u.flight
    ensures InFlight(Uploads(s, u.flight - {c}, u.failedReads), kb)
         == InFlight(u, kb) - (if u.flight[c].kb == kb then |u.flight[c].raw| else 0)
  {
    var v := Uploads(s, u.flight - {c}, u.failedReads);
    assert FlightOf(v, kb) == FlightOf(u, kb) - {c};
    if u.flight[c].kb == kb {
      SumSplit(FlightOf(u, kb), FlightBytes(u), c);
    } else {
      assert FlightOf(v, kb) == FlightOf(u, kb);
    }
    SumAgree(FlightOf(v, kb), FlightBytes(u), FlightBytes(v));
  }

  lemma RoomForOne(stored: nat, admitted: nat, bytes: nat, quota: int, others: nat, k: nat, most: nat, failed: nat)
    requires stored + bytes <= quota && admitted <= others * most && others + 1 <= k
    ensures stored + admitted + bytes <= quota + (k - 1) * most + failed * most
  {
    assert others * most <= (k - 1) * most;
  }

  /** The others in flight are at most k - 1, so what a read that succeeded admits stays within the bound. */
  lemma AdmittedInBound(quota: int, kb: Id, k: nat, most: nat, u: Uploads, input: Input)
    requires forall c :: c in FlightOf(u, kb) ==> |u.flight[c].raw| <= most
    requires input.kb == kb && !OverQuota(quota, u, input) && |FlightOf(u, kb)| + 1 <= k
    ensures Stored(u.s.tables, kb) + InFlight(u, kb) + |input.raw| <= quota + (k - 1) * most + u.failedReads * most
  {
    SumBound(FlightOf(u, kb), FlightBytes(u), most);
    RoomForOne(Stored(u.s.tables, kb), InFlight(u, kb), |input.raw|, quota, |FlightOf(u, kb)|, k, most, u.failedReads);
  }

  lemma CheckKeepsBound(env: Env, quota: int, kb: Id, k: nat, most: nat, u: Uploads, step: Step)
    requires k >= 1 && Bounded(env, quota, kb, k, most, u) && step.Check? && Possible(env, u, step)
    requires step.input.kb == kb ==> |step.input.raw| <= most
    requires |FlightOf(Next(env, quota, u, step), kb)| <= k
    ensures Bounded(env, quota, kb, k, most, Next(env, quota, u, step))
  {
    hide Paired, Stored, InFlight, FlightBytes;
    var v := Next(env, quota, u, step);
    if v != u {
      FlightAfterAdd(u, step.call, step.input, v.failedReads, kb);
      if !step.readOk {
        Distribute(u.failedReads, most);
      } else if step.input.kb == kb {
        AdmittedInBound(quota, kb, k, most, u, step.input);
      }
    }
  }

  lemma FreshDoc(env: Env, s: System, l: Label)
    requires Paired(env, s) && l.Enqueue? && Enabled(env, s, l)
    ensures l.docId !in s.tables.docs
  {
    assert DocPaired(env, s, l.docId);
  }

  lemma InsertKeepsBound(env: Env, quota: int, kb: Id, k: nat, most: nat, u: Uploads, step: Step)
    requires Bounded(env, quota, kb, k, most, u) && step.Insert? && Possible(env, u, step)
    ensures Bounded(env, quota, kb, k, most, Next(env, quota, u, step))
  {
    var l := Enqueue(step.docId, step.jobId, u.flight[step.call]);
    FreshDoc(env, u.s, l);
    hide Paired, Stored, InFlight, FlightBytes, LogAfter, InsertPair;
    PairedStep(env, u.s, l);
    FlightAfterRemove(u, Apply(env, u.s, l), step.call, kb);
    StoredAfterInsert(env.sha, u.s.tables, step.docId, step.jobId, u.flight[step.call], u.s.now, kb);
  }

  lemma OtherKeepsBound(env: Env, quota: int, kb: Id, k: nat, most: nat, u: Uploads, step: Step)
    requires Bounded(env, quota, kb, k, most, u) && (step.Leave? || step.Other?) && Possible(env, u, step)
    ensures Bounded(env, quota, kb, k, most, Next(env, quota, u, step))
  {
    var v := Next(env, quota, u, step);
    if step.Leave? {
      FlightAfterRemove(u, u.s, step.call, kb);
    } else {
      PairedStep(env, u.s, step.l);
      OnlyInsertsAdd(env, u.s, step.l, kb);
      assert FlightOf(v, kb) == FlightOf(u, kb);
      SumAgree(FlightOf(u, kb), FlightBytes(u), FlightBytes(v));
    }
  }

  /**
   The overshoot bound, over every interleaving of uploads with deletes, dedup hits, worker steps and
   retries: stored bytes and admitted bytes together never exceed the quota by more than one upload
   for each other upload in flight and one for each usage read that failed.
   */
  lemma {:induction false} QuotaOvershoot(env: Env, quota: nat, kb: Id, k: nat, most: nat, steps: seq<Step>)
    requires k >= 1 && Crowd(env, quota, kb, k, most, steps)
    ensures Bounded(env, quota, kb, k, most, Reached(env, quota, kb, k, most, steps))
    decreases |steps|
  {
    if steps == [] {
      AlwaysPaired(env, []);
    } else {
      var front, step := steps[..|steps| - 1], steps[|steps| - 1];
      QuotaOvershoot(env, quota, kb, k, most, front);
      var u := Reached(env, quota, kb, k, most, front);
      match step
      case Check(_, _, _) => CheckKeepsBound(env, quota, kb, k, most, u, step);
      case Insert(_, _, _) => InsertKeepsBound(env, quota, kb, k, most, u, step);
      case _ => OtherKeepsBound(env, quota, kb, k, most, u, step);
    }
  }

  ghost predicate AllReadsOk(steps: seq<Step>) {
    forall n :: 0 <= n < |steps| && steps[n].Check? ==> steps[n].readOk
  }

  lemma {:induction false} NoFailedReads(env: Env, quota: int, kb: Id, k: nat, most: nat, steps: seq<Step>)
    requires Crowd(env, quota, kb, k, most, steps) && AllReadsOk(steps)
    ensures Reached(env, quota, kb, k, most, steps).failedReads == 0
    decreases |steps|
  {
    if steps != [] {
      var front := steps[..|steps| - 1];
      forall n | 0 <= n < |front| && front[n].Check? ensures front[n].readOk {
        assert steps[n] == front[n];
      }
      NoFailedReads(env, quota, kb, k, most, front);
    }
  }

  /** The documented quota: exact while uploads to a knowledge base come one at a time and every usage read succeeds. */
  lemma QuotaExactForOneUploader(env: Env, quota: nat, kb: Id, most: nat, steps: seq<Step>)
    requires Crowd(env, quota, kb, 1, most, steps) && AllReadsOk(steps)
    ensures
      var u := Reached(env, quota, kb, 1, most, steps);
      Stored(u.s.tables, kb) + InFlight(u, kb) <= quota
  {
    hide Stored, InFlight, Paired;
    QuotaOvershoot(env, quota, kb, 1, most, steps);
    NoFailedReads(env, quota, kb, 1, most, steps);
  }

  // ---- the bound is attained ----------------------------------------------------------------

  /** Uploads of the whole quota, told apart by their titles. */
  function UploadNo(kb: Id, quota: nat, i: nat): Input {
    Input(kb, seq(i, _ => 't'), Paste, "", seq(quota, _ => 'x'))
  }

  function CallNo(i: nat): Id {
    seq(i, _ => 'c')
  }

  function DocNo(i: nat): Id {
    seq(i + 1, _ => 'd')
  }

  function JobNo(i: nat): Id {
    seq(i + 1, _ => 'j')
  }

  function KeyTextNo(sha: string -> string, kb: Id, quota: nat, i: nat): string {
    KeyText(kb, SourceKey("", UploadNo(kb, quota, i).title), InputChecksum(sha, UploadNo(kb, quota, i)))
  }

  lemma KeysDiffer(sha: string -> string, kb: Id, quota: nat, i: nat, j: nat)
    requires i != j && !Collision(sha, KeyTextNo(sha, kb, quota, i), KeyTextNo(sha, kb, quota, j))
    ensures InputKey(sha, UploadNo(kb, quota, i)) != InputKey(sha, UploadNo(kb, quota, j))
  {
    var one, two := KeyTextNo(sha, kb, quota, i), KeyTextNo(sha, kb, quota, j);
    assert |one| != |two|;
    assert InputKey(sha, UploadNo(kb, quota, i))[5..] == sha(one) && InputKey(sha, UploadNo(kb, quota, j))[5..] == sha(two);
  }

  /** Of uploads 0 to k, those before m are stored, and those from m to n are in flight. */
  ghost predicate Placed(env: Env, quota: nat, kb: Id, k: nat, m: nat, n: nat, u: Uploads) {
    m <= n <= k && InFlightFrom(quota, kb, m, n, u) && StoredUpTo(env, quota, kb, m, u.s)
  }

  ghost predicate InFlightFrom(quota: nat, kb: Id, m: nat, n: nat, u: Uploads) {
    && |FlightOf(u, kb)| <= n
    && (forall c :: c in u.flight <==> m <= |c| < n && c == CallNo(|c|))
    && (forall c :: c in u.flight ==> u.flight[c] == UploadNo(kb, quota, |c|))
  }

  ghost predicate StoredUpTo(env: Env, quota: nat, kb: Id, m: nat, s: System) {
    && Paired(env, s) && Stored(s.tables, kb) == m * quota
    && (forall id :: id in s.log.used ==> |id| <= m)
    && (forall j :: j in s.tables.jobs ==> exists i :: 0 <= i < m && s.tables.jobs[j].key == InputKey(env.sha, UploadNo(kb, quota, i)))
  }

  ghost predicate Attains(env: Env, quota: nat, kb: Id, k: nat, m: nat, n: nat, steps: seq<Step>) {
    Crowd(env, quota, kb, k, quota, steps) && AllReadsOk(steps)
    && Placed(env, quota, kb, k, m, n, Reached(env, quota, kb, k, quota, steps))
  }

  lemma OneMoreRead(steps: seq<Step>, step: Step)
    requires AllReadsOk(steps) && (step.Check? ==> step.readOk)
    ensures AllReadsOk(steps + [step])
  {
    forall n | 0 <= n < |steps + [step]| && (steps + [step])[n].Check? ensures (steps + [step])[n].readOk {
      assert n < |steps| ==> (steps + [step])[n] == steps[n];
    }
  }

  lemma NextCheck(env: Env, quota: nat, kb: Id, k: nat, n: nat, u: Uploads)
    requires n < k && Placed(env, quota, kb, k, 0, n, u)
    ensures
      var step := Check(CallNo(n), UploadNo(kb, quota, n), true);
      && Possible(env, u, step) && |step.input.raw| <= quota
      && Placed(env, quota, kb, k, 0, n + 1, Next(env, quota, u, step))
  {
    hide Stored, InFlight, Enabled, Apply, Paired, FlightOf;
    assert |CallNo(n)| == n && |UploadNo(kb, quota, n).raw| == quota;
    FlightAfterAdd(u, CallNo(n), UploadNo(kb, quota, n), u.failedReads, kb);
  }

  lemma KeyIsFree(env: Env, quota: nat, kb: Id, k: nat, m: nat, u: Uploads)
    requires m < k && Placed(env, quota, kb, k, m, k, u)
    requires forall i, j :: 0 <= i < j < k ==> !Collision(env.sha, KeyTextNo(env.sha, kb, quota, i), KeyTextNo(env.sha, kb, quota, j))
    ensures Enabled(env, u.s, Enqueue(DocNo(m), JobNo(m), UploadNo(kb, quota, m)))
  {
    var key := InputKey(env.sha, UploadNo(kb, quota, m));
    forall j | j in u.s.tables.jobs ensures u.s.tables.jobs[j].key != key {
      var i :| 0 <= i < m && u.s.tables.jobs[j].key == InputKey(env.sha, UploadNo(kb, quota, i));
      KeysDiffer(env.sha, kb, quota, i, m);
    }
    assert DocNo(m)[0] == 'd' && JobNo(m)[0] == 'j';
    assert |DocNo(m)| == m + 1 && |JobNo(m)| == m + 1;
  }

  lemma FlightAfterInsert(quota: nat, kb: Id, m: nat, n: nat, u: Uploads, s: System)
    requires m < n && InFlightFrom(quota, kb, m, n, u)
    ensures CallNo(m) in u.flight && u.flight[CallNo(m)] == UploadNo(kb, quota, m)
    ensures InFlightFrom(quota, kb, m + 1, n, Uploads(s, u.flight - {CallNo(m)}, u.failedReads))
  {
    assert |CallNo(m)| == m;
    var v := Uploads(s, u.flight - {CallNo(m)}, u.failedReads);
    assert FlightOf(v, kb) == FlightOf(u, kb) - {CallNo(m)};
  }

  lemma StoredAfterOneMore(env: Env, quota: nat, kb: Id, m: nat, s: System)
    requires StoredUpTo(env, quota, kb, m, s) && Enabled(env, s, Enqueue(DocNo(m), JobNo(m), UploadNo(kb, quota, m)))
    ensures StoredUpTo(env, quota, kb, m + 1, Apply(env, s, Enqueue(DocNo(m), JobNo(m), UploadNo(kb, quota, m))))
  {
    hide Stored, Paired, HalfAfter, ChunksAfter, InsertPair, UploadNo, DocNo, JobNo;
    var l := Enqueue(DocNo(m), JobNo(m), UploadNo(kb, quota, m));
    PairedStep(env, s, l);
    FreshDoc(env, s, l);
    StoredAfterInsert(env.sha, s.tables, l.docId, l.jobId, l.input, s.now, kb);
    Distribute(m, quota);
    SizesNo(kb, quota, m);
    KeysOfInsert(env, quota, kb, m, s);
  }

  lemma SizesNo(kb: Id, quota: nat, m: nat)
    ensures |DocNo(m)| == m + 1 && |JobNo(m)| == m + 1
    ensures |UploadNo(kb, quota, m).raw| == quota && UploadNo(kb, quota, m).kb == kb
  {
  }

  lemma NextInsert(env: Env, quota: nat, kb: Id, k: nat, m: nat, u: Uploads)
    requires m < k && Placed(env, quota, kb, k, m, k, u)
    requires Enabled(env, u.s, Enqueue(DocNo(m), JobNo(m), UploadNo(kb, quota, m)))
    ensures
      var step := Insert(CallNo(m), DocNo(m), JobNo(m));
      && Possible(env, u, step)
      && Placed(env, quota, kb, k, m + 1, k, Next(env, quota, u, step))
  {
    hide InFlightFrom, StoredUpTo, Enabled, Apply;
    FlightAfterInsert(quota, kb, m, k, u, Apply(env, u.s, Enqueue(DocNo(m), JobNo(m), UploadNo(kb, quota, m))));
    StoredAfterOneMore(env, quota, kb, m, u.s);
  }

  lemma KeysOfInsert(env: Env, quota: nat, kb: Id, m: nat, s: System)
    requires StoredUpTo(env, quota, kb, m, s)
    ensures
      var t := InsertPair(env.sha, s.tables, DocNo(m), JobNo(m), UploadNo(kb, quota, m), s.now);
      forall j :: j in t.jobs ==> exists i :: 0 <= i < m + 1 && t.jobs[j].key == InputKey(env.sha, UploadNo(kb, quota, i))
  {
    var t := InsertPair(env.sha, s.tables, DocNo(m), JobNo(m), UploadNo(kb, quota, m), s.now);
    forall j | j in t.jobs ensures exists i :: 0 <= i < m + 1 && t.jobs[j].key == InputKey(env.sha, UploadNo(kb, quota, i)) {
      if j == JobNo(m) {
        assert t.jobs[j].key == InputKey(env.sha, UploadNo(kb, quota, m));
      } else {
        var i :| 0 <= i < m && s.tables.jobs[j].key == InputKey(env.sha, UploadNo(kb, quota, i));
      }
    }
  }

  /** All k uploads pass the check before any of them is inserted. */
  lemma {:induction false} AllAdmitted(env: Env, quota: nat, kb: Id, k: nat, n: nat) returns (steps: seq<Step>)
    requires n <= k
    ensures Attains(env, quota, kb, k, 0, n, steps)
  {
    hide Crowd, Reached, Possible, Next, Placed;
    if n == 0 {
      steps := [];
      NoSteps(env, quota, kb, k, quota);
      NonePlaced(env, quota, kb, k);
    } else {
      var front := AllAdmitted(env, quota, kb, k, n - 1);
      var step := Check(CallNo(n - 1), UploadNo(kb, quota, n - 1), true);
      var u := Reached(env, quota, kb, k, quota, front);
      NextCheck(env, quota, kb, k, n - 1, u);
      PlacedSize(env, quota, kb, k, 0, n, Next(env, quota, u, step));
      CrowdExtend(env, quota, kb, k, quota, front, step);
      OneMoreRead(front, step);
      steps := front + [step];
    }
  }

  lemma PlacedSize(env: Env, quota: nat, kb: Id, k: nat, m: nat, n: nat, u: Uploads)
    requires Placed(env, quota, kb, k, m, n, u)
    ensures |FlightOf(u, kb)| <= k
  {
  }

  lemma NonePlaced(env: Env, quota: nat, kb: Id, k: nat)
    ensures Placed(env, quota, kb, k, 0, 0, Uploads(START, map[], 0))
  {
    AlwaysPaired(env, []);
    NothingStored(kb);
    assert FlightOf(Uploads(START, map[], 0), kb) == {};
  }

  lemma {:induction false} AllInserted(env: Env, quota: nat, kb: Id, k: nat, m: nat) returns (steps: seq<Step>)
    requires m <= k
    requires forall i, j :: 0 <= i < j < k ==> !Collision(env.sha, KeyTextNo(env.sha, kb, quota, i), KeyTextNo(env.sha, kb, quota, j))
    ensures Attains(env, quota, kb, k, m, k, steps)
  {
    hide Crowd, Reached, Possible, Next, Placed, KeyTextNo, Collision, Enabled;
    if m == 0 {
      steps := AllAdmitted(env, quota, kb, k, k);
    } else {
      var front := AllInserted(env, quota, kb, k, m - 1);
      var step := Insert(CallNo(m - 1), DocNo(m - 1), JobNo(m - 1));
      var u := Reached(env, quota, kb, k, quota, front);
      KeyIsFree(env, quota, kb, k, m - 1, u);
      NextInsert(env, quota, kb, k, m - 1, u);
      PlacedSize(env, quota, kb, k, m, k, Next(env, quota, u, step));
      CrowdExtend(env, quota, kb, k, quota, front, step);
      OneMoreRead(front, step);
      steps := front + [step];
    }
  }

  /**
   The bound is attained, in stored bytes: with every usage read succeeding, k uploads of the whole quota
   are all admitted and all stored, when their key texts do not collide.
   */
  lemma OvershootAttained(env: Env, quota: nat, kb: Id, k: nat) returns (steps: seq<Step>)
    requires k >= 1
    requires forall i, j :: 0 <= i < j < k ==> !Collision(env.sha, KeyTextNo(env.sha, kb, quota, i), KeyTextNo(env.sha, kb, quota, j))
    ensures Crowd(env, quota, kb, k, quota, steps) && AllReadsOk(steps)
    ensures Stored(Reached(env, quota, kb, k, quota, steps).s.tables, kb) == k * quota == quota + (k - 1) * quota
  {
    hide Crowd, Reached, Stored, KeyTextNo, Collision;
    steps := AllInserted(env, quota, kb, k, k);
    Distribute(k - 1, quota);
  }

  lemma NothingStored(kb: Id)
    ensures Stored(START.tables, kb) == 0
  {
    assert DocsOf(START.tables, kb) == {};
  }

  /** A failed usage read lets in an upload of any size, alone and into an empty knowledge base. */
  lemma FailedReadOverruns(env: Env, quota: nat, input: Input, call: Id, d: Id, j: Id)
    requires |input.raw| > quota && d != j
    ensures
      var steps := [Check(call, input, false), Insert(call, d, j)];
      && Crowd(env, quota, input.kb, 1, |input.raw|, steps)
      && Stored(Reached(env, quota, input.kb, 1, |input.raw|, steps).s.tables, input.kb) > quota
  {
    hide Stored, Enabled, Apply, Crowd, Reached;
    var kb, most, start := input.kb, |input.raw|, Uploads(START, map[], 0);
    var check, insert := Check(call, input, false), Insert(call, d, j);
    assert Crowd(env, quota, kb, 1, most, []) && Reached(env, quota, kb, 1, most, []) == start by {
      NoSteps(env, quota, kb, 1, most);
    }
    var u := Next(env, quota, start, check);
    assert FlightOf(u, kb) == {call};
    CrowdExtend(env, quota, kb, 1, most, [], check);
    assert [] + [check] == [check] && [check] + [insert] == [check, insert];
    FirstInsert(env, input, d, j);
    var v := Next(env, quota, u, insert);
    assert FlightOf(v, kb) == {};
    CrowdExtend(env, quota, kb, 1, most, [check], insert);
  }

  lemma NoSteps(env: Env, quota: int, kb: Id, k: nat, most: nat)
    ensures Crowd(env, quota, kb, k, most, []) && Reached(env, quota, kb, k, most, []) == Uploads(START, map[], 0)
  {
  }

  lemma FirstInsert(env: Env, input: Input, d: Id, j: Id)
    requires d != j
    ensures Enabled(env, START, Enqueue(d, j, input))
    ensures Stored(Apply(env, START, Enqueue(d, j, input)).tables, input.kb) == |input.raw|
  {
    StoredAfterInsert(env.sha, START.tables, d, j, input, 0, input.kb);
    NothingStored(input.kb);
  }
}

/** The upload handler: validation, then the quota, then the enqueue. */
module UploadHandling {
  import opened Basics
  import opened Keys
  import opened Rows
  import opened Dedup
  import opened Quota
  import opened WorkerCode
  import opened IngestService

  datatype Found = KbFound | KbMissing | KbUnreadable

  datatype Body = TooLarge | Malformed | Upload(title: string, sourceType: SourceType, content: Bytes, url: string, filename: string)

  const OK := 200
  const ACCEPTED := 202
  const BAD_REQUEST := 400
  const NOT_FOUND := 404
  const REQUEST_TOO_LARGE := 413
  const UNSUPPORTED_MEDIA_TYPE := 415
  const INTERNAL_ERROR := 500
  const INSUFFICIENT_STORAGE := 507

  function Built(lower: string -> string, kb: Id, body: Body, maxUpload: nat): Option<Input> {
    if body.Upload? then BuildInput(lower, kb, body.title, body.sourceType, body.url, body.filename, body.content, maxUpload)
    else None
  }

  /** The request's document and its job are in the tables: everything uploaded, waiting, and due at once. */
  ghost predicate Uploaded(sha: string -> string, t: Tables, docId: Id, jobId: Id, kb: Id, body: Body, now: int) {
    && body.Upload? && docId in t.docs && jobId in t.jobs
    && var doc, job := t.docs[docId], t.jobs[jobId];
    && doc.kb == kb && doc.title == body.title && doc.sourceType == body.sourceType
    && doc.sourceRef == (if body.sourceType.Url? then body.url else if body.sourceType.Pdf? || body.sourceType.Docx? then body.filename else "")
    && doc.content == Some(body.content) && doc.contentBytes == |body.content|
    && doc.checksum == (if body.sourceType.Url? then "" else Checksum(sha, body.content))
    && doc.status == DocPending && doc.error == "" && doc.chunkCount == 0
    && job.docId == docId && job.state == JobPending && job.attempts == 0 && job.nextRunAt == now
    && job.lockedBy == "" && job.lockedUntil == None && job.lastError == ""
    && job.key == IdempotencyKey(sha, kb, doc.sourceRef, doc.title, doc.checksum)
  }

  lemma BuiltIs(lower: string -> string, kb: Id, body: Body, maxUpload: nat)
    ensures
      var built := Built(lower, kb, body, maxUpload);
      built.Some? ==> body.Upload? && built.value.kb == kb && built.value.raw == body.content
  {
  }

  lemma PairIsUploaded(lower: string -> string, maxUpload: nat, sha: string -> string, t: Tables, docId: Id, jobId: Id,
                       kb: Id, body: Body, now: int)
    requires Built(lower, kb, body, maxUpload).Some? && docId !in t.docs
    ensures
      var after := InsertPair(sha, t, docId, jobId, Built(lower, kb, body, maxUpload).value, now);
      after != t && Uploaded(sha, after, docId, jobId, kb, body, now)
  {
    assert docId in InsertPair(sha, t, docId, jobId, Built(lower, kb, body, maxUpload).value, now).docs;
  }

  class Handler {
    const ingest: Service
    const lower: string -> string
    const maxUpload: nat
    const quota: int

    constructor (ingest: Service, lower: string -> string, maxUpload: nat, quota: int)
      ensures this.ingest == ingest && this.lower == lower && this.maxUpload == maxUpload && this.quota == quota
    {
      this.ingest, this.lower, this.maxUpload, this.quota := ingest, lower, maxUpload, quota;
    }

    /** The cumulative content bytes of a knowledge base, summed row by row. */
    method KBContentBytes(kb: Id, readOk: bool) returns (r: Result<nat>)
      ensures readOk ==> r == Ok(Stored(ingest.db.tables, kb))
      ensures r.Ok? <==> readOk
    {
      if !readOk {
        return Err("read");
      }
      var t := ingest.db.tables;
      var rows := set d | d in t.docs && t.docs[d].kb == kb;
      assert rows == DocsOf(t, kb);
      var sum := 0;
      while rows != {}
        invariant rows <= DocsOf(t, kb)
        invariant sum + Sum(rows, BytesIn(t)) == Stored(t, kb)
        decreases |rows|
      {
        var d :| d in rows;
        SumSplit(rows, BytesIn(t), d);
        sum := sum + t.docs[d].contentBytes;
        rows := rows - {d};
      }
      r := Ok(sum);
    }

    /** The checks before the quota: the enqueue the request asks for, or the status it is refused with. */
    method Validate(kb: Id, found: Found, body: Body) returns (refusal: int, input: Option<Input>)
      ensures input == if found.KbFound? then Built(lower, kb, body, maxUpload) else None
      ensures (refusal == NOT_FOUND <==> found.KbMissing?) && (refusal == INTERNAL_ERROR <==> found.KbUnreadable?)
      ensures refusal == REQUEST_TOO_LARGE <==> found.KbFound? && body.TooLarge?
      ensures refusal == UNSUPPORTED_MEDIA_TYPE <==>
        && found.KbFound? && body.Upload? && (body.sourceType.Pdf? || body.sourceType.Docx?)
        && !(|body.content| <= maxUpload && lower(Extension(body.filename)) in {".pdf", ".md", ".markdown", ".txt", ".docx"})
      ensures refusal == BAD_REQUEST <==>
        found.KbFound? && (body.Malformed? || (body.Upload? && body.sourceType.Url? && body.url == ""))
      ensures (input.Some? <==> refusal == OK) && refusal != ACCEPTED && refusal != INSUFFICIENT_STORAGE
    {
      if found.KbMissing? {
        return NOT_FOUND, None;
      }
      if found.KbUnreadable? {
        return INTERNAL_ERROR, None;
      }
      if body.TooLarge? {
        return REQUEST_TOO_LARGE, None;
      }
      if body.Malformed? {
        return BAD_REQUEST, None;
      }
      var sourceRef := "";
      if body.sourceType.Url? {
        sourceRef := body.url;
        if sourceRef == "" {
          return BAD_REQUEST, None;
        }
      } else if body.sourceType.Pdf? || body.sourceType.Docx? {
        if !UploadValid(lower, body.filename, |body.content|, maxUpload) {
          return UNSUPPORTED_MEDIA_TYPE, None;
        }
        sourceRef := body.filename;
      }
      refusal, input := OK, Some(Input(kb, body.title, body.sourceType, sourceRef, body.content));
    }

    /**
     What an upload writes is nothing, because it was refused or its document was there already, or the
     rows of exactly the request, within the quota whenever the usage could be read.  Only an accepted
     upload writes, or one whose commit reported an error and happened all the same.
     */
    method Handle(kb: Id, found: Found, body: Body, readOk: bool, docId: Id, jobId: Id, calls: EnqueueCalls)
      returns (status: int, document: Id)
      requires docId !in ingest.db.tables.docs && jobId !in ingest.db.tables.jobs
      modifies ingest.db`tables
      ensures ingest.db.tables != old(ingest.db.tables) ==>
        status == ACCEPTED || (status == BAD_REQUEST && calls.end.CommitInDoubt?)
      ensures status == ACCEPTED ==> found.KbFound? && Built(lower, kb, body, maxUpload).Some?
      ensures status == ACCEPTED && ingest.db.tables != old(ingest.db.tables) ==> document == docId
      ensures ingest.db.tables != old(ingest.db.tables) ==>
        && Built(lower, kb, body, maxUpload).Some?
        && ingest.db.tables == InsertPair(ingest.sha, old(ingest.db.tables), docId, jobId, Built(lower, kb, body, maxUpload).value, ingest.db.now)
        && (readOk ==> Stored(ingest.db.tables, kb) <= quota)
      ensures
        (status == INSUFFICIENT_STORAGE <==>
          (found.KbFound? && Built(lower, kb, body, maxUpload).Some? && readOk
           && Stored(old(ingest.db.tables), kb) + |body.content| > quota))
      ensures (status == NOT_FOUND <==> found.KbMissing?) && (status == INTERNAL_ERROR <==> found.KbUnreadable?)
      ensures status == REQUEST_TOO_LARGE <==> found.KbFound? && body.TooLarge?
      ensures status == UNSUPPORTED_MEDIA_TYPE <==>
        && found.KbFound? && body.Upload? && (body.sourceType.Pdf? || body.sourceType.Docx?)
        && !(|body.content| <= maxUpload && lower(Extension(body.filename)) in {".pdf", ".md", ".markdown", ".txt", ".docx"})
      ensures found.KbFound? && (body.Malformed? || (body.Upload? && body.sourceType.Url? && body.url == "")) ==> status == BAD_REQUEST
      ensures ingest.db.tables != old(ingest.db.tables) ==> Uploaded(ingest.sha, ingest.db.tables, docId, jobId, kb, body, ingest.db.now)
      ensures status == ACCEPTED && ingest.db.tables == old(ingest.db.tables) ==>
        var input := Built(lower, kb, body, maxUpload).value;
        FastPathMatches(ingest.sha, ingest.db.tables, input, document) || KeyLeadsTo(ingest.sha, ingest.db.tables, input, document)
      ensures
        found.KbFound? && Built(lower, kb, body, maxUpload).Some?
        && (readOk ==> Stored(old(ingest.db.tables), kb) + |body.content| <= quota) ==>
          var input, t := Built(lower, kb, body, maxUpload).value, old(ingest.db.tables);
          if Matched(ingest.sha, t, input, calls) then
            status == ACCEPTED && ingest.db.tables == t
          else if KeyTaken(t, InputKey(ingest.sha, input)) then
            && ingest.db.tables == t
            && (calls.begun && calls.docInserted && calls.lookupOk && HolderNamed(t, InputKey(ingest.sha, input)) ==> status == ACCEPTED)
          else if calls.begun && calls.docInserted && calls.jobInserted && calls.end.Committed? then
            status == ACCEPTED && document == docId && ingest.db.tables != t
          else status == BAD_REQUEST
    {
      hide Matched, KeyTaken, HolderNamed, FastPathMatches, KeyLeadsTo, InsertPair, Stored, InputKey, Uploaded, Extension, Built;
      BuiltIs(lower, kb, body, maxUpload);
      document := "";
      var refusal, built := Validate(kb, found, body);
      if built.None? {
        return refusal, "";
      }
      var input := built.value;
      var used := KBContentBytes(kb, readOk);
      if used.Ok? && used.value + |body.content| > quota {
        return INSUFFICIENT_STORAGE, "";
      }
      StoredAfterInsert(ingest.sha, ingest.db.tables, docId, jobId, input, ingest.db.now, kb);
      PairIsUploaded(lower, maxUpload, ingest.sha, ingest.db.tables, docId, jobId, kb, body, ingest.db.now);
      var r := ingest.Enqueue(input, docId, jobId, calls);
      if r.Err? {
        return BAD_REQUEST, "";
      }
      return ACCEPTED, r.value;
    }
  }
}
