/**
 Bounded overtaking: claims go in next_run_at order, so once a job is overdue only the jobs that
 were already pending at or before its time can be claimed ahead of it for the first time.  Taking
 over a running job is another matter: it keeps its next_run_at, so as long as some job is left
 running with nobody on it, it can go first again and again.
 */
module Overtaking {
  import opened Basics
  import opened Rows
  import opened Queue
  import opened QueueAlways
  import opened QueueBudget
  import opened QueueTimely
  import opened QueueAttempts
  import opened WorkerCode
  import opened Backoff

  /** A claim in one piece takes an earliest claimable job at the current time. */
  ghost predicate OrderlyStep(s: System, l: Label) {
    l.TakeClaim? ==> l.at == s.now && Earliest(s.tables.jobs, s.now, l.job)
  }

  ghost predicate Orderly(env: Env, run: seq<Label>)
    requires Legal(env, run)
  {
    forall n :: 0 <= n < |run| ==> OrderlyStep(StateAt(env, run, n), run[n])
  }

  /** The backoff of every attempt that reschedules is positive. */
  ghost predicate BacksOff(env: Env) {
    forall attempts: Attempt :: attempts < env.maxAttempts ==> Backoff64(env.baseBackoff, attempts) > 0
  }

  /** So it is when the base is positive and the longest backoff fits in an int64. */
  lemma PositiveBaseBacksOff(env: Env)
    requires env.baseBackoff > 0
    requires env.maxAttempts >= 2 ==> env.baseBackoff * Pow2(env.maxAttempts - 2) < TWO_63
    ensures BacksOff(env)
  {
    hide Pow2, Backoff64;
    forall attempts: Attempt | attempts < env.maxAttempts ensures Backoff64(env.baseBackoff, attempts) > 0 {
      var n := attempts - 1;
      Pow2Monotone(n, env.maxAttempts - 2);
      FactorMonotone(Pow2(n), Pow2(env.maxAttempts - 2), env.baseBackoff);
      BackoffExact(env.baseBackoff, attempts);
      FactorMonotone(1, Pow2(n), env.baseBackoff);
    }
  }

  /** The pending jobs that may go before job j. */
  ghost function Ahead(t: Tables, j: Id): set<Id>
    requires j in t.jobs
  {
    set k | k in t.jobs && k != j && t.jobs[k].state.JobPending? && t.jobs[k].nextRunAt <= t.jobs[j].nextRunAt
  }

  /** Job j waits: pending and overdue. */
  ghost predicate Waits(s: System, j: Id) {
    j in s.tables.jobs && s.tables.jobs[j].state.JobPending? && s.tables.jobs[j].nextRunAt < s.now
  }

  /** A step by the holder of a claim writes that claim's job, which is running. */
  lemma WorkersLeavePending(env: Env, s: System, l: Label, j: Id)
    requires Good(env, s) && Enabled(env, s, l) && TimelyStep(s, l) && ActorOf(l).Some?
    requires j in s.tables.jobs && s.tables.jobs[j].state.JobPending? && !ClaimsJob(l, j)
    ensures
      j in TablesAfter(env, s, l).jobs
      && TablesAfter(env, s, l).jobs[j].state.JobPending?
      && TablesAfter(env, s, l).jobs[j].nextRunAt == s.tables.jobs[j].nextRunAt
  {
    hide Good, ProgressRight, SameRows, Claimable, TablesAfter;
    HolderOf(env, s, l.worker);
    UnwrittenJob(env, s, l, j);
  }

  lemma CallersLeavePending(env: Env, s: System, l: Label, j: Id)
    requires Paired(env, s) && Enabled(env, s, l) && ActorOf(l).None?
    requires j in s.tables.jobs && s.tables.jobs[j].state.JobPending? && j in TablesAfter(env, s, l).jobs
    ensures
      TablesAfter(env, s, l).jobs[j].state.JobPending?
      && TablesAfter(env, s, l).jobs[j].nextRunAt == s.tables.jobs[j].nextRunAt
  {
    hide Paired, SameRows, Claimable;
    PairedOf(env, s, "", j, "", "");
    UsedIds(env, s, s.tables.jobs[j].docId);
  }

  /** In a timely run a waiting job stays as it is until it is claimed or deleted. */
  lemma StaysWaiting(env: Env, s: System, l: Label, j: Id)
    requires Good(env, s) && Enabled(env, s, l) && TimelyStep(s, l) && Waits(s, j)
    requires !ClaimsJob(l, j) && j in TablesAfter(env, s, l).jobs
    ensures Waits(Apply(env, s, l), j)
    ensures TablesAfter(env, s, l).jobs[j].nextRunAt == s.tables.jobs[j].nextRunAt
  {
    ClockForward(env, s, l);
    hide TablesAfter;
    if ActorOf(l).Some? {
      WorkersLeavePending(env, s, l, j);
    } else {
      CallersLeavePending(env, s, l, j);
    }
  }

  /** No step lets another job in ahead of a waiting one: new due times lie after its own. */
  lemma NobodyCutsIn(env: Env, s: System, l: Label, j: Id, k: Id)
    requires BacksOff(env) && Enabled(env, s, l) && Waits(s, j) && j in TablesAfter(env, s, l).jobs
    requires TablesAfter(env, s, l).jobs[j].nextRunAt == s.tables.jobs[j].nextRunAt
    requires k in Ahead(TablesAfter(env, s, l), j)
    ensures k in Ahead(s.tables, j)
  {
    hide PcAfter, HalfAfter, ChunksAfter, RetriesAfter, SameRows, Claimable, Backoff64, SetDocPhase, MarkReady, FailDocTables, ReviveDoc;
    if Reschedules(env, s, l) {
      assert Backoff64(env.baseBackoff, PcOf(s, l.worker).c.attempts) > 0;
    }
  }

  /** The step claims a job that was pending, and does not take over a running one. */
  ghost predicate ClaimsPending(s: System, l: Label) {
    l.TakeClaim? && l.job in s.tables.jobs && s.tables.jobs[l.job].state.JobPending?
  }

  /** A claim of another pending job uses up one of those ahead. */
  lemma ClaimUsesOneAhead(env: Env, s: System, l: Label, j: Id)
    requires Enabled(env, s, l) && OrderlyStep(s, l) && Waits(s, j) && ClaimsPending(s, l) && l.job != j
    ensures l.job in Ahead(s.tables, j) && l.job !in Ahead(TablesAfter(env, s, l), j)
  {
  }

  lemma AheadShrinks(env: Env, s: System, l: Label, j: Id)
    requires Good(env, s) && BacksOff(env) && Enabled(env, s, l) && TimelyStep(s, l) && OrderlyStep(s, l)
    requires Waits(s, j) && !ClaimsJob(l, j) && j in TablesAfter(env, s, l).jobs
    ensures Waits(Apply(env, s, l), j)
    ensures |Ahead(TablesAfter(env, s, l), j)| + (if ClaimsPending(s, l) then 1 else 0) <= |Ahead(s.tables, j)|
  {
    hide Good, BacksOff, Enabled, TimelyStep, OrderlyStep, TablesAfter, Apply, Ahead;
    StaysWaiting(env, s, l, j);
    var before, after := Ahead(s.tables, j), Ahead(TablesAfter(env, s, l), j);
    forall k | k in after ensures k in before {
      NobodyCutsIn(env, s, l, j, k);
    }
    if ClaimsPending(s, l) {
      ClaimUsesOneAhead(env, s, l, j);
      Injection(after + {l.job}, before, (k: Id) => k);
      assert |after + {l.job}| == |after| + 1;
    } else {
      Injection(after, before, (k: Id) => k);
    }
  }

  ghost function ClaimsIn(run: seq<Label>, i: nat, k: nat): nat
    requires i <= k <= |run|
    decreases k
  {
    if i == k then 0 else ClaimsIn(run, i, k - 1) + (if run[k - 1].TakeClaim? then 1 else 0)
  }

  ghost function PendingClaimsIn(env: Env, run: seq<Label>, i: nat, k: nat): nat
    requires Legal(env, run) && i <= k <= |run|
    decreases k
  {
    if i == k then 0
    else PendingClaimsIn(env, run, i, k - 1) + (if ClaimsPending(StateAt(env, run, k - 1), run[k - 1]) then 1 else 0)
  }

  /** Job j waits at every point from i to k, where the step is not a claim of it. */
  ghost predicate WaitsBetween(env: Env, run: seq<Label>, i: nat, k: nat, j: Id)
    requires Legal(env, run) && i <= k <= |run|
  {
    && Waits(StateAt(env, run, i), j)
    && (forall n :: i <= n < k ==> !ClaimsJob(run[n], j))
    && (forall n :: i <= n <= k ==> j in StateAt(env, run, n).tables.jobs)
  }

  /**
   From the moment job j is overdue until it is claimed or deleted, in every timely run, with crashes,
   lost commits and takeovers: pending jobs are claimed at most as often as there were pending jobs due
   at or before its time, whatever is enqueued, fails or is retried meanwhile.
   */
  lemma {:induction false} BoundedOvertaking(env: Env, run: seq<Label>, i: nat, k: nat, j: Id)
    requires Legal(env, run) && Timely(env, run) && Orderly(env, run) && BacksOff(env)
    requires i <= k <= |run| && WaitsBetween(env, run, i, k, j)
    ensures Waits(StateAt(env, run, k), j)
    ensures PendingClaimsIn(env, run, i, k) + |Ahead(StateAt(env, run, k).tables, j)| <= |Ahead(StateAt(env, run, i).tables, j)|
    decreases k
  {
    hide Apply, Enabled, TimelyStep, OrderlyStep, Good, Ahead, Waits, After, ClaimsPending;
    if i < k {
      BoundedOvertaking(env, run, i, k - 1, j);
      var s, l := StateAt(env, run, k - 1), run[k - 1];
      GoodAt(env, run, k - 1);
      StateAtNext(env, run, k - 1);
      assert TimelyStep(s, l) && OrderlyStep(s, l);
      TablesOfApply(env, s, l);
      AheadShrinks(env, s, l, j);
    }
  }

  lemma TablesOfApply(env: Env, s: System, l: Label)
    requires Enabled(env, s, l)
    ensures Apply(env, s, l).tables == TablesAfter(env, s, l)
  {
  }

  // ---- takeovers, and what they are paid with --------------------------------------------

  /** A running job has its holder on it, with the lease still good. */
  ghost predicate Attended(s: System, j: Id) {
    j in s.tables.jobs && s.tables.jobs[j].state.JobRunning? ==>
      var job := s.tables.jobs[j];
      Live(s, job.lockedBy) && PcOf(s, job.lockedBy).c.jobId == j && job.lockedUntil == Some(PcOf(s, job.lockedBy).c.leaseEnd)
  }

  ghost predicate WorksOn(s: System, w: Id, j: Id) {
    Live(s, w) && PcOf(s, w).c.jobId == j
  }

  /** The jobs left running with nobody on them. */
  ghost function Unattended(s: System): set<Id> {
    set j | j in s.tables.jobs && !Attended(s, j)
  }

  /** The step takes worker w from a claim it was live on: a crash, a lost commit or first failure write, or a lapsed lease. */
  ghost predicate Abandons(s: System, l: Label, w: Id) {
    && Live(s, w)
    && (|| ((l.Crash? || l.CommitErr? || (l.FailJob? && !l.ok)) && l.worker == w)
        || (l.Tick? && s.now + l.elapsed > PcOf(s, w).c.leaseEnd))
  }

  ghost function AbandonedBy(s: System, l: Label): set<Id> {
    set w | w in s.pcs && Abandons(s, l, w)
  }

  /** An attended job is not open to a takeover. */
  lemma AttendedIsNotTaken(env: Env, s: System, l: Label)
    requires Enabled(env, s, l) && OrderlyStep(s, l) && l.TakeClaim? && Attended(s, l.job)
    ensures ClaimsPending(s, l)
  {
  }

  lemma RunningRewritten(env: Env, s: System, l: Label, j: Id)
    requires Enabled(env, s, l) && j in TablesAfter(env, s, l).jobs && TablesAfter(env, s, l).jobs[j].state.JobRunning?
    requires !ClaimsJob(l, j) && (l.DeleteRow? || JobWritten(s, l) == Some(j))
    ensures
      var after := TablesAfter(env, s, l).jobs[j];
      && j in s.tables.jobs && s.tables.jobs[j].state.JobRunning?
      && after.lockedBy == s.tables.jobs[j].lockedBy && after.lockedUntil == s.tables.jobs[j].lockedUntil
      && !(l.FailJob? && l.ok && PcOf(s, l.worker).c.jobId == j) && !(l.CommitOk? && PcOf(s, l.worker).c.jobId == j)
  {
    hide SetDocPhase, MarkReady, FailDocTables, ReviveDoc, Backoff64, SameRows, Claimable, Extract;
  }

  /** What a step leaves running was running before, with the same lease, or is the job it claims. */
  lemma RunningWritten(env: Env, s: System, l: Label, j: Id)
    requires Enabled(env, s, l) && j in TablesAfter(env, s, l).jobs && TablesAfter(env, s, l).jobs[j].state.JobRunning?
    requires !ClaimsJob(l, j)
    ensures
      var after := TablesAfter(env, s, l).jobs[j];
      && j in s.tables.jobs && s.tables.jobs[j].state.JobRunning?
      && after.lockedBy == s.tables.jobs[j].lockedBy && after.lockedUntil == s.tables.jobs[j].lockedUntil
      && !(l.FailJob? && l.ok && PcOf(s, l.worker).c.jobId == j) && !(l.CommitOk? && PcOf(s, l.worker).c.jobId == j)
  {
    hide TablesAfter, Extract, KeyTaken;
    if l.DeleteRow? || JobWritten(s, l) == Some(j) {
      RunningRewritten(env, s, l, j);
    } else {
      UnwrittenJob(env, s, l, j);
    }
  }

  lemma HolderStays(env: Env, s: System, l: Label, w: Id, j: Id)
    requires Enabled(env, s, l) && !Abandons(s, l, w) && Live(s, w) && PcOf(s, w).c.jobId == j
    requires !(l.FailJob? && l.ok && l.worker == w) && !(l.CommitOk? && l.worker == w)
    ensures Live(Apply(env, s, l), w) && PcOf(Apply(env, s, l), w).c == PcOf(s, w).c
  {
    hide TablesAfter, LogAfter, ChunksAfter, RetriesAfter;
    PcMoves(env, s, l, w);
  }

  lemma ClaimIsAttended(env: Env, s: System, l: Label)
    requires Enabled(env, s, l) && OrderlyStep(s, l) && l.TakeClaim?
    ensures Attended(Apply(env, s, l), l.job)
  {
    hide LogAfter, ChunksAfter, RetriesAfter;
  }

  /** A job is left unattended only by the step that takes its holder from it. */
  lemma AttendedUnlessAbandoned(env: Env, s: System, l: Label, j: Id)
    requires Enabled(env, s, l) && OrderlyStep(s, l) && Attended(s, j) && !Attended(Apply(env, s, l), j)
    ensures j in s.tables.jobs && s.tables.jobs[j].lockedBy in AbandonedBy(s, l)
    ensures WorksOn(s, s.tables.jobs[j].lockedBy, j)
  {
    hide TablesAfter, LogAfter, ChunksAfter, RetriesAfter, OrderlyStep, Live, Abandons;
    if ClaimsJob(l, j) {
      ClaimIsAttended(env, s, l);
    } else {
      RunningWritten(env, s, l, j);
      var w := s.tables.jobs[j].lockedBy;
      if !Abandons(s, l, w) {
        HolderStays(env, s, l, w, j);
      } else {
        LiveIsListed(s, l, w);
      }
    }
  }

  lemma LiveIsListed(s: System, l: Label, w: Id)
    requires Abandons(s, l, w)
    ensures w in s.pcs
  {
  }

  /** Each takeover uses up an unattended job, and each abandonment makes at most one. */
  lemma UnattendedStep(env: Env, s: System, l: Label)
    requires Enabled(env, s, l) && OrderlyStep(s, l)
    ensures |Unattended(Apply(env, s, l))| + (if l.TakeClaim? && !ClaimsPending(s, l) then 1 else 0)
      <= |Unattended(s)| + |AbandonedBy(s, l)|
  {
    hide Apply, Attended, OrderlyStep, AbandonedBy, ClaimsPending;
    var before, after := Unattended(s), Unattended(Apply(env, s, l));
    NewlyUnattended(env, s, l, after - before);
    var used: set<Id> := {};
    if l.TakeClaim? && !ClaimsPending(s, l) {
      TakeoverIsOfUnattended(env, s, l);
      used := {l.job};
    }
    Injection(after - (after - before), before - used, (k: Id) => k);
    assert after == (after - before) + (after - (after - before));
    assert |after| == |after - before| + |after - (after - before)|;
    assert used <= before;
    assert |before - used| == |before| - |used|;
  }

  lemma TakeoverIsOfUnattended(env: Env, s: System, l: Label)
    requires Enabled(env, s, l) && OrderlyStep(s, l) && l.TakeClaim? && !ClaimsPending(s, l)
    ensures l.job in Unattended(s) && l.job !in Unattended(Apply(env, s, l))
  {
    hide Apply, Attended, OrderlyStep;
    ClaimIsAttended(env, s, l);
    if Attended(s, l.job) {
      AttendedIsNotTaken(env, s, l);
    }
  }

  lemma NewlyUnattended(env: Env, s: System, l: Label, lost: set<Id>)
    requires Enabled(env, s, l) && OrderlyStep(s, l)
    requires forall j :: j in lost ==> j in Unattended(Apply(env, s, l)) && j !in Unattended(s)
    ensures |lost| <= |AbandonedBy(s, l)|
  {
    hide Apply, Enabled, OrderlyStep, AbandonedBy;
    var holder := (j: Id) => if j in s.tables.jobs then s.tables.jobs[j].lockedBy else "";
    forall j | j in lost ensures holder(j) in AbandonedBy(s, l) && WorksOn(s, holder(j), j) {
      JobsDoNotAppearRunning(env, s, l, j);
      AttendedUnlessAbandoned(env, s, l, j);
    }
    Injection(lost, AbandonedBy(s, l), holder);
  }

  lemma JobsDoNotAppearRunning(env: Env, s: System, l: Label, j: Id)
    requires Enabled(env, s, l) && j in Unattended(Apply(env, s, l)) && j !in Unattended(s)
    ensures Attended(s, j) && !Attended(Apply(env, s, l), j)
  {
    hide Apply;
  }

  ghost function AbandonmentsIn(env: Env, run: seq<Label>, i: nat, k: nat): nat
    requires Legal(env, run) && i <= k <= |run|
    decreases k
  {
    if i == k then 0 else AbandonmentsIn(env, run, i, k - 1) + |AbandonedBy(StateAt(env, run, k - 1), run[k - 1])|
  }

  ghost function TakeoversIn(env: Env, run: seq<Label>, i: nat, k: nat): nat
    requires Legal(env, run) && i <= k <= |run|
    decreases k
  {
    if i == k then 0
    else
      TakeoversIn(env, run, i, k - 1)
      + (if run[k - 1].TakeClaim? && !ClaimsPending(StateAt(env, run, k - 1), run[k - 1]) then 1 else 0)
  }

  /** Running jobs are taken over at most as often as they are abandoned, in every run, timely or not. */
  lemma {:induction false} TakeoversBound(env: Env, run: seq<Label>, i: nat, k: nat)
    requires Legal(env, run) && Orderly(env, run) && i <= k <= |run|
    ensures TakeoversIn(env, run, i, k) + |Unattended(StateAt(env, run, k))|
      <= |Unattended(StateAt(env, run, i))| + AbandonmentsIn(env, run, i, k)
    decreases k
  {
    hide Apply, Enabled, OrderlyStep, After, ClaimsPending, Unattended, AbandonedBy;
    if i < k {
      TakeoversBound(env, run, i, k - 1);
      var s, l := StateAt(env, run, k - 1), run[k - 1];
      StateAtNext(env, run, k - 1);
      assert OrderlyStep(s, l);
      UnattendedStep(env, s, l);
    }
  }

  lemma {:induction false} ClaimsAreOfTwoKinds(env: Env, run: seq<Label>, i: nat, k: nat)
    requires Legal(env, run) && i <= k <= |run|
    ensures ClaimsIn(run, i, k) == PendingClaimsIn(env, run, i, k) + TakeoversIn(env, run, i, k)
    decreases k
  {
    hide Apply, After, Legal, StateAt;
    if i < k {
      ClaimsAreOfTwoKinds(env, run, i, k - 1);
    }
  }

  /**
   So all claims made while an overdue job waits, in every timely run, are paid for: one for each pending
   job that was ahead of it, one for each job that was already left running with nobody on it, and one for
   each crash, lost commit, lost failure or lapsed lease since.
   */
  lemma OvertakingPaid(env: Env, run: seq<Label>, i: nat, k: nat, j: Id)
    requires Legal(env, run) && Timely(env, run) && Orderly(env, run) && BacksOff(env)
    requires i <= k <= |run| && WaitsBetween(env, run, i, k, j)
    ensures
      ClaimsIn(run, i, k) + |Ahead(StateAt(env, run, k).tables, j)| + |Unattended(StateAt(env, run, k))|
        <= |Ahead(StateAt(env, run, i).tables, j)| + |Unattended(StateAt(env, run, i))| + AbandonmentsIn(env, run, i, k)
  {
    hide Apply, After, Legal, Timely, Orderly, Ahead, Unattended, Waits, BacksOff;
    BoundedOvertaking(env, run, i, k, j);
    TakeoversBound(env, run, i, k);
    ClaimsAreOfTwoKinds(env, run, i, k);
  }

  // ---- when nothing is taken over ---------------------------------------------------------

  /** No crash, no lost commit or first failure write, and the clock waits for every holder's lease. */
  ghost predicate CalmStep(s: System, l: Label) {
    && !l.Crash? && !l.CommitErr? && (l.FailJob? ==> l.ok)
    && (l.Tick? ==> forall w :: Holds(PcOf(s, w)) ==> s.now + l.elapsed <= PcOf(s, w).c.leaseEnd)
  }

  ghost predicate Calm(env: Env, run: seq<Label>)
    requires Legal(env, run)
  {
    forall n :: 0 <= n < |run| ==> CalmStep(StateAt(env, run, n), run[n])
  }

  lemma CalmAbandonsNobody(s: System, l: Label)
    requires CalmStep(s, l)
    ensures AbandonedBy(s, l) == {}
  {
  }

  lemma {:induction false} CalmIsAttended(env: Env, run: seq<Label>, n: nat)
    requires Legal(env, run) && Orderly(env, run) && Calm(env, run) && n <= |run|
    ensures Unattended(StateAt(env, run, n)) == {}
    decreases n
  {
    hide Apply, Enabled, After, OrderlyStep, CalmStep, Unattended, AbandonedBy;
    if n > 0 {
      CalmIsAttended(env, run, n - 1);
      StateAtNext(env, run, n - 1);
      var s, l := StateAt(env, run, n - 1), run[n - 1];
      assert OrderlyStep(s, l) && CalmStep(s, l);
      UnattendedStep(env, s, l);
      CalmAbandonsNobody(s, l);
    } else {
      NobodyAtStart(env, run);
    }
  }

  lemma NobodyAtStart(env: Env, run: seq<Label>)
    requires Legal(env, run)
    ensures Unattended(StateAt(env, run, 0)) == {}
  {
    assert run[..0] == [];
  }

  /** In a calm run no job is ever taken over: every claim is of a pending job. */
  lemma NoTakeover(env: Env, run: seq<Label>, n: nat)
    requires Legal(env, run) && Orderly(env, run) && Calm(env, run) && n < |run| && run[n].TakeClaim?
    ensures ClaimsPending(StateAt(env, run, n), run[n])
  {
    hide Apply, After, Legal, Calm, Unattended;
    CalmIsAttended(env, run, n);
    assert OrderlyStep(StateAt(env, run, n), run[n]);
    if !ClaimsPending(StateAt(env, run, n), run[n]) {
      TakeoverIsOfUnattended(env, StateAt(env, run, n), run[n]);
    }
  }

  lemma {:induction false} NothingAbandoned(env: Env, run: seq<Label>, i: nat, k: nat)
    requires Legal(env, run) && Calm(env, run) && i <= k <= |run|
    ensures AbandonmentsIn(env, run, i, k) == 0
    decreases k
  {
    hide Apply, After, Legal, StateAt, CalmStep, AbandonedBy;
    if i < k {
      NothingAbandoned(env, run, i, k - 1);
      assert CalmStep(StateAt(env, run, k - 1), run[k - 1]);
      CalmAbandonsNobody(StateAt(env, run, k - 1), run[k - 1]);
    }
  }

  /** So in calm timely runs the bound of the pending jobs ahead is on all claims. */
  lemma CalmOvertaking(env: Env, run: seq<Label>, i: nat, k: nat, j: Id)
    requires Legal(env, run) && Timely(env, run) && Orderly(env, run) && Calm(env, run) && BacksOff(env)
    requires i <= k <= |run| && WaitsBetween(env, run, i, k, j)
    ensures Waits(StateAt(env, run, k), j)
    ensures ClaimsIn(run, i, k) + |Ahead(StateAt(env, run, k).tables, j)| <= |Ahead(StateAt(env, run, i).tables, j)|
  {
    hide Apply, After, Legal, Timely, Orderly, Calm, Ahead, Unattended, Waits, BacksOff;
    BoundedOvertaking(env, run, i, k, j);
    OvertakingPaid(env, run, i, k, j);
    CalmIsAttended(env, run, i);
    NothingAbandoned(env, run, i, k);
  }

  /** And no claim of a calm timely run passes the attempt limit. */
  lemma CalmKeepsLimit(env: Env, run: seq<Label>, n: nat)
    requires Configured(env) && Legal(env, run) && Timely(env, run) && Orderly(env, run) && Calm(env, run)
    requires n < |run| && run[n].TakeClaim?
    ensures GrantFor(env, StateAt(env, run, n), run[n]).attempt <= env.maxAttempts
  {
    hide Apply, After, Legal, Timely, Orderly, Calm;
    LimitPassedExactly(env, run, n);
    NoTakeover(env, run, n);
  }
}
