/**
 The retry budget and the separation of successive claims, in every run: nothing here
 assumes that a worker writes in time, or at all.
 */
module QueueBudget {
  import opened Basics
  import opened Rows
  import opened Queue
  import opened QueueAlways

  // ---- attempt numbers -----------------------------------------------------------

  ghost predicate GrantCounted(s: System, n: nat) {
    n < |s.log.grants| ==>
      var g := s.log.grants[n];
      && g.jobId in s.log.used
      && g.epoch <= EpochOf(s, g.jobId)
      && (g.epoch == EpochOf(s, g.jobId) && g.jobId in s.tables.jobs ==> g.attempt <= s.tables.jobs[g.jobId].attempts)
  }

  /** Of two claims of one job in one epoch, the later one got the larger attempt number. */
  ghost predicate Increasing(s: System, m: nat, n: nat) {
    m < n < |s.log.grants|
    && s.log.grants[m].jobId == s.log.grants[n].jobId && s.log.grants[m].epoch == s.log.grants[n].epoch ==>
      s.log.grants[m].attempt < s.log.grants[n].attempt
  }

  /** Epochs of one job never go back. */
  ghost predicate EpochsOrdered(s: System, m: nat, n: nat) {
    m < n < |s.log.grants| && s.log.grants[m].jobId == s.log.grants[n].jobId ==>
      s.log.grants[m].epoch <= s.log.grants[n].epoch
  }

  ghost predicate HolderGranted(s: System, w: Id) {
    var pc := PcOf(s, w);
    !pc.Idle? ==>
      && pc.c.serial < |s.log.grants|
      && s.log.grants[pc.c.serial].worker == w
      && s.log.grants[pc.c.serial].jobId == pc.c.jobId
      && s.log.grants[pc.c.serial].attempt == pc.c.attempts
      && s.log.grants[pc.c.serial].leaseEnd == pc.c.leaseEnd
  }

  /** A claim that has not reached fail's first write has caused no reschedule. */
  ghost predicate HolderUnspent(s: System, w: Id) {
    Holds(PcOf(s, w)) ==> PcOf(s, w).c.serial !in s.log.reschedules
  }

  ghost predicate RescheduleValid(env: Env, s: System, n: nat) {
    n in s.log.reschedules ==> n < |s.log.grants| && s.log.grants[n].attempt < env.maxAttempts
  }

  ghost predicate OncePerClaim(s: System, i: nat, k: nat) {
    i < k < |s.log.reschedules| ==> s.log.reschedules[i] != s.log.reschedules[k]
  }

  /** Serials on record belong to claims already made. */
  ghost predicate LastPast(s: System, j: Id) {
    j in s.log.last ==> s.log.last[j] < |s.log.grants|
  }

  ghost predicate RetryPast(s: System, r: Id) {
    r in s.retries && s.retries[r].lastSerial.Some? ==> s.retries[r].lastSerial.value < |s.log.grants|
  }

  ghost predicate Budgeted(env: Env, s: System) {
    && (forall n :: GrantCounted(s, n))
    && (forall m, n :: Increasing(s, m, n))
    && (forall m, n :: EpochsOrdered(s, m, n))
    && (forall w :: HolderGranted(s, w))
    && (forall w :: HolderUnspent(s, w))
    && (forall n :: RescheduleValid(env, s, n))
    && (forall i, k :: OncePerClaim(s, i, k))
    && (forall j :: LastPast(s, j))
    && (forall r :: RetryPast(s, r))
  }

  lemma AttemptsWritten(env: Env, s: System, l: Label, j: Id)
    requires Enabled(env, s, l) && j in s.tables.jobs && j in TablesAfter(env, s, l).jobs
    requires !(l.Enqueue? && l.jobId == j)
    ensures TablesAfter(env, s, l).jobs[j].attempts ==
      if l.TakeClaim? && l.job == j then s.tables.jobs[j].attempts + 1
      else if l.RetryJob? && s.log.jobOf[l.doc] == j then 0
      else s.tables.jobs[j].attempts
  {
    hide SetDocPhase, MarkReady, FailDocTables, ReviveDoc, Backoff64, SameRows, Claimable;
  }

  lemma EpochWritten(env: Env, s: System, l: Label, j: Id)
    requires Enabled(env, s, l)
    ensures EpochOf(Apply(env, s, l), j) == EpochOf(s, j) + if l.RetryJob? && s.log.jobOf[l.doc] == j then 1 else 0
  {
    hide TablesAfter, ChunksAfter, HalfAfter, PcAfter, PcsAfter, RetriesAfter;
  }

  /** Which steps touch the attempt counters: a claim adds one, a revival starts over at zero. */
  lemma AttemptsAfter(env: Env, s: System, l: Label, j: Id)
    requires Enabled(env, s, l) && j in s.tables.jobs && j in TablesAfter(env, s, l).jobs
    ensures
      var before, after := s.tables.jobs[j].attempts, TablesAfter(env, s, l).jobs[j].attempts;
      || (after == before && EpochOf(Apply(env, s, l), j) == EpochOf(s, j))
      || (l.TakeClaim? && l.job == j && after == before + 1 && EpochOf(Apply(env, s, l), j) == EpochOf(s, j))
      || (l.RetryJob? && s.log.jobOf[l.doc] == j && after == 0 && EpochOf(Apply(env, s, l), j) == EpochOf(s, j) + 1)
      || (l.Enqueue? && l.jobId == j)
  {
    hide TablesAfter, Apply, EpochOf;
    if !(l.Enqueue? && l.jobId == j) {
      AttemptsWritten(env, s, l, j);
      EpochWritten(env, s, l, j);
    }
  }

  lemma EpochAfter(env: Env, s: System, l: Label, j: Id)
    requires Enabled(env, s, l)
    ensures EpochOf(s, j) <= EpochOf(Apply(env, s, l), j)
    ensures !l.RetryJob? ==> EpochOf(s, j) == EpochOf(Apply(env, s, l), j)
  {
    hide TablesAfter, ChunksAfter, HalfAfter, PcAfter, PcsAfter, RetriesAfter;
  }

  /** What a step does to the list of claims. */
  lemma GrantsAfter(env: Env, s: System, l: Label)
    requires Enabled(env, s, l)
    ensures LogAfter(env, s, l).grants == if l.TakeClaim? then s.log.grants + [GrantFor(env, s, l)] else s.log.grants
  {
  }

  lemma ReschedulesAfter(env: Env, s: System, l: Label)
    requires Enabled(env, s, l)
    ensures LogAfter(env, s, l).reschedules ==
      if Reschedules(env, s, l) then s.log.reschedules + [PcOf(s, l.worker).c.serial] else s.log.reschedules
  {
  }

  lemma CountedStep(env: Env, s: System, l: Label, n: nat)
    requires Paired(env, s) && Budgeted(env, s) && Enabled(env, s, l)
    ensures GrantCounted(Apply(env, s, l), n)
  {
    hide ChunksAfter, HalfAfter, PcAfter, PcsAfter, RetriesAfter;
    GrantsAfter(env, s, l);
    assert GrantCounted(s, n);
    var s' := Apply(env, s, l);
    if n < |s'.log.grants| {
      var j := s'.log.grants[n].jobId;
      EpochAfter(env, s, l, j);
      assert JobPaired(s, j);
      if j in s.tables.jobs && j in s'.tables.jobs {
        AttemptsAfter(env, s, l, j);
      } else if !l.Enqueue? && j in s'.tables.jobs {
        NoNewJobs(env, s, l, j);
      }
    }
  }

  lemma OrderStep(env: Env, s: System, l: Label, m: nat, n: nat)
    requires Paired(env, s) && Budgeted(env, s) && Enabled(env, s, l)
    ensures Increasing(Apply(env, s, l), m, n)
    ensures EpochsOrdered(Apply(env, s, l), m, n)
  {
    GrantsAfter(env, s, l);
    assert Increasing(s, m, n) && EpochsOrdered(s, m, n) && GrantCounted(s, m);
  }

  lemma HolderStep(env: Env, s: System, l: Label, w: Id)
    requires Budgeted(env, s) && Enabled(env, s, l)
    ensures HolderGranted(Apply(env, s, l), w)
  {
    GrantsAfter(env, s, l);
    PcMoves(env, s, l, w);
    assert HolderGranted(s, w);
  }

  lemma UnspentStep(env: Env, s: System, l: Label, w: Id)
    requires Budgeted(env, s) && Enabled(env, s, l)
    ensures HolderUnspent(Apply(env, s, l), w)
  {
    ReschedulesAfter(env, s, l);
    PcMoves(env, s, l, w);
    assert HolderUnspent(s, w) && HolderGranted(s, w);
    if ActorOf(l).Some? {
      assert HolderGranted(s, ActorOf(l).value);
    }
    assert RescheduleValid(env, s, |s.log.grants|);
  }

  lemma RescheduleStep(env: Env, s: System, l: Label, n: nat)
    requires Budgeted(env, s) && Enabled(env, s, l)
    ensures RescheduleValid(env, Apply(env, s, l), n)
  {
    GrantsAfter(env, s, l);
    ReschedulesAfter(env, s, l);
    assert RescheduleValid(env, s, n);
    if l.FailJob? {
      assert HolderGranted(s, l.worker);
    }
  }

  lemma OnceStep(env: Env, s: System, l: Label, i: nat, k: nat)
    requires Budgeted(env, s) && Enabled(env, s, l)
    ensures OncePerClaim(Apply(env, s, l), i, k)
  {
    ReschedulesAfter(env, s, l);
    assert OncePerClaim(s, i, k);
    if l.FailJob? {
      assert HolderUnspent(s, l.worker);
    }
  }

  lemma PastStep(env: Env, s: System, l: Label, id: Id)
    requires Budgeted(env, s) && Enabled(env, s, l)
    ensures LastPast(Apply(env, s, l), id)
    ensures RetryPast(Apply(env, s, l), id)
  {
    GrantsAfter(env, s, l);
    assert LastPast(s, id) && RetryPast(s, id);
    if l.RetryJob? && l.caller == id {
      assert LastPast(s, s.log.jobOf[l.doc]);
    }
  }

  lemma BudgetStep(env: Env, s: System, l: Label)
    requires Paired(env, s) && Budgeted(env, s) && Enabled(env, s, l)
    ensures Budgeted(env, Apply(env, s, l))
  {
    var s' := Apply(env, s, l);
    forall n ensures GrantCounted(s', n) { CountedStep(env, s, l, n); }
    forall m, n ensures Increasing(s', m, n) && EpochsOrdered(s', m, n) { OrderStep(env, s, l, m, n); }
    forall w ensures HolderGranted(s', w) { HolderStep(env, s, l, w); }
    forall w ensures HolderUnspent(s', w) { UnspentStep(env, s, l, w); }
    forall n ensures RescheduleValid(env, s', n) { RescheduleStep(env, s, l, n); }
    forall i, k ensures OncePerClaim(s', i, k) { OnceStep(env, s, l, i, k); }
    forall j ensures LastPast(s', j) { PastStep(env, s, l, j); }
    forall r ensures RetryPast(s', r) { PastStep(env, s, l, r); }
  }

  lemma {:induction false} AlwaysBudgeted(env: Env, run: seq<Label>)
    requires Legal(env, run)
    ensures Budgeted(env, After(env, run))
    decreases |run|
  {
    if run != [] {
      var front := run[..|run| - 1];
      AlwaysBudgeted(env, front);
      AlwaysPaired(env, front);
      BudgetStep(env, After(env, front), run[|run| - 1]);
    }
  }

  /** The claims of one job and epoch that wrote a reschedule. */
  ghost function ReschedulesOf(s: System, j: Id, epoch: nat): set<nat> {
    set n | n in s.log.reschedules && n < |s.log.grants| && s.log.grants[n].jobId == j && s.log.grants[n].epoch == epoch
  }

  /**
   Between two revivals of a job, in every run: its claims get distinct, strictly increasing
   attempt numbers, each claim reschedules at most once, and all of them together reschedule
   at most maxAttempts - 1 times, however many workers crash or write late.
   */
  lemma RetryBudget(env: Env, run: seq<Label>, j: Id, epoch: nat)
    requires Configured(env) && Legal(env, run)
    ensures
      var s := After(env, run);
      && (forall m, n :: Increasing(s, m, n))
      && (forall i, k :: OncePerClaim(s, i, k))
      && |ReschedulesOf(s, j, epoch)| <= env.maxAttempts - 1
  {
    AlwaysBudgeted(env, run);
    var s := After(env, run);
    var claims := ReschedulesOf(s, j, epoch);
    var attempt := (n: nat) => if n < |s.log.grants| then s.log.grants[n].attempt as nat else 0;
    forall n | n in claims ensures 1 <= attempt(n) < env.maxAttempts {
      assert RescheduleValid(env, s, n);
    }
    forall m, n | m in claims && n in claims && attempt(m) == attempt(n) ensures m == n {
      assert Increasing(s, m, n) && Increasing(s, n, m);
    }
    Pigeonhole(claims, attempt, env.maxAttempts);
  }

  // ---- two claims of one job -------------------------------------------------------

  /** The step writes the job back to pending: a reschedule or a revival. */
  ghost predicate WritesPending(env: Env, s: System, l: Label, j: Id)
    requires Enabled(env, s, l)
  {
    || (Reschedules(env, s, l) && PcOf(s, l.worker).c.jobId == j)
    || (l.RetryJob? && s.log.jobOf[l.doc] == j)
  }

  ghost predicate ClaimsJob(l: Label, j: Id) {
    l.TakeClaim? && l.job == j
  }

  /** A job that is leased until `until`, finished, or gone: not yet open to a claim. */
  ghost predicate Shut(s: System, j: Id, until: int) {
    j in s.tables.jobs ==>
      var job := s.tables.jobs[j];
      || (job.state == JobRunning && job.lockedUntil == Some(until))
      || job.state == JobDone
      || job.state == JobDead
  }

  lemma ShutStep(env: Env, s: System, l: Label, j: Id, until: int)
    requires Enabled(env, s, l) && Shut(s, j, until) && j in s.log.used
    requires !ClaimsJob(l, j) && !WritesPending(env, s, l, j)
    ensures Shut(Apply(env, s, l), j, until) && j in Apply(env, s, l).log.used
  {
    hide ChunksAfter, HalfAfter, PcAfter, PcsAfter, RetriesAfter, SetDocPhase, MarkReady, FailDocTables, ReviveDoc, Backoff64, SameRows, Claimable;
  }

  /** Step m of the run claims the job or writes it back to pending. */
  ghost predicate Reopens(env: Env, run: seq<Label>, m: nat, j: Id)
    requires Legal(env, run) && m < |run|
  {
    ClaimsJob(run[m], j) || WritesPending(env, StateAt(env, run, m), run[m], j)
  }

  ghost predicate ShutAt(env: Env, run: seq<Label>, n: nat, j: Id, until: int)
    requires Legal(env, run) && n <= |run|
  {
    Shut(StateAt(env, run, n), j, until) && j in StateAt(env, run, n).log.used
  }

  lemma {:induction false} StaysShut(env: Env, run: seq<Label>, i: nat, k: nat, j: Id, until: int)
    requires Legal(env, run) && i <= k <= |run|
    requires forall m :: i <= m < k ==> !Reopens(env, run, m, j)
    requires ShutAt(env, run, i, j, until)
    ensures ShutAt(env, run, k, j, until)
    decreases k
  {
    hide Apply, After, Enabled, Shut, StateAt;
    if i < k {
      StaysShut(env, run, i, k - 1, j, until);
      StateAtNext(env, run, k - 1);
      assert !Reopens(env, run, k - 1, j);
      ShutStep(env, StateAt(env, run, k - 1), run[k - 1], j, until);
    }
  }

  lemma ClaimShuts(env: Env, s: System, l: Label, j: Id)
    requires Paired(env, s) && Enabled(env, s, l) && ClaimsJob(l, j)
    ensures Shut(Apply(env, s, l), j, l.at + env.lease) && j in Apply(env, s, l).log.used
  {
    assert JobPaired(s, j);
  }

  lemma PairedAt(env: Env, run: seq<Label>, n: nat)
    requires Legal(env, run) && n <= |run|
    ensures Paired(env, StateAt(env, run, n))
  {
    LegalPrefix(env, run, n);
    AlwaysPaired(env, run[..n]);
  }

  /**
   Two successive claims of one job, in every run: either the second one's clock was already past the
   first one's lease, or in between something wrote the job back to pending.
   */
  lemma SuccessiveClaims(env: Env, run: seq<Label>, i: nat, k: nat, j: Id)
    requires Legal(env, run) && i < k < |run|
    requires ClaimsJob(run[i], j) && ClaimsJob(run[k], j)
    requires forall m :: i < m < k ==> !ClaimsJob(run[m], j)
    ensures
      || run[i].at + env.lease < run[k].at
      || exists m | i < m < k :: WritesPending(env, StateAt(env, run, m), run[m], j)
  {
    hide Apply, After, Legal;
    if forall m | i < m < k :: !WritesPending(env, StateAt(env, run, m), run[m], j) {
      PairedAt(env, run, i);
      ClaimShuts(env, StateAt(env, run, i), run[i], j);
      StateAtNext(env, run, i);
      StaysShut(env, run, i + 1, k, j, run[i].at + env.lease);
    }
  }
}
