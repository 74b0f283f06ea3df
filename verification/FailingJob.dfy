/**
 Jobs that never succeed, drained by the worker's own code.  Any number of them, beside each other:
 each failure takes exactly one of its job's claims, so each job is claimed exactly as often as it had
 claims left and is then dead.  A job alone is claimed each time when its backoff ends.
 */
module FailingJob {
  import opened Basics
  import opened Rows
  import opened Queue
  import opened Processing
  import opened WorkerCode
  import opened Backoff
  import opened Draining

  /** An attempt that gets as far as its import fails there, and the first write of each failure goes through. */
  predicate NeverSucceeds(calls: Calls) {
    calls.importResult.Err? && calls.failJobOk
  }

  /** The failure that a claim and its processing end in. */
  function TurnFailure(env: Env, st: Store, c: Claim, calls: Calls): Failure
    requires calls.importResult.Err?
  {
    FailureOf(st.now, calls.(parse := ParseSource(env, c, RawRead(st, c, calls), calls)))
  }

  lemma ClaimKeepsContent(env: Env, before: Store, mid: Store, w: Id, serial: nat, c: Claim, calls: Calls)
    requires Took(env, before, mid, w, serial, c)
    ensures RawRead(mid, c, calls) == RawRead(before, c, calls)
  {
  }

  lemma ClaimSpelledOut(env: Env, before: Store, mid: Store, w: Id, serial: nat, c: Claim)
    requires Took(env, before, mid, w, serial, c)
    ensures c.jobId in before.tables.jobs && before.tables.jobs[c.jobId].docId in before.tables.docs
    ensures
      var job := before.tables.jobs[c.jobId];
      var doc := before.tables.docs[job.docId];
      && c == Claim(c.jobId, job.docId, job.attempts + 1, doc.kb, doc.sourceType, before.now + env.lease, serial)
      && mid == Store(ClaimTables(before.tables, c.jobId, c.docId, w, c.attempts, c.leaseEnd), before.chunks, before.now)
  {
  }

  /** A failing turn leaves its job's row as the failure round does. */
  lemma FailedTurn(env: Env, before: Store, after: Store, w: Id, serial: nat, c: Claim, calls: Calls)
    requires NeverSucceeds(calls) && OneTurn(env, before, after, w, serial, c, calls)
    ensures c.jobId in before.tables.jobs && c.jobId in after.tables.jobs
    ensures after.tables.jobs[c.jobId] == FailRound(env, before.tables.jobs[c.jobId], w, TurnFailure(env, before, c, calls))
  {
    hide Processed, FailRound, ClaimTables, Took, ParseSource, FailureOf, RawRead;
    var mid :| OneTurnVia(env, before, mid, after, w, serial, c, calls);
    var done := calls.(parse := ParseSource(env, c, RawRead(mid, c, calls), calls));
    ClaimKeepsContent(env, before, mid, w, serial, c, calls);
    ClaimSpelledOut(env, before, mid, w, serial, c);
    FailRoundIsProcessing(env, before.tables, c.jobId, w, before.now, done, serial, before.chunks);
  }

  /**
   The exact step: a failure takes exactly one claim of its job, whatever it had left, and leaves it
   dead at the limit and otherwise pending until its backoff has passed.
   */
  lemma FailureTakesOne(env: Env, before: Store, after: Store, w: Id, serial: nat, c: Claim, calls: Calls)
    requires Configured(env) && NeverSucceeds(calls) && OneTurn(env, before, after, w, serial, c, calls)
    ensures c.jobId in before.tables.jobs && OnlyJobChanged(before.tables, after.tables, c.jobId)
    ensures
      var max, job, failed := env.maxAttempts, before.tables.jobs[c.jobId], after.tables.jobs[c.jobId];
      && !Settled(job) && ClaimsLeft(max, job) == ClaimsLeft(max, failed) + 1
      && failed.attempts == job.attempts + 1
      && (failed.attempts >= max ==> failed.state == JobDead)
      && (failed.attempts < max ==> failed.state == JobPending && failed.nextRunAt == before.now + Backoff64(env.baseBackoff, failed.attempts))
  {
    hide OneTurn, Backoff64;
    FailedTurn(env, before, after, w, serial, c, calls);
    TurnSpends(env, before, after, w, serial, c, calls);
    assert TurnFailure(env, before, c, calls).at == before.now;
  }

  /** A job after `count` claims of it, all of which failed. */
  ghost predicate FailedSoFar(max: nat, start: Job, job: Job, count: nat) {
    && count + ClaimsLeft(max, job) == ClaimsLeft(max, start)
    && (Settled(start) ==> job == start)
    && (!Settled(start) && Settled(job) ==> job.state.JobDead?)
  }

  ghost predicate AllFailedSoFar(max: nat, start: Tables, t: Tables, taken: seq<Id>) {
    t.jobs.Keys == start.jobs.Keys
    && forall j :: j in start.jobs ==> FailedSoFar(max, start.jobs[j], t.jobs[j], multiset(taken)[j])
  }

  lemma OneMoreFailed(env: Env, start: Tables, before: Store, after: Store, w: Id, serial: nat, c: Claim, calls: Calls, taken: seq<Id>)
    requires Configured(env) && NeverSucceeds(calls) && OneTurn(env, before, after, w, serial, c, calls)
    requires AllFailedSoFar(env.maxAttempts, start, before.tables, taken)
    ensures AllFailedSoFar(env.maxAttempts, start, after.tables, taken + [c.jobId])
  {
    hide OneTurn, ClaimsLeft, Backoff64;
    FailureTakesOne(env, before, after, w, serial, c, calls);
    forall k | k in start.jobs
      ensures FailedSoFar(env.maxAttempts, start.jobs[k], after.tables.jobs[k], multiset(taken + [c.jobId])[k])
    {
      assert multiset(taken + [c.jobId]) == multiset(taken) + multiset{c.jobId};
      assert FailedSoFar(env.maxAttempts, start.jobs[k], before.tables.jobs[k], multiset(taken)[k]);
    }
  }

  ghost predicate Fresh(t: Tables) {
    forall j :: j in t.jobs ==> !Settled(t.jobs[j]) && t.jobs[j].attempts == 0
  }

  lemma BudgetOfFresh(env: Env, t: Tables)
    requires Configured(env) && Fresh(t)
    ensures Budget(env.maxAttempts, t) == |t.jobs.Keys| * env.maxAttempts
  {
    SumConstant(t.jobs.Keys, j => ClaimsLeftOf(env.maxAttempts, t, j), env.maxAttempts);
  }

  lemma BudgetOfSettled(env: Env, t: Tables)
    requires AllSettled(t)
    ensures Budget(env.maxAttempts, t) == 0
  {
    SumBound(t.jobs.Keys, j => ClaimsLeftOf(env.maxAttempts, t, j), 0);
  }

  lemma BudgetOfFailed(env: Env, before: Store, after: Store, w: Id, serial: nat, c: Claim, calls: Calls)
    requires Configured(env) && NeverSucceeds(calls) && OneTurn(env, before, after, w, serial, c, calls)
    ensures Budget(env.maxAttempts, before.tables) == Budget(env.maxAttempts, after.tables) + 1
  {
    hide OneTurn, ClaimsLeft, Backoff64;
    var max, t, u := env.maxAttempts, before.tables, after.tables;
    FailureTakesOne(env, before, after, w, serial, c, calls);
    SumUpdate(t.jobs.Keys, k => ClaimsLeftOf(max, t, k), k => ClaimsLeftOf(max, u, k), c.jobId);
  }

  /**
   The bound of Drain is attained: when nothing ever succeeds, every open job ends dead, each claimed
   exactly as often as it had claims left, which is maxAttempts times for a fresh one.
   */
  method DrainFailing(worker: Worker, attempt: nat -> Calls) returns (claims: nat, ghost taken: seq<Id>)
    requires Configured(worker.env) && Drainable(worker.db.tables)
    requires forall n :: NeverSucceeds(attempt(n))
    modifies worker.db
    ensures worker.db.tables.jobs.Keys == old(worker.db.tables.jobs.Keys)
    ensures forall j :: j in old(worker.db.tables.jobs) && !Settled(old(worker.db.tables.jobs[j])) ==> worker.db.tables.jobs[j].state == JobDead
    ensures forall j :: j in old(worker.db.tables.jobs) && Settled(old(worker.db.tables.jobs[j])) ==> worker.db.tables.jobs[j] == old(worker.db.tables.jobs[j])
    ensures |taken| == claims == worker.db.granted - old(worker.db.granted)
    ensures forall j :: j in old(worker.db.tables.jobs) ==> multiset(taken)[j] == ClaimsLeft(worker.env.maxAttempts, old(worker.db.tables.jobs[j]))
    ensures claims == Budget(worker.env.maxAttempts, old(worker.db.tables))
    ensures Fresh(old(worker.db.tables)) ==> claims == |old(worker.db.tables.jobs.Keys)| * worker.env.maxAttempts
  {
    hide Budget, OneTurn, TurnLeft, AllFailedSoFar, NeverSucceeds;
    ghost var env, start := worker.env, worker.db.tables;
    claims, taken := 0, [];
    NothingFailed(env.maxAttempts, start);
    while exists j :: j in worker.db.tables.jobs && !Settled(worker.db.tables.jobs[j])
      invariant Drainable(worker.db.tables)
      invariant |taken| == claims == worker.db.granted - old(worker.db.granted)
      invariant AllFailedSoFar(env.maxAttempts, start, worker.db.tables, taken)
      invariant claims + Budget(env.maxAttempts, worker.db.tables) == Budget(env.maxAttempts, start)
      decreases Budget(env.maxAttempts, worker.db.tables)
    {
      var open :| open in worker.db.tables.jobs && !Settled(worker.db.tables.jobs[open]);
      var due := DueAt(worker.db.tables.jobs[open]);
      if worker.db.now < due {
        worker.db.now := due;
      }
      ghost var before, serial := worker.db.Contents(), worker.db.granted;
      ghost var c := DrainOnce(worker, attempt(claims), open);
      BudgetOfFailed(env, before, worker.db.Contents(), worker.id, serial, c, attempt(claims));
      OneMoreFailed(env, start, before, worker.db.Contents(), worker.id, serial, c, attempt(claims), taken);
      claims, taken := claims + 1, taken + [c.jobId];
    }
    BudgetOfSettled(env, worker.db.tables);
    AllFailed(env.maxAttempts, start, worker.db.tables, taken);
    if Fresh(start) {
      BudgetOfFresh(env, start);
    }
  }

  lemma NothingFailed(max: nat, t: Tables)
    ensures AllFailedSoFar(max, t, t, [])
  {
  }

  lemma AllFailed(max: nat, start: Tables, t: Tables, taken: seq<Id>)
    requires AllFailedSoFar(max, start, t, taken) && AllSettled(t)
    ensures t.jobs.Keys == start.jobs.Keys
    ensures forall j :: j in start.jobs && !Settled(start.jobs[j]) ==> t.jobs[j].state == JobDead
    ensures forall j :: j in start.jobs && Settled(start.jobs[j]) ==> t.jobs[j] == start.jobs[j]
    ensures forall j :: j in start.jobs ==> multiset(taken)[j] == ClaimsLeft(max, start.jobs[j])
  {
    forall j | j in start.jobs ensures FailedSoFar(max, start.jobs[j], t.jobs[j], multiset(taken)[j]) && Settled(t.jobs[j]) {
    }
  }

  // ---- one failing job on its own, and when it is claimed ----------------------------

  /** The only job there is. */
  ghost predicate OnlyJob(t: Tables, j: Id) {
    t.jobs.Keys == {j} && t.jobs[j].docId in t.docs
  }

  lemma OnlyJobStays(t: Tables, u: Tables, j: Id, c: Claim)
    requires OnlyJob(t, j) && c.jobId in t.jobs && OnlyJobChanged(t, u, c.jobId) && u.jobs[c.jobId].docId == t.jobs[c.jobId].docId
    ensures c.jobId == j && OnlyJob(u, j)
  {
    assert c.jobId in t.jobs.Keys && j in t.jobs.Keys;
  }

  /** The base is not negative and the longest backoff fits in an int64. */
  ghost predicate LongestFits(env: Env) {
    env.baseBackoff >= 0 && (env.maxAttempts >= 2 ==> env.baseBackoff * Pow2(env.maxAttempts - 2) < TWO_63)
  }

  /** The backoff of an attempt that is not the last is exact and not negative. */
  lemma BackoffFits(env: Env, attempts: Attempt)
    requires LongestFits(env) && attempts < env.maxAttempts
    ensures Backoff64(env.baseBackoff, attempts) >= 0
  {
    Pow2Monotone(attempts - 1, env.maxAttempts - 2);
    FactorMonotone(Pow2(attempts - 1), Pow2(env.maxAttempts - 2), env.baseBackoff);
    BackoffExact(env.baseBackoff, attempts);
    ProductIsNat(env.baseBackoff, Pow2(attempts - 1));
  }

  /** The failures so far came at these times: the first when the job was due, each later one when its backoff had passed. */
  ghost predicate OnSchedule(env: Env, first: int, failures: seq<Failure>) {
    forall i :: 0 <= i < |failures| ==> failures[i].at == first + TotalBackoff(env.baseBackoff, i)
  }

  /** What is true of the job between two turns. */
  ghost predicate Between(env: Env, start: Job, w: Id, first: int, failures: seq<Failure>, job: Job, now: int) {
    && |failures| <= env.maxAttempts && OnSchedule(env, first, failures)
    && job == FailRounds(env, start, w, failures)
    && (failures == [] ==> first == NextDue(start, now))
    && (failures != [] ==> now == failures[|failures| - 1].at)
  }

  lemma TotalStep(base: int, n: Attempt)
    ensures TotalBackoff(base, n) == TotalBackoff(base, n - 1) + Backoff64(base, n)
  {
  }

  lemma TotalOfNone(base: int)
    ensures TotalBackoff(base, 0) == 0
  {
  }

  function NextDue(job: Job, now: int): int {
    if now < job.nextRunAt then job.nextRunAt else now
  }

  /** After its i-th failure the job is next due when the first i backoffs have passed. */
  lemma DueOnSchedule(env: Env, start: Job, w: Id, first: int, failures: seq<Failure>, job: Job, now: int)
    requires Configured(env) && LongestFits(env) && start.state == JobPending && start.attempts == 0
    requires Between(env, start, w, first, failures, job, now) && |failures| < env.maxAttempts
    ensures Claimable(job, NextDue(job, now)) && NextDue(job, now) == first + TotalBackoff(env.baseBackoff, |failures|)
  {
    hide FailRound, Backoff64, TotalBackoff, LongestFits;
    AlwaysFailingJob(env, start, w, failures);
    if failures != [] {
      BackoffFits(env, |failures|);
      TotalStep(env.baseBackoff, |failures|);
      assert failures[|failures| - 1].at == first + TotalBackoff(env.baseBackoff, |failures| - 1);
    } else {
      TotalOfNone(env.baseBackoff);
    }
  }

  /** RunOnce at that time is one more failure, on schedule. */
  lemma NextTurn(env: Env, start: Job, w: Id, first: int, failures: seq<Failure>, job: Job, now: int, f: Failure)
    requires Between(env, start, w, first, failures, job, now) && |failures| < env.maxAttempts
    requires f.at == first + TotalBackoff(env.baseBackoff, |failures|)
    ensures Between(env, start, w, first, failures + [f], FailRound(env, job, w, f), f.at)
  {
    hide FailRound, TotalBackoff;
    assert (failures + [f])[..|failures|] == failures;
  }

  /**
   Left alone with a worker that is there whenever it is due, the job is claimed exactly maxAttempts
   times, the i-th time after the first i backoffs, and is then dead: base * (2^(maxAttempts-1) - 1)
   after its first claim.
   */
  method DrainOnSchedule(worker: Worker, j: Id, attempt: nat -> Calls) returns (claims: nat)
    requires Configured(worker.env) && LongestFits(worker.env)
    requires OnlyJob(worker.db.tables, j) && forall n :: NeverSucceeds(attempt(n))
    requires worker.db.tables.jobs[j].state == JobPending && worker.db.tables.jobs[j].attempts == 0
    modifies worker.db
    ensures claims == worker.env.maxAttempts == worker.db.granted - old(worker.db.granted)
    ensures j in worker.db.tables.jobs && worker.db.tables.jobs[j].state == JobDead
    ensures
      worker.db.now == NextDue(old(worker.db.tables.jobs[j]), old(worker.db.now))
        + worker.env.baseBackoff * (Pow2(worker.env.maxAttempts - 1) - 1)
  {
    hide FailRounds, FailRound, TotalBackoff, Pow2, OneTurn, NeverSucceeds, TurnFailure, TurnLeft;
    claims := 0;
    ghost var env, start, failures := worker.env, worker.db.tables.jobs[j], [];
    ghost var first := NextDue(start, worker.db.now);
    NoTurnsYet(env, start, worker.id, worker.db.now);
    while claims < worker.env.maxAttempts
      invariant claims == |failures| <= worker.env.maxAttempts
      invariant claims == worker.db.granted - old(worker.db.granted)
      invariant OnlyJob(worker.db.tables, j) && Drainable(worker.db.tables)
      invariant Between(env, start, worker.id, first, failures, worker.db.tables.jobs[j], worker.db.now)
    {
      DueOnSchedule(env, start, worker.id, first, failures, worker.db.tables.jobs[j], worker.db.now);
      ghost var last := worker.db.now;
      if worker.db.now < worker.db.tables.jobs[j].nextRunAt {
        worker.db.now := worker.db.tables.jobs[j].nextRunAt;
      }
      ghost var before, serial := worker.db.Contents(), worker.db.granted;
      ghost var c := DrainOnce(worker, attempt(claims), j);
      ghost var f := OneMoreOnSchedule(env, start, first, failures, last, before, worker.db.Contents(), worker.id, serial, j, c, attempt(claims));
      failures := failures + [f];
      claims := claims + 1;
    }
    AlwaysFailingJob(env, start, worker.id, failures);
    AlwaysFailingBackoff(env);
  }

  lemma OneMoreOnSchedule(env: Env, start: Job, first: int, failures: seq<Failure>, last: int, before: Store, after: Store,
                          w: Id, serial: nat, j: Id, c: Claim, calls: Calls) returns (f: Failure)
    requires Configured(env) && NeverSucceeds(calls) && OneTurn(env, before, after, w, serial, c, calls)
    requires OnlyJob(before.tables, j) && |failures| < env.maxAttempts && after.now == before.now
    requires before.now == first + TotalBackoff(env.baseBackoff, |failures|)
    requires Between(env, start, w, first, failures, before.tables.jobs[j], last)
    ensures OnlyJob(after.tables, j)
    ensures Between(env, start, w, first, failures + [f], after.tables.jobs[j], after.now)
  {
    hide FailRound, OneTurn, Between, Backoff64, TotalBackoff, ClaimsLeft;
    f := TurnFailure(env, before, c, calls);
    FailedTurn(env, before, after, w, serial, c, calls);
    TurnSpends(env, before, after, w, serial, c, calls);
    OnlyJobStays(before.tables, after.tables, j, c);
    NextTurn(env, start, w, first, failures, before.tables.jobs[j], last, f);
  }

  lemma NoTurnsYet(env: Env, start: Job, w: Id, now: int)
    ensures Between(env, start, w, NextDue(start, now), [], start, now)
  {
  }
}
