/**
 Draining: RunOnce repeated while time passes settles every job once the writes that end an attempt
 go through, within the claims the jobs have left.  A job whose commits keep failing is claimed again
 and again, since claim has no attempt cap.
 */
module Draining {
  import opened Basics
  import opened Rows
  import opened Queue
  import opened Processing
  import opened WorkerCode

  predicate Settled(job: Job) {
    job.state.JobDone? || job.state.JobDead?
  }

  /** How many more claims the job can take: one at least while it is open. */
  function ClaimsLeft(maxAttempts: nat, job: Job): nat {
    if Settled(job) then 0
    else if job.attempts >= maxAttempts then 1
    else maxAttempts - job.attempts
  }

  function ClaimsLeftOf(maxAttempts: nat, t: Tables, j: Id): nat {
    if j in t.jobs then ClaimsLeft(maxAttempts, t.jobs[j]) else 0
  }

  ghost function Budget(maxAttempts: nat, t: Tables): nat {
    Sum(t.jobs.Keys, j => ClaimsLeftOf(maxAttempts, t, j))
  }

  /** The write that ends the attempt goes through: the commit of an import that worked, the first write of a failure. */
  predicate Healthy(calls: Calls) {
    (calls.importResult.Err? || calls.commitOk) && calls.failJobOk
  }

  function Unhealthy(made: seq<Calls>): nat {
    if made == [] then 0
    else Unhealthy(made[..|made| - 1]) + if Healthy(made[|made| - 1]) then 0 else 1
  }

  lemma {:induction false} UnhealthySoFar(made: seq<Calls>, n: nat)
    requires n <= |made|
    ensures Unhealthy(made[..n]) <= Unhealthy(made)
    decreases |made|
  {
    if n < |made| {
      UnhealthySoFar(made[..|made| - 1], n);
      assert made[..|made| - 1][..n] == made[..n];
    } else {
      assert made[..n] == made;
    }
  }

  /** The calls of the first n attempts. */
  function Made(attempt: nat -> Calls, n: nat): seq<Calls> {
    seq(n, i requires 0 <= i < n => attempt(i))
  }

  lemma NextUnhealthy(attempt: nat -> Calls, n: nat)
    ensures Unhealthy(Made(attempt, n + 1)) == Unhealthy(Made(attempt, n)) + if Healthy(attempt(n)) then 0 else 1
  {
    assert Made(attempt, n + 1)[..n] == Made(attempt, n);
  }

  /** Calls that are healthy from some index on are unhealthy no more often than that. */
  lemma {:induction false} UnhealthyAtMost(attempt: nat -> Calls, settle: nat, n: nat)
    requires forall i: nat :: settle <= i ==> Healthy(attempt(i))
    ensures Unhealthy(Made(attempt, n)) <= settle
    ensures Unhealthy(Made(attempt, n)) <= n
  {
    if n > 0 {
      UnhealthyAtMost(attempt, settle, n - 1);
      NextUnhealthy(attempt, n - 1);
    }
  }

  /** The documents of all jobs exist, and running jobs have a lease end to wait for. */
  ghost predicate Drainable(t: Tables) {
    forall j :: j in t.jobs ==>
      t.jobs[j].docId in t.docs && (t.jobs[j].state.JobRunning? ==> t.jobs[j].lockedUntil.Some?)
  }

  ghost predicate OnlyJobChanged(t: Tables, u: Tables, j: Id) {
    u.jobs.Keys == t.jobs.Keys && u.docs.Keys == t.docs.Keys && forall k :: k in t.jobs && k != j ==> u.jobs[k] == t.jobs[k]
  }

  ghost predicate SameJob(before: Job, after: Job) {
    after.docId == before.docId && after.attempts == before.attempts
  }

  /** The job of an attempt whose ending write went through: done, dead at the limit, or pending below it. */
  ghost predicate Ended(env: Env, now: int, t: Tables, u: Tables, c: Claim) {
    && OnlyJobChanged(t, u, c.jobId) && c.jobId in t.jobs
    && var before, after := t.jobs[c.jobId], u.jobs[c.jobId];
    && SameJob(before, after)
    && (Settled(after) || (after.state.JobPending? && c.attempts < env.maxAttempts))
    && (after.state.JobPending? ==> after.nextRunAt == now + Backoff64(env.baseBackoff, c.attempts))
    && (after.state.JobDead? ==> c.attempts >= env.maxAttempts)
  }

  /** The job of an attempt whose ending write was lost: still as it was claimed. */
  ghost predicate LeftRunning(t: Tables, u: Tables, c: Claim) {
    && OnlyJobChanged(t, u, c.jobId) && c.jobId in t.jobs
    && var before, after := t.jobs[c.jobId], u.jobs[c.jobId];
    && SameJob(before, after) && after.state == before.state && after.lockedUntil == before.lockedUntil
  }

  lemma FailureEnds(env: Env, st: Store, c: Claim, message: string, calls: Calls)
    requires c.jobId in st.tables.jobs
    ensures
      var after := AfterFail(env, st, c, message, calls).tables;
      if calls.failJobOk then Ended(env, st.now, st.tables, after, c) else LeftRunning(st.tables, after, c)
  {
  }

  lemma CommitEnds(env: Env, st: Store, c: Claim, text: string, count: nat, calls: Calls)
    requires c.jobId in st.tables.jobs
    ensures
      var after := AfterCommit(env, st, c, text, count, calls).tables;
      if calls.commitOk then Ended(env, st.now, st.tables, after, c) else LeftRunning(st.tables, after, c)
  {
  }

  lemma PhasesKeepStates(st: Store, c: Claim, calls: Calls)
    requires c.jobId in st.tables.jobs
    ensures LeftRunning(st.tables, AfterPhases(st, c, calls).tables, c) && AfterPhases(st, c, calls).now == st.now
  {
  }

  lemma ProcessedEnds(env: Env, st: Store, c: Claim, calls: Calls)
    requires c.jobId in st.tables.jobs
    ensures
      var after := Processed(env, st, c, calls).tables;
      || Ended(env, st.now, st.tables, after, c)
      || (!Healthy(calls) && LeftRunning(st.tables, after, c))
  {
    hide AfterFail, AfterCommit, AfterPhases;
    match calls.parse
    case Err(message) => FailureEnds(env, st, c, message, calls);
    case Ok(text) =>
      PhasesKeepStates(st, c, calls);
      var indexed := AfterImport(env, AfterPhases(st, c, calls), c, text, calls);
      match calls.importResult
      case Ok(count) => CommitEnds(env, indexed, c, text, count, calls);
      case Err(message) => FailureEnds(env, indexed, c, message, calls);
  }

  /**
   What a turn leaves of the job it claimed: an open job has one attempt more and no more claims
   left than before, fewer if its ending write went through.
   */
  ghost predicate TurnLeft(max: nat, t: Tables, u: Tables, j: Id, healthy: bool) {
    && j in t.jobs && OnlyJobChanged(t, u, j) && !Settled(t.jobs[j])
    && var before, after := t.jobs[j], u.jobs[j];
    && after.docId == before.docId && after.attempts == before.attempts + 1
    && (after.state.JobRunning? ==> after.lockedUntil.Some?)
    && (after.state.JobDead? ==> after.attempts >= max)
    && ClaimsLeft(max, after) <= ClaimsLeft(max, before)
    && (healthy ==> !after.state.JobRunning? && (after.state.JobPending? ==> after.attempts < max))
    && (healthy ==> ClaimsLeft(max, after) < ClaimsLeft(max, before))
  }

  lemma ClaimLeaves(env: Env, before: Store, mid: Store, w: Id, serial: nat, c: Claim)
    requires Took(env, before, mid, w, serial, c)
    ensures mid.now == before.now
    ensures c.jobId in before.tables.jobs && OnlyJobChanged(before.tables, mid.tables, c.jobId)
    ensures
      var job, claimed := before.tables.jobs[c.jobId], mid.tables.jobs[c.jobId];
      !Settled(job) && claimed == ClaimedJob(job, w, c.attempts, c.leaseEnd) && c.attempts == job.attempts + 1
  {
  }

  lemma TurnSpends(env: Env, before: Store, after: Store, w: Id, serial: nat, c: Claim, calls: Calls)
    requires Configured(env) && OneTurn(env, before, after, w, serial, c, calls)
    ensures TurnLeft(env.maxAttempts, before.tables, after.tables, c.jobId, Healthy(calls))
  {
    hide Processed, Took, ParseSource, TurnLeft, Ended, LeftRunning, RawRead;
    var mid :| OneTurnVia(env, before, mid, after, w, serial, c, calls);
    var done := calls.(parse := ParseSource(env, c, RawRead(mid, c, calls), calls));
    ClaimThenEnd(env, before, mid, w, serial, c);
    ProcessedEnds(env, mid, c, done);
    EndedTurn(env, before, mid, after, w, serial, c, Healthy(calls));
  }

  lemma ClaimThenEnd(env: Env, before: Store, mid: Store, w: Id, serial: nat, c: Claim)
    requires Took(env, before, mid, w, serial, c)
    ensures c.jobId in mid.tables.jobs
  {
    ClaimLeaves(env, before, mid, w, serial, c);
  }

  lemma EndedTurn(env: Env, before: Store, mid: Store, after: Store, w: Id, serial: nat, c: Claim, healthy: bool)
    requires Configured(env) && Took(env, before, mid, w, serial, c)
    requires Ended(env, mid.now, mid.tables, after.tables, c) || (!healthy && LeftRunning(mid.tables, after.tables, c))
    ensures TurnLeft(env.maxAttempts, before.tables, after.tables, c.jobId, healthy)
  {
    hide Took, Backoff64;
    ClaimLeaves(env, before, mid, w, serial, c);
  }

  /** A job that such a turn makes pending again is due when its backoff has passed. */
  lemma TurnDue(env: Env, before: Store, after: Store, w: Id, serial: nat, c: Claim, calls: Calls)
    requires Healthy(calls) && OneTurn(env, before, after, w, serial, c, calls)
    ensures after.now == before.now && c.jobId in after.tables.jobs && c.jobId in before.tables.jobs
    ensures
      var job := after.tables.jobs[c.jobId];
      && job.attempts == before.tables.jobs[c.jobId].attempts + 1
      && (job.state.JobPending? ==>
            job.attempts < env.maxAttempts && job.nextRunAt == before.now + Backoff64(env.baseBackoff, job.attempts))
  {
    var mid :| OneTurnVia(env, before, mid, after, w, serial, c, calls);
    var done := calls.(parse := ParseSource(env, c, RawRead(mid, c, calls), calls));
    hide Took, ParseSource, Backoff64, AfterFail, AfterCommit, AfterPhases;
    ClaimLeaves(env, before, mid, w, serial, c);
    ProcessedEnds(env, mid, c, done);
    ProcessedKeepsTime(env, mid, c, done);
  }

  lemma ProcessedKeepsTime(env: Env, st: Store, c: Claim, calls: Calls)
    ensures Processed(env, st, c, calls).now == st.now
  {
  }

  lemma BudgetSpent(max: nat, t: Tables, u: Tables, j: Id, healthy: bool)
    requires TurnLeft(max, t, u, j, healthy)
    ensures Budget(max, u) <= Budget(max, t)
    ensures healthy ==> Budget(max, u) < Budget(max, t)
  {
    hide ClaimsLeft;
    SumUpdate(t.jobs.Keys, k => ClaimsLeftOf(max, t, k), k => ClaimsLeftOf(max, u, k), j);
  }

  /** A claim in doubt leaves its job running: the budget does not grow. */
  lemma DoubtfulKeepsBudget(env: Env, before: Store, after: Store, w: Id, serial: nat)
    requires Configured(env) && TookInDoubt(env, before, after, w, serial)
    ensures Budget(env.maxAttempts, after.tables) <= Budget(env.maxAttempts, before.tables)
  {
    var c :| Took(env, before, after, w, serial, c);
    var t, u := before.tables, after.tables;
    assert u.jobs.Keys == t.jobs.Keys;
    SumUpdate(t.jobs.Keys, k => ClaimsLeftOf(env.maxAttempts, t, k), k => ClaimsLeftOf(env.maxAttempts, u, k), c.jobId);
  }

  /** When an open job can next be claimed. */
  function DueAt(job: Job): int {
    if job.state.JobRunning? && job.lockedUntil.Some? then job.lockedUntil.value + 1 else job.nextRunAt
  }

  lemma TurnKeepsDrainable(max: nat, t: Tables, u: Tables, j: Id, healthy: bool)
    requires Drainable(t) && TurnLeft(max, t, u, j, healthy)
    ensures Drainable(u)
  {
  }

  ghost predicate AllSettled(t: Tables) {
    forall j :: j in t.jobs ==> Settled(t.jobs[j])
  }

  /**
   A job after `count` claims of it among turns of which `unhealthy` lost their ending write: settled
   jobs are never claimed, nothing dies below the limit, and the limit is passed by lost writes only.
   */
  ghost predicate CountedJob(max: nat, start: Job, job: Job, count: nat, unhealthy: nat) {
    && job.attempts == start.attempts + count
    && (Settled(start) ==> job == start)
    && (!Settled(start) && job.state.JobDead? ==> job.attempts >= max)
    && (start.attempts < max ==> job.attempts <= max + unhealthy)
    && (start.attempts < max && !Settled(job) ==> job.attempts < max + unhealthy)
  }

  ghost predicate CountedAll(max: nat, start: Tables, t: Tables, taken: seq<Id>, unhealthy: nat) {
    t.jobs.Keys == start.jobs.Keys
    && forall j :: j in start.jobs ==> CountedJob(max, start.jobs[j], t.jobs[j], multiset(taken)[j], unhealthy)
  }

  lemma TurnCounted(max: nat, start: Tables, t: Tables, u: Tables, taken: seq<Id>, unhealthy: nat, j: Id, healthy: bool)
    requires CountedAll(max, start, t, taken, unhealthy) && TurnLeft(max, t, u, j, healthy)
    ensures CountedAll(max, start, u, taken + [j], unhealthy + if healthy then 0 else 1)
  {
    hide ClaimsLeft;
    forall k | k in start.jobs
      ensures CountedJob(max, start.jobs[k], u.jobs[k], multiset(taken + [j])[k], unhealthy + if healthy then 0 else 1)
    {
      assert multiset(taken + [j]) == multiset(taken) + multiset{j};
      assert CountedJob(max, start.jobs[k], t.jobs[k], multiset(taken)[k], unhealthy);
    }
  }

  lemma NothingTaken(max: nat, t: Tables, attempt: nat -> Calls)
    ensures CountedAll(max, t, t, [], Unhealthy(Made(attempt, 0)))
    ensures Unhealthy(Made(attempt, 0)) == 0
  {
  }

  /** Whatever else was claimed, a job that ended dead was claimed exactly as often as it had attempts left. */
  ghost predicate DeadAfterLimit(max: nat, start: Tables, t: Tables, taken: seq<Id>) {
    t.jobs.Keys == start.jobs.Keys
    && forall j :: j in start.jobs && !Settled(start.jobs[j]) && start.jobs[j].attempts < max && t.jobs[j].state.JobDead? ==>
         multiset(taken)[j] == max - start.jobs[j].attempts
  }

  lemma CountedExactly(max: nat, start: Tables, t: Tables, taken: seq<Id>)
    requires CountedAll(max, start, t, taken, 0)
    ensures DeadAfterLimit(max, start, t, taken)
  {
  }

  /** One RunOnce when some open job is due: it claims a job and processes it. */
  method DrainOnce(worker: Worker, calls: Calls, ghost open: Id) returns (ghost c: Claim)
    requires Configured(worker.env) && Drainable(worker.db.tables)
    requires open in worker.db.tables.jobs && Claimable(worker.db.tables.jobs[open], worker.db.now)
    modifies worker.db
    ensures Drainable(worker.db.tables) && worker.db.now == old(worker.db.now)
    ensures worker.db.granted == old(worker.db.granted) + 1
    ensures OneTurn(worker.env, old(worker.db.Contents()), worker.db.Contents(), worker.id, old(worker.db.granted), c, calls)
    ensures TurnLeft(worker.env.maxAttempts, old(worker.db.tables), worker.db.tables, c.jobId, Healthy(calls))
  {
    ghost var before, serial := worker.db.Contents(), worker.db.granted;
    assert AnyClaimable(before.tables.jobs, before.now);
    var outcome := worker.RunOnce(ClaimCalls(true, true, true, true, Committed), calls);
    hide OneTurn, TurnLeft, Claimable, Healthy;
    c := outcome.c;
    TurnSpends(worker.env, before, worker.db.Contents(), worker.id, serial, c, calls);
    TurnKeepsDrainable(worker.env.maxAttempts, before.tables, worker.db.tables, c.jobId, Healthy(calls));
  }

  /**
   RunOnce repeated, moving the clock on to when some open job is due, with the ending writes going
   through from attempt `settle` on: every job ends done or dead.  The claims are at most those the
   jobs had left plus one for each ending write lost, and each job's own are counted by its attempts.
   */
  method Drain(worker: Worker, attempt: nat -> Calls, ghost settle: nat) returns (claims: nat, ghost taken: seq<Id>)
    requires Configured(worker.env) && Drainable(worker.db.tables)
    requires forall n: nat :: settle <= n ==> Healthy(attempt(n))
    modifies worker.db
    ensures AllSettled(worker.db.tables)
    ensures |taken| == claims == worker.db.granted - old(worker.db.granted)
    ensures CountedAll(worker.env.maxAttempts, old(worker.db.tables), worker.db.tables, taken, Unhealthy(Made(attempt, claims)))
    ensures settle == 0 ==> DeadAfterLimit(worker.env.maxAttempts, old(worker.db.tables), worker.db.tables, taken)
    ensures claims <= Budget(worker.env.maxAttempts, old(worker.db.tables)) + Unhealthy(Made(attempt, claims))
    ensures claims <= |old(worker.db.tables.jobs.Keys)| * worker.env.maxAttempts + settle
  {
    hide Healthy, Budget, OneTurn, TurnLeft, CountedAll, Unhealthy, Made;
    ghost var max, start := worker.env.maxAttempts, worker.db.tables;
    claims, taken := 0, [];
    NothingTaken(max, start, attempt);
    while exists j :: j in worker.db.tables.jobs && !Settled(worker.db.tables.jobs[j])
      invariant Drainable(worker.db.tables)
      invariant |taken| == claims == worker.db.granted - old(worker.db.granted)
      invariant CountedAll(max, start, worker.db.tables, taken, Unhealthy(Made(attempt, claims)))
      invariant claims + Budget(max, worker.db.tables) <= Budget(max, start) + Unhealthy(Made(attempt, claims))
      decreases if claims < settle then settle - claims else 0, Budget(max, worker.db.tables)
    {
      var open :| open in worker.db.tables.jobs && !Settled(worker.db.tables.jobs[open]);
      var due := DueAt(worker.db.tables.jobs[open]);
      if worker.db.now < due {
        worker.db.now := due;
      }
      ghost var before := worker.db.tables;
      ghost var c := DrainOnce(worker, attempt(claims), open);
      BudgetSpent(max, before, worker.db.tables, c.jobId, Healthy(attempt(claims)));
      TurnCounted(max, start, before, worker.db.tables, taken, Unhealthy(Made(attempt, claims)), c.jobId, Healthy(attempt(claims)));
      NextUnhealthy(attempt, claims);
      claims, taken := claims + 1, taken + [c.jobId];
    }
    UnhealthyAtMost(attempt, settle, claims);
    if settle == 0 {
      CountedExactly(max, start, worker.db.tables, taken);
    }
    BudgetBound(worker.env, start);
  }

  lemma BudgetBound(env: Env, t: Tables)
    requires Configured(env)
    ensures Budget(env.maxAttempts, t) <= |t.jobs.Keys| * env.maxAttempts
  {
    SumBound(t.jobs.Keys, j => ClaimsLeftOf(env.maxAttempts, t, j), env.maxAttempts);
  }
}
