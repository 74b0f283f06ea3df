/**
 The polling loop: whatever poll finds a job to claim claims one, no stretch of polls makes more claims
 than the jobs have left and endings were lost, and enough polls settle every job.
 */
module Polling {
  import opened Basics
  import opened Rows
  import opened Queue
  import opened Processing
  import opened WorkerCode
  import opened Draining

  /** What one poll meets: a cancelled context, the calls of a claim, and the sleep when nothing was claimed. */
  datatype Poll = Poll(cancelled: bool, tx: ClaimCalls, calls: Calls, sleep: nat)

  function CallsOf(polls: seq<Poll>): seq<Calls> {
    seq(|polls|, n requires 0 <= n < |polls| => polls[n].calls)
  }

  lemma UnhealthyNext(made: seq<Calls>, n: nat)
    requires n < |made|
    ensures Unhealthy(made[..n + 1]) == Unhealthy(made[..n]) + if Healthy(made[n]) then 0 else 1
  {
    assert made[..n + 1][..n] == made[..n];
  }

  /** The store and the claims committed so far, between two polls. */
  datatype Moment = Moment(st: Store, granted: nat)

  /** A poll that found nothing due, or whose claim failed, sleeps; the latter may hide a claim. */
  ghost predicate Slept(env: Env, w: Id, a: Moment, b: Moment, poll: Poll) {
    && b.st.now == a.st.now + poll.sleep
    && (|| (b == Moment(a.st.(now := b.st.now), a.granted)
            && (AllThrough(poll.tx) && JobsHaveDocs(a.st.tables) ==> !AnyClaimable(a.st.tables.jobs, a.st.now)))
        || (poll.tx.end.CommitInDoubt? && b.granted == a.granted + 1
            && TookInDoubt(env, a.st, b.st.(now := a.st.now), w, a.granted)))
  }

  ghost predicate Turned(env: Env, w: Id, a: Moment, b: Moment, poll: Poll) {
    b.granted == a.granted + 1 && exists c :: OneTurn(env, a.st, b.st, w, a.granted, c, poll.calls)
  }

  /** The polls made, up to a cancelled one: those that `took` turned a claim into a processed job, the others slept. */
  ghost predicate Polled(env: Env, w: Id, polls: seq<Poll>, trace: seq<Moment>, took: seq<bool>) {
    && |trace| == |took| + 1 && |took| <= |polls|
    && (forall n :: 0 <= n < |took| ==> !polls[n].cancelled)
    && (forall n :: 0 <= n < |took| ==>
          if took[n] then Turned(env, w, trace[n], trace[n + 1], polls[n]) else Slept(env, w, trace[n], trace[n + 1], polls[n]))
  }

  lemma PolledNext(env: Env, w: Id, polls: seq<Poll>, trace: seq<Moment>, took: seq<bool>, after: Moment, claimed: bool)
    requires Polled(env, w, polls, trace, took) && |took| < |polls| && !polls[|took|].cancelled
    requires if claimed then Turned(env, w, trace[|took|], after, polls[|took|]) else Slept(env, w, trace[|took|], after, polls[|took|])
    ensures Polled(env, w, polls, trace + [after], took + [claimed])
  {
    hide Turned, Slept;
  }

  lemma NothingPolled(env: Env, w: Id, polls: seq<Poll>, start: Moment)
    ensures Polled(env, w, polls, [start], []) && Taken([]) == 0 && Unhealthy(CallsOf(polls)[..0]) == 0
  {
  }

  function Taken(took: seq<bool>): nat {
    if took == [] then 0 else Taken(took[..|took| - 1]) + if took[|took| - 1] then 1 else 0
  }

  lemma TakenNext(took: seq<bool>, more: bool)
    ensures Taken(took + [more]) == Taken(took) + if more then 1 else 0
  {
    assert (took + [more])[..|took|] == took;
  }

  /** One poll, and what it adds to the history. */
  method PollOnce(worker: Worker, poll: Poll) returns (claimed: bool)
    requires Configured(worker.env)
    modifies worker.db
    ensures
      var a, b := Moment(old(worker.db.Contents()), old(worker.db.granted)), Moment(worker.db.Contents(), worker.db.granted);
      if claimed then Turned(worker.env, worker.id, a, b, poll) else Slept(worker.env, worker.id, a, b, poll)
  {
    hide OneTurn, TookInDoubt, AnyClaimable, JobsHaveDocs;
    var outcome := worker.RunOnce(poll.tx, poll.calls);
    claimed := outcome.Got?;
    if !claimed {
      ghost var after := worker.db.Contents();
      worker.db.now := worker.db.now + poll.sleep;
      assert worker.db.Contents().(now := old(worker.db.now)) == after;
    }
  }

  lemma PollKeepsBudget(env: Env, w: Id, a: Moment, b: Moment, poll: Poll, claimed: bool)
    requires Configured(env) && if claimed then Turned(env, w, a, b, poll) else Slept(env, w, a, b, poll)
    ensures
      (if claimed then 1 else 0) + Budget(env.maxAttempts, b.st.tables)
        <= Budget(env.maxAttempts, a.st.tables) + if Healthy(poll.calls) then 0 else 1
  {
    hide OneTurn, TookInDoubt, AnyClaimable, JobsHaveDocs, Budget, TurnLeft, Healthy;
    if claimed {
      var c :| OneTurn(env, a.st, b.st, w, a.granted, c, poll.calls);
      TurnSpends(env, a.st, b.st, w, a.granted, c, poll.calls);
      BudgetSpent(env.maxAttempts, a.st.tables, b.st.tables, c.jobId, Healthy(poll.calls));
    } else if b.st.tables != a.st.tables {
      DoubtfulKeepsBudget(env, a.st, b.st.(now := a.st.now), w, a.granted);
    }
  }

  /**
   The polling loop, over whatever finite stretch of polls: the history it leaves is that of its polls, it
   stops only when cancelled, and it never makes more claims than the jobs have left and polls had an
   ending write lost.
   */
  method Run(worker: Worker, polls: seq<Poll>) returns (claims: nat, ghost trace: seq<Moment>, ghost took: seq<bool>)
    requires Configured(worker.env)
    modifies worker.db
    ensures Polled(worker.env, worker.id, polls, trace, took) && (|took| < |polls| ==> polls[|took|].cancelled)
    ensures trace[0] == Moment(old(worker.db.Contents()), old(worker.db.granted))
    ensures trace[|took|] == Moment(worker.db.Contents(), worker.db.granted)
    ensures claims == Taken(took)
    ensures
      claims + Budget(worker.env.maxAttempts, worker.db.tables)
        <= Budget(worker.env.maxAttempts, old(worker.db.tables)) + Unhealthy(CallsOf(polls))
  {
    hide Budget, Healthy, Turned, Slept, Polled, Taken, Unhealthy, CallsOf;
    claims := 0;
    ghost var max := worker.env.maxAttempts;
    trace, took := [Moment(worker.db.Contents(), worker.db.granted)], [];
    NothingPolled(worker.env, worker.id, polls, trace[0]);
    AllCalls(polls);
    for n := 0 to |polls|
      invariant |took| == n && |trace| == n + 1 && Polled(worker.env, worker.id, polls, trace, took)
      invariant trace[0] == Moment(old(worker.db.Contents()), old(worker.db.granted))
      invariant trace[n] == Moment(worker.db.Contents(), worker.db.granted)
      invariant claims == Taken(took)
      invariant claims + Budget(max, worker.db.tables) <= Budget(max, old(worker.db.tables)) + Unhealthy(CallsOf(polls)[..n])
    {
      if polls[n].cancelled {
        UnhealthySoFar(CallsOf(polls), n);
        return;
      }
      UnhealthyNext(CallsOf(polls), n);
      var claimed := PollOnce(worker, polls[n]);
      ghost var after := Moment(worker.db.Contents(), worker.db.granted);
      PollKeepsBudget(worker.env, worker.id, trace[n], after, polls[n], claimed);
      TakenNext(took, claimed);
      PolledNext(worker.env, worker.id, polls, trace, took, after, claimed);
      trace, took := trace + [after], took + [claimed];
      if claimed {
        claims := claims + 1;
      }
    }
  }

  lemma AllCalls(polls: seq<Poll>)
    ensures |CallsOf(polls)| == |polls| && CallsOf(polls)[..|polls|] == CallsOf(polls)
    ensures forall n :: 0 <= n < |polls| ==> CallsOf(polls)[n] == polls[n].calls
  {
  }

  // ---- enough polls settle every job ---------------------------------------------------------

  /** A poll all of whose statements go through, with a sleep of at least this length. */
  predicate Fair(poll: Poll, pace: nat) {
    AllThrough(poll.tx) && Healthy(poll.calls) && poll.sleep >= pace
  }

  /** Every open job is due at most this much later. */
  ghost predicate DueWithin(st: Store, wait: int) {
    forall j :: j in st.tables.jobs && !Settled(st.tables.jobs[j]) ==> DueAt(st.tables.jobs[j]) <= st.now + wait
  }

  ghost predicate BackoffsWithin(env: Env, wait: int) {
    forall attempts: Attempt :: attempts < env.maxAttempts ==> Backoff64(env.baseBackoff, attempts) <= wait
  }

  /**
   After n polls of which the last k slept: an open job was due within the horizon when the last claim was
   made, and each claim was preceded by at most `patience` sleeps.
   */
  ghost predicate OnTheWay(env: Env, budget: nat, st: Store, n: nat, k: nat, horizon: nat, patience: nat, pace: nat) {
    && k <= patience && Drainable(st.tables) && DueWithin(st, horizon - k * pace)
    && n + Budget(env.maxAttempts, st.tables) * (patience + 1) <= budget * (patience + 1) + k
  }

  lemma {:induction false} ClaimedOnTheWay(env: Env, w: Id, budget: nat, a: Moment, b: Moment, poll: Poll, n: nat, k: nat,
                                           horizon: nat, patience: nat, pace: nat)
    requires Configured(env) && Fair(poll, pace) && BackoffsWithin(env, horizon) && Turned(env, w, a, b, poll)
    requires OnTheWay(env, budget, a.st, n, k, horizon, patience, pace)
    ensures OnTheWay(env, budget, b.st, n + 1, 0, horizon, patience, pace)
  {
    hide OneTurn, Budget, ClaimsLeft, Backoff64;
    var max := env.maxAttempts;
    var c :| OneTurn(env, a.st, b.st, w, a.granted, c, poll.calls);
    TurnSpends(env, a.st, b.st, w, a.granted, c, poll.calls);
    TurnDue(env, a.st, b.st, w, a.granted, c, poll.calls);
    TurnKeepsDrainable(max, a.st.tables, b.st.tables, c.jobId, true);
    BudgetSpent(max, a.st.tables, b.st.tables, c.jobId, true);
    FactorMonotone(Budget(max, b.st.tables) + 1, Budget(max, a.st.tables), patience + 1);
    Distribute(Budget(max, b.st.tables), patience + 1);
    DueAfterClaim(env, a.st, b.st, c.jobId, horizon, k * pace);
  }

  lemma DueAfterClaim(env: Env, before: Store, after: Store, j: Id, horizon: nat, waited: nat)
    requires BackoffsWithin(env, horizon) && DueWithin(before, horizon - waited) && after.now == before.now
    requires TurnLeft(env.maxAttempts, before.tables, after.tables, j, true)
    requires
      var job := after.tables.jobs[j];
      job.state.JobPending? ==> job.attempts < env.maxAttempts && job.nextRunAt == before.now + Backoff64(env.baseBackoff, job.attempts)
    ensures DueWithin(after, horizon)
  {
    hide Backoff64, ClaimsLeft;
    forall k | k in after.tables.jobs && !Settled(after.tables.jobs[k]) ensures DueAt(after.tables.jobs[k]) <= after.now + horizon {
      if k != j {
        assert before.tables.jobs[k] == after.tables.jobs[k];
      } else {
        assert after.tables.jobs[j].attempts >= 1;
      }
    }
  }

  lemma SleptOnTheWay(env: Env, w: Id, budget: nat, a: Moment, b: Moment, poll: Poll, n: nat, k: nat,
                      horizon: nat, patience: nat, pace: nat)
    requires Fair(poll, pace) && Slept(env, w, a, b, poll) && horizon <= patience * pace
    requires OnTheWay(env, budget, a.st, n, k, horizon, patience, pace) && !AllSettled(a.st.tables)
    ensures OnTheWay(env, budget, b.st, n + 1, k + 1, horizon, patience, pace)
  {
    hide Budget;
    var j :| j in a.st.tables.jobs && !Settled(a.st.tables.jobs[j]);
    assert !Claimable(a.st.tables.jobs[j], a.st.now);
    assert horizon - k * pace > 0;
    if k >= patience {
      FactorMonotone(patience, k, pace);
    }
    Distribute(k, pace);
  }

  lemma SettledStays(env: Env, w: Id, a: Moment, b: Moment, poll: Poll, claimed: bool, pace: nat)
    requires Configured(env) && Fair(poll, pace) && if claimed then Turned(env, w, a, b, poll) else Slept(env, w, a, b, poll)
    requires AllSettled(a.st.tables)
    ensures AllSettled(b.st.tables)
  {
    hide OneTurn, ClaimsLeft;
    if claimed {
      var c :| OneTurn(env, a.st, b.st, w, a.granted, c, poll.calls);
      TurnSpends(env, a.st, b.st, w, a.granted, c, poll.calls);
    }
  }

  /** Every job is settled, or the first n polls have brought them on their way. */
  ghost predicate Nearing(env: Env, budget: nat, st: Store, n: nat, horizon: nat, patience: nat, pace: nat) {
    AllSettled(st.tables) || exists k :: OnTheWay(env, budget, st, n, k, horizon, patience, pace)
  }

  lemma NearingStep(env: Env, w: Id, budget: nat, a: Moment, b: Moment, poll: Poll, claimed: bool, n: nat,
                    horizon: nat, patience: nat, pace: nat)
    requires Configured(env) && Fair(poll, pace) && BackoffsWithin(env, horizon) && horizon <= patience * pace
    requires if claimed then Turned(env, w, a, b, poll) else Slept(env, w, a, b, poll)
    requires Nearing(env, budget, a.st, n, horizon, patience, pace)
    ensures Nearing(env, budget, b.st, n + 1, horizon, patience, pace)
  {
    hide Turned, Slept, Fair, BackoffsWithin, OnTheWay, AllSettled;
    if AllSettled(a.st.tables) {
      SettledStays(env, w, a, b, poll, claimed, pace);
    } else {
      var k :| OnTheWay(env, budget, a.st, n, k, horizon, patience, pace);
      if claimed {
        ClaimedOnTheWay(env, w, budget, a, b, poll, n, k, horizon, patience, pace);
      } else {
        SleptOnTheWay(env, w, budget, a, b, poll, n, k, horizon, patience, pace);
      }
    }
  }

  lemma {:induction false} NearingAt(env: Env, w: Id, polls: seq<Poll>, trace: seq<Moment>, took: seq<bool>, n: nat,
                                     horizon: nat, patience: nat, pace: nat)
    requires Configured(env) && Polled(env, w, polls, trace, took) && n <= |took|
    requires forall i :: 0 <= i < |took| ==> Fair(polls[i], pace)
    requires BackoffsWithin(env, horizon) && horizon <= patience * pace
    requires Drainable(trace[0].st.tables) && DueWithin(trace[0].st, horizon)
    ensures Nearing(env, Budget(env.maxAttempts, trace[0].st.tables), trace[n].st, n, horizon, patience, pace)
  {
    hide Turned, Slept, Fair, BackoffsWithin, DueWithin, Drainable, Budget, Nearing;
    if n == 0 {
      NearingStart(env, trace[0].st, horizon, patience, pace);
    } else {
      NearingAt(env, w, polls, trace, took, n - 1, horizon, patience, pace);
      NearingStep(env, w, Budget(env.maxAttempts, trace[0].st.tables), trace[n - 1], trace[n], polls[n - 1], took[n - 1], n - 1,
                  horizon, patience, pace);
    }
  }

  lemma NearingStart(env: Env, st: Store, horizon: nat, patience: nat, pace: nat)
    requires Drainable(st.tables) && DueWithin(st, horizon)
    ensures Nearing(env, Budget(env.maxAttempts, st.tables), st, 0, horizon, patience, pace)
  {
    assert 0 * pace == 0;
    assert OnTheWay(env, Budget(env.maxAttempts, st.tables), st, 0, 0, horizon, patience, pace);
  }

  lemma OpenJobHasBudget(env: Env, t: Tables)
    requires Configured(env) && !AllSettled(t)
    ensures Budget(env.maxAttempts, t) >= 1
  {
    var j :| j in t.jobs && !Settled(t.jobs[j]);
    SumSplit(t.jobs.Keys, k => ClaimsLeftOf(env.maxAttempts, t, k), j);
  }

  lemma EnoughPolls(env: Env, budget: nat, st: Store, n: nat, k: nat, horizon: nat, patience: nat, pace: nat)
    requires Configured(env) && OnTheWay(env, budget, st, n, k, horizon, patience, pace) && n >= budget * (patience + 1)
    ensures AllSettled(st.tables)
  {
    hide Budget;
    if !AllSettled(st.tables) {
      OpenJobHasBudget(env, st.tables);
      FactorMonotone(1, Budget(env.maxAttempts, st.tables), patience + 1);
    }
  }

  /**
   The loop makes progress: when its statements and endings go through, enough polls leave every job done
   or dead.  Each claim the jobs have left takes at most `patience` sleeps and the claim itself, where that
   many sleeps outlast every due time and every backoff.
   */
  lemma PollsSettle(env: Env, w: Id, polls: seq<Poll>, trace: seq<Moment>, took: seq<bool>, horizon: nat, patience: nat, pace: nat)
    requires Configured(env) && Polled(env, w, polls, trace, took) && |took| == |polls|
    requires forall i :: 0 <= i < |polls| ==> Fair(polls[i], pace)
    requires BackoffsWithin(env, horizon) && horizon <= patience * pace
    requires Drainable(trace[0].st.tables) && DueWithin(trace[0].st, horizon)
    requires |polls| >= Budget(env.maxAttempts, trace[0].st.tables) * (patience + 1)
    ensures AllSettled(trace[|polls|].st.tables)
  {
    hide Turned, Slept, Fair, BackoffsWithin, Budget, DueWithin, Drainable;
    var budget, st := Budget(env.maxAttempts, trace[0].st.tables), trace[|polls|].st;
    NearingAt(env, w, polls, trace, took, |polls|, horizon, patience, pace);
    if !AllSettled(st.tables) {
      var k :| OnTheWay(env, budget, st, |polls|, k, horizon, patience, pace);
      EnoughPolls(env, budget, st, |polls|, k, horizon, patience, pace);
    }
  }

  /** Every poll of such a stretch claimed, or found nothing claimable. */
  lemma IdleOnlyWhenNothingIsDue(env: Env, w: Id, polls: seq<Poll>, trace: seq<Moment>, took: seq<bool>, n: nat)
    requires Polled(env, w, polls, trace, took) && n < |took|
    requires AllThrough(polls[n].tx) && JobsHaveDocs(trace[n].st.tables)
    ensures took[n] <==> AnyClaimable(trace[n].st.tables.jobs, trace[n].st.now)
    ensures trace[n + 1].granted == trace[n].granted + if took[n] then 1 else 0
  {
    hide AnyClaimable, OneTurn, TookInDoubt, JobsHaveDocs;
    assert if took[n] then Turned(env, w, trace[n], trace[n + 1], polls[n]) else Slept(env, w, trace[n], trace[n + 1], polls[n]);
    if took[n] {
      var c :| OneTurn(env, trace[n].st, trace[n + 1].st, w, trace[n].granted, c, polls[n].calls);
      TurnTookClaimable(env, trace[n].st, trace[n + 1].st, w, trace[n].granted, c, polls[n].calls);
    }
  }

  lemma TurnTookClaimable(env: Env, before: Store, after: Store, w: Id, serial: nat, c: Claim, calls: Calls)
    requires OneTurn(env, before, after, w, serial, c, calls)
    ensures AnyClaimable(before.tables.jobs, before.now)
  {
    hide Processed, ParseSource, Claimable;
  }
}
