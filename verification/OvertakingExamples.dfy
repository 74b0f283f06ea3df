/**
 Why the bound on overtaking counts claims of pending jobs only: without a crash and with every step in
 time, a job whose success commits keep failing is taken over again and again ahead of a waiting one.
 */
module OvertakingExamples {
  import opened Basics
  import opened Keys
  import opened Rows
  import opened Queue
  import opened QueueAlways
  import opened QueueBudget
  import opened QueueTimely
  import opened Processing
  import opened WorkerCode
  import opened Overtaking
  import opened QueueExamples

  const LATER := PASTE.(title := "later")

  /** Everything goes well but the commit. */
  const UNCOMMITTED := Calls(true, Ok("body"), true, true, Ok(1), [], false, true, true)

  /** Two uploads, the second due one tick after the first, and overdue. */
  function Queued(): seq<Label> {
    [Enqueue("d", "j", PASTE), Tick(1), Enqueue("e", "k", LATER), Tick(1)]
  }

  function ClaimTime(env: Env, n: nat): int {
    2 + n * (env.lease + 1)
  }

  /** One more claim of the first job, processed up to its failing commit, and its lease running out. */
  function Round(env: Env, n: nat): seq<Label> {
    [TakeClaim("A", "j", ClaimTime(env, n))] + ProcessSteps("A", UNCOMMITTED) + [Tick(env.lease + 1)]
  }

  function StuckRun(env: Env, n: nat): seq<Label> {
    if n == 0 then Queued() else StuckRun(env, n - 1) + Round(env, n - 1)
  }

  // ---- the state between rounds -----------------------------------------------------------

  ghost predicate Stuck(env: Env, s: System, n: nat) {
    && PcOf(s, "A").Idle? && s.now == ClaimTime(env, n) && s.log.deleting == {}
    && StuckTables(s.tables) && Claimable(s.tables.jobs["j"], s.now)
  }

  ghost predicate StuckTables(t: Tables) {
    && "d" in t.docs && t.docs["d"].kb == "kb" && t.docs["d"].sourceType == Paste && t.docs["d"].content == Some("body")
    && t.jobs.Keys == {"j", "k"} && t.jobs["j"].docId == "d" && t.jobs["j"].nextRunAt == 0
    && t.jobs["k"].state.JobPending? && t.jobs["k"].nextRunAt == 1
  }

  lemma KeysDiffer(sha: string -> string)
    requires !Collision(sha, KeyText("kb", "title", Checksum(sha, "body")), KeyText("kb", "later", Checksum(sha, "body")))
    ensures InputKey(sha, PASTE) != InputKey(sha, LATER)
  {
    var one, two := KeyText("kb", "title", Checksum(sha, "body")), KeyText("kb", "later", Checksum(sha, "body"));
    assert one[3] == 't' && two[3] == 'l';
    assert InputKey(sha, PASTE)[5..] == sha(one) && InputKey(sha, LATER)[5..] == sha(two);
  }

  /** Both jobs are in the queue at time 1, and time can pass. */
  ghost predicate BothQueued(s: System) {
    PcOf(s, "A").Idle? && s.now == 1 && s.log.deleting == {} && StuckTables(s.tables) && Claimable(s.tables.jobs["j"], 1)
  }

  function FirstAtOne(env: Env): System {
    Enqueued(env, PASTE).(now := 1)
  }

  lemma FirstWaits(env: Env)
    ensures Enabled(env, Enqueued(env, PASTE), Tick(1)) && TimelyStep(Enqueued(env, PASTE), Tick(1))
    ensures Apply(env, Enqueued(env, PASTE), Tick(1)) == FirstAtOne(env)
  {
    hide Checksum, IdempotencyKey;
  }

  lemma KeyIsFree(env: Env)
    requires InputKey(env.sha, PASTE) != InputKey(env.sha, LATER)
    ensures !KeyTaken(FirstAtOne(env).tables, InputKey(env.sha, LATER))
  {
    hide Checksum, IdempotencyKey;
  }

  lemma SecondCanQueue(env: Env)
    requires !KeyTaken(FirstAtOne(env).tables, InputKey(env.sha, LATER))
    ensures Enabled(env, FirstAtOne(env), Enqueue("e", "k", LATER)) && TimelyStep(FirstAtOne(env), Enqueue("e", "k", LATER))
  {
    hide KeyTaken, Checksum, IdempotencyKey;
  }

  lemma BothRows(env: Env)
    ensures
      var t := InsertPair(env.sha, FirstAtOne(env).tables, "e", "k", LATER, 1);
      StuckTables(t) && Claimable(t.jobs["j"], 1)
  {
    hide Checksum, IdempotencyKey;
  }

  lemma SecondQueued(env: Env)
    requires !KeyTaken(FirstAtOne(env).tables, InputKey(env.sha, LATER))
    ensures
      var second := Enqueue("e", "k", LATER);
      && Enabled(env, FirstAtOne(env), second) && TimelyStep(FirstAtOne(env), second)
      && BothQueued(Apply(env, FirstAtOne(env), second))
  {
    SecondCanQueue(env);
    BothRows(env);
    hide KeyTaken, Extract, ChunksAfter, RetriesAfter, HalfAfter, PcAfter, ReplaceSource, StuckTables, InsertPair, Claimable, TimelyStep;
  }

  lemma BothWait(env: Env, s: System)
    requires BothQueued(s)
    ensures Enabled(env, s, Tick(1)) && TimelyStep(s, Tick(1)) && Stuck(env, Apply(env, s, Tick(1)), 0)
  {
  }

  lemma QueuedIsTimely(env: Env)
    requires InputKey(env.sha, PASTE) != InputKey(env.sha, LATER)
    ensures Legal(env, Queued()) && Timely(env, Queued()) && Stuck(env, After(env, Queued()), 0)
  {
    hide Apply, Enabled, TimelyStep, After, Legal, Timely, Enqueued, Stuck, BothQueued, FirstAtOne, KeyTaken;
    var one := [Enqueue("d", "j", PASTE)];
    EnqueueOpens(env, PASTE);
    FirstIsTimely(env, PASTE);
    FirstWaits(env);
    KeyIsFree(env);
    SecondQueued(env);
    TimelyExtend(env, one, Tick(1));
    TimelyExtend(env, one + [Tick(1)], Enqueue("e", "k", LATER));
    BothWait(env, After(env, one + [Tick(1)] + [Enqueue("e", "k", LATER)]));
    TimelyExtend(env, one + [Tick(1)] + [Enqueue("e", "k", LATER)], Tick(1));
    assert one + [Tick(1)] + [Enqueue("e", "k", LATER)] + [Tick(1)] == Queued();
  }

  // ---- one round -----------------------------------------------------------------------------

  /** The first job is claimed by A, and nothing else has changed. */
  ghost predicate Taken(env: Env, s: System, n: nat) {
    && PcOf(s, "A").Claimed? && PcOf(s, "A").c.docId == "d" && PcOf(s, "A").c.jobId == "j"
    && PcOf(s, "A").c.kb == "kb" && PcOf(s, "A").c.sourceType == Paste
    && PcOf(s, "A").c.leaseEnd == s.now + env.lease && s.now == ClaimTime(env, n) && s.log.deleting == {}
    && StuckTables(s.tables)
    && s.tables.jobs["j"].state.JobRunning? && s.tables.jobs["j"].lockedUntil == Some(s.now + env.lease)
  }

  lemma StuckIsFirst(env: Env, s: System, n: nat)
    requires Stuck(env, s, n)
    ensures
      var l := TakeClaim("A", "j", ClaimTime(env, n));
      Enabled(env, s, l) && TimelyStep(s, l) && OrderlyStep(s, l)
  {
  }

  lemma TakeStuck(env: Env, s: System, n: nat)
    requires Stuck(env, s, n)
    ensures
      var l := TakeClaim("A", "j", ClaimTime(env, n));
      && Enabled(env, s, l) && TimelyStep(s, l) && OrderlyStep(s, l)
      && Taken(env, Apply(env, s, l), n)
  {
    StuckIsFirst(env, s, n);
    hide TimelyStep, OrderlyStep, Extract, KeyTaken, ChunksAfter, RetriesAfter, HalfAfter;
  }

  ghost predicate Uncommitted(env: Env, st: Store, n: nat) {
    && StuckTables(st.tables) && st.now == ClaimTime(env, n)
    && st.tables.jobs["j"].state.JobRunning? && st.tables.jobs["j"].lockedUntil == Some(st.now + env.lease)
  }

  lemma CommitFails(env: Env, s: System, n: nat)
    requires Taken(env, s, n)
    ensures ParsePossible(env, PcOf(s, "A").c, RawRead(StoreOf(s), PcOf(s, "A").c, UNCOMMITTED), UNCOMMITTED.parse)
    ensures Uncommitted(env, Processed(env, StoreOf(s), PcOf(s, "A").c, UNCOMMITTED), n)
  {
  }

  lemma LeaseRunsOut(env: Env, s: System, n: nat)
    requires PcOf(s, "A").Idle? && s.log.deleting == {} && Uncommitted(env, StoreOf(s), n)
    ensures Enabled(env, s, Tick(env.lease + 1)) && TimelyStep(s, Tick(env.lease + 1))
    ensures Stuck(env, Apply(env, s, Tick(env.lease + 1)), n + 1)
  {
    Distribute(n, env.lease + 1);
  }

  lemma UncommittedStepsAreOwn()
    ensures forall n :: 0 <= n < |ProcessSteps("A", UNCOMMITTED)| ==> OwnStep(ProcessSteps("A", UNCOMMITTED)[n], "A")
  {
  }

  lemma {:induction false} DeletingStands(env: Env, run: seq<Label>, steps: seq<Label>, w: Id)
    requires Legal(env, run) && Legal(env, run + steps)
    requires forall n :: 0 <= n < |steps| ==> ActorOf(steps[n]) == Some(w)
    ensures After(env, run + steps).log.deleting == After(env, run).log.deleting
    decreases |steps|
  {
    hide Apply, Enabled, After, Legal;
    if steps == [] {
      assert run + steps == run;
    } else {
      var front, l := steps[..|steps| - 1], steps[|steps| - 1];
      assert run + steps == run + front + [l];
      LastStep(env, run + front, l);
      DeletingStands(env, run, front, w);
      assert ActorOf(l) == Some(w);
      DeletingKept(env, After(env, run + front), l);
    }
  }

  lemma DeletingKept(env: Env, s: System, l: Label)
    requires Enabled(env, s, l) && ActorOf(l).Some?
    ensures Apply(env, s, l).log.deleting == s.log.deleting
  {
    hide TablesAfter, ChunksAfter, HalfAfter, RetriesAfter;
  }

  /** The run so far and what a further round must keep. */
  ghost predicate GoesOn(env: Env, run: seq<Label>, n: nat) {
    && Legal(env, run) && Timely(env, run) && Orderly(env, run) && Stuck(env, After(env, run), n)
    && (forall m :: 0 <= m < |run| ==> !run[m].Crash? && !ClaimsJob(run[m], "k"))
  }

  lemma OrderlyAppend(env: Env, run: seq<Label>, steps: seq<Label>)
    requires Legal(env, run) && Orderly(env, run) && Legal(env, run + steps)
    requires forall n :: 0 <= n < |steps| ==> (n == 0 && OrderlyStep(After(env, run), steps[0])) || !steps[n].TakeClaim?
    ensures Orderly(env, run + steps)
  {
    hide Apply, Enabled, After, Legal;
    forall n | 0 <= n < |run + steps| ensures OrderlyStep(StateAt(env, run + steps, n), (run + steps)[n]) {
      if n < |run| {
        assert (run + steps)[..n] == run[..n];
        assert OrderlyStep(StateAt(env, run, n), run[n]);
      } else {
        assert (run + steps)[..|run|] == run;
      }
    }
  }

  lemma RoundGoesOn(env: Env, run: seq<Label>, n: nat)
    requires GoesOn(env, run, n)
    ensures GoesOn(env, run + Round(env, n), n + 1)
  {
    hide Apply, Enabled, TimelyStep, OrderlyStep, After, Legal, Timely, Orderly, Stuck, Taken, Uncommitted, ProcessSteps, Processed, ParsePossible;
    var claim, steps, rest := TakeClaim("A", "j", ClaimTime(env, n)), ProcessSteps("A", UNCOMMITTED), Tick(env.lease + 1);
    TakeStuck(env, After(env, run), n);
    TimelyExtend(env, run, claim);
    var taken := run + [claim];
    ProcessGoesOn(env, taken, n);
    LeaseRunsOut(env, After(env, taken + steps), n);
    TimelyExtend(env, taken + steps, rest);
    assert run + Round(env, n) == taken + steps + [rest] == run + ([claim] + steps + [rest]);
    UncommittedStepsAreOwn();
    assert forall m :: 0 <= m < |steps| ==> OwnStep(steps[m], "A");
    OrderlyAppend(env, run, [claim] + steps + [rest]);
  }

  lemma ProcessGoesOn(env: Env, taken: seq<Label>, n: nat)
    requires Legal(env, taken) && Timely(env, taken) && Taken(env, After(env, taken), n)
    ensures
      var run := taken + ProcessSteps("A", UNCOMMITTED);
      && Legal(env, run) && Timely(env, run)
      && PcOf(After(env, run), "A").Idle? && After(env, run).log.deleting == {} && Uncommitted(env, StoreOf(After(env, run)), n)
  {
    hide Apply, Enabled, TimelyStep, After, Legal, Timely, Uncommitted, ProcessSteps, Processed, ParsePossible;
    var steps := ProcessSteps("A", UNCOMMITTED);
    CommitFails(env, After(env, taken), n);
    ProcessIsARun(env, taken, "A", UNCOMMITTED);
    UncommittedStepsAreOwn();
    DeletingStands(env, taken, steps, "A");
    OwnStepsTimely(env, taken, steps, "A");
  }

  lemma {:induction false} StuckGoesOn(env: Env, n: nat)
    requires InputKey(env.sha, PASTE) != InputKey(env.sha, LATER)
    ensures GoesOn(env, StuckRun(env, n), n)
  {
    hide After, Legal, Timely, Stuck;
    if n == 0 {
      QueuedIsTimely(env);
    } else {
      StuckGoesOn(env, n - 1);
      RoundGoesOn(env, StuckRun(env, n - 1), n - 1);
    }
  }

  // ---- counting the claims ---------------------------------------------------------------------

  lemma {:induction false} ClaimsOfPrefix(run: seq<Label>, steps: seq<Label>, i: nat, k: nat)
    requires i <= k <= |run|
    ensures ClaimsIn(run + steps, i, k) == ClaimsIn(run, i, k)
    decreases k
  {
    if i < k {
      ClaimsOfPrefix(run, steps, i, k - 1);
    }
  }

  lemma {:induction false} ClaimsOfSteps(run: seq<Label>, steps: seq<Label>, i: nat)
    requires i <= |run| && forall n :: 0 < n < |steps| ==> !steps[n].TakeClaim?
    ensures ClaimsIn(run + steps, i, |run + steps|)
         == ClaimsIn(run, i, |run|) + (if steps != [] && steps[0].TakeClaim? then 1 else 0)
    decreases |steps|
  {
    if steps == [] {
      assert run + steps == run;
    } else {
      var front := steps[..|steps| - 1];
      ClaimsOfSteps(run, front, i);
      assert run + steps == run + front + [steps[|steps| - 1]];
      ClaimsOfPrefix(run + front, [steps[|steps| - 1]], i, |run + front|);
    }
  }

  lemma {:induction false} StuckClaims(env: Env, n: nat)
    ensures |StuckRun(env, n)| >= 4 && ClaimsIn(StuckRun(env, n), 4, |StuckRun(env, n)|) == n
    ensures StuckRun(env, n)[..4] == Queued()
  {
    if n > 0 {
      StuckClaims(env, n - 1);
      UncommittedStepsAreOwn();
      hide ProcessSteps;
      ClaimsOfSteps(StuckRun(env, n - 1), Round(env, n - 1), 4);
    }
  }

  ghost predicate OvertakenTimes(env: Env, run: seq<Label>, i: nat, n: nat) {
    && Legal(env, run) && Timely(env, run) && Orderly(env, run) && i <= |run|
    && (forall m :: 0 <= m < |run| ==> !run[m].Crash? && !ClaimsJob(run[m], "k"))
    && Waits(StateAt(env, run, i), "k") && Waits(After(env, run), "k")
    && ClaimsIn(run, i, |run|) == n
  }

  lemma StuckWaits(env: Env, s: System, n: nat)
    requires Stuck(env, s, n)
    ensures Waits(s, "k")
  {
  }

  /** For every n: without a crash, in time and in order, an overdue job is overtaken n times, by one other job. */
  lemma TakeoversOvertake(env: Env, n: nat)
    requires !Collision(env.sha, KeyText("kb", "title", Checksum(env.sha, "body")), KeyText("kb", "later", Checksum(env.sha, "body")))
    ensures OvertakenTimes(env, StuckRun(env, n), 4, n)
  {
    hide Apply, Enabled, After, Legal, Timely, Orderly, Waits, Stuck, StuckRun;
    KeysDiffer(env.sha);
    StuckGoesOn(env, n);
    StuckGoesOn(env, 0);
    StuckClaims(env, n);
    FirstIsQueued(env);
    StuckWaits(env, After(env, StuckRun(env, n)), n);
    StuckWaits(env, After(env, Queued()), 0);
  }

  lemma FirstIsQueued(env: Env)
    ensures StuckRun(env, 0) == Queued()
  {
  }
}
