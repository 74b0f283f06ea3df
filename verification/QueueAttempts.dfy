/**
 The attempt limit.  claim never compares with it, so it can be passed; in timely runs exactly by
 taking over a running job that has already reached it.
 */
module QueueAttempts {
  import opened Basics
  import opened Rows
  import opened Queue
  import opened QueueAlways
  import opened QueueBudget
  import opened QueueTimely

  /** A job that waits has attempts left. */
  ghost predicate AttemptsLeft(env: Env, s: System, j: Id) {
    Configured(env) && j in s.tables.jobs && s.tables.jobs[j].state.JobPending? ==> s.tables.jobs[j].attempts < env.maxAttempts
  }

  /** A live holder's attempt number is the one in its job's row. */
  ghost predicate AttemptHeld(s: System, w: Id) {
    Live(s, w) && PcOf(s, w).c.jobId in s.tables.jobs ==> s.tables.jobs[PcOf(s, w).c.jobId].attempts == PcOf(s, w).c.attempts
  }

  ghost predicate Counted(env: Env, s: System) {
    (forall j :: AttemptsLeft(env, s, j)) && (forall w :: AttemptHeld(s, w))
  }

  lemma CountedOf(env: Env, s: System, j: Id, w: Id)
    requires Counted(env, s)
    ensures AttemptsLeft(env, s, j) && AttemptHeld(s, w)
  {
  }

  /** What a step makes of a job's state and attempts when it leaves it pending. */
  lemma PendingWritten(env: Env, s: System, l: Label, j: Id)
    requires Enabled(env, s, l) && j in TablesAfter(env, s, l).jobs && TablesAfter(env, s, l).jobs[j].state.JobPending?
    ensures
      var after := TablesAfter(env, s, l).jobs[j];
      || (j in s.tables.jobs && s.tables.jobs[j].state.JobPending? && after.attempts == s.tables.jobs[j].attempts)
      || after.attempts == 0
      || (Reschedules(env, s, l) && PcOf(s, l.worker).c.jobId == j && j in s.tables.jobs && after.attempts == s.tables.jobs[j].attempts)
  {
    hide SetDocPhase, MarkReady, FailDocTables, ReviveDoc, Backoff64, SameRows, Claimable;
  }

  lemma AttemptsLeftStep(env: Env, s: System, l: Label, j: Id)
    requires Good(env, s) && Counted(env, s) && Enabled(env, s, l) && TimelyStep(s, l)
    ensures AttemptsLeft(env, Apply(env, s, l), j)
  {
    hide Good, Counted, TablesAfter, LogAfter, ChunksAfter;
    CountedOf(env, s, j, Actor(l));
    if j in TablesAfter(env, s, l).jobs && TablesAfter(env, s, l).jobs[j].state.JobPending? {
      PendingWritten(env, s, l, j);
    }
  }

  lemma HeldElsewhere(env: Env, s: System, l: Label, w: Id)
    requires Good(env, s) && AttemptHeld(s, w) && Enabled(env, s, l) && TimelyStep(s, l) && ActorOf(l) != Some(w)
    ensures AttemptHeld(Apply(env, s, l), w)
  {
    hide Paired, Budgeted, Leased, TablesAfter, LogAfter, ChunksAfter, RetriesAfter, ProgressRight;
    PcMoves(env, s, l, w);
    if Live(Apply(env, s, l), w) {
      HolderOf(env, s, w);
      ClockForward(env, s, l);
      OthersStayAway(env, s, l, w);
      OtherJobUntouched(env, s, l, PcOf(s, w).c.docId);
    }
  }

  lemma HeldByActor(env: Env, s: System, l: Label, w: Id)
    requires Good(env, s) && AttemptHeld(s, w) && Enabled(env, s, l) && TimelyStep(s, l) && ActorOf(l) == Some(w)
    ensures AttemptHeld(Apply(env, s, l), w)
  {
    hide Good, LogAfter, ChunksAfter, RetriesAfter, TablesAfter;
    PcMoves(env, s, l, w);
    var pc := PcOf(Apply(env, s, l), w);
    if Live(Apply(env, s, l), w) && pc.c.jobId in TablesAfter(env, s, l).jobs {
      NoNewJobs(env, s, l, pc.c.jobId);
      AttemptsWritten(env, s, l, pc.c.jobId);
    }
  }

  lemma CountedStep(env: Env, s: System, l: Label)
    requires Good(env, s) && Counted(env, s) && Enabled(env, s, l) && TimelyStep(s, l)
    ensures Counted(env, Apply(env, s, l))
  {
    hide Good, Apply, Enabled, TimelyStep, AttemptsLeft, AttemptHeld;
    forall j ensures AttemptsLeft(env, Apply(env, s, l), j) {
      AttemptsLeftStep(env, s, l, j);
    }
    forall w ensures AttemptHeld(Apply(env, s, l), w) {
      if ActorOf(l) == Some(w) {
        HeldByActor(env, s, l, w);
      } else {
        HeldElsewhere(env, s, l, w);
      }
    }
  }

  /** Pending jobs have attempts left and live holders know their attempt, in every state of a timely run. */
  lemma {:induction false} TimelyIsCounted(env: Env, run: seq<Label>)
    requires Legal(env, run) && Timely(env, run)
    ensures Counted(env, After(env, run))
    decreases |run|
  {
    if run != [] {
      var front := run[..|run| - 1];
      TimelyPrefix(env, run);
      TimelyIsCounted(env, front);
      TimelyIsGood(env, front);
      CountedStep(env, After(env, front), run[|run| - 1]);
    }
  }

  lemma PrefixIsTimely(env: Env, run: seq<Label>, n: nat)
    requires Legal(env, run) && Timely(env, run) && n <= |run|
    ensures Legal(env, run[..n]) && Timely(env, run[..n]) && After(env, run[..n]) == StateAt(env, run, n)
  {
    hide Apply, Enabled, TimelyStep;
    LegalPrefix(env, run, n);
    forall m | 0 <= m < n ensures TimelyStep(StateAt(env, run[..n], m), run[..n][m]) {
      assert run[..n][..m] == run[..m];
      assert TimelyStep(StateAt(env, run, m), run[m]);
    }
  }

  lemma GoodAt(env: Env, run: seq<Label>, n: nat)
    requires Legal(env, run) && Timely(env, run) && n <= |run|
    ensures Good(env, StateAt(env, run, n))
  {
    hide Apply, After, Legal, Timely;
    PrefixIsTimely(env, run, n);
    TimelyIsGood(env, run[..n]);
  }

  /**
   When the attempt limit holds: a claim in a timely run hands out a number above it exactly when it
   takes over a running job whose row has already reached it.  A pending job never has.
   */
  lemma LimitPassedExactly(env: Env, run: seq<Label>, n: nat)
    requires Configured(env) && Legal(env, run) && Timely(env, run) && n < |run| && run[n].TakeClaim?
    ensures
      var s := StateAt(env, run, n);
      var row := s.tables.jobs[run[n].job];
      GrantFor(env, s, run[n]).attempt > env.maxAttempts <==> (row.state.JobRunning? && row.attempts >= env.maxAttempts)
  {
    hide Apply, After, Legal, Timely;
    PrefixIsTimely(env, run, n);
    TimelyIsCounted(env, run[..n]);
    CountedOf(env, StateAt(env, run, n), run[n].job, "");
  }
}
