/**
 The exponential backoff in Go's 64-bit arithmetic, and the schedule of a job that always fails.
 */
module Backoff {
  import opened Basics
  import opened Rows
  import opened Queue
  import opened Processing

  lemma {:induction false} Pow2AtLeast(n: nat)
    requires n >= 63
    ensures Pow2(n) >= TWO_63
  {
    Pow2Monotone(63, n);
    PowersBySteps();
  }

  lemma PowersBySteps()
    ensures Pow2(63) == TWO_63
  {
    assert Pow2(8) == 256;
    assert Pow2(16) == 0x1_0000;
    assert Pow2(24) == 0x100_0000;
    assert Pow2(32) == 0x1_0000_0000;
    assert Pow2(40) == 0x100_0000_0000;
    assert Pow2(48) == 0x1_0000_0000_0000;
    assert Pow2(56) == 0x100_0000_0000_0000;
  }

  lemma {:induction false} Pow2Below(n: nat)
    requires n < 63
    ensures Pow2(n) < TWO_63
  {
    Pow2Monotone(n, 62);
    PowersBySteps();
  }

  lemma ProductAtLeast(base: nat, factor: nat)
    requires base >= 1
    ensures base * factor >= factor
  {
    Distribute(base - 1, factor);
  }

  /** The scheduled backoff is the exact product precisely when that product fits in an int64. */
  lemma BackoffExact(base: nat, attempts: Attempt)
    ensures Backoff64(base, attempts) == base * Pow2(attempts - 1) <==> base * Pow2(attempts - 1) < TWO_63
  {
    var n := attempts - 1;
    if base == 0 {
      assert Backoff64(base, attempts) == Wrap64(0);
    } else if n < 63 {
      Pow2Below(n);
      assert ShiftOne64(n) == Pow2(n);
    } else {
      Pow2AtLeast(n);
      ProductAtLeast(base, Pow2(n));
    }
  }

  // ---- a job that always fails -----------------------------------------------------

  /** The backoffs scheduled by the failures of attempts 1 to n, added up. */
  function TotalBackoff(base: int, n: nat): int {
    if n == 0 then 0 else TotalBackoff(base, n - 1) + Backoff64(base, n)
  }

  lemma Doubling(base: nat, p: nat)
    ensures base * (2 * p) == base * p + base * p
    ensures base * (2 * p - 1) == base * (p - 1) + base * p
  {
  }

  lemma {:induction false} TotalBackoffClosedForm(base: nat, n: nat)
    requires n >= 1 ==> base * Pow2(n - 1) < TWO_63
    ensures TotalBackoff(base, n) == base * (Pow2(n) - 1)
  {
    if n >= 1 {
      if n >= 2 {
        Doubling(base, Pow2(n - 2));
        ProductIsNat(base, Pow2(n - 2));
      }
      TotalBackoffClosedForm(base, n - 1);
      BackoffExact(base, n);
      Doubling(base, Pow2(n - 1));
    }
  }

  lemma ProductIsNat(a: nat, b: nat)
    ensures a * b >= 0
  {
  }

  /** A failed attempt: when it failed, the phase its job was in, and the error recorded. */
  datatype Failure = Failure(at: int, phase: string, message: string)

  /** What fail records when processing fails: in parsing, or in the import that follows the phase writes. */
  function FailureOf(at: int, calls: Calls): Failure
    requires calls.parse.Err? || calls.importResult.Err?
  {
    if calls.parse.Err? then Failure(at, "parsing", calls.parse.message)
    else Failure(at, if calls.phaseJobOk then "indexing" else "parsing", calls.importResult.message)
  }

  /** The first write of a failure: dead at the limit, else pending until the backoff has passed. */
  function FailRow(env: Env, row: Job, attempts: Attempt, at: int, message: string): Job {
    if attempts >= env.maxAttempts then
      row.(state := JobDead, lastError := message, lockedBy := "", lockedUntil := None)
    else
      row.(state := JobPending, nextRunAt := at + Backoff64(env.baseBackoff, attempts),
           lastError := message, lockedBy := "", lockedUntil := None)
  }

  /** One claim of the row and its failure, both at the time of the failure. */
  function FailRound(env: Env, job: Job, worker: Id, f: Failure): Job {
    var claimed := ClaimedJob(job, worker, job.attempts + 1, f.at + env.lease).(phase := f.phase);
    FailRow(env, claimed, claimed.attempts, f.at, f.message)
  }

  lemma AfterFailRow(env: Env, st: Store, c: Claim, message: string, calls: Calls)
    requires c.jobId in st.tables.jobs && calls.failJobOk
    ensures c.jobId in AfterFail(env, st, c, message, calls).tables.jobs
    ensures
      AfterFail(env, st, c, message, calls).tables.jobs[c.jobId]
        == FailRow(env, st.tables.jobs[c.jobId], c.attempts, st.now, message)
  {
    hide Backoff64;
  }

  lemma AfterPhasesRow(st: Store, c: Claim, calls: Calls)
    requires c.jobId in st.tables.jobs
    ensures
      var after, job := AfterPhases(st, c, calls), st.tables.jobs[c.jobId];
      c.jobId in after.tables.jobs && after.now == st.now
      && after.tables.jobs[c.jobId] == if calls.phaseJobOk then job.(phase := "indexing") else job
  {
  }

  /** That row is what claim and process leave when parsing or the import fails and the failure's first write goes through. */
  lemma FailRoundIsProcessing(env: Env, t: Tables, j: Id, w: Id, at: int, calls: Calls, serial: nat, chunks: seq<ChunkRow>)
    requires j in t.jobs && t.jobs[j].docId in t.docs
    requires (calls.parse.Err? || calls.importResult.Err?) && calls.failJobOk
    ensures
      var doc := t.docs[t.jobs[j].docId];
      var c := Claim(j, t.jobs[j].docId, t.jobs[j].attempts + 1, doc.kb, doc.sourceType, at + env.lease, serial);
      var claimed := ClaimTables(t, j, c.docId, w, c.attempts, c.leaseEnd);
      var after := Processed(env, Store(claimed, chunks, at), c, calls);
      j in after.tables.jobs && after.tables.jobs[j] == FailRound(env, t.jobs[j], w, FailureOf(at, calls))
  {
    hide AfterFail, AfterPhases, FailRow, AfterCommit;
    var doc := t.docs[t.jobs[j].docId];
    var c := Claim(j, t.jobs[j].docId, t.jobs[j].attempts + 1, doc.kb, doc.sourceType, at + env.lease, serial);
    var st := Store(ClaimTables(t, j, c.docId, w, c.attempts, c.leaseEnd), chunks, at);
    match calls.parse
    case Err(message) => AfterFailRow(env, st, c, message, calls);
    case Ok(text) =>
      AfterPhasesRow(st, c, calls);
      AfterFailRow(env, AfterImport(env, AfterPhases(st, c, calls), c, text, calls), c, calls.importResult.message, calls);
  }

  function FailRounds(env: Env, job: Job, worker: Id, failures: seq<Failure>): Job {
    if failures == [] then job
    else FailRound(env, FailRounds(env, job, worker, failures[..|failures| - 1]), worker, failures[|failures| - 1])
  }

  /**
   A fresh job whose every attempt fails is pending again, and claimable once its backoff has
   passed, after each of its first maxAttempts - 1 failures, and dead after exactly maxAttempts.
   */
  lemma {:induction false} AlwaysFailingJob(env: Env, job: Job, worker: Id, failures: seq<Failure>)
    requires Configured(env) && job.state == JobPending && job.attempts == 0
    requires |failures| <= env.maxAttempts
    ensures
      var after := FailRounds(env, job, worker, failures);
      && after.attempts == |failures|
      && (|failures| < env.maxAttempts ==> after.state == JobPending)
      && (0 < |failures| < env.maxAttempts ==>
            after.nextRunAt == failures[|failures| - 1].at + Backoff64(env.baseBackoff, |failures|)
            && forall now :: Claimable(after, now) <==> after.nextRunAt <= now)
      && (|failures| == env.maxAttempts ==> after.state == JobDead && forall now :: !Claimable(after, now))
  {
    if failures != [] {
      AlwaysFailingJob(env, job, worker, failures[..|failures| - 1]);
    }
  }

  /** Its backoffs add up to base * (2^(maxAttempts-1) - 1), as long as the largest of them fits in an int64. */
  lemma AlwaysFailingBackoff(env: Env)
    requires Configured(env) && env.baseBackoff >= 0
    requires env.maxAttempts >= 2 ==> env.baseBackoff * Pow2(env.maxAttempts - 2) < TWO_63
    ensures TotalBackoff(env.baseBackoff, env.maxAttempts - 1) == env.baseBackoff * (Pow2(env.maxAttempts - 1) - 1)
  {
    TotalBackoffClosedForm(env.baseBackoff, env.maxAttempts - 1);
  }
}
