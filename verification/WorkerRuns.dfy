/** The worker's code is a run of the queue: RunOnce, uninterrupted, is a claim step followed by its processing steps. */
module WorkerRuns {
  import opened Basics
  import opened Rows
  import opened Queue
  import opened Processing
  import opened WorkerCode

  lemma ClaimEnabled(env: Env, s: System, w: Id, mid: Store, c: Claim, raw: Bytes)
    requires PcOf(s, w).Idle? && ClaimedFrom(env, StoreOf(s), mid, w, |s.log.grants|, Got(c, raw))
    ensures
      var l := TakeClaim(w, c.jobId, s.now);
      Enabled(env, s, l) && PcAfter(env, s, l) == Claimed(c)
      && Store(TablesAfter(env, s, l), ChunksAfter(env, s, l), s.now) == mid
  {
  }

  /** A claim by the worker's code is an enabled claim step at the current time, with the same effect. */
  lemma ClaimIsAStep(env: Env, run: seq<Label>, w: Id, mid: Store, c: Claim, raw: Bytes)
    requires Legal(env, run) && PcOf(After(env, run), w).Idle?
    requires ClaimedFrom(env, StoreOf(After(env, run)), mid, w, |After(env, run).log.grants|, Got(c, raw))
    ensures Legal(env, run + [TakeClaim(w, c.jobId, After(env, run).now)])
    ensures
      var s' := After(env, run + [TakeClaim(w, c.jobId, After(env, run).now)]);
      PcOf(s', w) == Claimed(c) && StoreOf(s') == mid
  {
    hide Apply, After, Legal, Enabled, TablesAfter, ChunksAfter, PcAfter, ClaimedFrom;
    var l := TakeClaim(w, c.jobId, After(env, run).now);
    ClaimEnabled(env, After(env, run), w, mid, c, raw);
    OneStep(env, run, l, w);
  }

  /** A claim whose commit was in doubt and happened is a claim whose worker goes no further. */
  lemma ClaimInDoubtIsARun(env: Env, run: seq<Label>, w: Id, after: Store, c: Claim)
    requires Legal(env, run) && PcOf(After(env, run), w).Idle?
    requires Took(env, StoreOf(After(env, run)), after, w, |After(env, run).log.grants|, c)
    ensures EndsIn(env, run + [TakeClaim(w, c.jobId, After(env, run).now), Crash(w)], w, after)
  {
    hide Apply, After, Legal, Took;
    var claim := TakeClaim(w, c.jobId, After(env, run).now);
    TookIsGot(env, StoreOf(After(env, run)), after, w, |After(env, run).log.grants|, c);
    ClaimIsAStep(env, run, w, after, c, "");
    OneStep(env, run + [claim], Crash(w), w);
    assert run + [claim, Crash(w)] == run + [claim] + [Crash(w)];
  }

  lemma TookIsGot(env: Env, before: Store, after: Store, w: Id, serial: nat, c: Claim)
    requires Took(env, before, after, w, serial, c)
    ensures ClaimedFrom(env, before, after, w, serial, Got(c, ""))
  {
  }

  /** The steps RunOnce takes when it gets claim c and its calls return as given. */
  function TurnSteps(env: Env, w: Id, now: int, c: Claim, raw: Bytes, calls: Calls): seq<Label> {
    [TakeClaim(w, c.jobId, now)] + ProcessSteps(w, calls.(parse := ParseSource(env, c, raw, calls)))
  }

  lemma TurnIsARun(env: Env, run: seq<Label>, w: Id, mid: Store, after: Store, c: Claim, calls: Calls)
    requires Legal(env, run) && PcOf(After(env, run), w).Idle?
    requires OneTurnVia(env, StoreOf(After(env, run)), mid, after, w, |After(env, run).log.grants|, c, calls)
    ensures
      var steps := TurnSteps(env, w, After(env, run).now, c, RawRead(mid, c, calls), calls);
      Legal(env, run + steps) && StoreOf(After(env, run + steps)) == after && PcOf(After(env, run + steps), w).Idle?
  {
    hide Apply, Enabled, Legal, After, Processed, ParsePossible, ProcessSteps, ParseSource;
    var raw := RawRead(mid, c, calls);
    var claimed := run + [TakeClaim(w, c.jobId, After(env, run).now)];
    ClaimIsAStep(env, run, w, mid, c, raw);
    var done := calls.(parse := ParseSource(env, c, raw, calls));
    assert RawRead(mid, c, done) == raw;
    ProcessIsARun(env, claimed, w, done);
    assert run + TurnSteps(env, w, After(env, run).now, c, raw, calls) == claimed + ProcessSteps(w, done);
  }

  lemma RunOnceIsARun(env: Env, run: seq<Label>, w: Id, after: Store, c: Claim, calls: Calls)
    requires Legal(env, run) && PcOf(After(env, run), w).Idle?
    requires OneTurn(env, StoreOf(After(env, run)), after, w, |After(env, run).log.grants|, c, calls)
    ensures exists steps :: EndsIn(env, run + steps, w, after)
  {
    var s := After(env, run);
    var mid :| OneTurnVia(env, StoreOf(s), mid, after, w, |s.log.grants|, c, calls);
    TurnIsARun(env, run, w, mid, after, c, calls);
    assert EndsIn(env, run + TurnSteps(env, w, s.now, c, RawRead(mid, c, calls), calls), w, after);
  }

  /** The run is legal and leaves this store, with the worker idle. */
  ghost predicate EndsIn(env: Env, run: seq<Label>, w: Id, st: Store) {
    Legal(env, run) && StoreOf(After(env, run)) == st && PcOf(After(env, run), w).Idle?
  }
}
