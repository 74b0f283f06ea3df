/**
 Document and job states.  fail and Retry each write the job row and then the document row.  In a
 timely run what was written on a document since its job's last claim decides, exactly, whether the
 two rows agree.
 */
module QueueAgreement {
  import opened Basics
  import opened Rows
  import opened Queue
  import opened QueueAlways
  import opened QueueBudget
  import opened QueueTimely
  import opened QueueAttempts

  /** Which writes went through on a document since the last claim; retriedDoc when the latest one on its row is Retry's. */
  datatype Tale = Tale(failedJob: bool, failedDoc: bool, retried: bool, retriedDoc: bool)

  const UNTOUCHED := Tale(false, false, false, false)

  function TaleAfter(s: System, l: Label, d: Id, t: Tale): Tale {
    if TargetOf(s, l) != Some(d) then t
    else if l.TakeClaim? || l.Enqueue? then UNTOUCHED
    else if l.FailJob? && l.ok then t.(failedJob := true)
    else if l.FailDoc? && l.ok then t.(failedDoc := true, retriedDoc := false)
    else if l.RetryJob? then t.(retried := true, retriedDoc := false)
    else if l.RetryDoc? && l.ok then t.(retriedDoc := true)
    else t
  }

  ghost function TaleOf(env: Env, run: seq<Label>, d: Id): Tale
    requires Legal(env, run)
  {
    if run == [] then UNTOUCHED
    else TaleAfter(After(env, run[..|run| - 1]), run[|run| - 1], d, TaleOf(env, run[..|run| - 1], d))
  }

  /**
   Without a Retry, both writes of the failure went through or neither did; with one, its document
   write went through and no later failure's did.
   */
  predicate Whole(t: Tale) {
    if t.retried then t.retriedDoc else t.failedJob == t.failedDoc
  }

  // ---- the rows, by what was written ----------------------------------------------------

  function FailedJobState(env: Env, attempts: nat): JobState {
    if attempts >= env.maxAttempts then JobDead else JobPending
  }

  function FailedDocStatus(env: Env, attempts: nat): DocStatus {
    if attempts >= env.maxAttempts then DocFailed else DocPending
  }

  /** The columns of a document's two rows that say how far it is. */
  datatype Standing = Standing(state: JobState, attempts: nat, status: DocStatus)

  ghost function StandingOf(s: System, d: Id): Standing
    requires DocHasJob(s, d)
  {
    var job := s.tables.jobs[s.log.jobOf[d]];
    Standing(job.state, job.attempts, s.tables.docs[d].status)
  }

  ghost predicate StandsRight(env: Env, st: Standing, t: Tale) {
    if t.retried then
      st.state.JobPending? && (if t.retriedDoc then st.status.DocPending? else st.status.DocFailed? || st.status.DocParsing?)
    else if t.failedJob then
      st.state == FailedJobState(env, st.attempts)
      && st.status == (if t.failedDoc then FailedDocStatus(env, st.attempts) else DocParsing)
    else if t.failedDoc then
      st.state.JobRunning? && st.status == FailedDocStatus(env, st.attempts)
    else
      !st.state.JobDead? && Matches(st.state, st.status)
  }

  ghost predicate RowsRight(env: Env, s: System, d: Id, t: Tale) {
    DocHasJob(s, d) ==> StandsRight(env, StandingOf(s, d), t)
  }

  /** The worker's claim is its job's latest. */
  ghost predicate Latest(s: System, w: Id) {
    !PcOf(s, w).Idle? && Lookup(s.log.last, PcOf(s, w).c.jobId) == Some(PcOf(s, w).c.serial)
  }

  ghost predicate BetweenWrites(s: System, w: Id, d: Id) {
    PcOf(s, w).HalfFailed? && PcOf(s, w).c.docId == d
  }

  /** A live holder has written nothing; one between its writes still has the document's to do. */
  ghost predicate WorkerRight(env: Env, s: System, w: Id, d: Id, t: Tale) {
    && (LiveOn(s, w, d) ==> t == UNTOUCHED)
    && (BetweenWrites(s, w, d) && Latest(s, w) && DocHasJob(s, d) ==> HalfRight(env, StandingOf(s, d), PcOf(s, w).c.attempts, t))
  }

  ghost predicate HalfRight(env: Env, st: Standing, attempts: nat, t: Tale) {
    && !t.failedDoc
    && (if t.retried then attempts >= env.maxAttempts
        else st.attempts == attempts && (t.failedJob || st.state.JobRunning?))
  }

  ghost predicate RetryRight(s: System, r: Id, d: Id, t: Tale) {
    r in s.retries && s.retries[r].docId == d && Lookup(s.log.last, s.retries[r].jobId) == s.retries[r].lastSerial ==>
      t.retried
  }

  ghost predicate Told(env: Env, s: System, d: Id, t: Tale) {
    && RowsRight(env, s, d, t)
    && (forall w :: WorkerRight(env, s, w, d, t))
    && (forall r :: RetryRight(s, r, d, t))
  }

  lemma ToldOf(env: Env, s: System, d: Id, t: Tale, w: Id, r: Id)
    requires Told(env, s, d, t)
    ensures RowsRight(env, s, d, t) && WorkerRight(env, s, w, d, t) && RetryRight(s, r, d, t)
  {
  }

  // ---- steps on other documents ---------------------------------------------------------

  lemma RowsElsewhere(env: Env, s: System, l: Label, d: Id, t: Tale)
    requires Good(env, s) && RowsRight(env, s, d, t) && Enabled(env, s, l) && TargetOf(s, l) != Some(d)
    ensures RowsRight(env, Apply(env, s, l), d, t)
  {
    hide Paired, Budgeted, Leased, TablesAfter, LogAfter, ChunksAfter;
    OtherDocUntouched(env, s, l, d);
    if d in s.log.jobOf {
      OtherJobUntouched(env, s, l, d);
    }
  }

  /** A worker whose step is on another document is not on this one. */
  lemma ActorElsewhere(env: Env, s: System, l: Label, d: Id)
    requires Enabled(env, s, l) && ActorOf(l).Some? && TargetOf(s, l) != Some(d)
    ensures !PcOf(Apply(env, s, l), l.worker).Idle? ==> PcOf(Apply(env, s, l), l.worker).c.docId != d
  {
    hide TablesAfter, LogAfter, ChunksAfter, RetriesAfter;
    PcMoves(env, s, l, l.worker);
  }

  lemma BystanderElsewhere(env: Env, s: System, l: Label, d: Id, t: Tale, w: Id)
    requires Good(env, s) && WorkerRight(env, s, w, d, t) && Enabled(env, s, l) && TargetOf(s, l) != Some(d)
    requires ActorOf(l) != Some(w) && !PcOf(s, w).Idle? && PcOf(s, w).c.docId == d
    ensures WorkerRight(env, Apply(env, s, l), w, d, t)
  {
    hide Paired, Budgeted, Leased, TablesAfter, LogAfter, ChunksAfter, RetriesAfter, TargetOf, StandsRight;
    PcMoves(env, s, l, w);
    RememberedBy(env, s, w);
    OtherDocUntouched(env, s, l, d);
    OtherJobUntouched(env, s, l, d);
    OtherLastUntouched(env, s, l, d);
    ClockForward(env, s, l);
  }

  lemma RememberedBy(env: Env, s: System, w: Id)
    requires Good(env, s)
    ensures ClaimRemembered(s, w)
  {
  }

  lemma WorkerElsewhere(env: Env, s: System, l: Label, d: Id, t: Tale, w: Id)
    requires Good(env, s) && WorkerRight(env, s, w, d, t) && Enabled(env, s, l) && TargetOf(s, l) != Some(d)
    ensures WorkerRight(env, Apply(env, s, l), w, d, t)
  {
    hide Good, TablesAfter, LogAfter, ChunksAfter, RetriesAfter, TargetOf, HalfRight;
    PcMoves(env, s, l, w);
    if ActorOf(l) == Some(w) {
      ActorElsewhere(env, s, l, d);
    } else if !PcOf(s, w).Idle? && PcOf(s, w).c.docId == d {
      BystanderElsewhere(env, s, l, d, t, w);
    }
  }

  lemma RetryElsewhereRight(env: Env, s: System, l: Label, d: Id, t: Tale, r: Id)
    requires Good(env, s) && RetryRight(s, r, d, t) && Enabled(env, s, l) && TargetOf(s, l) != Some(d)
    ensures RetryRight(Apply(env, s, l), r, d, t)
  {
    hide Paired, Budgeted, Leased, TablesAfter, ChunksAfter;
    RetryOf(env, s, r);
    if r in s.retries && s.retries[r].docId == d {
      OtherLastUntouched(env, s, l, d);
    }
  }

  lemma ToldElsewhere(env: Env, s: System, l: Label, d: Id, t: Tale)
    requires Good(env, s) && Told(env, s, d, t) && Enabled(env, s, l) && TargetOf(s, l) != Some(d)
    ensures Told(env, Apply(env, s, l), d, t)
  {
    hide Good, Apply, Enabled, RowsRight, WorkerRight, RetryRight;
    RowsElsewhere(env, s, l, d, t);
    forall w ensures WorkerRight(env, Apply(env, s, l), w, d, t) {
      ToldOf(env, s, d, t, w, "");
      WorkerElsewhere(env, s, l, d, t, w);
    }
    forall r ensures RetryRight(Apply(env, s, l), r, d, t) {
      ToldOf(env, s, d, t, "", r);
      RetryElsewhereRight(env, s, l, d, t, r);
    }
  }

  // ---- steps on the document itself -------------------------------------------------------

  ghost predicate Ready(env: Env, s: System, l: Label, d: Id, t: Tale) {
    && Good(env, s) && Counted(env, s) && Told(env, s, d, t)
    && Enabled(env, s, l) && TimelyStep(s, l) && TargetOf(s, l) == Some(d)
  }

  lemma UsedDoc(env: Env, s: System, d: Id)
    requires Good(env, s)
    ensures d in s.log.jobOf ==> d in s.log.used
  {
  }

  /** What is known of the document, its rows, and the worker or retry that takes the step. */
  lemma Facts(env: Env, s: System, l: Label, d: Id, t: Tale)
    requires Ready(env, s, l, d, t)
    ensures DocPaired(env, s, d) && RowsRight(env, s, d, t) && (d in s.log.jobOf ==> d in s.log.used)
    ensures
      var w := Actor(l);
      && ClaimRemembered(s, w) && HolderGranted(s, w) && LeaseHeld(s, w) && AttemptHeld(s, w) && WorkerRight(env, s, w, d, t)
    ensures l.TakeClaim? ==> JobPaired(s, l.job)
    ensures l.RetryDoc? ==>
      RetryRight(s, l.caller, d, t) && Remembers(s, s.retries[l.caller].docId, s.retries[l.caller].jobId)
  {
    CountedOf(env, s, "", Actor(l));
    ToldOf(env, s, d, t, Actor(l), if l.RetryDoc? then l.caller else "");
    HolderOf(env, s, Actor(l));
    UsedDoc(env, s, d);
  }

  /** What a step on the document makes of its standing. */
  ghost function StandingAfter(env: Env, s: System, l: Label, st: Standing): Standing
    requires Enabled(env, s, l)
  {
    if l.TakeClaim? then Standing(JobRunning, st.attempts + 1, DocParsing)
    else if l.CommitOk? then st.(state := JobDone, status := DocReady)
    else if l.FailJob? && l.ok then st.(state := FailedJobState(env, PcOf(s, l.worker).c.attempts))
    else if l.FailDoc? && l.ok then st.(status := FailedDocStatus(env, PcOf(s, l.worker).c.attempts))
    else if l.RetryJob? then st.(state := JobPending, attempts := 0)
    else if l.RetryDoc? && l.ok then st.(status := DocPending)
    else st
  }

  ghost predicate Written(env: Env, s: System, l: Label, d: Id)
    requires Enabled(env, s, l) && DocHasJob(s, d)
  {
    DocHasJob(Apply(env, s, l), d) ==> StandingOf(Apply(env, s, l), d) == StandingAfter(env, s, l, StandingOf(s, d))
  }

  lemma WrittenByPair(env: Env, s: System, l: Label, d: Id)
    requires Enabled(env, s, l) && DocHasJob(s, d) && TargetOf(s, l) == Some(d) && (l.TakeClaim? || l.CommitOk?)
    requires ClaimRemembered(s, l.worker) && (l.TakeClaim? ==> JobPaired(s, l.job))
    ensures Written(env, s, l, d)
  {
    hide LogAfter, ChunksAfter, HalfAfter, RetriesAfter, SameRows, Claimable;
    StepKeepsIds(env, s, l);
  }

  lemma WrittenByOne(env: Env, s: System, l: Label, d: Id)
    requires Enabled(env, s, l) && DocHasJob(s, d) && TargetOf(s, l) == Some(d)
    requires l.FailJob? || l.FailDoc? || l.RetryJob? || l.RetryDoc?
    requires ClaimRemembered(s, Actor(l))
    ensures Written(env, s, l, d)
  {
    hide LogAfter, ChunksAfter, HalfAfter, RetriesAfter, SameRows, Claimable, Backoff64;
    StepKeepsIds(env, s, l);
  }

  lemma NotWritten(env: Env, s: System, l: Label, d: Id)
    requires Enabled(env, s, l) && DocHasJob(s, d) && TargetOf(s, l) == Some(d) && !l.Enqueue?
    requires !l.TakeClaim? && !l.CommitOk? && !l.FailJob? && !l.FailDoc? && !l.RetryJob? && !l.RetryDoc?
    ensures Written(env, s, l, d)
  {
    hide LogAfter, ChunksAfter, HalfAfter, RetriesAfter, SameRows, Claimable;
    StepKeepsIds(env, s, l);
  }

  lemma StepWrites(env: Env, s: System, l: Label, d: Id)
    requires Enabled(env, s, l) && DocHasJob(s, d) && TargetOf(s, l) == Some(d) && !l.Enqueue?
    requires ClaimRemembered(s, Actor(l)) && (l.TakeClaim? ==> JobPaired(s, l.job))
    ensures Written(env, s, l, d)
  {
    hide Written, Enabled;
    if l.TakeClaim? || l.CommitOk? {
      WrittenByPair(env, s, l, d);
    } else if l.FailJob? || l.FailDoc? || l.RetryJob? || l.RetryDoc? {
      WrittenByOne(env, s, l, d);
    } else {
      NotWritten(env, s, l, d);
    }
  }

  lemma StillHasJob(env: Env, s: System, l: Label, d: Id)
    requires Paired(env, s) && Enabled(env, s, l) && !l.Enqueue? && DocHasJob(Apply(env, s, l), d)
    ensures DocHasJob(s, d)
  {
    hide Paired, TablesAfter, LogAfter, ChunksAfter;
    StepKeepsIds(env, s, l);
    OldDocument(env, s, l, d);
    PairedOf(env, s, d, "", "", "");
  }

  lemma OldDocument(env: Env, s: System, l: Label, d: Id)
    requires Enabled(env, s, l) && !l.Enqueue? && d in TablesAfter(env, s, l).docs
    ensures d in s.tables.docs
  {
    if !l.DeleteRow? {
      hide TablesAfter;
      StepKeepsRows(env, s, l);
    }
  }

  lemma RowsOfEnqueue(env: Env, s: System, l: Label, d: Id)
    requires Enabled(env, s, l) && l.Enqueue? && l.docId == d
    ensures RowsRight(env, Apply(env, s, l), d, UNTOUCHED)
  {
    hide ChunksAfter, HalfAfter, RetriesAfter;
  }

  lemma RowsStep(env: Env, s: System, l: Label, d: Id, t: Tale)
    requires Ready(env, s, l, d, t)
    ensures RowsRight(env, Apply(env, s, l), d, TaleAfter(s, l, d, t))
  {
    hide Paired, Budgeted, Leased, Counted, Told, Apply, Written, DocPaired;
    Facts(env, s, l, d, t);
    if l.Enqueue? {
      RowsOfEnqueue(env, s, l, d);
    } else if DocHasJob(Apply(env, s, l), d) {
      StillHasJob(env, s, l, d);
      StepWrites(env, s, l, d);
      StandsStep(env, s, l, d, t);
      assert StandsRight(env, StandingAfter(env, s, l, StandingOf(s, d)), TaleAfter(s, l, d, t));
      WrittenStands(env, s, l, d);
    }
  }

  lemma WrittenStands(env: Env, s: System, l: Label, d: Id)
    requires Enabled(env, s, l) && DocHasJob(s, d) && Written(env, s, l, d) && DocHasJob(Apply(env, s, l), d)
    ensures StandingOf(Apply(env, s, l), d) == StandingAfter(env, s, l, StandingOf(s, d))
  {
  }

  lemma StandsByWorker(env: Env, s: System, l: Label, d: Id, t: Tale)
    requires Ready(env, s, l, d, t) && DocHasJob(s, d) && ActorOf(l).Some?
    ensures StandsRight(env, StandingAfter(env, s, l, StandingOf(s, d)), TaleAfter(s, l, d, t))
  {
    hide Good, Counted, Told, DocPaired, HolderGranted;
    Facts(env, s, l, d, t);
  }

  lemma StandsByCaller(env: Env, s: System, l: Label, d: Id, t: Tale)
    requires Ready(env, s, l, d, t) && DocHasJob(s, d) && ActorOf(l).None? && !l.Enqueue?
    ensures StandsRight(env, StandingAfter(env, s, l, StandingOf(s, d)), TaleAfter(s, l, d, t))
  {
    hide Good, Counted, Told, DocPaired, HolderGranted, WorkerRight, LeaseHeld;
    Facts(env, s, l, d, t);
  }

  lemma StandsStep(env: Env, s: System, l: Label, d: Id, t: Tale)
    requires Ready(env, s, l, d, t) && DocHasJob(s, d) && !l.Enqueue?
    ensures StandsRight(env, StandingAfter(env, s, l, StandingOf(s, d)), TaleAfter(s, l, d, t))
  {
    hide Ready, StandsRight, StandingAfter;
    if ActorOf(l).Some? {
      StandsByWorker(env, s, l, d, t);
    } else {
      StandsByCaller(env, s, l, d, t);
    }
  }

  // ---- the workers and retries of the document ---------------------------------------------

  /** The stepping worker's claim is its job's latest. */
  lemma ActorLatest(env: Env, s: System, l: Label)
    requires Good(env, s) && Enabled(env, s, l) && TimelyStep(s, l) && ActorOf(l).Some? && !l.TakeClaim? && !l.Crash?
    ensures Latest(s, l.worker)
  {
    hide Good, ProgressRight;
    HolderOf(env, s, l.worker);
  }

  lemma OneLatest(env: Env, s: System, v: Id, w: Id)
    requires Good(env, s) && Latest(s, v) && Latest(s, w) && PcOf(s, v).c.docId == PcOf(s, w).c.docId
    ensures v == w
  {
    hide Good, ProgressRight, LeaseHeld;
    HolderOf(env, s, v);
    HolderOf(env, s, w);
  }

  /** A claim of the job makes every other claim of it an old one. */
  lemma LatestKept(env: Env, s: System, l: Label, w: Id)
    requires Good(env, s) && Enabled(env, s, l) && ActorOf(l) != Some(w) && Latest(Apply(env, s, l), w)
    ensures Latest(s, w) && !(l.TakeClaim? && TargetOf(s, l) == Some(PcOf(s, w).c.docId))
  {
    hide Good, ProgressRight, LeaseHeld, TablesAfter, ChunksAfter, HalfAfter, RetriesAfter;
    PcMoves(env, s, l, w);
    HolderOf(env, s, w);
    if l.TakeClaim? {
      JobOf(env, s, l.job);
    }
  }

  lemma HalfByCaller(env: Env, s: System, l: Label, d: Id, t: Tale, attempts: nat)
    requires Enabled(env, s, l) && ActorOf(l).None? && !l.Enqueue? && TargetOf(s, l) == Some(d) && DocHasJob(s, d)
    requires RowsRight(env, s, d, t) && HalfRight(env, StandingOf(s, d), attempts, t)
    requires l.RetryDoc? ==> t.retried
    ensures HalfRight(env, StandingAfter(env, s, l, StandingOf(s, d)), attempts, TaleAfter(s, l, d, t))
  {
  }

  /** Another worker on the document is not live, and when its claim is the latest no worker took the step. */
  lemma OtherWorkerRight(env: Env, s: System, l: Label, d: Id, t: Tale, w: Id)
    requires Ready(env, s, l, d, t) && ActorOf(l) != Some(w)
    ensures WorkerRight(env, Apply(env, s, l), w, d, TaleAfter(s, l, d, t))
  {
    hide Paired, Budgeted, Leased, Counted, Told, Enabled, TimelyStep, TablesAfter, LogAfter, ChunksAfter, RetriesAfter, PcsAfter, Written,
         HalfRight, StandingAfter, TaleAfter, TargetOf, Latest, DocPaired, RowsRight;
    Facts(env, s, l, d, t);
    ToldOf(env, s, d, t, w, if l.RetryDoc? then l.caller else "");
    PcMoves(env, s, l, w);
    ClockForward(env, s, l);
    if LiveOn(Apply(env, s, l), w, d) {
      OthersStayAway(env, s, l, w);
    }
    if BetweenWrites(s, w, d) && Latest(Apply(env, s, l), w) && DocHasJob(Apply(env, s, l), d) {
      LatestKept(env, s, l, w);
      HalfStep(env, s, l, d, t, w);
    }
  }

  lemma HalfStep(env: Env, s: System, l: Label, d: Id, t: Tale, w: Id)
    requires Ready(env, s, l, d, t) && ActorOf(l) != Some(w) && BetweenWrites(s, w, d) && Latest(s, w) && !l.TakeClaim?
    requires WorkerRight(env, s, w, d, t) && DocHasJob(Apply(env, s, l), d)
    ensures HalfRight(env, StandingOf(Apply(env, s, l), d), PcOf(s, w).c.attempts, TaleAfter(s, l, d, t))
  {
    hide Paired, Budgeted, Leased, Counted, Told, Apply, Enabled, Written, HalfRight, StandingAfter, TaleAfter, Latest, RowsRight, DocPaired;
    Facts(env, s, l, d, t);
    RememberedBy(env, s, w);
    if l.Enqueue? {
      EnqueueIsNew(env, s, l);
    } else {
      StillHasJob(env, s, l, d);
      StepWrites(env, s, l, d);
      WrittenStands(env, s, l, d);
      if ActorOf(l).Some? && !l.Crash? {
        ActorLatest(env, s, l);
        OneLatest(env, s, l.worker, w);
      } else {
        RetryIsTold(env, s, l, d, t);
        HalfByCaller(env, s, l, d, t, PcOf(s, w).c.attempts);
      }
    }
  }

  lemma EnqueueIsNew(env: Env, s: System, l: Label)
    requires Enabled(env, s, l) && l.Enqueue?
    ensures l.docId !in s.log.used
  {
  }

  lemma RetryIsTold(env: Env, s: System, l: Label, d: Id, t: Tale)
    requires Ready(env, s, l, d, t)
    ensures l.RetryDoc? ==> t.retried
  {
    Facts(env, s, l, d, t);
  }

  /** The stepping worker itself. */
  lemma ActorRight(env: Env, s: System, l: Label, d: Id, t: Tale)
    requires Ready(env, s, l, d, t) && ActorOf(l).Some?
    ensures WorkerRight(env, Apply(env, s, l), l.worker, d, TaleAfter(s, l, d, t))
  {
    hide Paired, Budgeted, Leased, Counted, Told, TablesAfter, LogAfter, ChunksAfter, RetriesAfter, Written, StandsRight, DocPaired, HolderGranted;
    Facts(env, s, l, d, t);
    PcMoves(env, s, l, l.worker);
    if l.FailJob? && DocHasJob(Apply(env, s, l), d) {
      StillHasJob(env, s, l, d);
      StepWrites(env, s, l, d);
      WrittenStands(env, s, l, d);
    }
  }

  lemma RetryRightStep(env: Env, s: System, l: Label, d: Id, t: Tale, r: Id)
    requires Ready(env, s, l, d, t)
    ensures RetryRight(Apply(env, s, l), r, d, TaleAfter(s, l, d, t))
  {
    hide Good, Counted, Told, TablesAfter, ChunksAfter, HalfAfter, Written, StandsRight, WorkerRight;
    Facts(env, s, l, d, t);
    ToldOf(env, s, d, t, "", r);
    RetryOf(env, s, r);
  }

  lemma ToldStep(env: Env, s: System, l: Label, d: Id, t: Tale)
    requires Good(env, s) && Counted(env, s) && Told(env, s, d, t) && Enabled(env, s, l) && TimelyStep(s, l)
    ensures Told(env, Apply(env, s, l), d, TaleAfter(s, l, d, t))
  {
    hide Good, Counted, Apply, Enabled, TimelyStep, RowsRight, WorkerRight, RetryRight, TargetOf;
    if TargetOf(s, l) != Some(d) {
      ToldElsewhere(env, s, l, d, t);
    } else {
      RowsStep(env, s, l, d, t);
      forall w ensures WorkerRight(env, Apply(env, s, l), w, d, TaleAfter(s, l, d, t)) {
        if ActorOf(l) == Some(w) {
          ActorRight(env, s, l, d, t);
        } else {
          OtherWorkerRight(env, s, l, d, t, w);
        }
      }
      forall r ensures RetryRight(Apply(env, s, l), r, d, TaleAfter(s, l, d, t)) {
        RetryRightStep(env, s, l, d, t, r);
      }
    }
  }

  lemma {:induction false} AlwaysTold(env: Env, run: seq<Label>, d: Id)
    requires Legal(env, run) && Timely(env, run)
    ensures Told(env, After(env, run), d, TaleOf(env, run, d))
    decreases |run|
  {
    hide Apply, Told, TaleAfter;
    if run == [] {
      ToldAtStart(env, d);
    } else {
      var front := run[..|run| - 1];
      TimelyPrefix(env, run);
      LegalPrefix(env, run, |run| - 1);
      AlwaysTold(env, front, d);
      TimelyIsGood(env, front);
      TimelyIsCounted(env, front);
      ToldStep(env, After(env, front), run[|run| - 1], d, TaleOf(env, front, d));
    }
  }

  lemma ToldAtStart(env: Env, d: Id)
    ensures Told(env, START, d, UNTOUCHED)
  {
  }

  /**
   Exactly when the two rows of a document agree, in every state of a timely run, with crashes and
   lost writes anywhere: without a Retry since the last claim, when both writes of its failure went
   through or neither did; with one, when Retry's document write went through and no later failure's
   did.
   */
  lemma AgreementExactly(env: Env, run: seq<Label>, d: Id)
    requires Legal(env, run) && Timely(env, run) && d in After(env, run).tables.docs
    ensures DocHasJob(After(env, run), d)
    ensures Agrees(After(env, run), d) <==> Whole(TaleOf(env, run, d))
  {
    hide Apply, After, Legal, Timely, Enabled;
    DocumentJobAgreement(env, run, d);
    AlwaysTold(env, run, d);
    ToldOf(env, After(env, run), d, TaleOf(env, run, d), "", "");
  }

  // ---- documents whose pairs of writes are completed ----------------------------------------

  /** The step loses no write on the document, cuts no pair on it short, and starts no Retry inside a worker's pair. */
  ghost predicate CleanStep(s: System, l: Label, d: Id) {
    && (TargetOf(s, l) == Some(d) && (l.FailJob? || l.FailDoc? || l.RetryDoc?) ==> l.ok)
    && (l.Crash? ==> !BetweenWrites(s, l.worker, d))
    && (l.RetryJob? && l.doc == d ==> forall w :: !BetweenWrites(s, w, d))
  }

  ghost predicate Clean(env: Env, run: seq<Label>, d: Id)
    requires Legal(env, run)
  {
    run == [] || (Clean(env, run[..|run| - 1], d) && CleanStep(After(env, run[..|run| - 1]), run[|run| - 1], d))
  }

  /** The worker owes the document the second write of its failure. */
  ghost predicate Owes(s: System, w: Id, d: Id) {
    BetweenWrites(s, w, d) && Latest(s, w)
  }

  ghost predicate RetryOwes(s: System, r: Id, d: Id) {
    r in s.retries && s.retries[r].docId == d
  }

  /** Whatever is missing is owed by someone. */
  ghost predicate Answered(s: System, d: Id, t: Tale) {
    && (!t.retried && t.failedDoc ==> t.failedJob)
    && (!t.retried && t.failedJob != t.failedDoc ==> exists w :: Owes(s, w, d))
    && (t.retried && !t.retriedDoc ==> exists r :: RetryOwes(s, r, d))
    && (forall w :: Owes(s, w, d) ==> t.failedJob && !t.failedDoc && !t.retried)
  }

  lemma OwesBefore(env: Env, s: System, l: Label, d: Id, w: Id)
    requires Good(env, s) && Enabled(env, s, l) && TimelyStep(s, l) && Owes(Apply(env, s, l), w, d)
    ensures !(l.FailJob? && l.worker == w) ==>
      Owes(s, w, d) && (TargetOf(s, l) == Some(d) ==> ActorOf(l).None? && !l.Enqueue?)
    ensures TargetOf(s, l) == Some(d) && ActorOf(l).Some? ==> ActorOf(l) == Some(w)
  {
    hide Paired, Budgeted, Leased, TablesAfter, LogAfter, ChunksAfter, RetriesAfter, Latest;
    PcMoves(env, s, l, w);
    RememberedBy(env, s, w);
    UsedDoc(env, s, d);
    if ActorOf(l) != Some(w) {
      LatestKept(env, s, l, w);
      if TargetOf(s, l) == Some(d) && ActorOf(l).Some? && !l.TakeClaim? {
        ActorLatest(env, s, l);
        OneLatest(env, s, l.worker, w);
      }
    }
  }

  lemma StillOwes(env: Env, s: System, l: Label, d: Id, w: Id)
    requires Good(env, s) && Enabled(env, s, l) && Owes(s, w, d) && CleanStep(s, l, d)
    requires !(l.FailDoc? && l.worker == w) && !(l.TakeClaim? && TargetOf(s, l) == Some(d))
    ensures Owes(Apply(env, s, l), w, d)
  {
    hide Paired, Budgeted, Leased, TablesAfter, ChunksAfter, HalfAfter, RetriesAfter;
    PcMoves(env, s, l, w);
    RememberedBy(env, s, w);
    if l.TakeClaim? {
      JobOf(env, s, l.job);
      IdsApart(env, s, d, s.tables.jobs[l.job].docId);
    }
  }

  lemma RetryStillOwes(env: Env, s: System, l: Label, d: Id, r: Id)
    requires Enabled(env, s, l) && RetryOwes(s, r, d) && !(l.RetryDoc? && l.caller == r)
    ensures RetryOwes(Apply(env, s, l), r, d)
  {
    hide TablesAfter, LogAfter, ChunksAfter;
  }

  lemma AnsweredElsewhere(env: Env, s: System, l: Label, d: Id, t: Tale)
    requires Good(env, s) && Enabled(env, s, l) && TimelyStep(s, l) && CleanStep(s, l, d) && Answered(s, d, t)
    requires TargetOf(s, l) != Some(d)
    ensures Answered(Apply(env, s, l), d, t)
  {
    hide Good, Apply, Enabled, TimelyStep, CleanStep, Owes, RetryOwes;
    var s' := Apply(env, s, l);
    if w :| Owes(s, w, d) {
      NotSecondWrite(env, s, l, d, w);
      StillOwes(env, s, l, d, w);
    }
    if r :| RetryOwes(s, r, d) {
      NotRetryWrite(env, s, l, d, r);
      RetryStillOwes(env, s, l, d, r);
    }
    forall w | Owes(s', w, d) ensures Owes(s, w, d) {
      OwesBefore(env, s, l, d, w);
      FirstWriteElsewhere(env, s, l, d, w);
    }
  }

  lemma NotSecondWrite(env: Env, s: System, l: Label, d: Id, w: Id)
    requires Enabled(env, s, l) && Owes(s, w, d) && TargetOf(s, l) != Some(d)
    ensures !(l.FailDoc? && l.worker == w)
  {
  }

  lemma NotRetryWrite(env: Env, s: System, l: Label, d: Id, r: Id)
    requires Enabled(env, s, l) && RetryOwes(s, r, d) && TargetOf(s, l) != Some(d)
    ensures !(l.RetryDoc? && l.caller == r)
  {
  }

  lemma FirstWriteElsewhere(env: Env, s: System, l: Label, d: Id, w: Id)
    requires Enabled(env, s, l) && Owes(Apply(env, s, l), w, d) && TargetOf(s, l) != Some(d)
    ensures !(l.FailJob? && l.worker == w)
  {
    hide TablesAfter, LogAfter, ChunksAfter;
    PcMoves(env, s, l, w);
  }

  /** A worker's step on the document: a claim starts over, a failure's writes are owed and then made. */
  lemma AnsweredByWorker(env: Env, s: System, l: Label, d: Id, t: Tale)
    requires Ready(env, s, l, d, t) && CleanStep(s, l, d) && Answered(s, d, t) && ActorOf(l).Some?
    ensures Answered(Apply(env, s, l), d, TaleAfter(s, l, d, t))
  {
    hide Paired, Budgeted, Leased, Counted, Told, Apply, Enabled, RowsRight, DocPaired, LeaseHeld, HolderGranted, AttemptHeld;
    Facts(env, s, l, d, t);
    var s' := Apply(env, s, l);
    forall w | Owes(s', w, d) ensures l.FailJob? && l.worker == w {
      OwesBefore(env, s, l, d, w);
    }
    if l.FailJob? {
      NowOwes(env, s, l, d);
    } else if l.FailDoc? {
      ActorLatest(env, s, l);
      OwedBefore(env, s, l, d);
      assert Owes(s, l.worker, d);
    } else if !l.TakeClaim? {
      ActorLive(env, s, l, d);
    }
  }

  lemma ActorLive(env: Env, s: System, l: Label, d: Id)
    requires Enabled(env, s, l) && TimelyStep(s, l) && TargetOf(s, l) == Some(d) && ActorOf(l).Some? && !l.TakeClaim? && !l.FailDoc?
    ensures LiveOn(s, l.worker, d)
  {
  }

  lemma OwedBefore(env: Env, s: System, l: Label, d: Id)
    requires Enabled(env, s, l) && l.FailDoc? && TargetOf(s, l) == Some(d)
    ensures BetweenWrites(s, l.worker, d)
  {
  }

  lemma NowOwes(env: Env, s: System, l: Label, d: Id)
    requires Good(env, s) && Enabled(env, s, l) && TimelyStep(s, l) && TargetOf(s, l) == Some(d) && l.FailJob?
    ensures LiveOn(s, l.worker, d) && Owes(Apply(env, s, l), l.worker, d)
  {
    hide Good, TablesAfter, ChunksAfter, HalfAfter, RetriesAfter, ProgressRight;
    HolderOf(env, s, l.worker);
    PcMoves(env, s, l, l.worker);
  }

  lemma AnsweredByCaller(env: Env, s: System, l: Label, d: Id, t: Tale)
    requires Ready(env, s, l, d, t) && CleanStep(s, l, d) && Answered(s, d, t) && ActorOf(l).None?
    ensures Answered(Apply(env, s, l), d, TaleAfter(s, l, d, t))
  {
    hide Paired, Budgeted, Leased, Counted, Told, TablesAfter, LogAfter, ChunksAfter, HalfAfter, Latest;
    RetryIsTold(env, s, l, d, t);
    var s' := Apply(env, s, l);
    forall w | Owes(s', w, d) ensures Owes(s, w, d) && !l.Enqueue? {
      OwesBefore(env, s, l, d, w);
    }
    if l.RetryJob? {
      assert RetryOwes(s', l.caller, d);
    } else if !l.Enqueue? && !l.RetryDoc? {
      AnsweredOnDelete(env, s, l, d, t);
    }
  }

  lemma AnsweredOnDelete(env: Env, s: System, l: Label, d: Id, t: Tale)
    requires Good(env, s) && Enabled(env, s, l) && CleanStep(s, l, d) && Answered(s, d, t) && (l.DeleteChunks? || l.DeleteRow?)
    ensures (exists w :: Owes(s, w, d)) ==> exists w :: Owes(Apply(env, s, l), w, d)
    ensures (exists r :: RetryOwes(s, r, d)) ==> exists r :: RetryOwes(Apply(env, s, l), r, d)
  {
    hide Good, Apply, Enabled, CleanStep, Owes, RetryOwes;
    if w :| Owes(s, w, d) {
      StillOwes(env, s, l, d, w);
    }
    if r :| RetryOwes(s, r, d) {
      RetryStillOwes(env, s, l, d, r);
    }
  }

  lemma AnsweredStep(env: Env, s: System, l: Label, d: Id, t: Tale)
    requires Good(env, s) && Counted(env, s) && Told(env, s, d, t) && Enabled(env, s, l) && TimelyStep(s, l)
    requires CleanStep(s, l, d) && Answered(s, d, t)
    ensures Answered(Apply(env, s, l), d, TaleAfter(s, l, d, t))
  {
    hide Good, Counted, Told, Apply, Enabled, TimelyStep, CleanStep, Answered, TargetOf;
    if TargetOf(s, l) != Some(d) {
      AnsweredElsewhere(env, s, l, d, t);
    } else if ActorOf(l).Some? {
      AnsweredByWorker(env, s, l, d, t);
    } else {
      AnsweredByCaller(env, s, l, d, t);
    }
  }

  lemma {:induction false} AlwaysAnswered(env: Env, run: seq<Label>, d: Id)
    requires Legal(env, run) && Timely(env, run) && Clean(env, run, d)
    ensures Answered(After(env, run), d, TaleOf(env, run, d))
    decreases |run|
  {
    hide Apply, Told, TaleAfter, Answered, CleanStep;
    if run == [] {
      AnsweredAtStart(d);
    } else {
      var front := run[..|run| - 1];
      TimelyPrefix(env, run);
      LegalPrefix(env, run, |run| - 1);
      AlwaysAnswered(env, front, d);
      AlwaysTold(env, front, d);
      TimelyIsGood(env, front);
      TimelyIsCounted(env, front);
      AnsweredStep(env, After(env, front), run[|run| - 1], d, TaleOf(env, front, d));
    }
  }

  lemma AnsweredAtStart(d: Id)
    ensures Answered(START, d, UNTOUCHED)
  {
  }

  /**
   In timely runs whose pairs of writes on a document are not lost, cut short or interleaved, whatever
   happens to other documents: whenever no worker and no retry is between writes on it, job and
   document states match, pending/pending, running/parsing, done/ready, dead/failed.
   */
  lemma AgreementBetweenPairs(env: Env, run: seq<Label>, d: Id)
    requires Legal(env, run) && Timely(env, run) && Clean(env, run, d)
    requires
      var s := After(env, run);
      && d in s.tables.docs
      && (forall w :: !BetweenWrites(s, w, d))
      && (forall r :: r in s.retries ==> s.retries[r].docId != d)
    ensures DocHasJob(After(env, run), d) && Agrees(After(env, run), d)
  {
    hide Apply, After, Legal, Timely, Clean, Enabled, TaleOf;
    AlwaysAnswered(env, run, d);
    AgreementExactly(env, run, d);
  }
}
