/**
 What every run of the queue keeps, however late its workers write: documents and jobs
 stay paired, a pair of writes that completes leaves the two rows in agreement, attempt
 numbers only go up between revivals, and a second claim needs an expired lease or a
 write back to pending.
 */
module QueueAlways {
  import opened Basics
  import opened Keys
  import opened Rows
  import opened Queue

  // ---- documents and jobs are in bijection -------------------------------------

  /** The enqueue a document row comes from, read back from its immutable columns. */
  ghost function InputOf(s: System, d: Id): Input
    requires d in s.tables.docs && d in s.log.origin
  {
    var doc := s.tables.docs[d];
    Input(doc.kb, doc.title, doc.sourceType, doc.sourceRef, s.log.origin[d])
  }

  ghost predicate DocPaired(env: Env, s: System, d: Id) {
    d in s.tables.docs ==>
      && d in s.log.jobOf && d in s.log.origin
      && JobOfDoc(s.tables, s.log.jobOf[d], d)
      && s.tables.jobs[s.log.jobOf[d]].key == InputKey(env.sha, InputOf(s, d))
      && s.tables.docs[d].contentBytes == |s.log.origin[d]|
  }

  ghost predicate JobPaired(s: System, j: Id) {
    j in s.tables.jobs ==>
      var d := s.tables.jobs[j].docId;
      d in s.tables.docs && d in s.log.jobOf && s.log.jobOf[d] == j
  }

  ghost predicate KeyUnique(s: System, j: Id, k: Id) {
    j in s.tables.jobs && k in s.tables.jobs && s.tables.jobs[j].key == s.tables.jobs[k].key ==> j == k
  }

  /** A claim or retry call names a document and the job enqueued with it, and ids are never drawn twice. */
  ghost predicate Remembers(s: System, d: Id, j: Id) {
    d in s.log.jobOf && s.log.jobOf[d] == j
  }

  ghost predicate JobIdsApart(s: System, d: Id, e: Id) {
    d in s.log.jobOf && e in s.log.jobOf && s.log.jobOf[d] == s.log.jobOf[e] ==> d == e
  }

  ghost predicate ClaimRemembered(s: System, w: Id) {
    !PcOf(s, w).Idle? ==> Remembers(s, PcOf(s, w).c.docId, PcOf(s, w).c.jobId)
  }

  ghost predicate Paired(env: Env, s: System) {
    && (forall d :: DocPaired(env, s, d))
    && (forall j :: JobPaired(s, j))
    && (forall j, k :: KeyUnique(s, j, k))
    && (forall d :: d in s.log.jobOf ==> d in s.log.used && s.log.jobOf[d] in s.log.used)
    && (forall d, e :: JobIdsApart(s, d, e))
    && (forall w :: ClaimRemembered(s, w))
    && (forall r :: r in s.retries ==> Remembers(s, s.retries[r].docId, s.retries[r].jobId))
  }

  /** One document's, job's, worker's and retry's share of the invariant. */
  lemma PairedOf(env: Env, s: System, d: Id, j: Id, w: Id, r: Id)
    requires Paired(env, s)
    ensures DocPaired(env, s, d) && JobPaired(s, j) && ClaimRemembered(s, w)
    ensures r in s.retries ==> Remembers(s, s.retries[r].docId, s.retries[r].jobId)
  {
  }

  lemma IdsApart(env: Env, s: System, d: Id, e: Id)
    requires Paired(env, s)
    ensures JobIdsApart(s, d, e)
  {
  }

  lemma UsedIds(env: Env, s: System, d: Id)
    requires Paired(env, s) && d in s.log.jobOf
    ensures d in s.log.used && s.log.jobOf[d] in s.log.used
  {
  }

  /** Every step but an insert and a row delete only updates rows in place. */
  lemma StepKeepsRows(env: Env, s: System, l: Label)
    requires Enabled(env, s, l) && !l.Enqueue? && !l.DeleteRow?
    ensures SameRows(s.tables, TablesAfter(env, s, l))
  {
  }

  lemma StepKeepsIds(env: Env, s: System, l: Label)
    requires Enabled(env, s, l) && !l.Enqueue?
    ensures Apply(env, s, l).log.used == s.log.used
    ensures Apply(env, s, l).log.jobOf == s.log.jobOf
    ensures Apply(env, s, l).log.origin == s.log.origin
  {
    hide TablesAfter, ChunksAfter, PcAfter, PcsAfter, RetriesAfter, HalfAfter, ClaimFor;
  }

  lemma StepRemembersClaims(env: Env, s: System, l: Label, w: Id)
    requires Paired(env, s) && Enabled(env, s, l)
    ensures ClaimRemembered(Apply(env, s, l), w)
  {
    PcMoves(env, s, l, w);
    assert ClaimRemembered(s, w);
    if l.TakeClaim? {
      assert JobPaired(s, l.job);
    } else if l.Enqueue? {
      assert PcOf(s, w).Idle? || PcOf(s, w).c.docId in s.log.used;
    } else {
      StepKeepsIds(env, s, l);
    }
  }

  lemma StepKeepsJobIdsApart(env: Env, s: System, l: Label, d: Id, e: Id)
    requires Paired(env, s) && Enabled(env, s, l)
    ensures JobIdsApart(Apply(env, s, l), d, e)
  {
    assert JobIdsApart(s, d, e);
  }

  lemma StepRemembersRetries(env: Env, s: System, l: Label, r: Id)
    requires Paired(env, s) && Enabled(env, s, l)
    requires r in Apply(env, s, l).retries
    ensures Remembers(Apply(env, s, l), Apply(env, s, l).retries[r].docId, Apply(env, s, l).retries[r].jobId)
  {
    hide TablesAfter, ChunksAfter, PcAfter, PcsAfter, HalfAfter, ClaimFor, Paired;
    PairedOf(env, s, "", "", "", r);
    if !l.Enqueue? {
      StepKeepsIds(env, s, l);
    }
    if l.RetryJob? {
      assert JobOfDoc(s.tables, s.log.jobOf[l.doc], l.doc);
    } else if l.Enqueue? && r in s.retries {
      UsedIds(env, s, s.retries[r].docId);
    }
  }

  lemma EnqueuePairs(env: Env, s: System, l: Label)
    requires Paired(env, s) && Enabled(env, s, l) && l.Enqueue?
    ensures forall d :: DocPaired(env, Apply(env, s, l), d)
    ensures forall j :: JobPaired(Apply(env, s, l), j)
    ensures forall j, k :: KeyUnique(Apply(env, s, l), j, k)
  {
    var s' := Apply(env, s, l);
    forall d ensures DocPaired(env, s', d) {
      assert DocPaired(env, s, d);
      if d != l.docId && d in s.tables.docs {
        assert s.log.jobOf[d] in s.log.used;
      }
    }
    forall j ensures JobPaired(s', j) {
      assert JobPaired(s, j);
    }
    forall j, k ensures KeyUnique(s', j, k) {
      assert KeyUnique(s, j, k);
    }
  }

  lemma DeletePairs(env: Env, s: System, l: Label)
    requires Paired(env, s) && Enabled(env, s, l) && l.DeleteRow?
    ensures forall d :: DocPaired(env, Apply(env, s, l), d)
    ensures forall j :: JobPaired(Apply(env, s, l), j)
    ensures forall j, k :: KeyUnique(Apply(env, s, l), j, k)
  {
    var s' := Apply(env, s, l);
    forall d ensures DocPaired(env, s', d) {
      assert DocPaired(env, s, d);
    }
    forall j ensures JobPaired(s', j) {
      assert JobPaired(s, j);
    }
    forall j, k ensures KeyUnique(s', j, k) {
      assert KeyUnique(s, j, k);
    }
  }

  lemma UpdatePairs(env: Env, s: System, s': System)
    requires Paired(env, s) && SameRows(s.tables, s'.tables)
    requires s'.log.jobOf == s.log.jobOf && s'.log.origin == s.log.origin
    ensures forall d :: DocPaired(env, s', d)
    ensures forall j :: JobPaired(s', j)
    ensures forall j, k :: KeyUnique(s', j, k)
  {
    forall d ensures DocPaired(env, s', d) {
      assert DocPaired(env, s, d);
      if d in s.tables.docs {
        assert SameSource(s.tables.docs[d], s'.tables.docs[d]);
      }
    }
    forall j ensures JobPaired(s', j) {
      assert JobPaired(s, j);
    }
    forall j, k ensures KeyUnique(s', j, k) {
      assert KeyUnique(s, j, k);
    }
  }

  lemma PairedStep(env: Env, s: System, l: Label)
    requires Paired(env, s) && Enabled(env, s, l)
    ensures Paired(env, Apply(env, s, l))
  {
    if l.Enqueue? {
      EnqueuePairs(env, s, l);
    } else if l.DeleteRow? {
      DeletePairs(env, s, l);
    } else {
      StepKeepsRows(env, s, l);
      StepKeepsIds(env, s, l);
      UpdatePairs(env, s, Apply(env, s, l));
    }
    forall d, e ensures JobIdsApart(Apply(env, s, l), d, e) {
      StepKeepsJobIdsApart(env, s, l, d, e);
    }
    forall w {
      StepRemembersClaims(env, s, l, w);
    }
    forall r | r in Apply(env, s, l).retries {
      StepRemembersRetries(env, s, l, r);
    }
  }

  /** Documents and jobs are in bijection in every reachable state, and keys are unique. */
  lemma {:induction false} AlwaysPaired(env: Env, run: seq<Label>)
    requires Legal(env, run)
    ensures Paired(env, After(env, run))
    decreases |run|
  {
    if run != [] {
      AlwaysPaired(env, run[..|run| - 1]);
      PairedStep(env, After(env, run[..|run| - 1]), run[|run| - 1]);
    }
  }

  // ---- a completed pair of writes leaves the rows in agreement -------------------

  predicate Matches(state: JobState, status: DocStatus) {
    match state
    case JobPending => status.DocPending?
    case JobRunning => status.DocParsing?
    case JobDone => status.DocReady?
    case JobDead => status.DocFailed?
  }

  /** The job state the first half of fail wrote. */
  function FailState(env: Env, c: Claim): JobState {
    if c.attempts >= env.maxAttempts then JobDead else JobPending
  }

  ghost predicate Agrees(s: System, d: Id)
    requires DocHasJob(s, d)
  {
    Matches(s.tables.jobs[s.log.jobOf[d]].state, s.tables.docs[d].status)
  }

  ghost predicate DocHasJob(s: System, d: Id) {
    d in s.tables.docs && d in s.log.jobOf && JobOfDoc(s.tables, s.log.jobOf[d], d)
  }

  ghost predicate AgreesWhenWhole(s: System, d: Id) {
    DocHasJob(s, d) && d !in s.log.half ==> Agrees(s, d)
  }

  ghost predicate WorkerHalfDone(env: Env, s: System, w: Id) {
    var pc := PcOf(s, w);
    pc.HalfFailed? && pc.c.jobId in s.tables.jobs && Lookup(s.log.half, pc.c.docId) == Some(ByWorker(w, pc.c.serial)) ==>
      s.tables.jobs[pc.c.jobId].state == FailState(env, pc.c)
  }

  ghost predicate RetryHalfDone(s: System, r: Id) {
    r in s.retries && s.retries[r].jobId in s.tables.jobs
    && Lookup(s.log.half, s.retries[r].docId) == Some(ByRetry(r)) ==>
      s.tables.jobs[s.retries[r].jobId].state == JobPending
  }

  ghost predicate HalvesTracked(env: Env, s: System) {
    && (forall d :: AgreesWhenWhole(s, d))
    && (forall w :: WorkerHalfDone(env, s, w))
    && (forall r :: RetryHalfDone(s, r))
  }

  /** The document whose rows, chunks or marks the step may touch. */
  function TargetOf(s: System, l: Label): Option<Id> {
    if l.Enqueue? then Some(l.docId)
    else if l.TakeClaim? then if l.job in s.tables.jobs then Some(s.tables.jobs[l.job].docId) else None
    else if l.RetryJob? || l.DeleteChunks? || l.DeleteRow? then Some(l.doc)
    else if l.RetryDoc? then if l.caller in s.retries then Some(s.retries[l.caller].docId) else None
    else if l.Crash? || l.Tick? || PcOf(s, l.worker).Idle? then None
    else Some(PcOf(s, l.worker).c.docId)
  }

  function Actor(l: Label): Id {
    if ActorOf(l).Some? then l.worker else ""
  }

  /** A step leaves the rows and marks of every other document alone. */
  lemma OtherDocUntouched(env: Env, s: System, l: Label, d: Id)
    requires Enabled(env, s, l) && TargetOf(s, l) != Some(d)
    ensures Lookup(TablesAfter(env, s, l).docs, d) == Lookup(s.tables.docs, d)
    ensures Lookup(LogAfter(env, s, l).jobOf, d) == Lookup(s.log.jobOf, d)
  {
    hide HalfAfter, SetJobPhase, MarkDone, FailJobTables, ReviveJob, SameRows, Claimable;
  }

  lemma OtherMarkUntouched(env: Env, s: System, l: Label, d: Id)
    requires Enabled(env, s, l) && TargetOf(s, l) != Some(d)
    ensures Lookup(HalfAfter(env, s, l), d) == Lookup(s.log.half, d)
  {
  }

  /** The job row a step writes by its id. */
  function JobWritten(s: System, l: Label): Option<Id> {
    if l.Enqueue? then Some(l.jobId)
    else if l.TakeClaim? then Some(l.job)
    else if l.RetryJob? then Lookup(s.log.jobOf, l.doc)
    else if (l.PhaseJob? || l.CommitOk? || l.FailJob?) && !PcOf(s, l.worker).Idle? then Some(PcOf(s, l.worker).c.jobId)
    else None
  }

  /** Other job rows stand, unless their document is deleted. */
  lemma UnwrittenJob(env: Env, s: System, l: Label, j: Id)
    requires Enabled(env, s, l) && JobWritten(s, l) != Some(j)
    requires l.DeleteRow? && j in s.tables.jobs ==> s.tables.jobs[j].docId != l.doc
    ensures Lookup(TablesAfter(env, s, l).jobs, j) == Lookup(s.tables.jobs, j)
  {
    hide SetDocPhase, MarkReady, FailDocTables, ReviveDoc, Backoff64, SameRows, Claimable;
  }

  /** The step's job, where it writes one, is the one enqueued with its document. */
  lemma JobWrittenIsTargets(env: Env, s: System, l: Label, d: Id)
    requires Paired(env, s) && Enabled(env, s, l) && JobWritten(s, l).Some?
    ensures l.Enqueue? ==> JobWritten(s, l).value !in s.log.used
    ensures !l.Enqueue? ==>
      TargetOf(s, l).Some? && TargetOf(s, l).value in s.log.jobOf && JobWritten(s, l).value == s.log.jobOf[TargetOf(s, l).value]
  {
    hide Paired;
    if l.TakeClaim? {
      PairedOf(env, s, "", l.job, "", "");
    } else if ActorOf(l).Some? {
      PairedOf(env, s, "", "", l.worker, "");
    }
  }

  lemma OtherJobUntouched(env: Env, s: System, l: Label, d: Id)
    requires Paired(env, s) && Enabled(env, s, l) && TargetOf(s, l) != Some(d)
    requires d in s.log.jobOf
    ensures Lookup(TablesAfter(env, s, l).jobs, s.log.jobOf[d]) == Lookup(s.tables.jobs, s.log.jobOf[d])
  {
    hide Paired, Enabled, TablesAfter;
    var j := s.log.jobOf[d];
    PairedOf(env, s, d, j, "", "");
    UsedIds(env, s, d);
    if j in s.tables.jobs {
      IdsApart(env, s, d, s.tables.jobs[j].docId);
    }
    if JobWritten(s, l).Some? {
      JobWrittenIsTargets(env, s, l, d);
      if TargetOf(s, l).Some? {
        IdsApart(env, s, d, TargetOf(s, l).value);
      }
    }
    UnwrittenJob(env, s, l, j);
  }

  lemma AgreementElsewhere(env: Env, s: System, l: Label, d: Id)
    requires Paired(env, s) && AgreesWhenWhole(s, d) && Enabled(env, s, l) && TargetOf(s, l) != Some(d)
    ensures AgreesWhenWhole(Apply(env, s, l), d)
  {
    if d in s.log.jobOf {
      OtherJobUntouched(env, s, l, d);
    }
    OtherDocUntouched(env, s, l, d);
    OtherMarkUntouched(env, s, l, d);
    var s' := Apply(env, s, l);
    if DocHasJob(s', d) && d !in s'.log.half {
      assert DocHasJob(s, d) && d !in s.log.half;
    }
  }

  /** One document's, worker's and retry's share of the tracking. */
  lemma TrackedOf(env: Env, s: System, d: Id, w: Id, r: Id)
    requires HalvesTracked(env, s)
    ensures AgreesWhenWhole(s, d) && WorkerHalfDone(env, s, w) && RetryHalfDone(s, r)
  {
  }

  /** Claims and commits write both rows. */
  lemma AgreementOfBoth(env: Env, s: System, l: Label, d: Id)
    requires Paired(env, s) && Enabled(env, s, l) && TargetOf(s, l) == Some(d) && (l.TakeClaim? || l.CommitOk?)
    ensures AgreesWhenWhole(Apply(env, s, l), d)
  {
    hide Paired, Extract, KeyTaken, Checksum, ChunksAfter, RetriesAfter;
    PairedOf(env, s, d, if l.TakeClaim? then l.job else "", l.worker, "");
    StepKeepsIds(env, s, l);
  }

  /** fail writes them one by one. */
  lemma AgreementOfFailure(env: Env, s: System, l: Label, d: Id)
    requires Paired(env, s) && HalvesTracked(env, s) && Enabled(env, s, l)
    requires TargetOf(s, l) == Some(d) && (l.FailJob? || l.FailDoc?)
    ensures AgreesWhenWhole(Apply(env, s, l), d)
  {
    hide Paired, HalvesTracked;
    PairedOf(env, s, d, "", l.worker, "");
    TrackedOf(env, s, d, l.worker, "");
    StepKeepsIds(env, s, l);
  }

  /** The worker's other steps write no state. */
  lemma AgreementOfRest(env: Env, s: System, l: Label, d: Id)
    requires AgreesWhenWhole(s, d) && Enabled(env, s, l) && TargetOf(s, l) == Some(d) && ActorOf(l).Some?
    requires !l.TakeClaim? && !l.CommitOk? && !l.FailJob? && !l.FailDoc?
    ensures AgreesWhenWhole(Apply(env, s, l), d)
  {
    StepKeepsIds(env, s, l);
  }

  lemma AgreementOfWorker(env: Env, s: System, l: Label, d: Id)
    requires Paired(env, s) && HalvesTracked(env, s) && Enabled(env, s, l)
    requires TargetOf(s, l) == Some(d) && ActorOf(l).Some?
    ensures AgreesWhenWhole(Apply(env, s, l), d)
  {
    hide Paired, HalvesTracked, Enabled, Apply, AgreesWhenWhole;
    TrackedOf(env, s, d, "", "");
    if l.TakeClaim? || l.CommitOk? {
      AgreementOfBoth(env, s, l, d);
    } else if l.FailJob? || l.FailDoc? {
      AgreementOfFailure(env, s, l, d);
    } else {
      AgreementOfRest(env, s, l, d);
    }
  }

  lemma AgreementOfCaller(env: Env, s: System, l: Label, d: Id)
    requires Paired(env, s) && HalvesTracked(env, s) && Enabled(env, s, l)
    requires TargetOf(s, l) == Some(d) && ActorOf(l).None?
    ensures AgreesWhenWhole(Apply(env, s, l), d)
  {
    hide Paired, HalvesTracked, Extract, Checksum, ChunksAfter, PcAfter;
    var caller := if l.RetryDoc? then l.caller else "";
    PairedOf(env, s, d, "", "", caller);
    TrackedOf(env, s, d, "", caller);
  }

  lemma WorkerHalfElsewhere(env: Env, s: System, l: Label, w: Id)
    requires Paired(env, s) && WorkerHalfDone(env, s, w) && Enabled(env, s, l)
    requires PcOf(s, w).HalfFailed? && ActorOf(l) != Some(w)
    ensures WorkerHalfDone(env, Apply(env, s, l), w)
  {
    hide Paired, TablesAfter, HalfAfter, ChunksAfter, RetriesAfter, PcAfter, Enabled, TargetOf;
    PcMoves(env, s, l, w);
    PairedOf(env, s, "", "", w, "");
    var c := PcOf(s, w).c;
    UsedIds(env, s, c.docId);
    if TargetOf(s, l) != Some(c.docId) {
      OtherJobUntouched(env, s, l, c.docId);
      OtherMarkUntouched(env, s, l, c.docId);
    } else {
      NotEnqueuedAgain(env, s, l, c.docId);
      TouchedMark(env, s, l, c.docId);
      NoNewJobs(env, s, l, c.jobId);
    }
  }

  lemma NotEnqueuedAgain(env: Env, s: System, l: Label, d: Id)
    requires Enabled(env, s, l) && d in s.log.used && TargetOf(s, l) == Some(d)
    ensures !l.Enqueue?
  {
  }

  lemma NoNewJobs(env: Env, s: System, l: Label, j: Id)
    requires Enabled(env, s, l) && !l.Enqueue?
    ensures j in TablesAfter(env, s, l).jobs ==> j in s.tables.jobs
  {
    if !l.DeleteRow? {
      hide TablesAfter;
      StepKeepsRows(env, s, l);
    }
  }

  /** A step that changes the state of its document's job also replaces the document's mark. */
  lemma TouchedMark(env: Env, s: System, l: Label, d: Id)
    requires Paired(env, s) && Enabled(env, s, l) && TargetOf(s, l) == Some(d) && !l.Enqueue?
    ensures
      || Lookup(HalfAfter(env, s, l), d) in {None, Some(Stray)}
      || (l.FailJob? && Lookup(HalfAfter(env, s, l), d) == Some(ByWorker(l.worker, PcOf(s, l.worker).c.serial)))
      || (l.RetryJob? && Lookup(HalfAfter(env, s, l), d) == Some(ByRetry(l.caller)))
      || (Lookup(HalfAfter(env, s, l), d) == Lookup(s.log.half, d)
          && forall j :: j in s.tables.jobs && j in TablesAfter(env, s, l).jobs ==>
               TablesAfter(env, s, l).jobs[j].state == s.tables.jobs[j].state)
  {
  }

  lemma WorkerHalfStep(env: Env, s: System, l: Label, w: Id)
    requires Paired(env, s) && HalvesTracked(env, s) && Enabled(env, s, l)
    ensures WorkerHalfDone(env, Apply(env, s, l), w)
  {
    hide Paired, HalvesTracked;
    PairedOf(env, s, "", "", w, "");
    TrackedOf(env, s, "", w, "");
    PcMoves(env, s, l, w);
    if PcOf(s, w).HalfFailed? && ActorOf(l) != Some(w) {
      WorkerHalfElsewhere(env, s, l, w);
    }
  }

  lemma RetryHalfStep(env: Env, s: System, l: Label, r: Id)
    requires Paired(env, s) && HalvesTracked(env, s) && Enabled(env, s, l)
    ensures RetryHalfDone(Apply(env, s, l), r)
  {
    hide Paired, HalvesTracked;
    PairedOf(env, s, "", "", Actor(l), r);
    TrackedOf(env, s, "", "", r);
    var s' := Apply(env, s, l);
    if r in s.retries && r in s'.retries {
      var call := s.retries[r];
      if TargetOf(s, l) != Some(call.docId) {
        OtherJobUntouched(env, s, l, call.docId);
        OtherMarkUntouched(env, s, l, call.docId);
      } else if l.Enqueue? {
        UsedIds(env, s, call.docId);
      } else {
        TouchedMark(env, s, l, call.docId);
      }
    }
  }

  lemma HalvesStep(env: Env, s: System, l: Label)
    requires Paired(env, s) && HalvesTracked(env, s) && Enabled(env, s, l)
    ensures HalvesTracked(env, Apply(env, s, l))
  {
    forall d ensures AgreesWhenWhole(Apply(env, s, l), d) {
      if TargetOf(s, l) != Some(d) {
        AgreementElsewhere(env, s, l, d);
      } else if ActorOf(l).Some? {
        AgreementOfWorker(env, s, l, d);
      } else {
        AgreementOfCaller(env, s, l, d);
      }
    }
    forall w {
      WorkerHalfStep(env, s, l, w);
    }
    forall r {
      RetryHalfStep(env, s, l, r);
    }
  }

  lemma {:induction false} AlwaysTracked(env: Env, run: seq<Label>)
    requires Legal(env, run)
    ensures HalvesTracked(env, After(env, run))
    decreases |run|
  {
    if run != [] {
      var front := run[..|run| - 1];
      AlwaysTracked(env, front);
      AlwaysPaired(env, front);
      HalvesStep(env, After(env, front), run[|run| - 1]);
    }
  }

  /**
   In every run, and whoever writes late: a document exists exactly when its job does, the
   job's key is that of the enqueued input, and once the latest pair of writes on the two
   rows is complete their states agree.
   */
  lemma DocumentJobAgreement(env: Env, run: seq<Label>, d: Id)
    requires Legal(env, run)
    requires d in After(env, run).tables.docs
    ensures DocHasJob(After(env, run), d)
    ensures d !in After(env, run).log.half ==> Agrees(After(env, run), d)
  {
    AlwaysPaired(env, run);
    AlwaysTracked(env, run);
    assert DocPaired(env, After(env, run), d);
    assert AgreesWhenWhole(After(env, run), d);
  }

  /** Parsing fails for no text: a worker that fails on a text document failed in its import. */
  lemma TextsAlwaysParse(env: Env, run: seq<Label>, n: nat)
    requires Legal(env, run) && n < |run| && run[n].ParseErr?
    ensures
      var pc := PcOf(StateAt(env, run, n), run[n].worker);
      pc.Loaded? && !pc.c.sourceType.Markdown? && !pc.c.sourceType.Txt? && !pc.c.sourceType.Paste?
  {
  }
}
