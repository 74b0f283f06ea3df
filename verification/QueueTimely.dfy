/**
 What the lease buys.  A run is timely when every worker step on a claim happens before that
 claim's lease ends, the second write of a pair lands before the job is claimed again, and no
 delete overlaps a live claim.  Crashes may come anywhere.  In timely runs a job has at most
 one live holder, a document's content survives until its job is done, and a ready document's
 chunks are those of its enqueued bytes.
 */
module QueueTimely {
  import opened Basics
  import opened Keys
  import opened Rows
  import opened Queue
  import opened QueueAlways
  import opened QueueBudget

  /** The worker owes an outcome and its lease has not ended. */
  ghost predicate Live(s: System, w: Id) {
    Holds(PcOf(s, w)) && s.now <= PcOf(s, w).c.leaseEnd
  }

  ghost predicate LiveOn(s: System, w: Id, d: Id) {
    Live(s, w) && PcOf(s, w).c.docId == d
  }

  /** The pc's claim still has its lease. */
  ghost predicate OnTime(s: System, actor: Option<Id>) {
    match actor
    case None => true
    case Some(w) => !PcOf(s, w).Idle? && s.now <= PcOf(s, w).c.leaseEnd
  }

  ghost predicate TimelyStep(s: System, l: Label) {
    if l.TakeClaim? then l.job in s.tables.jobs && s.tables.jobs[l.job].docId !in s.log.deleting
    else if l.FailDoc? then
      OnTime(s, Some(l.worker)) && Lookup(s.log.last, PcOf(s, l.worker).c.jobId) == Some(PcOf(s, l.worker).c.serial)
    else if l.RetryDoc? then
      l.caller in s.retries && Lookup(s.log.last, s.retries[l.caller].jobId) == s.retries[l.caller].lastSerial
    else if l.DeleteChunks? then forall w :: !LiveOn(s, w, l.doc)
    else l.Crash? || OnTime(s, ActorOf(l))
  }

  ghost predicate Timely(env: Env, run: seq<Label>)
    requires Legal(env, run)
  {
    forall n :: 0 <= n < |run| ==> TimelyStep(StateAt(env, run, n), run[n])
  }

  // ---- the invariant ---------------------------------------------------------------

  /** The bytes the document's latest content read returned: none after a failed read. */
  ghost function Fed(s: System, d: Id): Bytes
    requires d in s.log.origin
  {
    if d in s.log.misread then "" else s.log.origin[d]
  }

  ghost predicate LeaseHeld(s: System, w: Id) {
    Live(s, w) ==>
      var c := PcOf(s, w).c;
      && c.jobId in s.tables.jobs && c.docId in s.tables.docs && c.docId !in s.log.deleting
      && s.tables.jobs[c.jobId].state == JobRunning
      && s.tables.jobs[c.jobId].lockedUntil == Some(c.leaseEnd)
      && s.tables.jobs[c.jobId].lockedBy == w
      && Lookup(s.log.last, c.jobId) == Some(c.serial)
      && s.tables.docs[c.docId].status == DocParsing
      && s.tables.docs[c.docId].kb == c.kb
      && s.tables.docs[c.docId].sourceType == c.sourceType
  }

  /** The text comes from the bytes read. */
  ghost predicate TextOf(env: Env, s: System, c: Claim, text: string) {
    c.docId in s.log.origin && (!c.sourceType.Url? ==> Extract(env, c.sourceType, Fed(s, c.docId)) == Some(text))
  }

  ghost predicate ProgressRight(env: Env, s: System, w: Id) {
    Live(s, w) ==>
      match PcOf(s, w)
      case Loaded(c, raw) => c.docId in s.log.origin && raw == Fed(s, c.docId)
      case Parsed(c, text) => TextOf(env, s, c, text)
      case DocPhased(c, text) => TextOf(env, s, c, text)
      case Indexing(c, text) => TextOf(env, s, c, text)
      case Imported(c, text, _) =>
        TextOf(env, s, c, text) && ChunksOf(s.chunks, Namespace(c.kb), c.docId) == env.split(text)
      case _ => true
  }

  /** The document's chunks and checksum are those of `raw`. */
  ghost predicate IndexedFrom(env: Env, s: System, d: Id, raw: Bytes)
    requires d in s.tables.docs
  {
    var doc := s.tables.docs[d];
    var text := Extract(env, doc.sourceType, raw);
    && text.Some?
    && ChunksOf(s.chunks, Namespace(doc.kb), d) == env.split(text.value)
    && doc.checksum == Checksum(env.sha, text.value)
  }

  ghost predicate ContentKept(s: System, d: Id) {
    DocHasJob(s, d) && d in s.log.origin && !s.tables.jobs[s.log.jobOf[d]].state.JobDone? ==>
      s.tables.docs[d].content == Some(s.log.origin[d])
  }

  ghost predicate ReadyIsDone(s: System, d: Id) {
    DocHasJob(s, d) && s.tables.docs[d].status.DocReady? ==> s.tables.jobs[s.log.jobOf[d]].state.JobDone?
  }

  ghost predicate ReadyIsIndexed(env: Env, s: System, d: Id) {
    d in s.tables.docs && d in s.log.origin && s.tables.docs[d].status.DocReady?
    && !s.tables.docs[d].sourceType.Url? ==>
      ChecksumFrom(env, s, d, Fed(s, d)) && (d !in s.log.deleting ==> IndexedFrom(env, s, d, Fed(s, d)))
  }

  ghost predicate ChecksumFrom(env: Env, s: System, d: Id, raw: Bytes)
    requires d in s.tables.docs
  {
    var text := Extract(env, s.tables.docs[d].sourceType, raw);
    text.Some? && s.tables.docs[d].checksum == Checksum(env.sha, text.value)
  }

  /** A retry whose job has not been claimed since its first write still finds the job pending. */
  ghost predicate RetryCurrent(s: System, r: Id) {
    r in s.retries && s.retries[r].jobId in s.tables.jobs
    && Lookup(s.log.last, s.retries[r].jobId) == s.retries[r].lastSerial ==>
      s.tables.jobs[s.retries[r].jobId].state == JobPending
  }

  ghost predicate Leased(env: Env, s: System) {
    && (forall w :: LeaseHeld(s, w))
    && (forall w :: ProgressRight(env, s, w))
    && (forall d :: ContentKept(s, d))
    && (forall d :: ReadyIsDone(s, d))
    && (forall d :: ReadyIsIndexed(env, s, d))
    && (forall r :: RetryCurrent(s, r))
  }

  // ---- nobody else touches the document of a live claim ----------------------------

  lemma OneHolder(env: Env, s: System, v: Id, w: Id)
    requires Leased(env, s) && Live(s, v) && Live(s, w) && PcOf(s, v).c.jobId == PcOf(s, w).c.jobId
    ensures v == w
  {
    assert LeaseHeld(s, v) && LeaseHeld(s, w);
  }

  lemma WorkersApart(env: Env, s: System, l: Label, w: Id)
    requires Paired(env, s) && Budgeted(env, s) && Leased(env, s)
    requires Enabled(env, s, l) && TimelyStep(s, l)
    requires Live(s, w) && ActorOf(l).Some? && ActorOf(l) != Some(w) && !l.TakeClaim? && !l.Crash?
    ensures PcOf(s, ActorOf(l).value).c.docId != PcOf(s, w).c.docId
  {
    var v := ActorOf(l).value;
    assert LeaseHeld(s, w) && LeaseHeld(s, v);
    assert ClaimRemembered(s, w) && ClaimRemembered(s, v);
    assert HolderGranted(s, w) && HolderGranted(s, v);
  }

  lemma CallerFacts(env: Env, s: System, l: Label, w: Id)
    requires Paired(env, s) && Leased(env, s)
    ensures LeaseHeld(s, w) && ClaimRemembered(s, w)
    ensures !PcOf(s, w).Idle? ==> DocPaired(env, s, PcOf(s, w).c.docId)
    ensures l.RetryDoc? ==> RetryCurrent(s, l.caller)
    ensures l.RetryDoc? && l.caller in s.retries ==> Remembers(s, s.retries[l.caller].docId, s.retries[l.caller].jobId)
    ensures !PcOf(s, w).Idle? ==> PcOf(s, w).c.docId in s.log.used
  {
    assert ClaimRemembered(s, w);
  }

  lemma CallersStayAway(env: Env, s: System, l: Label, w: Id)
    requires Paired(env, s) && Leased(env, s)
    requires Enabled(env, s, l) && TimelyStep(s, l)
    requires Live(s, w) && ActorOf(l).None?
    ensures TargetOf(s, l) != Some(PcOf(s, w).c.docId)
  {
    hide Paired, Leased;
    CallerFacts(env, s, l, w);
    assert l.DeleteChunks? ==> !LiveOn(s, w, l.doc);
  }

  lemma OthersStayAway(env: Env, s: System, l: Label, w: Id)
    requires Paired(env, s) && Budgeted(env, s) && Leased(env, s)
    requires Enabled(env, s, l) && TimelyStep(s, l)
    requires Live(s, w) && ActorOf(l) != Some(w)
    ensures TargetOf(s, l) != Some(PcOf(s, w).c.docId)
  {
    if ActorOf(l).None? {
      CallersStayAway(env, s, l, w);
    } else if l.TakeClaim? {
      assert LeaseHeld(s, w) && ClaimRemembered(s, w) && JobPaired(s, l.job);
    } else if !l.Crash? {
      WorkersApart(env, s, l, w);
    }
  }

  // ---- a step and the documents it does not touch ---------------------------------

  lemma OtherChunksUntouched(env: Env, s: System, l: Label, d: Id, namespace: string)
    requires Enabled(env, s, l) && TargetOf(s, l) != Some(d)
    ensures ChunksOf(ChunksAfter(env, s, l), namespace, d) == ChunksOf(s.chunks, namespace, d)
  {
    match l
    case ImportOk(w, _) =>
      var pc := PcOf(s, w);
      ReplaceSourceExact(s.chunks, Namespace(pc.c.kb), pc.c.docId, env.split(pc.text), namespace, d);
    case ImportErr(w, debris, _) =>
      var c := PcOf(s, w).c;
      ReplaceSourceExact(s.chunks, Namespace(c.kb), c.docId, debris, namespace, d);
    case DeleteChunks(e, kb) => ChunksOfWithout(s.chunks, Namespace(kb), e, namespace, d);
    case _ =>
  }

  lemma OtherLogUntouched(env: Env, s: System, l: Label, d: Id)
    requires Enabled(env, s, l) && TargetOf(s, l) != Some(d)
    ensures d in LogAfter(env, s, l).misread <==> d in s.log.misread
    ensures d in LogAfter(env, s, l).deleting <==> d in s.log.deleting
    ensures Lookup(LogAfter(env, s, l).origin, d) == Lookup(s.log.origin, d)
  {
  }

  lemma OtherLastUntouched(env: Env, s: System, l: Label, d: Id)
    requires Paired(env, s) && Enabled(env, s, l) && TargetOf(s, l) != Some(d) && d in s.log.jobOf
    ensures Lookup(LogAfter(env, s, l).last, s.log.jobOf[d]) == Lookup(s.log.last, s.log.jobOf[d])
  {
    if l.TakeClaim? {
      assert JobPaired(s, l.job) && JobIdsApart(s, d, s.tables.jobs[l.job].docId);
    }
  }

  // ---- each conjunct survives a timely step ----------------------------------------

  ghost predicate Good(env: Env, s: System) {
    Paired(env, s) && Budgeted(env, s) && Leased(env, s)
  }

  /** A worker's, a document's and a retry's share of the invariant. */
  lemma HolderOf(env: Env, s: System, w: Id)
    requires Good(env, s)
    ensures LeaseHeld(s, w) && ProgressRight(env, s, w) && ClaimRemembered(s, w) && HolderGranted(s, w)
  {
  }

  lemma DocOf(env: Env, s: System, d: Id)
    requires Good(env, s)
    ensures DocPaired(env, s, d) && ContentKept(s, d) && ReadyIsDone(s, d) && ReadyIsIndexed(env, s, d)
  {
  }

  lemma RetryOf(env: Env, s: System, r: Id)
    requires Good(env, s)
    ensures RetryCurrent(s, r) && RetryPast(s, r)
    ensures r in s.retries ==> Remembers(s, s.retries[r].docId, s.retries[r].jobId)
  {
  }

  lemma JobOf(env: Env, s: System, j: Id)
    requires Good(env, s)
    ensures JobPaired(s, j) && LastPast(s, j)
  {
  }

  lemma BystanderStep(env: Env, s: System, l: Label, w: Id)
    requires Good(env, s) && Enabled(env, s, l) && TimelyStep(s, l) && ActorOf(l) != Some(w)
    ensures LeaseHeld(Apply(env, s, l), w)
    ensures ProgressRight(env, Apply(env, s, l), w)
  {
    var s' := Apply(env, s, l);
    PcMoves(env, s, l, w);
    if Live(s', w) {
      var c := PcOf(s, w).c;
      assert Live(s, w) && LeaseHeld(s, w) && ProgressRight(env, s, w) && ClaimRemembered(s, w);
      OthersStayAway(env, s, l, w);
      OtherDocUntouched(env, s, l, c.docId);
      OtherJobUntouched(env, s, l, c.docId);
      OtherLogUntouched(env, s, l, c.docId);
      OtherLastUntouched(env, s, l, c.docId);
      OtherChunksUntouched(env, s, l, c.docId, Namespace(c.kb));
      BystanderKeeps(env, s, s', w);
    }
  }

  lemma BystanderKeeps(env: Env, s: System, s': System, w: Id)
    requires Live(s, w) && Live(s', w) && PcOf(s', w) == PcOf(s, w)
    requires LeaseHeld(s, w) && ProgressRight(env, s, w)
    requires
      var c := PcOf(s, w).c;
      && Lookup(s'.tables.docs, c.docId) == Lookup(s.tables.docs, c.docId)
      && Lookup(s'.tables.jobs, c.jobId) == Lookup(s.tables.jobs, c.jobId)
      && (c.docId in s'.log.misread <==> c.docId in s.log.misread)
      && (c.docId in s'.log.deleting <==> c.docId in s.log.deleting)
      && Lookup(s'.log.origin, c.docId) == Lookup(s.log.origin, c.docId)
      && Lookup(s'.log.last, c.jobId) == Lookup(s.log.last, c.jobId)
      && ChunksOf(s'.chunks, Namespace(c.kb), c.docId) == ChunksOf(s.chunks, Namespace(c.kb), c.docId)
    ensures LeaseHeld(s', w) && ProgressRight(env, s', w)
  {
  }

  lemma ClaimantLeased(env: Env, s: System, l: Label)
    requires Good(env, s) && Enabled(env, s, l) && TimelyStep(s, l) && l.TakeClaim?
    ensures LeaseHeld(Apply(env, s, l), l.worker)
    ensures ProgressRight(env, Apply(env, s, l), l.worker)
  {
    hide Good, ChunksAfter, HalfAfter, RetriesAfter;
    JobOf(env, s, l.job);
  }

  lemma HolderLeased(env: Env, s: System, l: Label, w: Id)
    requires Good(env, s) && Enabled(env, s, l) && TimelyStep(s, l) && ActorOf(l) == Some(w) && !l.TakeClaim?
    ensures LeaseHeld(Apply(env, s, l), w)
  {
    PcMoves(env, s, l, w);
    assert LeaseHeld(s, w);
  }

  /** loadRaw reads the bytes the document was enqueued with. */
  lemma ReadProgress(env: Env, s: System, l: Label)
    requires Good(env, s) && Enabled(env, s, l) && TimelyStep(s, l) && l.LoadRaw?
    ensures ProgressRight(env, Apply(env, s, l), l.worker)
  {
    hide Good, TablesAfter, ChunksAfter, HalfAfter, RetriesAfter;
    HolderOf(env, s, l.worker);
    DocOf(env, s, PcOf(s, l.worker).c.docId);
  }

  lemma ImportProgress(env: Env, s: System, l: Label)
    requires l.ImportOk? && ProgressRight(env, s, l.worker) && Enabled(env, s, l) && TimelyStep(s, l)
    ensures ProgressRight(env, Apply(env, s, l), l.worker)
  {
    hide TablesAfter, HalfAfter, RetriesAfter, ReplaceSource, ChunksOf;
    var pc := PcOf(s, l.worker);
    ReplaceSourceExact(s.chunks, Namespace(pc.c.kb), pc.c.docId, env.split(pc.text), Namespace(pc.c.kb), pc.c.docId);
  }

  lemma OtherProgress(env: Env, s: System, l: Label, w: Id)
    requires ProgressRight(env, s, w) && LeaseHeld(s, w) && Enabled(env, s, l) && TimelyStep(s, l) && ActorOf(l) == Some(w)
    requires !l.TakeClaim? && !l.LoadRaw? && !l.ImportOk?
    ensures ProgressRight(env, Apply(env, s, l), w)
  {
    hide TablesAfter, HalfAfter, RetriesAfter, ReplaceSource, ChunksOf;
    PcMoves(env, s, l, w);
  }

  lemma HolderProgress(env: Env, s: System, l: Label, w: Id)
    requires Good(env, s) && Enabled(env, s, l) && TimelyStep(s, l) && ActorOf(l) == Some(w) && !l.TakeClaim?
    ensures ProgressRight(env, Apply(env, s, l), w)
  {
    hide Good, Apply, Enabled, TimelyStep, ProgressRight, LeaseHeld, ClaimRemembered, HolderGranted;
    HolderOf(env, s, w);
    if l.LoadRaw? {
      ReadProgress(env, s, l);
    } else if l.ImportOk? {
      ImportProgress(env, s, l);
    } else {
      OtherProgress(env, s, l, w);
    }
  }

  lemma DocElsewhere(env: Env, s: System, l: Label, d: Id)
    requires Good(env, s) && Enabled(env, s, l) && TargetOf(s, l) != Some(d)
    ensures ContentKept(Apply(env, s, l), d)
    ensures ReadyIsDone(Apply(env, s, l), d)
    ensures ReadyIsIndexed(env, Apply(env, s, l), d)
  {
    assert ContentKept(s, d) && ReadyIsDone(s, d) && ReadyIsIndexed(env, s, d) && DocPaired(env, s, d);
    OtherDocUntouched(env, s, l, d);
    OtherLogUntouched(env, s, l, d);
    if d in s.log.jobOf {
      OtherJobUntouched(env, s, l, d);
    }
    if d in s.tables.docs {
      OtherChunksUntouched(env, s, l, d, Namespace(s.tables.docs[d].kb));
    }
    DocKept(env, s, Apply(env, s, l), d);
  }

  lemma DocKept(env: Env, s: System, s': System, d: Id)
    requires ContentKept(s, d) && ReadyIsDone(s, d) && ReadyIsIndexed(env, s, d)
    requires Lookup(s'.tables.docs, d) == Lookup(s.tables.docs, d)
    requires Lookup(s'.log.jobOf, d) == Lookup(s.log.jobOf, d)
    requires Lookup(s'.log.origin, d) == Lookup(s.log.origin, d)
    requires d in s'.log.misread <==> d in s.log.misread
    requires d in s'.log.deleting <==> d in s.log.deleting
    requires d in s.tables.docs ==> d in s.log.jobOf
    requires d in s.log.jobOf ==> Lookup(s'.tables.jobs, s.log.jobOf[d]) == Lookup(s.tables.jobs, s.log.jobOf[d])
    requires d in s.tables.docs ==>
      ChunksOf(s'.chunks, Namespace(s.tables.docs[d].kb), d) == ChunksOf(s.chunks, Namespace(s.tables.docs[d].kb), d)
    ensures ContentKept(s', d) && ReadyIsDone(s', d) && ReadyIsIndexed(env, s', d)
  {
  }

  lemma HolderLeavesDoc(env: Env, s: System, l: Label, d: Id)
    requires Enabled(env, s, l) && ActorOf(l).Some? && !l.FailDoc? && !l.CommitOk? && !l.TakeClaim? && d in s.tables.docs
    ensures d in TablesAfter(env, s, l).docs
    ensures
      var before, after := s.tables.docs[d], TablesAfter(env, s, l).docs[d];
      after.status == before.status && after.content == before.content
  {
    hide SetJobPhase, FailJobTables, SameRows, Extract;
  }

  /** Steps of a worker between its claim and its commit never meet a ready document. */
  lemma DocOfHolder(env: Env, s: System, l: Label, d: Id)
    requires Good(env, s) && Enabled(env, s, l) && TargetOf(s, l) == Some(d)
    requires ActorOf(l).Some? && Live(s, ActorOf(l).value) && !l.CommitOk? && !l.TakeClaim?
    ensures ContentKept(Apply(env, s, l), d)
    ensures d in Apply(env, s, l).tables.docs && Apply(env, s, l).tables.docs[d].status == DocParsing
  {
    hide Good, TablesAfter, LogAfter, ChunksAfter, RetriesAfter, ProgressRight, HolderGranted, ReadyIsIndexed, ReadyIsDone;
    DocOf(env, s, d);
    HolderOf(env, s, l.worker);
    HolderLeavesDoc(env, s, l, d);
    StepKeepsIds(env, s, l);
  }

  lemma DocOfFailure(env: Env, s: System, l: Label, d: Id)
    requires Good(env, s) && Enabled(env, s, l) && TargetOf(s, l) == Some(d) && l.FailDoc?
    ensures ContentKept(Apply(env, s, l), d)
    ensures ReadyIsDone(Apply(env, s, l), d)
    ensures ReadyIsIndexed(env, Apply(env, s, l), d)
  {
    hide Good, HalfAfter, RetriesAfter, PcAfter, ChunksOf;
    DocOf(env, s, d);
    StepKeepsIds(env, s, l);
  }

  lemma DocOfWorker(env: Env, s: System, l: Label, d: Id)
    requires Good(env, s) && Enabled(env, s, l) && TimelyStep(s, l)
    requires TargetOf(s, l) == Some(d) && ActorOf(l).Some? && !l.CommitOk? && !l.TakeClaim?
    ensures ContentKept(Apply(env, s, l), d)
    ensures ReadyIsDone(Apply(env, s, l), d)
    ensures ReadyIsIndexed(env, Apply(env, s, l), d)
  {
    hide Apply, ContentKept;
    if l.FailDoc? {
      DocOfFailure(env, s, l, d);
    } else {
      DocOfHolder(env, s, l, d);
    }
  }

  lemma DocOfClaim(env: Env, s: System, l: Label, d: Id)
    requires Good(env, s) && Enabled(env, s, l) && TargetOf(s, l) == Some(d) && l.TakeClaim?
    ensures ContentKept(Apply(env, s, l), d)
    ensures ReadyIsDone(Apply(env, s, l), d)
    ensures ReadyIsIndexed(env, Apply(env, s, l), d)
  {
    assert ContentKept(s, d) && JobPaired(s, l.job);
  }

  lemma CommitIsDone(env: Env, s: System, l: Label, d: Id)
    requires Good(env, s) && Enabled(env, s, l) && TargetOf(s, l) == Some(d) && l.CommitOk?
    ensures ContentKept(Apply(env, s, l), d)
    ensures ReadyIsDone(Apply(env, s, l), d)
  {
    hide Good, ChunksAfter, HalfAfter, RetriesAfter, Checksum, SameRows;
    HolderOf(env, s, l.worker);
    StepKeepsIds(env, s, l);
  }

  lemma CommitIsIndexed(env: Env, s: System, l: Label, d: Id)
    requires Enabled(env, s, l) && TargetOf(s, l) == Some(d) && l.CommitOk?
    requires LeaseHeld(s, l.worker) && ProgressRight(env, s, l.worker) && Live(s, l.worker)
    ensures ReadyIsIndexed(env, Apply(env, s, l), d)
  {
    var pc := PcOf(s, l.worker);
    assert TablesAfter(env, s, l).docs[d].checksum == Checksum(env.sha, pc.text);
  }

  lemma DocOfCommit(env: Env, s: System, l: Label, d: Id)
    requires Good(env, s) && Enabled(env, s, l) && TimelyStep(s, l) && TargetOf(s, l) == Some(d) && l.CommitOk?
    ensures ContentKept(Apply(env, s, l), d)
    ensures ReadyIsDone(Apply(env, s, l), d)
    ensures ReadyIsIndexed(env, Apply(env, s, l), d)
  {
    assert LeaseHeld(s, l.worker) && ProgressRight(env, s, l.worker);
    CommitIsDone(env, s, l, d);
    CommitIsIndexed(env, s, l, d);
  }

  lemma DocOfRetry(env: Env, s: System, l: Label, d: Id)
    requires Good(env, s) && Enabled(env, s, l) && TimelyStep(s, l) && TargetOf(s, l) == Some(d) && (l.RetryJob? || l.RetryDoc?)
    ensures ContentKept(Apply(env, s, l), d)
    ensures ReadyIsDone(Apply(env, s, l), d)
    ensures ReadyIsIndexed(env, Apply(env, s, l), d)
  {
    hide Good, HalfAfter, RetriesAfter, ChunksOf;
    DocOf(env, s, d);
    StepKeepsIds(env, s, l);
  }

  lemma DocOfCaller(env: Env, s: System, l: Label, d: Id)
    requires Good(env, s) && Enabled(env, s, l) && TimelyStep(s, l) && TargetOf(s, l) == Some(d) && ActorOf(l).None?
    ensures ContentKept(Apply(env, s, l), d)
    ensures ReadyIsDone(Apply(env, s, l), d)
    ensures ReadyIsIndexed(env, Apply(env, s, l), d)
  {
    if l.RetryJob? || l.RetryDoc? {
      DocOfRetry(env, s, l, d);
    } else {
      DocOf(env, s, d);
    }
  }

  lemma RetryElsewhere(env: Env, s: System, l: Label, r: Id)
    requires Good(env, s) && Enabled(env, s, l)
    requires r in s.retries && TargetOf(s, l) != Some(s.retries[r].docId)
    ensures RetryCurrent(Apply(env, s, l), r)
  {
    hide Paired, Budgeted, Leased, TablesAfter, ChunksAfter, HalfAfter;
    RetryOf(env, s, r);
    OtherJobUntouched(env, s, l, s.retries[r].docId);
    OtherLastUntouched(env, s, l, s.retries[r].docId);
  }

  /** A live holder's steps, and a claim, meet no current retry of their document. */
  lemma RetryOfWorker(env: Env, s: System, l: Label, r: Id)
    requires Good(env, s) && Enabled(env, s, l) && TimelyStep(s, l) && ActorOf(l).Some?
    requires r in s.retries && TargetOf(s, l) == Some(s.retries[r].docId)
    ensures RetryCurrent(Apply(env, s, l), r)
  {
    hide Good, ChunksAfter, HalfAfter, ProgressRight, Extract, KeyTaken, SameRows;
    RetryOf(env, s, r);
    HolderOf(env, s, l.worker);
    if l.TakeClaim? {
      JobOf(env, s, l.job);
    }
  }

  lemma RetryOfCaller(env: Env, s: System, l: Label, r: Id)
    requires Good(env, s) && Enabled(env, s, l) && TimelyStep(s, l) && ActorOf(l).None?
    requires r in s.retries && TargetOf(s, l) == Some(s.retries[r].docId)
    ensures RetryCurrent(Apply(env, s, l), r)
  {
    hide Good, ChunksAfter, HalfAfter;
    RetryOf(env, s, r);
  }

  lemma RetryBegins(env: Env, s: System, l: Label, r: Id)
    requires Enabled(env, s, l) && r !in s.retries
    ensures RetryCurrent(Apply(env, s, l), r)
  {
    hide ChunksAfter, HalfAfter;
  }

  lemma RetryStep(env: Env, s: System, l: Label, r: Id)
    requires Good(env, s) && Enabled(env, s, l) && TimelyStep(s, l)
    ensures RetryCurrent(Apply(env, s, l), r)
  {
    hide Good, Apply, TimelyStep, RetryCurrent;
    if r !in s.retries {
      RetryBegins(env, s, l, r);
    } else {
      if TargetOf(s, l) != Some(s.retries[r].docId) {
        RetryElsewhere(env, s, l, r);
      } else if ActorOf(l).Some? {
        RetryOfWorker(env, s, l, r);
      } else {
        RetryOfCaller(env, s, l, r);
      }
    }
  }

  lemma GoodStep(env: Env, s: System, l: Label)
    requires Good(env, s) && Enabled(env, s, l) && TimelyStep(s, l)
    ensures Good(env, Apply(env, s, l))
  {
    var s' := Apply(env, s, l);
    PairedStep(env, s, l);
    BudgetStep(env, s, l);
    forall w ensures LeaseHeld(s', w) && ProgressRight(env, s', w) {
      WorkerStep(env, s, l, w);
    }
    forall d ensures ContentKept(s', d) && ReadyIsDone(s', d) && ReadyIsIndexed(env, s', d) {
      DocStep(env, s, l, d);
    }
    forall r ensures RetryCurrent(s', r) {
      RetryStep(env, s, l, r);
    }
  }

  lemma WorkerStep(env: Env, s: System, l: Label, w: Id)
    requires Good(env, s) && Enabled(env, s, l) && TimelyStep(s, l)
    ensures LeaseHeld(Apply(env, s, l), w) && ProgressRight(env, Apply(env, s, l), w)
  {
    hide Apply, LeaseHeld, ProgressRight, Leased, TimelyStep;
    if ActorOf(l) != Some(w) {
      BystanderStep(env, s, l, w);
    } else if l.TakeClaim? {
      ClaimantLeased(env, s, l);
    } else {
      HolderLeased(env, s, l, w);
      HolderProgress(env, s, l, w);
    }
  }

  lemma DocStep(env: Env, s: System, l: Label, d: Id)
    requires Good(env, s) && Enabled(env, s, l) && TimelyStep(s, l)
    ensures ContentKept(Apply(env, s, l), d)
    ensures ReadyIsDone(Apply(env, s, l), d)
    ensures ReadyIsIndexed(env, Apply(env, s, l), d)
  {
    hide Apply, ContentKept, ReadyIsDone, ReadyIsIndexed, Leased, TimelyStep;
    if TargetOf(s, l) != Some(d) {
      DocElsewhere(env, s, l, d);
    } else if ActorOf(l).None? {
      DocOfCaller(env, s, l, d);
    } else if l.TakeClaim? {
      DocOfClaim(env, s, l, d);
    } else if l.CommitOk? {
      DocOfCommit(env, s, l, d);
    } else {
      DocOfWorker(env, s, l, d);
    }
  }

  lemma TimelyPrefix(env: Env, run: seq<Label>)
    requires Legal(env, run) && Timely(env, run) && run != []
    ensures
      var front := run[..|run| - 1];
      Legal(env, front) && Timely(env, front) && TimelyStep(After(env, front), run[|run| - 1])
  {
    var front := run[..|run| - 1];
    LegalPrefix(env, run, |run| - 1);
    assert TimelyStep(StateAt(env, run, |run| - 1), run[|run| - 1]);
    forall n | 0 <= n < |front| ensures TimelyStep(StateAt(env, front, n), front[n]) {
      assert front[..n] == run[..n];
      assert TimelyStep(StateAt(env, run, n), run[n]);
    }
  }

  lemma {:induction false} TimelyIsGood(env: Env, run: seq<Label>)
    requires Legal(env, run) && Timely(env, run)
    ensures Good(env, After(env, run))
    decreases |run|
  {
    if run != [] {
      TimelyPrefix(env, run);
      var front := run[..|run| - 1];
      TimelyIsGood(env, front);
      GoodStep(env, After(env, front), run[|run| - 1]);
    }
  }

  // ---- what timely runs guarantee --------------------------------------------------

  /** At most one live worker holds a claim on a job, in every state of a timely run. */
  lemma LeaseExclusion(env: Env, run: seq<Label>, v: Id, w: Id)
    requires Legal(env, run) && Timely(env, run)
    requires
      var s := After(env, run);
      Live(s, v) && Live(s, w) && PcOf(s, v).c.jobId == PcOf(s, w).c.jobId
    ensures v == w
  {
    TimelyIsGood(env, run);
    OneHolder(env, After(env, run), v, w);
  }

  /**
   Effectively-once indexing.  In a timely run, however many crashes, takeovers and retries it
   has, a ready document that is not being deleted carries exactly the chunks and the checksum
   of its enqueued bytes, provided its last content read succeeded.
   */
  lemma EffectivelyOnce(env: Env, run: seq<Label>, d: Id)
    requires Legal(env, run) && Timely(env, run)
    requires
      var s := After(env, run);
      d in s.tables.docs && s.tables.docs[d].status.DocReady? && !s.tables.docs[d].sourceType.Url?
      && d !in s.log.deleting
    ensures d in After(env, run).log.origin
    ensures
      var s := After(env, run);
      IndexedFrom(env, s, d, if d in s.log.misread then "" else s.log.origin[d])
  {
    TimelyIsGood(env, run);
    assert DocPaired(env, After(env, run), d) && ReadyIsIndexed(env, After(env, run), d);
  }

  /** The document has exactly the chunks and the checksum of this text. */
  ghost predicate HasText(env: Env, s: System, d: Id, text: Option<string>)
    requires d in s.tables.docs
  {
    && text.Some?
    && ChunksOf(s.chunks, Namespace(s.tables.docs[d].kb), d) == env.split(text.value)
    && s.tables.docs[d].checksum == Checksum(env.sha, text.value)
  }

  /** In particular: a text document is indexed as its enqueued bytes, or as nothing when its last read failed. */
  lemma TextsIndexedOnce(env: Env, run: seq<Label>, d: Id)
    requires Legal(env, run) && Timely(env, run)
    requires
      var s := After(env, run);
      && d in s.tables.docs && s.tables.docs[d].status.DocReady? && d !in s.log.deleting
      && (s.tables.docs[d].sourceType.Markdown? || s.tables.docs[d].sourceType.Txt? || s.tables.docs[d].sourceType.Paste?)
    ensures d in After(env, run).log.origin
    ensures
      var s := After(env, run);
      HasText(env, s, d, Some(if d in s.log.misread then "" else s.log.origin[d]))
  {
    hide After, Legal, Timely;
    EffectivelyOnce(env, run, d);
  }

  /** A pdf is indexed as what the pdf extractor makes of those bytes. */
  lemma PdfIndexedOnce(env: Env, run: seq<Label>, d: Id)
    requires Legal(env, run) && Timely(env, run)
    requires
      var s := After(env, run);
      d in s.tables.docs && s.tables.docs[d].status.DocReady? && s.tables.docs[d].sourceType.Pdf? && d !in s.log.deleting
    ensures d in After(env, run).log.origin
    ensures
      var s := After(env, run);
      HasText(env, s, d, env.pdfText(if d in s.log.misread then "" else s.log.origin[d]))
  {
    hide After, Legal, Timely;
    EffectivelyOnce(env, run, d);
  }

  /** And a docx as what the docx extractor does. */
  lemma DocxIndexedOnce(env: Env, run: seq<Label>, d: Id)
    requires Legal(env, run) && Timely(env, run)
    requires
      var s := After(env, run);
      d in s.tables.docs && s.tables.docs[d].status.DocReady? && s.tables.docs[d].sourceType.Docx? && d !in s.log.deleting
    ensures d in After(env, run).log.origin
    ensures
      var s := After(env, run);
      HasText(env, s, d, env.docxText(if d in s.log.misread then "" else s.log.origin[d]))
  {
    hide After, Legal, Timely;
    EffectivelyOnce(env, run, d);
  }

  /** Two byte strings of one source type that would be indexed alike. */
  ghost predicate IndexedAlike(env: Env, sourceType: SourceType, a: Bytes, b: Bytes) {
    var x, y := Extract(env, sourceType, a), Extract(env, sourceType, b);
    x.Some? && y.Some? && env.split(x.value) == env.split(y.value)
    && Checksum(env.sha, x.value) == Checksum(env.sha, y.value)
  }

  /**
   When a ready document is indexed from its own bytes: exactly when its last content read
   succeeded, or nothing at all would have been indexed the same way.
   */
  lemma EffectivelyOnceExactly(env: Env, run: seq<Label>, d: Id)
    requires Legal(env, run) && Timely(env, run)
    requires
      var s := After(env, run);
      d in s.tables.docs && s.tables.docs[d].status.DocReady? && !s.tables.docs[d].sourceType.Url?
      && d !in s.log.deleting
    ensures d in After(env, run).log.origin
    ensures
      var s := After(env, run);
      IndexedFrom(env, s, d, s.log.origin[d]) <==>
      (d !in s.log.misread || IndexedAlike(env, s.tables.docs[d].sourceType, "", s.log.origin[d]))
  {
    EffectivelyOnce(env, run, d);
  }

  /** Until its job is done, a document keeps the bytes it was enqueued with, so it can be parsed again. */
  lemma ContentSurvives(env: Env, run: seq<Label>, d: Id)
    requires Legal(env, run) && Timely(env, run)
    requires d in After(env, run).tables.docs
    ensures DocHasJob(After(env, run), d) && d in After(env, run).log.origin
    ensures
      var s := After(env, run);
      !s.tables.jobs[s.log.jobOf[d]].state.JobDone? ==> s.tables.docs[d].content == Some(s.log.origin[d])
  {
    TimelyIsGood(env, run);
    assert DocPaired(env, After(env, run), d) && ContentKept(After(env, run), d);
  }
}
