/**
 The leased ingest queue as a labelled transition system.

 Workers, HTTP callers, crashes and the clock take turns; every step is one SQL statement,
 one transaction or one call into the chunk store, and applies the row functions of Rows.
 A step that a run may take is Enabled; what it does is Apply.  Nothing here consults
 locked_by or the lease after the claim, because the program does not.
 */
module Queue {
  import opened Basics
  import opened Keys
  import opened Rows

  /** The configured constants and the collaborators that cannot be seen from here. */
  datatype Env = Env(
    sha: string -> string,
    split: string -> seq<string>,
    pdfText: Bytes -> Option<string>,
    docxText: Bytes -> Option<string>,
    lease: nat, maxAttempts: nat, baseBackoff: int)

  /** What NewWorker and claim make of their settings: a positive lease and attempt limit. */
  ghost predicate Configured(env: Env) {
    env.lease >= 1 && env.maxAttempts >= 1
  }

  /** The attempt number of a claim; claim adds one to a count that is never negative. */
  type Attempt = n: int | 1 <= n witness 1

  /** One successful claim; `serial` numbers the claims of all jobs in commit order. */
  datatype Claim = Claim(
    jobId: Id, docId: Id, attempts: Attempt, kb: Id, sourceType: SourceType,
    leaseEnd: int, serial: nat)

  datatype Pc =
    | Idle
    | Claimed(c: Claim)
    | Loaded(c: Claim, raw: Bytes)
    | Parsed(c: Claim, text: string)
    | DocPhased(c: Claim, text: string)
    | Indexing(c: Claim, text: string)
    | Imported(c: Claim, text: string, count: nat)
    | Failing(c: Claim, message: string)
    | HalfFailed(c: Claim, message: string)

  /** A Retry call between its two writes, with the job's last claim as of the first. */
  datatype RetryCall = RetryCall(docId: Id, jobId: Id, lastSerial: Option<nat>)

  datatype Grant = Grant(worker: Id, jobId: Id, epoch: nat, attempt: Attempt, leaseEnd: int)

  /** The operation whose job write is the latest on a document and whose document write is not. */
  datatype HalfOp = ByWorker(worker: Id, serial: nat) | ByRetry(caller: Id) | Stray

  /** What happened so far; no program step reads it. */
  datatype History = History(
    used: set<Id>,              // every id ever drawn
    jobOf: map<Id, Id>,         // the job enqueued with each document
    origin: map<Id, Bytes>,     // the enqueued bytes
    misread: set<Id>,           // documents whose latest content read failed
    deleting: set<Id>,          // documents whose chunk removal has run
    half: map<Id, HalfOp>,      // documents whose latest pair of writes is incomplete
    grants: seq<Grant>,         // the claims, in order
    last: map<Id, nat>,         // each job's latest claim
    epoch: map<Id, nat>,        // how often each job was revived by Retry
    reschedules: seq<nat>)      // the claims that wrote a reschedule

  datatype System = System(
    tables: Tables, chunks: seq<ChunkRow>, now: int,
    pcs: map<Id, Pc>, retries: map<Id, RetryCall>, log: History)

  datatype Label =
    | Enqueue(docId: Id, jobId: Id, input: Input)
    | TakeClaim(worker: Id, job: Id, at: int)
    | LoadRaw(worker: Id, ok: bool)
    | ParseOk(worker: Id, parsed: string)
    | ParseErr(worker: Id, cause: string)
    | PhaseDoc(worker: Id, ok: bool)
    | PhaseJob(worker: Id, ok: bool)
    | ImportOk(worker: Id, reported: nat)
    | ImportErr(worker: Id, debris: seq<string>, cause: string)
    | CommitOk(worker: Id)
    | CommitErr(worker: Id)
    | FailJob(worker: Id, ok: bool)
    | FailDoc(worker: Id, ok: bool)
    | RetryJob(caller: Id, doc: Id)
    | RetryDoc(caller: Id, ok: bool)
    | Crash(worker: Id)
    | Tick(elapsed: nat)
    | DeleteChunks(doc: Id, kb: Id)
    | DeleteRow(doc: Id)

  /** The worker that takes the step, if one does. */
  function ActorOf(l: Label): Option<Id> {
    if l.Enqueue? || l.RetryJob? || l.RetryDoc? || l.Tick? || l.DeleteChunks? || l.DeleteRow? then None else Some(l.worker)
  }

  function PcOf(s: System, worker: Id): Pc {
    if worker in s.pcs then s.pcs[worker] else Idle
  }

  /** The worker still owes the queue an outcome for its claim. */
  predicate Holds(pc: Pc) {
    !pc.Idle? && !pc.HalfFailed?
  }

  function EpochOf(s: System, job: Id): nat {
    if job in s.log.epoch then s.log.epoch[job] else 0
  }

  /** What parsing makes of the bytes of a non-url source, when it succeeds. */
  function Extract(env: Env, sourceType: SourceType, raw: Bytes): Option<string> {
    match sourceType
    case Markdown => Some(raw)
    case Txt => Some(raw)
    case Paste => Some(raw)
    case Pdf => env.pdfText(raw)
    case Docx => env.docxText(raw)
    case Url => None
    case Unknown(_) => None
  }

  predicate ReadAsText(sourceType: SourceType) {
    sourceType.Markdown? || sourceType.Txt? || sourceType.Paste?
  }

  /** The rows written by the first half of fail: dead past the limit, else pending with backoff. */
  function FailJobTables(env: Env, t: Tables, c: Claim, now: int, message: string): (u: Tables)
    ensures SameRows(t, u) && u.docs == t.docs
  {
    if c.attempts >= env.maxAttempts then MarkDead(t, c.jobId, message)
    else RescheduleJob(t, c.jobId, now + Backoff64(env.baseBackoff, c.attempts), message)
  }

  function FailDocTables(env: Env, t: Tables, c: Claim, message: string): (u: Tables)
    ensures SameRows(t, u) && u.jobs == t.jobs
  {
    if c.attempts >= env.maxAttempts then MarkFailed(t, c.docId, message)
    else RescheduleDoc(t, c.docId, message)
  }

  function CommitTables(env: Env, t: Tables, c: Claim, text: string, count: nat): (u: Tables)
    ensures SameRows(t, u)
  {
    MarkDone(MarkReady(t, c.docId, count, Checksum(env.sha, text)), c.jobId)
  }

  /** The claim a claim transaction produces. */
  function ClaimFor(env: Env, s: System, job: Id, at: int): Claim
    requires job in s.tables.jobs && s.tables.jobs[job].docId in s.tables.docs
  {
    var row := s.tables.jobs[job];
    var doc := s.tables.docs[row.docId];
    Claim(job, row.docId, row.attempts + 1, doc.kb, doc.sourceType, at + env.lease, |s.log.grants|)
  }

  /** The job of a document, as the RETRY and DELETE statements find it. */
  predicate JobOfDoc(t: Tables, job: Id, doc: Id) {
    job in t.jobs && t.jobs[job].docId == doc
  }

  ghost predicate Enabled(env: Env, s: System, l: Label) {
    match l
    case Enqueue(d, j, input) =>
      d !in s.log.used && j !in s.log.used && d != j && !KeyTaken(s.tables, InputKey(env.sha, input))
    case TakeClaim(w, j, at) =>
      PcOf(s, w).Idle? && at <= s.now && j in s.tables.jobs && s.tables.jobs[j].docId in s.tables.docs
      && Claimable(s.tables.jobs[j], at)
    case LoadRaw(w, _) => PcOf(s, w).Claimed?
    case ParseOk(w, text) =>
      var pc := PcOf(s, w);
      pc.Loaded? && (pc.c.sourceType.Url? || Extract(env, pc.c.sourceType, pc.raw) == Some(text))
    case ParseErr(w, _) => var pc := PcOf(s, w); pc.Loaded? && !ReadAsText(pc.c.sourceType)
    case PhaseDoc(w, _) => PcOf(s, w).Parsed?
    case PhaseJob(w, _) => PcOf(s, w).DocPhased?
    case ImportOk(w, _) => PcOf(s, w).Indexing?
    case ImportErr(w, _, _) => PcOf(s, w).Indexing?
    case CommitOk(w) => PcOf(s, w).Imported?
    case CommitErr(w) => PcOf(s, w).Imported?
    case FailJob(w, _) => PcOf(s, w).Failing?
    case FailDoc(w, _) => PcOf(s, w).HalfFailed?
    case RetryJob(r, d) =>
      r !in s.retries && d in s.tables.docs && d in s.log.jobOf
      && JobOfDoc(s.tables, s.log.jobOf[d], d) && s.tables.jobs[s.log.jobOf[d]].state == JobDead
    case RetryDoc(r, _) => r in s.retries
    case Crash(w) => !PcOf(s, w).Idle?
    case Tick(_) => true
    case DeleteChunks(d, kb) => d in s.log.jobOf && (d in s.tables.docs ==> s.tables.docs[d].kb == kb)
    case DeleteRow(d) => d in s.tables.docs && d in s.log.deleting
  }

  // ---- what each step does, component by component ------------------------------

  function TablesAfter(env: Env, s: System, l: Label): Tables
    requires Enabled(env, s, l)
  {
    var t := s.tables;
    if l.Enqueue? then InsertPair(env.sha, t, l.docId, l.jobId, l.input, s.now)
    else if l.TakeClaim? then
      var c := ClaimFor(env, s, l.job, l.at);
      ClaimTables(t, l.job, c.docId, l.worker, c.attempts, c.leaseEnd)
    else if l.PhaseDoc? && l.ok then SetDocPhase(t, PcOf(s, l.worker).c.docId, "indexing")
    else if l.PhaseJob? && l.ok then SetJobPhase(t, PcOf(s, l.worker).c.jobId, "indexing")
    else if l.CommitOk? then var pc := PcOf(s, l.worker); CommitTables(env, t, pc.c, pc.text, pc.count)
    else if l.FailJob? && l.ok then var pc := PcOf(s, l.worker); FailJobTables(env, t, pc.c, s.now, pc.message)
    else if l.FailDoc? && l.ok then var pc := PcOf(s, l.worker); FailDocTables(env, t, pc.c, pc.message)
    else if l.RetryJob? then ReviveJob(t, s.log.jobOf[l.doc], s.now)
    else if l.RetryDoc? && l.ok then ReviveDoc(t, s.retries[l.caller].docId)
    else if l.DeleteRow? then DeleteDocRow(t, l.doc)
    else t
  }

  function ChunksAfter(env: Env, s: System, l: Label): seq<ChunkRow>
    requires Enabled(env, s, l)
  {
    if l.ImportOk? then
      var pc := PcOf(s, l.worker);
      ReplaceSource(s.chunks, Namespace(pc.c.kb), pc.c.docId, env.split(pc.text))
    else if l.ImportErr? then
      var c := PcOf(s, l.worker).c;
      ReplaceSource(s.chunks, Namespace(c.kb), c.docId, l.debris)
    else if l.DeleteChunks? then Without(s.chunks, Namespace(l.kb), l.doc)
    else s.chunks
  }

  /** Where the stepping worker stands afterwards. */
  function PcAfter(env: Env, s: System, l: Label): (after: Pc)
    requires Enabled(env, s, l) && ActorOf(l).Some?
    ensures !l.TakeClaim? ==> !PcOf(s, ActorOf(l).value).Idle?
    ensures !l.TakeClaim? && !after.Idle? ==> after.c == PcOf(s, ActorOf(l).value).c
  {
    var pc := PcOf(s, ActorOf(l).value);
    match l
    case TakeClaim(w, j, at) => Claimed(ClaimFor(env, s, j, at))
    case LoadRaw(_, ok) => Loaded(pc.c, if ok then RawContent(s.tables, pc.c.docId) else "")
    case ParseOk(_, text) => Parsed(pc.c, text)
    case ParseErr(_, message) => Failing(pc.c, message)
    case PhaseDoc(_, _) => DocPhased(pc.c, pc.text)
    case PhaseJob(_, _) => Indexing(pc.c, pc.text)
    case ImportOk(_, count) => Imported(pc.c, pc.text, count)
    case ImportErr(_, _, message) => Failing(pc.c, message)
    case FailJob(_, _) => HalfFailed(pc.c, pc.message)
    case _ => Idle
  }

  function PcsAfter(env: Env, s: System, l: Label): map<Id, Pc>
    requires Enabled(env, s, l)
  {
    if ActorOf(l).Some? then s.pcs[l.worker := PcAfter(env, s, l)] else s.pcs
  }

  function RetriesAfter(env: Env, s: System, l: Label): map<Id, RetryCall>
    requires Enabled(env, s, l)
  {
    if l.RetryJob? then
      s.retries[l.caller := RetryCall(l.doc, s.log.jobOf[l.doc], Lookup(s.log.last, s.log.jobOf[l.doc]))]
    else if l.RetryDoc? then s.retries - {l.caller}
    else s.retries
  }

  /** After a document write by op: complete when op also made the latest job write, else stray. */
  function AfterDocWrite(half: map<Id, HalfOp>, doc: Id, op: HalfOp, ok: bool): map<Id, HalfOp> {
    if ok && Lookup(half, doc) == Some(op) then half - {doc} else half[doc := Stray]
  }

  function HalfAfter(env: Env, s: System, l: Label): map<Id, HalfOp>
    requires Enabled(env, s, l)
  {
    var half := s.log.half;
    if l.TakeClaim? then half - {s.tables.jobs[l.job].docId}
    else if l.CommitOk? then half - {PcOf(s, l.worker).c.docId}
    else if l.FailJob? then
      var c := PcOf(s, l.worker).c;
      half[c.docId := if l.ok then ByWorker(l.worker, c.serial) else Stray]
    else if l.FailDoc? then
      var c := PcOf(s, l.worker).c;
      AfterDocWrite(half, c.docId, ByWorker(l.worker, c.serial), l.ok)
    else if l.RetryJob? then half[l.doc := ByRetry(l.caller)]
    else if l.RetryDoc? then AfterDocWrite(half, s.retries[l.caller].docId, ByRetry(l.caller), l.ok)
    else half
  }

  function GrantFor(env: Env, s: System, l: Label): Grant
    requires Enabled(env, s, l) && l.TakeClaim?
  {
    var c := ClaimFor(env, s, l.job, l.at);
    Grant(l.worker, l.job, EpochOf(s, l.job), c.attempts, c.leaseEnd)
  }

  /** The step writes a reschedule. */
  predicate Reschedules(env: Env, s: System, l: Label)
    requires Enabled(env, s, l)
  {
    l.FailJob? && l.ok && PcOf(s, l.worker).c.attempts < env.maxAttempts
  }

  function LogAfter(env: Env, s: System, l: Label): History
    requires Enabled(env, s, l)
  {
    var log := s.log;
    History(
      if l.Enqueue? then log.used + {l.docId, l.jobId} else log.used,
      if l.Enqueue? then log.jobOf[l.docId := l.jobId] else log.jobOf,
      if l.Enqueue? then log.origin[l.docId := l.input.raw] else log.origin,
      if !l.LoadRaw? then log.misread
      else if l.ok then log.misread - {PcOf(s, l.worker).c.docId}
      else log.misread + {PcOf(s, l.worker).c.docId},
      if l.DeleteChunks? then log.deleting + {l.doc} else log.deleting,
      HalfAfter(env, s, l),
      if l.TakeClaim? then log.grants + [GrantFor(env, s, l)] else log.grants,
      if l.TakeClaim? then log.last[l.job := |log.grants|] else log.last,
      if l.RetryJob? then log.epoch[log.jobOf[l.doc] := EpochOf(s, log.jobOf[l.doc]) + 1] else log.epoch,
      if Reschedules(env, s, l) then log.reschedules + [PcOf(s, l.worker).c.serial] else log.reschedules)
  }

  function Apply(env: Env, s: System, l: Label): System
    requires Enabled(env, s, l)
  {
    System(
      TablesAfter(env, s, l), ChunksAfter(env, s, l),
      if l.Tick? then s.now + l.elapsed else s.now,
      PcsAfter(env, s, l),
      RetriesAfter(env, s, l), LogAfter(env, s, l))
  }

  /** Only the stepping worker moves. */
  lemma PcMoves(env: Env, s: System, l: Label, w: Id)
    requires Enabled(env, s, l)
    ensures ActorOf(l) != Some(w) ==> PcOf(Apply(env, s, l), w) == PcOf(s, w)
    ensures ActorOf(l) == Some(w) ==> PcOf(Apply(env, s, l), w) == PcAfter(env, s, l)
  {
  }

  lemma ClockForward(env: Env, s: System, l: Label)
    requires Enabled(env, s, l)
    ensures s.now <= Apply(env, s, l).now
  {
  }

  const START := System(Tables(map[], map[]), [], 0, map[], map[],
                        History({}, map[], map[], {}, {}, map[], [], map[], map[], []))

  // ---- runs -----------------------------------------------------------------

  ghost predicate Legal(env: Env, run: seq<Label>)
    decreases |run|, 0
  {
    run == [] || (Legal(env, run[..|run| - 1]) && Enabled(env, After(env, run[..|run| - 1]), run[|run| - 1]))
  }

  /** The state a legal run from the empty database ends in. */
  ghost function After(env: Env, run: seq<Label>): System
    requires Legal(env, run)
    decreases |run|, 1
  {
    if run == [] then START else Apply(env, After(env, run[..|run| - 1]), run[|run| - 1])
  }

  lemma {:induction false} LegalPrefix(env: Env, run: seq<Label>, n: nat)
    requires Legal(env, run) && n <= |run|
    ensures Legal(env, run[..n])
    ensures n < |run| ==> Enabled(env, After(env, run[..n]), run[n])
    ensures n < |run| ==> Legal(env, run[..n + 1])
    ensures n < |run| ==> After(env, run[..n + 1]) == Apply(env, After(env, run[..n]), run[n])
    decreases |run|
  {
    if n < |run| {
      var front := run[..|run| - 1];
      LegalPrefix(env, front, n);
      assert run[..n] == front[..n];
      if n + 1 < |run| {
        assert run[..n + 1] == front[..n + 1];
      } else {
        assert run[..n] == front && run[..n + 1] == run;
      }
    } else {
      assert run[..n] == run;
    }
  }

  /** The state of a legal run before its step n. */
  ghost function StateAt(env: Env, run: seq<Label>, n: nat): (s: System)
    requires Legal(env, run) && n <= |run|
    ensures n < |run| ==> Enabled(env, s, run[n])
    ensures n == |run| ==> s == After(env, run)
  {
    LegalPrefix(env, run, n);
    assert n == |run| ==> run[..n] == run;
    After(env, run[..n])
  }

  lemma StateAtNext(env: Env, run: seq<Label>, n: nat)
    requires Legal(env, run) && n < |run|
    ensures StateAt(env, run, n + 1) == Apply(env, StateAt(env, run, n), run[n])
  {
    LegalPrefix(env, run, n);
  }

  /** Extending a legal run by an enabled step. */
  lemma LegalExtend(env: Env, run: seq<Label>, l: Label)
    requires Legal(env, run) && Enabled(env, After(env, run), l)
    ensures Legal(env, run + [l]) && After(env, run + [l]) == Apply(env, After(env, run), l)
  {
    assert (run + [l])[..|run|] == run;
  }
}
