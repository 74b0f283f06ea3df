/**
 The worker as it is written: claim, process, setPhase, fail and the polling loop, changing the
 database field by field.  Each method is tied to the row functions; what a call into the
 database or the chunk store returns is a parameter.
 */
module WorkerCode {
  import opened Basics
  import opened Keys
  import opened Rows
  import opened Queue
  import opened Processing

  class Database {
    var tables: Tables
    var chunks: seq<ChunkRow>
    var now: int
    var granted: nat   // claims committed so far, which numbers them

    constructor (t: Tables)
      ensures tables == t && chunks == [] && now == 0 && granted == 0
    {
      tables, chunks, now, granted := t, [], 0, 0;
    }

    ghost function Contents(): Store
      reads this
    {
      Store(tables, chunks, now)
    }
  }

  /** The row that ORDER BY next_run_at LIMIT 1 returns, up to ties. */
  predicate Earliest(jobs: map<Id, Job>, now: int, j: Id) {
    j in jobs && Claimable(jobs[j], now)
    && forall k :: k in jobs && Claimable(jobs[k], now) ==> jobs[j].nextRunAt <= jobs[k].nextRunAt
  }

  predicate AnyClaimable(jobs: map<Id, Job>, now: int) {
    exists j :: j in jobs && Claimable(jobs[j], now)
  }

  ghost predicate EarliestOf(jobs: map<Id, Job>, due: set<Id>, j: Id) {
    j in due && due <= jobs.Keys && forall k :: k in due ==> jobs[j].nextRunAt <= jobs[k].nextRunAt
  }

  lemma {:induction false} EarliestOfSome(jobs: map<Id, Job>, due: set<Id>)
    requires due != {} && due <= jobs.Keys
    ensures exists j :: EarliestOf(jobs, due, j)
    decreases |due|
  {
    var k :| k in due;
    if due == {k} {
      assert EarliestOf(jobs, due, k);
    } else {
      EarliestOfSome(jobs, due - {k});
      var j :| EarliestOf(jobs, due - {k}, j);
      assert EarliestOf(jobs, due, if jobs[j].nextRunAt <= jobs[k].nextRunAt then j else k);
    }
  }

  lemma EarliestExists(jobs: map<Id, Job>, now: int)
    requires AnyClaimable(jobs, now)
    ensures exists j :: Earliest(jobs, now, j)
  {
    var due := set j | j in jobs && Claimable(jobs[j], now);
    var k :| k in jobs && Claimable(jobs[k], now);
    assert k in due;
    EarliestOfSome(jobs, due);
    var j :| EarliestOf(jobs, due, j);
    assert Earliest(jobs, now, j);
  }

  /** What parseSource returns: the text types never fail, the others may time out or be refused. */
  function ParseSource(env: Env, c: Claim, raw: Bytes, calls: Calls): (r: Result<string>)
    ensures ParsePossible(env, c, raw, r)
    ensures c.sourceType.Markdown? || c.sourceType.Txt? || c.sourceType.Paste? ==> r == Ok(raw)
    ensures c.sourceType.Pdf? && calls.parse.Ok? && env.pdfText(raw).Some? ==> r == Ok(env.pdfText(raw).value)
    ensures c.sourceType.Docx? && calls.parse.Ok? && env.docxText(raw).Some? ==> r == Ok(env.docxText(raw).value)
    ensures Unreadable(env, c.sourceType, raw) ==> r.Err?
  {
    match c.sourceType
    case Markdown => Ok(raw)
    case Txt => Ok(raw)
    case Paste => Ok(raw)
    case Pdf => Extracted(env.pdfText(raw), calls.parse)
    case Docx => Extracted(env.docxText(raw), calls.parse)
    case Url => calls.parse
    case Unknown(_) => Err("ingest: unsupported source_type")
  }

  function Extracted(text: Option<string>, call: Result<string>): Result<string> {
    if call.Err? then call else if text.Some? then Ok(text.value) else Err("extract failed")
  }

  /** No call that processing makes fails: the source can be parsed, the import works, and its commit is acknowledged. */
  predicate Untroubled(calls: Calls) {
    calls.parse.Ok? && calls.importResult.Ok? && calls.commitOk
  }

  /** The claim's document is ready with the chunks and the checksum of this text and its job is done, where their rows exist. */
  ghost predicate IndexedAs(env: Env, st: Store, c: Claim, text: string, count: nat) {
    && ChunksOf(st.chunks, Namespace(c.kb), c.docId) == env.split(text)
    && (c.docId in st.tables.docs ==>
          var doc := st.tables.docs[c.docId];
          && doc.status == DocReady && doc.phase == "ready" && doc.error == "" && doc.content == None
          && doc.checksum == Checksum(env.sha, text) && doc.chunkCount == count)
    && (c.jobId in st.tables.jobs ==>
          var job := st.tables.jobs[c.jobId];
          job.state == JobDone && job.phase == "ready" && job.lockedBy == "" && job.lockedUntil == None)
  }

  /** Nothing was imported; the job is dead at the limit and otherwise due when its backoff has passed, and the document says so. */
  ghost predicate NotIndexed(env: Env, before: Store, after: Store, c: Claim, message: string) {
    && after.chunks == before.chunks
    && (c.jobId in after.tables.jobs ==>
          var job := after.tables.jobs[c.jobId];
          && job.lockedBy == "" && job.lockedUntil == None && job.lastError == message
          && if c.attempts >= env.maxAttempts then job.state == JobDead
             else job.state == JobPending && job.nextRunAt == before.now + Backoff64(env.baseBackoff, c.attempts))
    && (c.docId in after.tables.docs ==>
          var doc := after.tables.docs[c.docId];
          && doc.error == message
          && if c.attempts >= env.maxAttempts then doc.status == DocFailed && doc.phase == "failed"
             else doc.status == DocPending && doc.phase == "retry-scheduled")
  }

  /** The failed import has left its debris in place of the source's chunks, and the rows say what failed. */
  ghost predicate ImportFailed(env: Env, before: Store, after: Store, c: Claim, calls: Calls)
    requires calls.importResult.Err?
  {
    && ChunksOf(after.chunks, Namespace(c.kb), c.docId) == calls.debris
    && NotIndexed(env, before.(chunks := after.chunks), after, c, calls.importResult.message)
  }

  /** The parser gets a text out of the source. */
  predicate ReadsAs(env: Env, sourceType: SourceType, raw: Bytes, calls: Calls) {
    || sourceType.Markdown? || sourceType.Txt? || sourceType.Paste?
    || (calls.parse.Ok? && ((sourceType.Pdf? && env.pdfText(raw).Some?) || (sourceType.Docx? && env.docxText(raw).Some?) || sourceType.Url?))
  }

  /** No text can be extracted from these bytes. */
  predicate Unreadable(env: Env, sourceType: SourceType, raw: Bytes) {
    || sourceType.Unknown?
    || (sourceType.Pdf? && env.pdfText(raw).None?)
    || (sourceType.Docx? && env.docxText(raw).None?)
  }

  lemma TextIsIndexed(env: Env, st: Store, c: Claim, text: string, calls: Calls)
    requires calls.parse == Ok(text) && calls.importResult.Ok? && calls.commitOk
    ensures IndexedAs(env, Processed(env, st, c, calls), c, text, calls.importResult.value)
  {
    hide ReplaceSource, ChunksOf, Checksum;
    ReplaceSourceExact(st.chunks, Namespace(c.kb), c.docId, env.split(text), Namespace(c.kb), c.docId);
  }

  lemma ErrorIsNotIndexed(env: Env, st: Store, c: Claim, calls: Calls)
    requires calls.parse.Err? && calls.failJobOk && calls.failDocOk
    ensures NotIndexed(env, st, Processed(env, st, c, calls), c, calls.parse.message)
  {
    hide Backoff64;
  }

  lemma DebrisIsLeft(env: Env, st: Store, c: Claim, calls: Calls)
    requires calls.parse.Ok? && calls.importResult.Err? && calls.failJobOk && calls.failDocOk
    ensures ImportFailed(env, st, Processed(env, st, c, calls), c, calls)
  {
    hide Backoff64, ReplaceSource, ChunksOf;
    ReplaceSourceExact(st.chunks, Namespace(c.kb), c.docId, calls.debris, Namespace(c.kb), c.docId);
  }

  /** Which of the claim transaction's statements go through. */
  datatype ClaimCalls = ClaimCalls(begun: bool, updated: bool, docRead: bool, docMarked: bool, end: CommitEnd)

  predicate AllThrough(tx: ClaimCalls) {
    tx.begun && tx.updated && tx.docRead && tx.docMarked && tx.end.Committed?
  }

  ghost predicate JobsHaveDocs(t: Tables) {
    forall j :: j in t.jobs ==> t.jobs[j].docId in t.docs
  }

  datatype ClaimOutcome = ClaimError | NothingDue | Got(c: Claim, raw: Bytes)

  /** The claim that takes job j of the store at this moment. */
  function ClaimOf(env: Env, st: Store, j: Id, serial: nat): Claim
    requires j in st.tables.jobs && st.tables.jobs[j].docId in st.tables.docs
  {
    var job := st.tables.jobs[j];
    var doc := st.tables.docs[job.docId];
    Claim(j, job.docId, job.attempts + 1, doc.kb, doc.sourceType, st.now + env.lease, serial)
  }

  function AfterClaim(st: Store, c: Claim, w: Id): Store
    requires c.jobId in st.tables.jobs && c.docId in st.tables.docs
  {
    st.(tables := ClaimTables(st.tables, c.jobId, c.docId, w, c.attempts, c.leaseEnd))
  }

  /** From one store to the other the worker took an earliest claimable job. */
  ghost predicate Took(env: Env, before: Store, after: Store, w: Id, serial: nat, c: Claim) {
    && Earliest(before.tables.jobs, before.now, c.jobId)
    && before.tables.jobs[c.jobId].docId in before.tables.docs
    && c == ClaimOf(env, before, c.jobId, serial)
    && after == AfterClaim(before, c, w)
  }

  /** The lease as its rows show it: an earliest claimable job runs for the worker, one attempt on, and its document is parsing. */
  ghost predicate Leases(env: Env, before: Store, after: Store, w: Id, c: Claim) {
    && c.jobId in before.tables.jobs && c.jobId in after.tables.jobs
    && var was, job := before.tables.jobs[c.jobId], after.tables.jobs[c.jobId];
    && ((was.state == JobPending && was.nextRunAt <= before.now)
        || (was.state == JobRunning && was.lockedUntil.Some? && was.lockedUntil.value < before.now))
    && job == was.(state := JobRunning, lockedBy := w, lockedUntil := Some(before.now + env.lease), attempts := was.attempts + 1, phase := "parsing")
    && c.docId == was.docId && c.attempts == was.attempts + 1 && c.leaseEnd == before.now + env.lease
    && c.docId in before.tables.docs && c.docId in after.tables.docs
    && var doc := before.tables.docs[c.docId];
    && after.tables.docs[c.docId] == doc.(status := DocParsing, phase := "parsing")
    && c.kb == doc.kb && c.sourceType == doc.sourceType
    && (forall j :: j != c.jobId ==> Lookup(after.tables.jobs, j) == Lookup(before.tables.jobs, j))
    && (forall d :: d != c.docId ==> Lookup(after.tables.docs, d) == Lookup(before.tables.docs, d))
    && after.chunks == before.chunks && after.now == before.now
  }

  lemma TookLeases(env: Env, before: Store, after: Store, w: Id, serial: nat, c: Claim)
    requires Took(env, before, after, w, serial, c)
    ensures Leases(env, before, after, w, c)
  {
  }

  /** An error can hide a claim whose commit happened: nobody works on it until its lease ends. */
  ghost predicate TookInDoubt(env: Env, before: Store, after: Store, w: Id, serial: nat) {
    exists c :: Took(env, before, after, w, serial, c)
  }

  /** What a claim attempt leaves by its outcome, when no commit was in doubt. */
  ghost predicate ClaimedFrom(env: Env, before: Store, after: Store, w: Id, serial: nat, outcome: ClaimOutcome) {
    match outcome
    case ClaimError => after == before
    case NothingDue => after == before && !AnyClaimable(before.tables.jobs, before.now)
    case Got(c, _) => Took(env, before, after, w, serial, c)
  }

  class Worker {
    const env: Env
    const id: Id
    const db: Database

    constructor (settings: Env, leaseSeconds: int, attempts: int, id: Id, db: Database)
      ensures Configured(this.env) && this.id == id && this.db == db
      ensures this.env.lease == (if leaseSeconds <= 0 then 60 else leaseSeconds) * 1_000_000_000
      ensures this.env.maxAttempts == if attempts <= 0 then 5 else attempts
    {
      this.env := settings.(lease := (if leaseSeconds <= 0 then 60 else leaseSeconds) * 1_000_000_000,
                            maxAttempts := if attempts <= 0 then 5 else attempts);
      this.id, this.db := id, db;
    }

    /** Everything up to the commit works on a copy, which a failure throws away. */
    method Claim(tx: ClaimCalls, readOk: bool) returns (outcome: ClaimOutcome)
      modifies db
      ensures
        || ClaimedFrom(env, old(db.Contents()), db.Contents(), id, old(db.granted), outcome)
        || (outcome.ClaimError? && tx.end.CommitInDoubt? && TookInDoubt(env, old(db.Contents()), db.Contents(), id, old(db.granted)))
      ensures outcome.Got? ==> AllThrough(tx) && Leases(env, old(db.Contents()), db.Contents(), id, outcome.c)
      ensures outcome.NothingDue? <==> tx.begun && !AnyClaimable(old(db.tables.jobs), db.now)
      ensures
        tx.begun && tx.updated && tx.docRead && tx.docMarked && tx.end.CommitInDoubt?
        && JobsHaveDocs(old(db.tables)) && AnyClaimable(old(db.tables.jobs), db.now) ==>
          TookInDoubt(env, old(db.Contents()), db.Contents(), id, old(db.granted))
      ensures AllThrough(tx) && JobsHaveDocs(old(db.tables)) ==> !outcome.ClaimError?
      ensures outcome.Got? ==> outcome.raw == if readOk then RawContent(db.tables, outcome.c.docId) else ""
      ensures db.granted == old(db.granted) + (if db.Contents() != old(db.Contents()) then 1 else 0)
    {
      if !tx.begun {
        return ClaimError;
      }
      var staged := db.tables;
      if !AnyClaimable(staged.jobs, db.now) {
        return NothingDue;
      }
      EarliestExists(staged.jobs, db.now);
      var job :| job in staged.jobs && Earliest(staged.jobs, db.now, job);
      var docId := staged.jobs[job].docId;
      var attempts := staged.jobs[job].attempts + 1;
      if !tx.updated {
        return ClaimError;
      }
      var leaseEnd := db.now + env.lease;
      staged := staged.(jobs := staged.jobs[job := ClaimedJob(staged.jobs[job], id, attempts, leaseEnd)]);
      if !tx.docRead || docId !in staged.docs {
        return ClaimError;
      }
      var doc := staged.docs[docId];
      if !tx.docMarked {
        return ClaimError;
      }
      staged := staged.(docs := staged.docs[docId := doc.(status := DocParsing, phase := "parsing")]);
      if tx.end.CommitLost? {
        return ClaimError;
      }
      var c := Queue.Claim.Claim(job, docId, attempts, doc.kb, doc.sourceType, leaseEnd, db.granted);
      assert staged.jobs[job].attempts != db.tables.jobs[job].attempts;
      ghost var before, serial := db.Contents(), db.granted;
      db.tables, db.granted := staged, db.granted + 1;
      assert Took(env, before, db.Contents(), id, serial, c);
      TookLeases(env, before, db.Contents(), id, serial, c);
      if tx.end.CommitInDoubt? {
        return ClaimError;
      }
      var raw := LoadRaw(docId, readOk);
      outcome := Got(c, raw);
    }

    method LoadRaw(docId: Id, readOk: bool) returns (raw: Bytes)
      ensures raw == if readOk then RawContent(db.tables, docId) else ""
    {
      raw := "";
      if readOk && docId in db.tables.docs && db.tables.docs[docId].content.Some? {
        raw := db.tables.docs[docId].content.value;
      }
    }

    method SetPhase(c: Claim, calls: Calls)
      modifies db`tables
      ensures db.Contents() == AfterPhases(old(db.Contents()), c, calls)
      ensures calls.phaseDocOk && c.docId in db.tables.docs ==> db.tables.docs[c.docId].phase == "indexing"
      ensures calls.phaseJobOk && c.jobId in db.tables.jobs ==> db.tables.jobs[c.jobId].phase == "indexing"
    {
      if calls.phaseDocOk {
        db.tables := SetDocPhase(db.tables, c.docId, "indexing");
      }
      if calls.phaseJobOk {
        db.tables := SetJobPhase(db.tables, c.jobId, "indexing");
      }
    }

    method Fail(c: Claim, message: string, calls: Calls)
      modifies db`tables
      ensures db.Contents() == AfterFail(env, old(db.Contents()), c, message, calls)
      ensures calls.failJobOk && calls.failDocOk ==> NotIndexed(env, old(db.Contents()), db.Contents(), c, message)
    {
      hide Backoff64;
      if c.attempts >= env.maxAttempts {
        if calls.failJobOk {
          db.tables := MarkDead(db.tables, c.jobId, message);
        }
        if calls.failDocOk {
          db.tables := MarkFailed(db.tables, c.docId, message);
        }
        return;
      }
      var backoff := Backoff64(env.baseBackoff, c.attempts);
      if calls.failJobOk {
        db.tables := RescheduleJob(db.tables, c.jobId, db.now + backoff, message);
      }
      if calls.failDocOk {
        db.tables := RescheduleDoc(db.tables, c.docId, message);
      }
    }

    method Import(c: Claim, text: string, calls: Calls) returns (r: Result<nat>)
      modifies db`chunks
      ensures r == calls.importResult && db.Contents() == AfterImport(env, old(db.Contents()), c, text, calls)
    {
      db.chunks := ReplaceSource(db.chunks, Namespace(c.kb), c.docId,
                                 if calls.importResult.Ok? then env.split(text) else calls.debris);
      r := calls.importResult;
    }

    method Process(c: Claim, raw: Bytes, calls: Calls)
      modifies db`tables, db`chunks
      ensures db.Contents() ==
        Processed(env, old(db.Contents()), c, calls.(parse := ParseSource(env, c, raw, calls)))
      ensures Untroubled(calls) && (c.sourceType.Markdown? || c.sourceType.Txt? || c.sourceType.Paste?) ==>
        IndexedAs(env, db.Contents(), c, raw, calls.importResult.value)
      ensures Untroubled(calls) && c.sourceType.Pdf? && env.pdfText(raw).Some? ==>
        IndexedAs(env, db.Contents(), c, env.pdfText(raw).value, calls.importResult.value)
      ensures Untroubled(calls) && c.sourceType.Docx? && env.docxText(raw).Some? ==>
        IndexedAs(env, db.Contents(), c, env.docxText(raw).value, calls.importResult.value)
      ensures Untroubled(calls) && c.sourceType.Url? ==>
        IndexedAs(env, db.Contents(), c, calls.parse.value, calls.importResult.value)
      ensures
        ReadsAs(env, c.sourceType, raw, calls) && calls.importResult.Err? && calls.failJobOk && calls.failDocOk ==>
          ImportFailed(env, old(db.Contents()), db.Contents(), c, calls)
      ensures Unreadable(env, c.sourceType, raw) && calls.failJobOk && calls.failDocOk ==>
        exists message :: NotIndexed(env, old(db.Contents()), db.Contents(), c, message)
    {
      ProcessingOutcome(env, db.Contents(), c, raw, calls);
      hide IndexedAs, NotIndexed, Unreadable, ImportFailed, ReadsAs;
      var parsed := ParseSource(env, c, raw, calls);
      var message := "";
      match parsed {
        case Ok(text) =>
          SetPhase(c, calls);
          var imported := Import(c, text, calls);
          match imported {
            case Ok(count) =>
              if calls.commitOk {
                db.tables := MarkReady(db.tables, c.docId, count, Checksum(env.sha, text));
                db.tables := MarkDone(db.tables, c.jobId);
              }
              return;
            case Err(m) => message := m;
          }
        case Err(m) => message := m;
      }
      Fail(c, message, calls);
    }

    /** One claim, if there is one to take, processed to its end. */
    method RunOnce(tx: ClaimCalls, calls: Calls) returns (outcome: ClaimOutcome)
      modifies db
      ensures db.now == old(db.now)
      ensures AllThrough(tx) && JobsHaveDocs(old(db.tables)) ==> !outcome.ClaimError?
      ensures outcome.Got? ==> OneTurn(env, old(db.Contents()), db.Contents(), id, old(db.granted), outcome.c, calls)
      ensures outcome.Got? ==> outcome.raw == if calls.readOk then RawContent(old(db.tables), outcome.c.docId) else ""
      ensures outcome.Got? && Untroubled(calls) && (outcome.c.sourceType.Markdown? || outcome.c.sourceType.Txt? || outcome.c.sourceType.Paste?) ==>
        IndexedAs(env, db.Contents(), outcome.c, outcome.raw, calls.importResult.value)
      ensures outcome.Got? && Untroubled(calls) && outcome.c.sourceType.Pdf? && env.pdfText(outcome.raw).Some? ==>
        IndexedAs(env, db.Contents(), outcome.c, env.pdfText(outcome.raw).value, calls.importResult.value)
      ensures outcome.Got? && Untroubled(calls) && outcome.c.sourceType.Docx? && env.docxText(outcome.raw).Some? ==>
        IndexedAs(env, db.Contents(), outcome.c, env.docxText(outcome.raw).value, calls.importResult.value)
      ensures outcome.NothingDue? ==> !AnyClaimable(old(db.tables.jobs), db.now)
      ensures !outcome.Got? ==>
        || db.Contents() == old(db.Contents())
        || (outcome.ClaimError? && tx.end.CommitInDoubt? && TookInDoubt(env, old(db.Contents()), db.Contents(), id, old(db.granted)))
      ensures db.granted == old(db.granted) + (if outcome.Got? || db.Contents() != old(db.Contents()) then 1 else 0)
    {
      outcome := Claim(tx, calls.readOk);
      if outcome.Got? {
        ghost var mid := db.Contents();
        Process(outcome.c, outcome.raw, calls);
        assert OneTurnVia(env, old(db.Contents()), mid, db.Contents(), id, old(db.granted), outcome.c, calls);
      }
    }
  }

  /** What processing leaves, by the source type and what its extractor makes of the bytes. */
  lemma ProcessingOutcome(env: Env, st: Store, c: Claim, raw: Bytes, calls: Calls)
    ensures
      var after := Processed(env, st, c, calls.(parse := ParseSource(env, c, raw, calls)));
      && (Untroubled(calls) && (c.sourceType.Markdown? || c.sourceType.Txt? || c.sourceType.Paste?) ==> IndexedAs(env, after, c, raw, calls.importResult.value))
      && (Untroubled(calls) && c.sourceType.Pdf? && env.pdfText(raw).Some? ==>
            IndexedAs(env, after, c, env.pdfText(raw).value, calls.importResult.value))
      && (Untroubled(calls) && c.sourceType.Docx? && env.docxText(raw).Some? ==>
            IndexedAs(env, after, c, env.docxText(raw).value, calls.importResult.value))
      && (Untroubled(calls) && c.sourceType.Url? ==> IndexedAs(env, after, c, calls.parse.value, calls.importResult.value))
      && (ReadsAs(env, c.sourceType, raw, calls) && calls.importResult.Err? && calls.failJobOk && calls.failDocOk ==>
            ImportFailed(env, st, after, c, calls))
      && (Unreadable(env, c.sourceType, raw) && calls.failJobOk && calls.failDocOk ==> exists message :: NotIndexed(env, st, after, c, message))
  {
    hide Processed, IndexedAs, NotIndexed, ChunksOf;
    var done := calls.(parse := ParseSource(env, c, raw, calls));
    if Untroubled(calls) && done.parse.Ok? {
      TextIsIndexed(env, st, c, done.parse.value, done);
    }
    if ReadsAs(env, c.sourceType, raw, calls) && calls.importResult.Err? && calls.failJobOk && calls.failDocOk {
      DebrisIsLeft(env, st, c, done);
    }
    if Unreadable(env, c.sourceType, raw) && calls.failJobOk && calls.failDocOk {
      ErrorIsNotIndexed(env, st, c, done);
    }
  }

  ghost predicate OneTurnVia(env: Env, before: Store, mid: Store, after: Store, w: Id, serial: nat, c: Claim, calls: Calls) {
    var raw := RawRead(mid, c, calls);
    && ClaimedFrom(env, before, mid, w, serial, Got(c, raw))
    && after == Processed(env, mid, c, calls.(parse := ParseSource(env, c, raw, calls)))
  }

  /** The store after w claims c and processes it. */
  ghost predicate OneTurn(env: Env, before: Store, after: Store, w: Id, serial: nat, c: Claim, calls: Calls) {
    exists mid :: OneTurnVia(env, before, mid, after, w, serial, c, calls)
  }
}
