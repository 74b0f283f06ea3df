/**
 The two business tables, one function for each SQL statement that writes them, and the
 chunk store.  An UPDATE whose row is gone changes nothing.
 */
module Rows {
  import opened Basics
  import opened Keys

  type Id = string

  /** Go strings and byte slices hold bytes; both are sequences of characters here. */
  type Bytes = string

  datatype SourceType = Markdown | Txt | Paste | Pdf | Docx | Url | Unknown(name: string)

  datatype DocStatus = DocPending | DocParsing | DocReady | DocFailed

  datatype JobState = JobPending | JobRunning | JobDone | JobDead

  datatype Doc = Doc(
    kb: Id, title: string, sourceType: SourceType, sourceRef: string, checksum: string,
    status: DocStatus, phase: string, error: string,
    chunkCount: nat, contentBytes: nat, content: Option<Bytes>)

  datatype Job = Job(
    docId: Id, state: JobState, attempts: nat, nextRunAt: int,
    lockedBy: Id, lockedUntil: Option<int>, key: string, lastError: string, phase: string)

  datatype Tables = Tables(docs: map<Id, Doc>, jobs: map<Id, Job>)

  /** What an enqueue is given. */
  datatype Input = Input(kb: Id, title: string, sourceType: SourceType, sourceRef: string, raw: Bytes)

  function Namespace(kb: Id): string {
    "kb_" + kb
  }

  /** The rows are the same ones, and so are their columns that no UPDATE writes. */
  ghost predicate SameRows(t: Tables, u: Tables) {
    && u.docs.Keys == t.docs.Keys
    && u.jobs.Keys == t.jobs.Keys
    && (forall d :: d in t.docs ==> SameSource(t.docs[d], u.docs[d]))
    && (forall j :: j in t.jobs ==> u.jobs[j].docId == t.jobs[j].docId && u.jobs[j].key == t.jobs[j].key)
  }

  ghost predicate SameSource(a: Doc, b: Doc) {
    b.kb == a.kb && b.title == a.title && b.sourceType == a.sourceType && b.sourceRef == a.sourceRef
    && b.contentBytes == a.contentBytes
  }

  // ---- enqueue --------------------------------------------------------------

  function InputChecksum(sha: string -> string, input: Input): string {
    if input.sourceType == Url then "" else Checksum(sha, input.raw)
  }

  function InputKey(sha: string -> string, input: Input): string {
    IdempotencyKey(sha, input.kb, input.sourceRef, input.title, InputChecksum(sha, input))
  }

  function NewDoc(sha: string -> string, input: Input): Doc {
    Doc(input.kb, input.title, input.sourceType, input.sourceRef, InputChecksum(sha, input),
        DocPending, "", "", 0, |input.raw|, Some(input.raw))
  }

  function NewJob(sha: string -> string, docId: Id, input: Input, now: int): Job {
    Job(docId, JobPending, 0, now, "", None, InputKey(sha, input), "", "")
  }

  function InsertPair(sha: string -> string, t: Tables, docId: Id, jobId: Id, input: Input, now: int): Tables {
    Tables(t.docs[docId := NewDoc(sha, input)], t.jobs[jobId := NewJob(sha, docId, input, now)])
  }

  predicate KeyTaken(t: Tables, key: string) {
    exists j :: j in t.jobs && t.jobs[j].key == key
  }

  // ---- worker ---------------------------------------------------------------

  predicate Claimable(job: Job, now: int) {
    || (job.state == JobPending && job.nextRunAt <= now)
    || (job.state == JobRunning && job.lockedUntil.Some? && job.lockedUntil.value < now)
  }

  function ClaimedJob(job: Job, worker: Id, attempts: nat, until: int): Job {
    job.(state := JobRunning, lockedBy := worker, lockedUntil := Some(until), attempts := attempts, phase := "parsing")
  }

  function ClaimTables(t: Tables, jobId: Id, docId: Id, worker: Id, attempts: nat, until: int): (u: Tables)
    requires jobId in t.jobs && docId in t.docs
    ensures SameRows(t, u)
  {
    Tables(t.docs[docId := t.docs[docId].(status := DocParsing, phase := "parsing")],
           t.jobs[jobId := ClaimedJob(t.jobs[jobId], worker, attempts, until)])
  }

  /** The bytes loadRaw returns: a missing row, a NULL column or a failed read all give none. */
  function RawContent(t: Tables, docId: Id): Bytes {
    if docId in t.docs && t.docs[docId].content.Some? then t.docs[docId].content.value else ""
  }

  function SetDocPhase(t: Tables, docId: Id, phase: string): (u: Tables)
    ensures SameRows(t, u) && u.jobs == t.jobs
  {
    if docId in t.docs then t.(docs := t.docs[docId := t.docs[docId].(phase := phase)]) else t
  }

  function SetJobPhase(t: Tables, jobId: Id, phase: string): (u: Tables)
    ensures SameRows(t, u) && u.docs == t.docs
  {
    if jobId in t.jobs then t.(jobs := t.jobs[jobId := t.jobs[jobId].(phase := phase)]) else t
  }

  function MarkReady(t: Tables, docId: Id, count: nat, checksum: string): (u: Tables)
    ensures SameRows(t, u) && u.jobs == t.jobs
  {
    if docId in t.docs then
      t.(docs := t.docs[docId := t.docs[docId].(
        status := DocReady, phase := "ready", chunkCount := count, checksum := checksum, error := "", content := None)])
    else t
  }

  function MarkDone(t: Tables, jobId: Id): (u: Tables)
    ensures SameRows(t, u) && u.docs == t.docs
  {
    if jobId in t.jobs then
      t.(jobs := t.jobs[jobId := t.jobs[jobId].(state := JobDone, phase := "ready", lockedBy := "", lockedUntil := None)])
    else t
  }

  function MarkDead(t: Tables, jobId: Id, message: string): (u: Tables)
    ensures SameRows(t, u) && u.docs == t.docs
  {
    if jobId in t.jobs then
      t.(jobs := t.jobs[jobId := t.jobs[jobId].(state := JobDead, lastError := message, lockedBy := "", lockedUntil := None)])
    else t
  }

  function MarkFailed(t: Tables, docId: Id, message: string): (u: Tables)
    ensures SameRows(t, u) && u.jobs == t.jobs
  {
    if docId in t.docs then
      t.(docs := t.docs[docId := t.docs[docId].(status := DocFailed, phase := "failed", error := message)])
    else t
  }

  function RescheduleJob(t: Tables, jobId: Id, nextRunAt: int, message: string): (u: Tables)
    ensures SameRows(t, u) && u.docs == t.docs
  {
    if jobId in t.jobs then
      t.(jobs := t.jobs[jobId := t.jobs[jobId].(
        state := JobPending, nextRunAt := nextRunAt, lastError := message, lockedBy := "", lockedUntil := None)])
    else t
  }

  function RescheduleDoc(t: Tables, docId: Id, message: string): (u: Tables)
    ensures SameRows(t, u) && u.jobs == t.jobs
  {
    if docId in t.docs then
      t.(docs := t.docs[docId := t.docs[docId].(status := DocPending, phase := "retry-scheduled", error := message)])
    else t
  }

  // ---- retry and delete -----------------------------------------------------

  function ReviveJob(t: Tables, jobId: Id, now: int): (u: Tables)
    ensures SameRows(t, u) && u.docs == t.docs
  {
    if jobId in t.jobs then
      t.(jobs := t.jobs[jobId := t.jobs[jobId].(
        state := JobPending, attempts := 0, nextRunAt := now, lockedBy := "", lockedUntil := None, lastError := "")])
    else t
  }

  function ReviveDoc(t: Tables, docId: Id): (u: Tables)
    ensures SameRows(t, u) && u.jobs == t.jobs
  {
    if docId in t.docs then
      t.(docs := t.docs[docId := t.docs[docId].(status := DocPending, error := "", phase := "")])
    else t
  }

  /** DELETE FROM document, whose foreign key takes the document's jobs with it. */
  function DeleteDocRow(t: Tables, docId: Id): Tables {
    Tables(t.docs - {docId}, map j | j in t.jobs && t.jobs[j].docId != docId :: t.jobs[j])
  }

  // ---- backoff in 64-bit arithmetic -----------------------------------------

  const TWO_63: int := 0x8000_0000_0000_0000
  const TWO_64: int := 0x1_0000_0000_0000_0000

  /** The int64 that n wraps around to. */
  function Wrap64(n: int): int {
    var low := n % TWO_64;
    if low < TWO_63 then low else low - TWO_64
  }

  /** Go's `1 << count` at type int64: bits shifted past the top are lost. */
  function ShiftOne64(count: nat): int {
    if count < 64 then Wrap64(Pow2(count)) else 0
  }

  function Backoff64(base: int, attempts: nat): int
    requires attempts >= 1
  {
    Wrap64(base * ShiftOne64(attempts - 1))
  }

  /** The result is the int64 that differs from n by a multiple of 2^64. */
  lemma WrapsAround(n: int)
    ensures -TWO_63 <= Wrap64(n) < TWO_63 && (n - Wrap64(n)) % TWO_64 == 0
  {
  }

  /** So a shift into the sign bit gives the least int64, and one past it nothing. */
  lemma ShiftsOut(count: nat)
    ensures count >= 64 ==> ShiftOne64(count) == 0
    ensures Pow2(count) == TWO_63 && count < 64 ==> ShiftOne64(count) == -TWO_63
    ensures Pow2(count) < TWO_63 && count < 64 ==> ShiftOne64(count) == Pow2(count)
  {
  }

  // ---- chunk store ----------------------------------------------------------

  datatype ChunkRow = ChunkRow(namespace: string, source: Id, text: string)

  /** The texts of one source, in store order and with any repetitions. */
  function ChunksOf(store: seq<ChunkRow>, namespace: string, source: Id): seq<string> {
    if store == [] then []
    else
      (if store[0].namespace == namespace && store[0].source == source then [store[0].text] else [])
      + ChunksOf(store[1..], namespace, source)
  }

  function Without(store: seq<ChunkRow>, namespace: string, source: Id): seq<ChunkRow> {
    if store == [] then []
    else
      (if store[0].namespace == namespace && store[0].source == source then [] else [store[0]])
      + Without(store[1..], namespace, source)
  }

  function Labelled(namespace: string, source: Id, texts: seq<string>): seq<ChunkRow> {
    seq(|texts|, i requires 0 <= i < |texts| => ChunkRow(namespace, source, texts[i]))
  }

  /** Import with ReplaceSource set: the source's chunks go, the new ones come. */
  function ReplaceSource(store: seq<ChunkRow>, namespace: string, source: Id, texts: seq<string>): seq<ChunkRow> {
    Without(store, namespace, source) + Labelled(namespace, source, texts)
  }

  lemma ConcatAssociates(a: seq<string>, b: seq<string>, c: seq<string>)
    ensures a + (b + c) == (a + b) + c
  {
  }

  lemma {:induction false} ChunksOfConcat(a: seq<ChunkRow>, b: seq<ChunkRow>, namespace: string, source: Id)
    ensures ChunksOf(a + b, namespace, source) == ChunksOf(a, namespace, source) + ChunksOf(b, namespace, source)
  {
    if a == [] {
      assert a + b == b;
    } else {
      var rest := a[1..];
      ChunksOfConcat(rest, b, namespace, source);
      assert (a + b)[0] == a[0] && (a + b)[1..] == rest + b;
      var first := if a[0].namespace == namespace && a[0].source == source then [a[0].text] else [];
      assert ChunksOf(a + b, namespace, source) == first + ChunksOf(rest + b, namespace, source);
      ConcatAssociates(first, ChunksOf(rest, namespace, source), ChunksOf(b, namespace, source));
    }
  }

  lemma {:induction false} ChunksOfWithout(store: seq<ChunkRow>, namespace: string, source: Id, ns: string, src: Id)
    ensures ChunksOf(Without(store, namespace, source), ns, src)
         == if ns == namespace && src == source then [] else ChunksOf(store, ns, src)
  {
    if store != [] {
      ChunksOfWithout(store[1..], namespace, source, ns, src);
      var kept := if store[0].namespace == namespace && store[0].source == source then [] else [store[0]];
      ChunksOfConcat(kept, Without(store[1..], namespace, source), ns, src);
    }
  }

  lemma {:induction false} ChunksOfLabelled(namespace: string, source: Id, texts: seq<string>, ns: string, src: Id)
    ensures ChunksOf(Labelled(namespace, source, texts), ns, src)
         == if ns == namespace && src == source then texts else []
    decreases |texts|
  {
    if texts != [] {
      ChunksOfLabelled(namespace, source, texts[1..], ns, src);
      assert Labelled(namespace, source, texts)[1..] == Labelled(namespace, source, texts[1..]);
      assert [texts[0]] + texts[1..] == texts;
    }
  }

  /** A re-import leaves exactly the new chunks for its source and every other source as it was. */
  lemma ReplaceSourceExact(store: seq<ChunkRow>, namespace: string, source: Id, texts: seq<string>, ns: string, src: Id)
    ensures ChunksOf(ReplaceSource(store, namespace, source, texts), ns, src)
         == if ns == namespace && src == source then texts else ChunksOf(store, ns, src)
  {
    ChunksOfConcat(Without(store, namespace, source), Labelled(namespace, source, texts), ns, src);
    ChunksOfWithout(store, namespace, source, ns, src);
    ChunksOfLabelled(namespace, source, texts, ns, src);
  }
}
