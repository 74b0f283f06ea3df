/**
 Runs that show why the conditions on timely and clean runs are there: what goes wrong when a
 worker writes after its lease, when the content read fails, when a file is uploaded whose bytes are
 another's text, when a document is deleted while it is imported, when a Retry lands inside a
 failure's pair of writes, and when a job's worker crashes every time.
 */
module QueueExamples {
  import opened Basics
  import opened Keys
  import opened Rows
  import opened Queue
  import opened QueueAlways
  import opened QueueTimely
  import opened QueueAgreement
  import opened Processing
  import opened Dedup

  const PASTE := Input("kb", "title", Paste, "", "body")

  function Smooth(text: string, readOk: bool): Calls {
    Calls(readOk, Ok(text), true, true, Ok(1), [], true, true, true)
  }

  /** Enqueue one document and let worker `first` claim it at time 0. */
  function Opening(input: Input, first: Id): seq<Label> {
    [Enqueue("d", "j", input), TakeClaim(first, "j", 0)]
  }

  /** The single document d and job j, claimed by w and not touched since. */
  ghost predicate JustClaimed(env: Env, s: System, input: Input, w: Id) {
    && PcOf(s, w).Claimed? && PcOf(s, w).c.docId == "d" && PcOf(s, w).c.jobId == "j"
    && PcOf(s, w).c.kb == input.kb && PcOf(s, w).c.sourceType == input.sourceType
    && "d" in s.tables.docs && "j" in s.tables.jobs
    && s.tables.docs["d"].kb == input.kb && s.tables.docs["d"].sourceType == input.sourceType
    && s.tables.docs["d"].title == input.title && s.tables.docs["d"].sourceRef == input.sourceRef
    && s.tables.docs["d"].content == Some(input.raw)
    && s.tables.jobs["j"].docId == "d"
    && s.tables.jobs["j"].state == JobRunning && s.tables.jobs["j"].lockedUntil == Some(PcOf(s, w).c.leaseEnd)
    && s.log.jobOf == map["d" := "j"] && s.log.origin == map["d" := input.raw]
  }

  /** The state after the first enqueue. */
  function Enqueued(env: Env, input: Input): System {
    System(InsertPair(env.sha, Tables(map[], map[]), "d", "j", input, 0), [], 0, map[], map[],
           History({"d", "j"}, map["d" := "j"], map["d" := input.raw], {}, {}, map[], [], map[], map[], []))
  }

  lemma EnqueueFirst(env: Env, input: Input)
    ensures Enabled(env, START, Enqueue("d", "j", input)) && Apply(env, START, Enqueue("d", "j", input)) == Enqueued(env, input)
  {
    hide Checksum, IdempotencyKey, Extract, Claimable;
  }

  lemma EnqueueOpens(env: Env, input: Input)
    ensures Legal(env, [Enqueue("d", "j", input)]) && After(env, [Enqueue("d", "j", input)]) == Enqueued(env, input)
  {
    hide Apply, Enabled, Enqueued;
    EnqueueFirst(env, input);
    LegalExtend(env, [], Enqueue("d", "j", input));
    assert [] + [Enqueue("d", "j", input)] == [Enqueue("d", "j", input)];
  }

  lemma ClaimOpens(env: Env, input: Input, w: Id)
    ensures Enabled(env, Enqueued(env, input), TakeClaim(w, "j", 0))
    ensures
      var s := Apply(env, Enqueued(env, input), TakeClaim(w, "j", 0));
      && JustClaimed(env, s, input, w)
      && PcOf(s, w).c.attempts == 1 && PcOf(s, w).c.leaseEnd == env.lease && s.now == 0
      && s.pcs == map[w := PcOf(s, w)]
      && s.log.misread == {} && s.log.deleting == {} && s.log.half == map[] && s.log.last == map["j" := 0]
      && PcOf(s, w).c.serial == 0 && s.retries == map[]
  {
  }

  lemma OpeningClaims(env: Env, input: Input, w: Id)
    ensures Legal(env, Opening(input, w))
    ensures
      var s := After(env, Opening(input, w));
      && JustClaimed(env, s, input, w)
      && PcOf(s, w).c.attempts == 1 && PcOf(s, w).c.leaseEnd == env.lease && s.now == 0
      && s.pcs == map[w := PcOf(s, w)]
      && s.log.misread == {} && s.log.deleting == {} && s.log.half == map[] && s.log.last == map["j" := 0]
      && PcOf(s, w).c.serial == 0 && s.retries == map[]
  {
    hide Apply, Enabled, After, Legal, JustClaimed, Enqueued;
    EnqueueOpens(env, input);
    ClaimOpens(env, input, w);
    LegalExtend(env, [Enqueue("d", "j", input)], TakeClaim(w, "j", 0));
    assert [Enqueue("d", "j", input)] + [TakeClaim(w, "j", 0)] == Opening(input, w);
  }

  /** Processing with every call going through, from what the worker read and the text that gave. */
  lemma SmoothProcessing(env: Env, run: seq<Label>, w: Id, raw: Bytes, text: string, readOk: bool)
    requires Legal(env, run)
    requires
      var s := After(env, run);
      && PcOf(s, w).Claimed? && Extract(env, PcOf(s, w).c.sourceType, raw) == Some(text)
      && PcOf(s, w).c.docId in s.tables.docs
      && s.tables.docs[PcOf(s, w).c.docId].kb == PcOf(s, w).c.kb
      && RawRead(StoreOf(s), PcOf(s, w).c, Smooth("", readOk)) == raw
    ensures Legal(env, run + ProcessSteps(w, Smooth(text, readOk)))
    ensures
      var s, s' := After(env, run), After(env, run + ProcessSteps(w, Smooth(text, readOk)));
      var c := PcOf(s, w).c;
      && (forall v :: v != w ==> PcOf(s', v) == PcOf(s, v))
      && c.docId in s'.tables.docs
      && s'.tables.docs[c.docId].status == DocReady && s'.tables.docs[c.docId].content == None
      && s'.tables.docs[c.docId].kb == c.kb && SameSource(s.tables.docs[c.docId], s'.tables.docs[c.docId])
      && s'.tables.docs[c.docId].checksum == Checksum(env.sha, text)
      && ChunksOf(s'.chunks, Namespace(c.kb), c.docId) == env.split(text)
  {
    var s := After(env, run);
    var c := PcOf(s, w).c;
    ProcessIsARun(env, run, w, Smooth(text, readOk));
    ReplaceSourceExact(s.chunks, Namespace(c.kb), c.docId, env.split(text), Namespace(c.kb), c.docId);
    assert StoreOf(After(env, run + ProcessSteps(w, Smooth(text, readOk))))
        == Processed(env, StoreOf(s), c, Smooth(text, readOk));
  }

  // ---- staying timely ---------------------------------------------------------------

  lemma TimelyExtend(env: Env, run: seq<Label>, l: Label)
    requires Legal(env, run) && Timely(env, run) && Enabled(env, After(env, run), l) && TimelyStep(After(env, run), l)
    ensures Legal(env, run + [l]) && Timely(env, run + [l])
    ensures After(env, run + [l]) == Apply(env, After(env, run), l)
  {
    hide Apply, Enabled, TimelyStep;
    LegalExtend(env, run, l);
    forall n | 0 <= n < |run + [l]| ensures TimelyStep(StateAt(env, run + [l], n), (run + [l])[n]) {
      assert (run + [l])[..n] == run[..n];
      if n < |run| {
        assert TimelyStep(StateAt(env, run, n), run[n]);
      } else {
        assert run[..n] == run;
      }
    }
  }

  /** A holder within its lease can go on: none of these steps is late. */
  lemma {:induction false} OwnStepsTimely(env: Env, run: seq<Label>, steps: seq<Label>, w: Id)
    requires Legal(env, run) && Timely(env, run) && Legal(env, run + steps)
    requires forall n :: 0 <= n < |steps| ==> OwnStep(steps[n], w)
    requires steps != [] ==> OnTime(After(env, run), Some(w))
    ensures Timely(env, run + steps)
    decreases |steps|
  {
    hide Apply, Enabled, TimelyStep, Timely, OwnStep, OnTime, Legal, After;
    if steps == [] {
      assert run + steps == run;
    } else {
      var l, rest := steps[0], steps[1..];
      assert run + [l] + rest == run + steps;
      FirstStep(env, run, l, rest);
      assert OwnStep(l, w);
      OwnStepIsTimely(After(env, run), l, w);
      TimelyExtend(env, run, l);
      if rest != [] {
        assert run + [l] + [rest[0]] + rest[1..] == run + steps && rest[0] == steps[1];
        FirstStep(env, run + [l], rest[0], rest[1..]);
        assert OwnStep(rest[0], w);
        StillOnTime(env, After(env, run), l, rest[0], w);
      }
      forall n | 0 <= n < |rest| ensures OwnStep(rest[n], w) {
        assert rest[n] == steps[n + 1];
      }
      OwnStepsTimely(env, run + [l], rest, w);
    }
  }

  lemma FirstStep(env: Env, run: seq<Label>, l: Label, rest: seq<Label>)
    requires Legal(env, run) && Legal(env, run + [l] + rest)
    ensures Enabled(env, After(env, run), l)
  {
    var whole := run + [l] + rest;
    LegalPrefix(env, whole, |run|);
    assert whole[..|run|] == run;
  }

  lemma OwnStepIsTimely(s: System, l: Label, w: Id)
    requires OwnStep(l, w) && OnTime(s, Some(w))
    ensures TimelyStep(s, l)
  {
  }

  ghost predicate OwnStep(l: Label, w: Id) {
    ActorOf(l) == Some(w) && !l.TakeClaim? && !l.FailDoc? && !l.Crash?
  }

  lemma StillOnTime(env: Env, s: System, l: Label, next: Label, w: Id)
    requires Enabled(env, s, l) && OwnStep(l, w) && OnTime(s, Some(w))
    requires Enabled(env, Apply(env, s, l), next) && OwnStep(next, w)
    ensures OnTime(Apply(env, s, l), Some(w))
  {
    PcMoves(env, s, l, w);
    assert !PcOf(Apply(env, s, l), w).Idle?;
  }

  lemma FirstIsTimely(env: Env, input: Input)
    ensures Legal(env, [Enqueue("d", "j", input)]) && Timely(env, [Enqueue("d", "j", input)])
  {
    hide Apply;
    TimelyExtend(env, [], Enqueue("d", "j", input));
    assert [] + [Enqueue("d", "j", input)] == [Enqueue("d", "j", input)];
  }

  lemma SecondIsTimely(env: Env, input: Input, w: Id)
    ensures TimelyStep(Enqueued(env, input), TakeClaim(w, "j", 0))
  {
  }

  lemma OpeningIsTimely(env: Env, input: Input, w: Id)
    ensures Legal(env, Opening(input, w)) && Timely(env, Opening(input, w))
  {
    hide Apply, Enabled, After, Legal, Timely, Enqueued;
    var first := [Enqueue("d", "j", input)];
    assert [] + first == first && first + [TakeClaim(w, "j", 0)] == Opening(input, w);
    EnqueueOpens(env, input);
    ClaimOpens(env, input, w);
    FirstIsTimely(env, input);
    SecondIsTimely(env, input, w);
    TimelyExtend(env, first, TakeClaim(w, "j", 0));
  }

  // ---- a failed content read --------------------------------------------------------

  function FailedReadRun(): seq<Label> {
    Opening(PASTE, "A") + ProcessSteps("A", Smooth("", false))
  }

  /** The document is ready, its bytes are gone, and its chunks are not those of what was enqueued. */
  ghost predicate Lost(env: Env, s: System, d: Id, raw: Bytes) {
    && d in s.tables.docs && s.tables.docs[d].status == DocReady && s.tables.docs[d].content == None
    && d in s.log.origin && s.log.origin[d] == raw && !IndexedFrom(env, s, d, raw)
  }

  ghost predicate TimelyRunLoses(env: Env, run: seq<Label>, d: Id, raw: Bytes) {
    Legal(env, run) && Timely(env, run) && Lost(env, After(env, run), d, raw)
  }

  lemma SmoothStepsAreOwn(w: Id, raw: Bytes, readOk: bool)
    ensures forall n :: 0 <= n < |ProcessSteps(w, Smooth(raw, readOk))| ==> OwnStep(ProcessSteps(w, Smooth(raw, readOk))[n], w)
  {
  }

  /** loadRaw only logs a failed read: the document is then marked ready with the chunks of an empty text, and its bytes are gone. */
  lemma FailedReadLosesDocument(env: Env)
    requires env.split("") != env.split("body")
    ensures TimelyRunLoses(env, FailedReadRun(), "d", "body")
  {
    var run, steps := Opening(PASTE, "A"), ProcessSteps("A", Smooth("", false));
    OpeningClaims(env, PASTE, "A");
    OpeningIsTimely(env, PASTE, "A");
    SmoothStepsAreOwn("A", "", false);
    hide After, Legal, Timely, Apply, Enabled, ProcessSteps, Opening, FailedReadRun;
    SmoothProcessing(env, run, "A", "", "", false);
    OwnStepsTimely(env, run, steps, "A");
    OriginStands(env, run, steps, "A");
    FailedReadIs();
  }

  const EMPTY := PASTE.(raw := "")

  /** The short-circuit then mistakes it for an upload without content, which the unique key does not lead to. */
  lemma FailedReadMisleadsFastPath(env: Env)
    requires !Collision(env.sha, "body", "")
    requires !Collision(env.sha, KeyText("kb", "title", Checksum(env.sha, "body")), KeyText("kb", "title", Checksum(env.sha, "")))
    ensures Legal(env, FailedReadRun())
    ensures
      var t := After(env, FailedReadRun()).tables;
      FastPathMatches(env.sha, t, EMPTY, "d") && !KeyLeadsTo(env.sha, t, EMPTY, "d")
  {
    var run, steps := Opening(PASTE, "A"), ProcessSteps("A", Smooth("", false));
    OpeningClaims(env, PASTE, "A");
    SmoothStepsAreOwn("A", "", false);
    hide After, Legal, Apply, Enabled, ProcessSteps, Opening, FailedReadRun;
    SmoothProcessing(env, run, "A", "", "", false);
    OriginStands(env, run, steps, "A");
    FailedReadIs();
    AlwaysPaired(env, FailedReadRun());
    KeysApart(env.sha);
    OtherKeyMisses(env, After(env, FailedReadRun()), "d", PASTE, EMPTY);
  }

  /** A document's only job has the key of what was enqueued, so no other key leads to it. */
  lemma OtherKeyMisses(env: Env, s: System, d: Id, own: Input, other: Input)
    requires Paired(env, s) && d in s.tables.docs && d in s.log.origin && InputOf(s, d) == own
    requires InputKey(env.sha, own) != InputKey(env.sha, other)
    ensures !KeyLeadsTo(env.sha, s.tables, other, d)
  {
    assert DocPaired(env, s, d);
    forall j | j in s.tables.jobs && s.tables.jobs[j].docId == d ensures s.tables.jobs[j].key != InputKey(env.sha, other) {
      assert JobPaired(s, j);
    }
  }

  lemma KeysApart(sha: string -> string)
    requires !Collision(sha, "body", "")
    requires !Collision(sha, KeyText("kb", "title", Checksum(sha, "body")), KeyText("kb", "title", Checksum(sha, "")))
    ensures InputKey(sha, PASTE) != InputKey(sha, EMPTY)
  {
    ChecksumFaithful(sha, "body", "");
    var one, two := KeyText("kb", "title", Checksum(sha, "body")), KeyText("kb", "title", Checksum(sha, ""));
    assert one[9..] == Checksum(sha, "body") && two[9..] == Checksum(sha, "");
    assert InputKey(sha, PASTE)[5..] == sha(one) && InputKey(sha, EMPTY)[5..] == sha(two);
  }

  // ---- a file matched by the text of another ---------------------------------------------

  const FILE := Input("kb", "title", Pdf, "f.pdf", "%PDF")

  const TEXT_OF_FILE := FILE.(raw := "body")

  function FileRun(): seq<Label> {
    Opening(FILE, "A") + ProcessSteps("A", Smooth("body", true))
  }

  lemma FileRunIs()
    ensures FileRun() == Opening(FILE, "A") + ProcessSteps("A", Smooth("body", true))
  {
  }

  lemma FileOpened(env: Env)
    ensures Legal(env, Opening(FILE, "A"))
    ensures
      var s := After(env, Opening(FILE, "A"));
      && JustClaimed(env, s, FILE, "A") && RawRead(StoreOf(s), PcOf(s, "A").c, Smooth("", true)) == "%PDF"
  {
    hide After, Legal, Opening;
    OpeningClaims(env, FILE, "A");
  }

  lemma FileProcessed(env: Env)
    requires env.pdfText("%PDF") == Some("body")
    ensures Legal(env, FileRun())
    ensures
      var s := After(env, FileRun());
      && "d" in s.tables.docs && s.tables.docs["d"].status == DocReady && s.tables.docs["d"].checksum == Checksum(env.sha, "body")
      && "d" in s.log.origin && InputOf(s, "d") == FILE
  {
    var run, steps := Opening(FILE, "A"), ProcessSteps("A", Smooth("body", true));
    FileOpened(env);
    SmoothStepsAreOwn("A", "body", true);
    FileRunIs();
    hide After, Legal, Apply, Enabled, ProcessSteps, Opening, FileRun, Checksum, RawRead;
    SmoothProcessing(env, run, "A", "%PDF", "body", true);
    OriginStands(env, run, steps, "A");
  }

  /**
   A file whose bytes are the text extracted from a file of the same name is answered with that other
   document, which the unique key does not lead to: the short-circuit compares bytes with a text.
   */
  lemma FileMistakenForAnother(env: Env)
    requires env.pdfText("%PDF") == Some("body")
    requires !Collision(env.sha, "%PDF", "body")
    requires !Collision(env.sha, KeyText("kb", "f.pdf", Checksum(env.sha, "%PDF")), KeyText("kb", "f.pdf", Checksum(env.sha, "body")))
    ensures Legal(env, FileRun())
    ensures
      var t := After(env, FileRun()).tables;
      FastPathMatches(env.sha, t, TEXT_OF_FILE, "d") && !KeyLeadsTo(env.sha, t, TEXT_OF_FILE, "d")
  {
    hide After, Legal, FileRun, Paired, IdempotencyKey, KeyLeadsTo;
    FileProcessed(env);
    AlwaysPaired(env, FileRun());
    FileKeysApart(env.sha);
    OtherKeyMisses(env, After(env, FileRun()), "d", FILE, TEXT_OF_FILE);
  }

  lemma FileKeysApart(sha: string -> string)
    requires !Collision(sha, "%PDF", "body")
    requires !Collision(sha, KeyText("kb", "f.pdf", Checksum(sha, "%PDF")), KeyText("kb", "f.pdf", Checksum(sha, "body")))
    ensures InputKey(sha, FILE) != InputKey(sha, TEXT_OF_FILE)
  {
    ChecksumFaithful(sha, "%PDF", "body");
    var one, two := KeyText("kb", "f.pdf", Checksum(sha, "%PDF")), KeyText("kb", "f.pdf", Checksum(sha, "body"));
    assert one[9..] == Checksum(sha, "%PDF") && two[9..] == Checksum(sha, "body");
    assert InputKey(sha, FILE)[5..] == sha(one) && InputKey(sha, TEXT_OF_FILE)[5..] == sha(two);
  }

  lemma FailedReadIs()
    ensures FailedReadRun() == Opening(PASTE, "A") + ProcessSteps("A", Smooth("", false))
  {
  }

  lemma LastStep(env: Env, run: seq<Label>, l: Label)
    requires Legal(env, run + [l])
    ensures Legal(env, run) && Enabled(env, After(env, run), l) && After(env, run + [l]) == Apply(env, After(env, run), l)
  {
    hide Apply, Enabled;
    assert (run + [l])[..|run|] == run;
  }

  /** A worker's own steps enqueue nothing. */
  lemma {:induction false} OriginStands(env: Env, run: seq<Label>, steps: seq<Label>, w: Id)
    requires Legal(env, run) && Legal(env, run + steps)
    requires forall n :: 0 <= n < |steps| ==> ActorOf(steps[n]) == Some(w)
    ensures After(env, run + steps).log.origin == After(env, run).log.origin
    decreases |steps|
  {
    hide Apply, Enabled, After, Legal;
    if steps == [] {
      assert run + steps == run;
    } else {
      var front, l := steps[..|steps| - 1], steps[|steps| - 1];
      assert run + steps == run + front + [l];
      LastStep(env, run + front, l);
      OriginStands(env, run, front, w);
      assert ActorOf(l) == Some(w);
      OriginKept(env, After(env, run + front), l);
    }
  }

  lemma OriginKept(env: Env, s: System, l: Label)
    requires Enabled(env, s, l) && ActorOf(l).Some?
    ensures Apply(env, s, l).log.origin == s.log.origin
  {
    StepKeepsIds(env, s, l);
  }

  // ---- a worker that writes after its lease --------------------------------------------

  function TakeoverRun(env: Env, input: Input): seq<Label> {
    Opening(input, "A") + [Tick(env.lease + 1), TakeClaim("B", "j", env.lease + 1)]
  }

  function LateWorkerRun(env: Env): seq<Label> {
    TakeoverRun(env, PASTE) + ProcessSteps("B", Smooth("body", true)) + ProcessSteps("A", Smooth("", true))
  }

  ghost predicate TwoHolders(env: Env, s: System, input: Input) {
    && JustClaimed(env, s, input, "B")
    && PcOf(s, "A").Claimed? && PcOf(s, "A").c.docId == "d" && PcOf(s, "A").c.jobId == "j" && PcOf(s, "A").c.kb == input.kb
    && PcOf(s, "A").c.sourceType == input.sourceType && PcOf(s, "A").c.attempts == 1
    && s.now == env.lease + 1 && PcOf(s, "B").c.leaseEnd == s.now + env.lease && PcOf(s, "C").Idle?
  }

  /** A's claim of time 0 has just run out. */
  ghost predicate RanOut(env: Env, s: System, input: Input) {
    && JustClaimed(env, s, input, "A") && s.now == env.lease + 1 && PcOf(s, "A").c.leaseEnd == env.lease
    && PcOf(s, "A").c.attempts == 1 && s.pcs == map["A" := PcOf(s, "A")]
  }

  lemma LeaseRunsOut(env: Env, s: System, input: Input)
    requires JustClaimed(env, s, input, "A") && s.now == 0 && PcOf(s, "A").c.leaseEnd == env.lease
    requires PcOf(s, "A").c.attempts == 1 && s.pcs == map["A" := PcOf(s, "A")]
    ensures Enabled(env, s, Tick(env.lease + 1)) && RanOut(env, Apply(env, s, Tick(env.lease + 1)), input)
  {
    hide Extract, KeyTaken, Claimable;
  }

  lemma TakenOver(env: Env, s: System, input: Input)
    requires RanOut(env, s, input)
    ensures
      var claim := TakeClaim("B", "j", env.lease + 1);
      Enabled(env, s, claim) && TwoHolders(env, Apply(env, s, claim), input)
  {
    hide Extract, KeyTaken, Checksum, HalfAfter, ChunksAfter, RetriesAfter, IdempotencyKey, Backoff64;
  }

  lemma TakeoverClaims(env: Env, input: Input)
    ensures Legal(env, TakeoverRun(env, input)) && TwoHolders(env, After(env, TakeoverRun(env, input)), input)
  {
    var opening := Opening(input, "A");
    OpeningClaims(env, input, "A");
    hide Apply, Enabled, After, Legal, TwoHolders, RanOut;
    LeaseRunsOut(env, After(env, opening), input);
    LegalExtend(env, opening, Tick(env.lease + 1));
    TakenOver(env, After(env, opening + [Tick(env.lease + 1)]), input);
    LegalExtend(env, opening + [Tick(env.lease + 1)], TakeClaim("B", "j", env.lease + 1));
    assert opening + [Tick(env.lease + 1)] + [TakeClaim("B", "j", env.lease + 1)] == TakeoverRun(env, input);
  }

  /**
   Nothing checks the lease when a worker writes.  A claims, its lease runs out, B takes over and
   finishes; then A, reading successfully but finding the content already cleared, replaces the
   chunks by those of an empty text and commits.
   */
  lemma LateWorkerLosesDocument(env: Env)
    requires env.split("") != env.split("body")
    ensures Legal(env, LateWorkerRun(env))
    ensures forall n :: 0 <= n < |LateWorkerRun(env)| && LateWorkerRun(env)[n].LoadRaw? ==> LateWorkerRun(env)[n].ok
    ensures
      var s := After(env, LateWorkerRun(env));
      && "d" in s.tables.docs && s.tables.docs["d"].status == DocReady && s.tables.docs["d"].content == None
      && !IndexedFrom(env, s, "d", "body")
  {
    TakeoverClaims(env, PASTE);
    hide Apply, Enabled, After, Legal;
    SmoothProcessing(env, TakeoverRun(env, PASTE), "B", "body", "body", true);
    SmoothProcessing(env, TakeoverRun(env, PASTE) + ProcessSteps("B", Smooth("body", true)), "A", "", "", true);
  }

  const PDF := Input("kb", "title", Pdf, "file.pdf", "body")

  /** A's lease runs out and B takes over; then A fails late, which makes the job pending again, and C claims it. */
  function RivalsRun(env: Env, backoff: nat): seq<Label> {
    TakeoverRun(env, PDF) + [LoadRaw("A", true), ParseErr("A", "bad"), FailJob("A", true)]
    + [Tick(backoff), TakeClaim("C", "j", env.lease + 1 + backoff)]
  }

  /** B holds the job within its lease, A works on with its old claim, and C has none. */
  ghost predicate Overtaken(env: Env, s: System, late: Pc) {
    && PcOf(s, "A") == late && !late.Idle? && late.c.jobId == "j" && late.c.docId == "d" && late.c.attempts == 1
    && late.c.sourceType == Pdf
    && PcOf(s, "B").Claimed? && PcOf(s, "B").c.jobId == "j" && PcOf(s, "B").c.docId == "d"
    && PcOf(s, "B").c.leaseEnd == s.now + env.lease && s.now == env.lease + 1
    && PcOf(s, "C").Idle?
    && JobOfDoc(s.tables, "j", "d") && "d" in s.tables.docs
  }

  lemma LateFailure(env: Env, s: System, pc: Pc)
    requires env.maxAttempts >= 2 && Overtaken(env, s, pc) && pc.Failing?
    ensures Enabled(env, s, FailJob("A", true))
    ensures
      var s' := Apply(env, s, FailJob("A", true));
      && Overtaken(env, s', HalfFailed(pc.c, pc.message))
      && s'.tables.jobs["j"].state == JobPending && s'.tables.jobs["j"].nextRunAt == s.now + Backoff64(env.baseBackoff, 1)
  {
    hide Backoff64, Extract, KeyTaken, Checksum, Claimable, HalfAfter, ChunksAfter, RetriesAfter, Reschedules;
  }

  lemma LateRead(env: Env, s: System, pc: Pc)
    requires Overtaken(env, s, pc) && pc.Claimed?
    ensures Enabled(env, s, LoadRaw("A", true))
    ensures
      var read := Apply(env, s, LoadRaw("A", true));
      PcOf(read, "A").Loaded? && Overtaken(env, read, PcOf(read, "A"))
  {
  }

  lemma LateParse(env: Env, s: System, pc: Pc)
    requires Overtaken(env, s, pc) && pc.Loaded?
    ensures Enabled(env, s, ParseErr("A", "bad"))
    ensures Overtaken(env, Apply(env, s, ParseErr("A", "bad")), Failing(pc.c, "bad"))
  {
  }

  ghost predicate BothLive(s: System, v: Id, w: Id, j: Id) {
    v != w && Live(s, v) && Live(s, w) && PcOf(s, v).c.jobId == j && PcOf(s, w).c.jobId == j
  }

  /** The job that B holds is due again. */
  ghost predicate DueAgain(env: Env, s: System) {
    && PcOf(s, "B").Claimed? && PcOf(s, "B").c.jobId == "j" && s.now <= PcOf(s, "B").c.leaseEnd && PcOf(s, "C").Idle?
    && JobOfDoc(s.tables, "j", "d") && "d" in s.tables.docs
    && s.tables.jobs["j"].state == JobPending && s.tables.jobs["j"].nextRunAt <= s.now
  }

  lemma BackoffPasses(env: Env, s: System, pc: Pc, backoff: nat)
    requires Overtaken(env, s, pc) && backoff <= env.lease
    requires s.tables.jobs["j"].state == JobPending && s.tables.jobs["j"].nextRunAt == s.now + backoff
    ensures Enabled(env, s, Tick(backoff))
    ensures
      var later := Apply(env, s, Tick(backoff));
      DueAgain(env, later) && later.now == env.lease + 1 + backoff
  {
    hide Extract, KeyTaken, Claimable;
  }

  lemma ThirdClaim(env: Env, s: System)
    requires DueAgain(env, s)
    ensures
      var claim := TakeClaim("C", "j", s.now);
      Enabled(env, s, claim) && BothLive(Apply(env, s, claim), "B", "C", "j")
  {
    hide Extract, KeyTaken, TablesAfter, LogAfter, ChunksAfter, RetriesAfter;
  }

  /**
   Outside timely runs two workers hold one job at once, both within their leases: the reschedule of the
   worker that lost its lease hands B's job to C.
   */
  lemma TwoLiveHolders(env: Env, backoff: nat)
    requires env.maxAttempts >= 2 && backoff == Backoff64(env.baseBackoff, 1) && backoff <= env.lease
    ensures Legal(env, RivalsRun(env, backoff)) && BothLive(After(env, RivalsRun(env, backoff)), "B", "C", "j")
  {
    TakeoverClaims(env, PDF);
    hide Apply, Enabled, After, Legal, TakeoverRun, BothLive, Backoff64, DueAgain;
    var taken := TakeoverRun(env, PDF);
    LateRead(env, After(env, taken), PcOf(After(env, taken), "A"));
    LegalExtend(env, taken, LoadRaw("A", true));
    var read := taken + [LoadRaw("A", true)];
    LateParse(env, After(env, read), PcOf(After(env, read), "A"));
    LegalExtend(env, read, ParseErr("A", "bad"));
    var parsed := read + [ParseErr("A", "bad")];
    LateFailure(env, After(env, parsed), PcOf(After(env, parsed), "A"));
    LegalExtend(env, parsed, FailJob("A", true));
    var failed := parsed + [FailJob("A", true)];
    BackoffPasses(env, After(env, failed), PcOf(After(env, failed), "A"), backoff);
    LegalExtend(env, failed, Tick(backoff));
    ThirdClaim(env, After(env, failed + [Tick(backoff)]));
    LegalExtend(env, failed + [Tick(backoff)], TakeClaim("C", "j", env.lease + 1 + backoff));
    assert failed + [Tick(backoff)] + [TakeClaim("C", "j", env.lease + 1 + backoff)] == RivalsRun(env, backoff);
  }

  // ---- a document deleted while it is imported -------------------------------------------

  function ReadyToImport(): seq<Label> {
    Opening(PASTE, "A") + [LoadRaw("A", true), ParseOk("A", "body")] + [PhaseDoc("A", true), PhaseJob("A", true)]
  }

  function DeletedRun(): seq<Label> {
    ReadyToImport() + [DeleteChunks("d", "kb"), DeleteRow("d"), ImportOk("A", 1)]
  }

  ghost predicate AboutToImport(s: System) {
    && PcOf(s, "A").Indexing? && PcOf(s, "A").text == "body" && PcOf(s, "A").c.docId == "d" && PcOf(s, "A").c.kb == "kb"
  }

  lemma ReadyIsLegal(env: Env)
    ensures Legal(env, ReadyToImport())
    ensures
      var s := After(env, ReadyToImport());
      AboutToImport(s) && "d" in s.tables.docs && s.tables.docs["d"].kb == "kb" && "d" in s.log.jobOf
  {
    var opening, calls := Opening(PASTE, "A"), Smooth("body", true);
    OpeningClaims(env, PASTE, "A");
    hide After, Legal, Opening;
    ReadAndParseIsARun(env, opening, "A", calls);
    PhasesAreARun(env, opening + [LoadRaw("A", true), ParseOk("A", "body")], "A", calls);
    hide Paired;
    AlwaysPaired(env, ReadyToImport());
    PairedOf(env, After(env, ReadyToImport()), "d", "", "", "");
  }

  lemma ChunksThenRow(env: Env, s: System)
    requires AboutToImport(s) && "d" in s.tables.docs && s.tables.docs["d"].kb == "kb" && "d" in s.log.jobOf
    ensures Enabled(env, s, DeleteChunks("d", "kb"))
    ensures
      var cleared := Apply(env, s, DeleteChunks("d", "kb"));
      && Enabled(env, cleared, DeleteRow("d"))
      && var deleted := Apply(env, cleared, DeleteRow("d"));
      AboutToImport(deleted) && "d" !in deleted.tables.docs
  {
    hide Extract, KeyTaken, Claimable, Without;
  }

  lemma ImportAfterAll(env: Env, s: System)
    requires AboutToImport(s)
    ensures Enabled(env, s, ImportOk("A", 1))
    ensures
      var after := Apply(env, s, ImportOk("A", 1));
      after.tables == s.tables && ChunksOf(after.chunks, Namespace("kb"), "d") == env.split("body")
  {
    hide Extract, KeyTaken, Claimable, ReplaceSource, ChunksOf, Namespace, HalfAfter;
    ReplaceSourceExact(s.chunks, Namespace("kb"), "d", env.split("body"), Namespace("kb"), "d");
  }

  /**
   Nothing orders a delete with a worker's import: when the whole cascade of a delete falls between a
   worker's claim and its import, the import leaves the chunks of a document that has no row any more.
   */
  lemma DeletedDuringImport(env: Env)
    requires env.split("body") != []
    ensures Legal(env, DeletedRun())
    ensures
      var s := After(env, DeletedRun());
      "d" !in s.tables.docs && ChunksOf(s.chunks, Namespace("kb"), "d") == env.split("body") != []
  {
    hide Apply, Enabled, After, Legal, ReadyToImport, AboutToImport;
    var ready := ReadyToImport();
    ReadyIsLegal(env);
    ChunksThenRow(env, After(env, ready));
    LegalExtend(env, ready, DeleteChunks("d", "kb"));
    LegalExtend(env, ready + [DeleteChunks("d", "kb")], DeleteRow("d"));
    var deleted := ready + [DeleteChunks("d", "kb")] + [DeleteRow("d")];
    ImportAfterAll(env, After(env, deleted));
    LegalExtend(env, deleted, ImportOk("A", 1));
    assert deleted + [ImportOk("A", 1)] == DeletedRun();
  }

  // ---- a Retry inside a failure's pair of writes -------------------------------------------

  function HalfFailedRun(): seq<Label> {
    Opening(PDF, "A") + [LoadRaw("A", true), ParseErr("A", "bad"), FailJob("A", true)]
  }

  function CrossedRun(): seq<Label> {
    HalfFailedRun() + [RetryJob("r", "d"), RetryDoc("r", true), FailDoc("A", true)]
  }

  /** Worker A's claim of the only job, which no one has claimed again, at time 0. */
  ghost predicate Scene(s: System, pc: Pc, state: JobState, status: DocStatus, retries: map<Id, RetryCall>) {
    && (!pc.Idle? ==>
          pc.c.jobId == "j" && pc.c.docId == "d" && pc.c.attempts == 1 && pc.c.serial == 0
          && pc.c.leaseEnd >= 0 && pc.c.sourceType == Pdf)
    && s.pcs == map["A" := pc]
    && JobOfDoc(s.tables, "j", "d") && "d" in s.tables.docs
    && s.tables.jobs["j"].state == state && s.tables.docs["d"].status == status
    && s.retries == retries && s.log.jobOf == map["d" := "j"] && s.log.last == map["j" := 0] && s.now == 0
  }

  const REVIVED := map["r" := RetryCall("d", "j", Some(0))]

  lemma SceneOpens(env: Env)
    ensures Legal(env, Opening(PDF, "A"))
    ensures
      var s := After(env, Opening(PDF, "A"));
      PcOf(s, "A").Claimed? && Scene(s, PcOf(s, "A"), JobRunning, DocParsing, map[])
  {
    OpeningClaims(env, PDF, "A");
    OpeningParsing(env, PDF, "A");
  }

  lemma OpeningParsing(env: Env, input: Input, w: Id)
    requires Legal(env, Opening(input, w))
    ensures
      var s := After(env, Opening(input, w));
      "d" in s.tables.docs && s.tables.docs["d"].status == DocParsing
  {
    assert Opening(input, w)[..1] == [Enqueue("d", "j", input)];
  }

  lemma SceneRead(env: Env, s: System, c: Claim)
    requires Scene(s, Claimed(c), JobRunning, DocParsing, map[])
    ensures
      var l := LoadRaw("A", true);
      Enabled(env, s, l) && TimelyStep(s, l)
      && exists raw :: Scene(Apply(env, s, l), Loaded(c, raw), JobRunning, DocParsing, map[])
  {
    var s' := Apply(env, s, LoadRaw("A", true));
    assert Scene(s', Loaded(c, RawContent(s.tables, "d")), JobRunning, DocParsing, map[]);
  }

  lemma SceneParse(env: Env, s: System, c: Claim, raw: Bytes)
    requires Scene(s, Loaded(c, raw), JobRunning, DocParsing, map[])
    ensures
      var l := ParseErr("A", "bad");
      Enabled(env, s, l) && TimelyStep(s, l)
      && Scene(Apply(env, s, l), Failing(c, "bad"), JobRunning, DocParsing, map[])
  {
  }

  lemma SceneFailJob(env: Env, s: System, c: Claim)
    requires env.maxAttempts == 1 && Scene(s, Failing(c, "bad"), JobRunning, DocParsing, map[])
    ensures
      var l := FailJob("A", true);
      Enabled(env, s, l) && TimelyStep(s, l)
      && Scene(Apply(env, s, l), HalfFailed(c, "bad"), JobDead, DocParsing, map[])
  {
  }

  lemma SceneRevive(env: Env, s: System, c: Claim)
    requires Scene(s, HalfFailed(c, "bad"), JobDead, DocParsing, map[])
    ensures
      var l := RetryJob("r", "d");
      Enabled(env, s, l) && TimelyStep(s, l)
      && Scene(Apply(env, s, l), HalfFailed(c, "bad"), JobPending, DocParsing, REVIVED)
  {
  }

  lemma SceneReviveDoc(env: Env, s: System, c: Claim)
    requires Scene(s, HalfFailed(c, "bad"), JobPending, DocParsing, REVIVED)
    ensures
      var l := RetryDoc("r", true);
      Enabled(env, s, l) && TimelyStep(s, l)
      && Scene(Apply(env, s, l), HalfFailed(c, "bad"), JobPending, DocPending, map[])
  {
    assert REVIVED - {"r"} == map[];
  }

  lemma SceneFailDoc(env: Env, s: System, c: Claim)
    requires env.maxAttempts == 1 && Scene(s, HalfFailed(c, "bad"), JobPending, DocPending, map[])
    ensures
      var l := FailDoc("A", true);
      Enabled(env, s, l) && TimelyStep(s, l)
      && Scene(Apply(env, s, l), Idle, JobPending, DocFailed, map[])
  {
  }

  lemma HalfFailedIsTimely(env: Env)
    requires env.maxAttempts == 1
    ensures Legal(env, HalfFailedRun()) && Timely(env, HalfFailedRun())
    ensures exists c :: Scene(After(env, HalfFailedRun()), HalfFailed(c, "bad"), JobDead, DocParsing, map[])
  {
    hide Apply, Enabled, After, Legal, Timely, TimelyStep, Scene;
    var opening := Opening(PDF, "A");
    SceneOpens(env);
    OpeningIsTimely(env, PDF, "A");
    var c := PcOf(After(env, opening), "A").c;
    SceneRead(env, After(env, opening), c);
    TimelyExtend(env, opening, LoadRaw("A", true));
    var read := opening + [LoadRaw("A", true)];
    var raw :| Scene(After(env, read), Loaded(c, raw), JobRunning, DocParsing, map[]);
    SceneParse(env, After(env, read), c, raw);
    TimelyExtend(env, read, ParseErr("A", "bad"));
    var parsed := read + [ParseErr("A", "bad")];
    SceneFailJob(env, After(env, parsed), c);
    TimelyExtend(env, parsed, FailJob("A", true));
    assert parsed + [FailJob("A", true)] == HalfFailedRun();
  }

  lemma CrossedIsTimely(env: Env)
    requires env.maxAttempts == 1
    ensures Legal(env, CrossedRun()) && Timely(env, CrossedRun())
    ensures Scene(After(env, CrossedRun()), Idle, JobPending, DocFailed, map[])
  {
    hide Apply, Enabled, After, Legal, Timely, TimelyStep, Scene;
    HalfFailedIsTimely(env);
    var half := HalfFailedRun();
    var c :| Scene(After(env, half), HalfFailed(c, "bad"), JobDead, DocParsing, map[]);
    SceneRevive(env, After(env, half), c);
    TimelyExtend(env, half, RetryJob("r", "d"));
    var revived := half + [RetryJob("r", "d")];
    SceneReviveDoc(env, After(env, revived), c);
    TimelyExtend(env, revived, RetryDoc("r", true));
    var retried := revived + [RetryDoc("r", true)];
    SceneFailDoc(env, After(env, retried), c);
    TimelyExtend(env, retried, FailDoc("A", true));
    assert retried + [FailDoc("A", true)] == CrossedRun();
  }

  ghost predicate TimelyRunDisagrees(env: Env, run: seq<Label>, d: Id) {
    && Legal(env, run) && Timely(env, run)
    && var s := After(env, run);
    && DocHasJob(s, d) && !Agrees(s, d)
    && s.tables.jobs[s.log.jobOf[d]].state == JobPending && s.tables.docs[d].status == DocFailed
    && (forall w :: !BetweenWrites(s, w, d)) && s.retries == map[]
  }

  /**
   Timely, no write lost and no crash; yet the job ends pending and its document failed, with nobody
   between writes: the Retry revived the job while the worker still had its document write to do.
   */
  lemma RetryInsideFailureDisagrees(env: Env)
    requires env.maxAttempts == 1
    ensures TimelyRunDisagrees(env, CrossedRun(), "d")
  {
    hide After, Legal, Timely, CrossedRun, Scene;
    CrossedIsTimely(env);
    SceneDisagrees(After(env, CrossedRun()));
  }

  lemma SceneDisagrees(s: System)
    requires Scene(s, Idle, JobPending, DocFailed, map[])
    ensures
      && DocHasJob(s, "d") && !Agrees(s, "d")
      && s.tables.jobs[s.log.jobOf["d"]].state == JobPending && s.tables.docs["d"].status == DocFailed
      && (forall w :: !BetweenWrites(s, w, "d")) && s.retries == map[]
  {
  }

  // ---- no attempt cap -------------------------------------------------------------------

  function CrashLoop(env: Env, n: nat): seq<Label> {
    if n == 0 then Opening(PASTE, "A")
    else CrashLoop(env, n - 1) + [Crash("A"), Tick(env.lease + 1), TakeClaim("A", "j", n * (env.lease + 1))]
  }

  /** The job has been claimed n times in all, just now, by A. */
  ghost predicate ClaimedTimes(env: Env, s: System, n: nat) {
    && JustClaimed(env, s, PASTE, "A") && n >= 1 && s.tables.jobs["j"].attempts == n
    && s.now == (n - 1) * (env.lease + 1) && PcOf(s, "A").c.leaseEnd == s.now + env.lease && s.log.deleting == {}
  }

  /** claim has no attempt cap: a job whose worker crashes every time is claimed without end, past any maxAttempts. */
  lemma {:induction false} AttemptsUncapped(env: Env, n: nat)
    ensures Legal(env, CrashLoop(env, n)) && Timely(env, CrashLoop(env, n))
    ensures ClaimedTimes(env, After(env, CrashLoop(env, n)), n + 1)
  {
    hide After, Legal, Timely, ClaimedTimes;
    if n == 0 {
      OpeningIsTimely(env, PASTE, "A");
      OpeningCounts(env);
    } else {
      AttemptsUncapped(env, n - 1);
      CrashAndReclaim(env, CrashLoop(env, n - 1), n);
    }
  }

  lemma OpeningAttempts(env: Env, input: Input, w: Id)
    requires Legal(env, Opening(input, w))
    ensures
      var s := After(env, Opening(input, w));
      "j" in s.tables.jobs && s.tables.jobs["j"].attempts == 1
  {
    assert Opening(input, w)[..1] == [Enqueue("d", "j", input)];
  }

  lemma OpeningCounts(env: Env)
    ensures Legal(env, Opening(PASTE, "A")) && ClaimedTimes(env, After(env, Opening(PASTE, "A")), 1)
  {
    OpeningClaims(env, PASTE, "A");
    OpeningAttempts(env, PASTE, "A");
    hide After, Legal;
  }

  lemma CrashAndWait(env: Env, s: System)
    requires PcOf(s, "A").Claimed?
    ensures Enabled(env, s, Crash("A")) && TimelyStep(s, Crash("A"))
    ensures
      var crashed := Apply(env, s, Crash("A"));
      && Enabled(env, crashed, Tick(env.lease + 1)) && TimelyStep(crashed, Tick(env.lease + 1))
      && Apply(env, crashed, Tick(env.lease + 1)) == s.(pcs := s.pcs["A" := Idle], now := s.now + env.lease + 1)
  {
  }

  lemma Reclaimed(env: Env, s: System, later: System, n: nat)
    requires n >= 1 && ClaimedTimes(env, s, n)
    requires later == s.(pcs := s.pcs["A" := Idle], now := s.now + env.lease + 1)
    ensures
      var again := TakeClaim("A", "j", n * (env.lease + 1));
      && Enabled(env, later, again) && TimelyStep(later, again)
      && ClaimedTimes(env, Apply(env, later, again), n + 1)
  {
    Distribute(n - 1, env.lease + 1);
  }

  lemma CrashedHeld(env: Env, s: System, n: nat)
    requires ClaimedTimes(env, s, n)
    ensures PcOf(s, "A").Claimed?
  {
  }

  lemma CrashAndReclaim(env: Env, before: seq<Label>, n: nat)
    requires n >= 1 && Legal(env, before) && Timely(env, before) && ClaimedTimes(env, After(env, before), n)
    ensures
      var run := before + [Crash("A"), Tick(env.lease + 1), TakeClaim("A", "j", n * (env.lease + 1))];
      Legal(env, run) && Timely(env, run) && ClaimedTimes(env, After(env, run), n + 1)
  {
    hide Apply, Enabled, After, Legal, Timely, TimelyStep, ClaimedTimes;
    CrashedHeld(env, After(env, before), n);
    CrashAndWait(env, After(env, before));
    TimelyExtend(env, before, Crash("A"));
    var crashed := before + [Crash("A")];
    TimelyExtend(env, crashed, Tick(env.lease + 1));
    var later := crashed + [Tick(env.lease + 1)];
    Reclaimed(env, After(env, before), After(env, later), n);
    TimelyExtend(env, later, TakeClaim("A", "j", n * (env.lease + 1)));
    assert later + [TakeClaim("A", "j", n * (env.lease + 1))]
        == before + [Crash("A"), Tick(env.lease + 1), TakeClaim("A", "j", n * (env.lease + 1))];
  }
}
