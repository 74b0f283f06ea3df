/**
 One claim processed without interruption: what `process` leaves behind as a function of what
 its calls returned, and the run of the queue that it is.
 */
module Processing {
  import opened Basics
  import opened Keys
  import opened Rows
  import opened Queue

  /** What the calls made for one claim return; a false flag is a statement that failed. */
  datatype Calls = Calls(
    readOk: bool, parse: Result<string>, phaseDocOk: bool, phaseJobOk: bool,
    importResult: Result<nat>, debris: seq<string>, commitOk: bool, failJobOk: bool, failDocOk: bool)

  /** The rest of the store: the tables, the chunks and the clock. */
  datatype Store = Store(tables: Tables, chunks: seq<ChunkRow>, now: int)

  function StoreOf(s: System): Store {
    Store(s.tables, s.chunks, s.now)
  }

  function RawRead(st: Store, c: Claim, calls: Calls): Bytes {
    if calls.readOk then RawContent(st.tables, c.docId) else ""
  }

  /** Parsing is only as free as the source type leaves it. */
  ghost predicate ParsePossible(env: Env, c: Claim, raw: Bytes, parse: Result<string>) {
    match parse
    case Ok(text) => c.sourceType.Url? || Extract(env, c.sourceType, raw) == Some(text)
    case Err(_) => !ReadAsText(c.sourceType)
  }

  function AfterPhases(st: Store, c: Claim, calls: Calls): Store {
    var t := if calls.phaseDocOk then SetDocPhase(st.tables, c.docId, "indexing") else st.tables;
    st.(tables := if calls.phaseJobOk then SetJobPhase(t, c.jobId, "indexing") else t)
  }

  function AfterImport(env: Env, st: Store, c: Claim, text: string, calls: Calls): Store {
    st.(chunks := ReplaceSource(st.chunks, Namespace(c.kb), c.docId,
                                if calls.importResult.Ok? then env.split(text) else calls.debris))
  }

  function AfterCommit(env: Env, st: Store, c: Claim, text: string, count: nat, calls: Calls): Store {
    if calls.commitOk then st.(tables := CommitTables(env, st.tables, c, text, count)) else st
  }

  function AfterFail(env: Env, st: Store, c: Claim, message: string, calls: Calls): Store {
    var t := if calls.failJobOk then FailJobTables(env, st.tables, c, st.now, message) else st.tables;
    st.(tables := if calls.failDocOk then FailDocTables(env, t, c, message) else t)
  }

  function Processed(env: Env, st: Store, c: Claim, calls: Calls): Store {
    match calls.parse
    case Err(message) => AfterFail(env, st, c, message, calls)
    case Ok(text) =>
      var indexed := AfterImport(env, AfterPhases(st, c, calls), c, text, calls);
      match calls.importResult
      case Ok(count) => AfterCommit(env, indexed, c, text, count, calls)
      case Err(message) => AfterFail(env, indexed, c, message, calls)
  }

  // ---- the same as steps of the queue ----------------------------------------------

  function FailSteps(w: Id, calls: Calls): seq<Label> {
    [FailJob(w, calls.failJobOk), FailDoc(w, calls.failDocOk)]
  }

  function ImportSteps(w: Id, calls: Calls): seq<Label> {
    match calls.importResult
    case Ok(count) => [ImportOk(w, count), if calls.commitOk then CommitOk(w) else CommitErr(w)]
    case Err(message) => [ImportErr(w, calls.debris, message)] + FailSteps(w, calls)
  }

  function ProcessSteps(w: Id, calls: Calls): seq<Label> {
    match calls.parse
    case Err(message) => [LoadRaw(w, calls.readOk), ParseErr(w, message)] + FailSteps(w, calls)
    case Ok(text) =>
      [LoadRaw(w, calls.readOk), ParseOk(w, text), PhaseDoc(w, calls.phaseDocOk), PhaseJob(w, calls.phaseJobOk)]
      + ImportSteps(w, calls)
  }

  /** A state reached by steps of worker w alone: only its pc, the tables, the chunks and the log differ. */
  ghost predicate Moved(s: System, s': System, w: Id, pc: Pc, st: Store) {
    && PcOf(s', w) == pc
    && (forall v :: v != w ==> PcOf(s', v) == PcOf(s, v))
    && s'.retries == s.retries
    && StoreOf(s') == st
  }

  lemma OneStep(env: Env, run: seq<Label>, l: Label, w: Id)
    requires Legal(env, run) && Enabled(env, After(env, run), l) && ActorOf(l) == Some(w)
    ensures Legal(env, run + [l])
    ensures
      var s, s' := After(env, run), After(env, run + [l]);
      s' == Apply(env, s, l)
      && Moved(s, s', w, PcAfter(env, s, l), Store(TablesAfter(env, s, l), ChunksAfter(env, s, l), s.now))
  {
    LegalExtend(env, run, l);
    forall v | v != w ensures PcOf(After(env, run + [l]), v) == PcOf(After(env, run), v) {
      PcMoves(env, After(env, run), l, v);
    }
  }

  lemma FailIsARun(env: Env, run: seq<Label>, w: Id, calls: Calls)
    requires Legal(env, run) && PcOf(After(env, run), w).Failing?
    ensures Legal(env, run + FailSteps(w, calls))
    ensures
      var s := After(env, run);
      var pc := PcOf(s, w);
      Moved(s, After(env, run + FailSteps(w, calls)), w, Idle, AfterFail(env, StoreOf(s), pc.c, pc.message, calls))
  {
    hide Apply, After, Legal, LogAfter, HalfAfter, RetriesAfter, PcsAfter;
    OneStep(env, run, FailJob(w, calls.failJobOk), w);
    OneStep(env, run + [FailJob(w, calls.failJobOk)], FailDoc(w, calls.failDocOk), w);
    assert run + FailSteps(w, calls) == run + [FailJob(w, calls.failJobOk)] + [FailDoc(w, calls.failDocOk)];
  }

  lemma ImportOkIsARun(env: Env, run: seq<Label>, w: Id, calls: Calls)
    requires Legal(env, run) && PcOf(After(env, run), w).Indexing? && calls.importResult.Ok?
    ensures Legal(env, run + ImportSteps(w, calls))
    ensures
      var s := After(env, run);
      var pc := PcOf(s, w);
      Moved(s, After(env, run + ImportSteps(w, calls)), w, Idle,
            AfterCommit(env, AfterImport(env, StoreOf(s), pc.c, pc.text, calls), pc.c, pc.text, calls.importResult.value, calls))
  {
    hide Apply, After, Legal, LogAfter, HalfAfter, RetriesAfter, PcsAfter;
    var first := ImportOk(w, calls.importResult.value);
    var last := if calls.commitOk then CommitOk(w) else CommitErr(w);
    OneStep(env, run, first, w);
    OneStep(env, run + [first], last, w);
    assert run + ImportSteps(w, calls) == run + [first] + [last];
  }

  lemma ImportErrIsARun(env: Env, run: seq<Label>, w: Id, calls: Calls)
    requires Legal(env, run) && PcOf(After(env, run), w).Indexing? && calls.importResult.Err?
    ensures Legal(env, run + ImportSteps(w, calls))
    ensures
      var s := After(env, run);
      var pc := PcOf(s, w);
      Moved(s, After(env, run + ImportSteps(w, calls)), w, Idle,
            AfterFail(env, AfterImport(env, StoreOf(s), pc.c, pc.text, calls), pc.c, calls.importResult.message, calls))
  {
    hide Apply, After, Legal, LogAfter, HalfAfter, RetriesAfter, PcsAfter, AfterFail;
    var first := ImportErr(w, calls.debris, calls.importResult.message);
    OneStep(env, run, first, w);
    FailIsARun(env, run + [first], w, calls);
    assert run + ImportSteps(w, calls) == run + [first] + FailSteps(w, calls);
  }

  lemma ImportIsARun(env: Env, run: seq<Label>, w: Id, calls: Calls)
    requires Legal(env, run) && PcOf(After(env, run), w).Indexing?
    ensures Legal(env, run + ImportSteps(w, calls))
    ensures
      var s := After(env, run);
      var pc := PcOf(s, w);
      var indexed := AfterImport(env, StoreOf(s), pc.c, pc.text, calls);
      Moved(s, After(env, run + ImportSteps(w, calls)), w, Idle,
            match calls.importResult
            case Ok(count) => AfterCommit(env, indexed, pc.c, pc.text, count, calls)
            case Err(message) => AfterFail(env, indexed, pc.c, message, calls))
  {
    hide Apply, After, Legal, AfterImport, AfterCommit, AfterFail, Moved;
    if calls.importResult.Ok? {
      ImportOkIsARun(env, run, w, calls);
    } else {
      ImportErrIsARun(env, run, w, calls);
    }
  }

  lemma PhasesAreARun(env: Env, run: seq<Label>, w: Id, calls: Calls)
    requires Legal(env, run) && PcOf(After(env, run), w).Parsed?
    ensures Legal(env, run + [PhaseDoc(w, calls.phaseDocOk), PhaseJob(w, calls.phaseJobOk)])
    ensures
      var s := After(env, run);
      var pc := PcOf(s, w);
      Moved(s, After(env, run + [PhaseDoc(w, calls.phaseDocOk), PhaseJob(w, calls.phaseJobOk)]), w,
            Indexing(pc.c, pc.text), AfterPhases(StoreOf(s), pc.c, calls))
  {
    hide Apply, After, Legal, LogAfter, HalfAfter, RetriesAfter, PcsAfter;
    OneStep(env, run, PhaseDoc(w, calls.phaseDocOk), w);
    OneStep(env, run + [PhaseDoc(w, calls.phaseDocOk)], PhaseJob(w, calls.phaseJobOk), w);
    assert run + [PhaseDoc(w, calls.phaseDocOk), PhaseJob(w, calls.phaseJobOk)]
        == run + [PhaseDoc(w, calls.phaseDocOk)] + [PhaseJob(w, calls.phaseJobOk)];
  }

  lemma ReadAndParseIsARun(env: Env, run: seq<Label>, w: Id, calls: Calls)
    requires Legal(env, run) && PcOf(After(env, run), w).Claimed?
    requires
      var s := After(env, run);
      ParsePossible(env, PcOf(s, w).c, RawRead(StoreOf(s), PcOf(s, w).c, calls), calls.parse)
    ensures
      var s := After(env, run);
      var parsed := match calls.parse case Ok(text) => ParseOk(w, text) case Err(message) => ParseErr(w, message);
      Legal(env, run + [LoadRaw(w, calls.readOk), parsed])
      && Moved(s, After(env, run + [LoadRaw(w, calls.readOk), parsed]), w,
               match calls.parse
               case Ok(text) => Parsed(PcOf(s, w).c, text)
               case Err(message) => Failing(PcOf(s, w).c, message),
               StoreOf(s))
  {
    hide Apply, After, Legal, LogAfter, HalfAfter, RetriesAfter, PcsAfter;
    var parsed := match calls.parse case Ok(text) => ParseOk(w, text) case Err(message) => ParseErr(w, message);
    OneStep(env, run, LoadRaw(w, calls.readOk), w);
    OneStep(env, run + [LoadRaw(w, calls.readOk)], parsed, w);
    assert run + [LoadRaw(w, calls.readOk), parsed] == run + [LoadRaw(w, calls.readOk)] + [parsed];
  }

  /** From any state in which w has just claimed, processing is a legal run that ends in Processed. */
  lemma ProcessIsARun(env: Env, run: seq<Label>, w: Id, calls: Calls)
    requires Legal(env, run) && PcOf(After(env, run), w).Claimed?
    requires
      var s := After(env, run);
      ParsePossible(env, PcOf(s, w).c, RawRead(StoreOf(s), PcOf(s, w).c, calls), calls.parse)
    ensures Legal(env, run + ProcessSteps(w, calls))
    ensures
      var s := After(env, run);
      Moved(s, After(env, run + ProcessSteps(w, calls)), w, Idle, Processed(env, StoreOf(s), PcOf(s, w).c, calls))
  {
    hide Apply, After, Legal, Enabled, AfterPhases, AfterImport, AfterCommit, AfterFail, ParsePossible;
    ReadAndParseIsARun(env, run, w, calls);
    match calls.parse
    case Err(message) =>
      var front := run + [LoadRaw(w, calls.readOk), ParseErr(w, message)];
      FailIsARun(env, front, w, calls);
      assert run + ProcessSteps(w, calls) == front + FailSteps(w, calls);
    case Ok(text) =>
      var front := run + [LoadRaw(w, calls.readOk), ParseOk(w, text)];
      var phases := [PhaseDoc(w, calls.phaseDocOk), PhaseJob(w, calls.phaseJobOk)];
      PhasesAreARun(env, front, w, calls);
      ImportIsARun(env, front + phases, w, calls);
      assert run + ProcessSteps(w, calls) == front + phases + ImportSteps(w, calls);
  }
}
