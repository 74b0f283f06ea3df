/**
 The two ways an enqueue can find that its content is already there: the checksum short-circuit
 over ready documents, and the unique idempotency key.  For what the upload handler can build
 they name the same document.
 */
module Dedup {
  import opened Basics
  import opened Keys
  import opened Rows
  import opened Queue
  import opened QueueAlways
  import opened QueueBudget
  import opened QueueTimely

  // ---- what the upload handler builds ----------------------------------------------

  /** filepath.Ext: from the last dot of the last path element, or nothing. */
  function Extension(path: string): string {
    if path == "" || path[|path| - 1] == '/' then ""
    else if path[|path| - 1] == '.' then "."
    else
      var front := Extension(path[..|path| - 1]);
      if front == "" then "" else front + [path[|path| - 1]]
  }

  predicate SlashFrom(path: string, i: nat)
    requires i <= |path|
  {
    '/' in path[i..]
  }

  /** Every dot of the path has a slash after it. */
  ghost predicate NoExtension(path: string) {
    forall i :: 0 <= i < |path| && path[i] == '.' ==> SlashFrom(path, i)
  }

  lemma SlashSnoc(path: string, i: nat)
    requires i < |path|
    ensures SlashFrom(path, i) <==> path[|path| - 1] == '/' || SlashFrom(path[..|path| - 1], i)
  {
    assert path[i..] == path[..|path| - 1][i..] + [path[|path| - 1]];
  }

  lemma NoExtensionSnoc(path: string)
    requires path != ""
    ensures NoExtension(path) <==> path[|path| - 1] == '/' || (path[|path| - 1] != '.' && NoExtension(path[..|path| - 1]))
  {
    var front, last := path[..|path| - 1], path[|path| - 1];
    forall i | 0 <= i < |path| ensures SlashFrom(path, i) <==> last == '/' || SlashFrom(front, i) {
      SlashSnoc(path, i);
    }
    hide SlashFrom;
    if !NoExtension(front) {
      var i :| 0 <= i < |front| && front[i] == '.' && !SlashFrom(front, i);
      assert path[i] == '.';
    }
    assert last == '.' ==> !SlashFrom(front, |front|) by {
      SlashFromEnd(front);
    }
  }

  lemma SlashFromEnd(path: string)
    ensures !SlashFrom(path, |path|)
  {
  }

  /** The extension is the end of the path from its last dot, after its last slash. */
  lemma {:induction false} ExtensionIsSuffix(path: string)
    ensures
      var ext := Extension(path);
      ext != "" ==>
        && |ext| <= |path| && path[|path| - |ext|..] == ext
        && ext[0] == '.' && '.' !in ext[1..] && '/' !in ext
    decreases |path|
  {
    if path != "" && path[|path| - 1] != '/' && path[|path| - 1] != '.' {
      var front, last := path[..|path| - 1], path[|path| - 1];
      ExtensionIsSuffix(front);
      var ext := Extension(front);
      if ext != "" {
        assert path[|front| - |ext|..] == front[|front| - |ext|..] + [last];
        assert (ext + [last])[1..] == ext[1..] + [last];
      }
    }
  }

  /** There is none exactly when no dot comes after the last slash. */
  lemma {:induction false} ExtensionExact(path: string)
    ensures Extension(path) == "" <==> NoExtension(path)
    decreases |path|
  {
    hide NoExtension;
    if path != "" {
      ExtensionExact(path[..|path| - 1]);
      NoExtensionSnoc(path);
    } else {
      NothingToExtend();
    }
  }

  lemma NothingToExtend()
    ensures NoExtension("")
  {
  }

  const ALLOWED_EXTENSIONS := {".pdf", ".md", ".markdown", ".txt", ".docx"}

  predicate UploadValid(lower: string -> string, filename: string, size: nat, maxBytes: nat) {
    size <= maxBytes && lower(Extension(filename)) in ALLOWED_EXTENSIONS
  }

  /** The enqueue an upload request turns into, or none when the handler refuses it. */
  function BuildInput(lower: string -> string, kb: Id, title: string, sourceType: SourceType,
                      url: string, filename: string, content: Bytes, maxUpload: nat): Option<Input>
  {
    match sourceType
    case Url => if url == "" then None else Some(Input(kb, title, sourceType, url, content))
    case Pdf =>
      if UploadValid(lower, filename, |content|, maxUpload) then Some(Input(kb, title, sourceType, filename, content)) else None
    case Docx =>
      if UploadValid(lower, filename, |content|, maxUpload) then Some(Input(kb, title, sourceType, filename, content)) else None
    case _ => Some(Input(kb, title, sourceType, "", content))
  }

  /** Exactly the types without a reference of their own go without one. */
  ghost predicate Uploadable(input: Input) {
    input.sourceRef == "" <==> !(input.sourceType.Url? || input.sourceType.Pdf? || input.sourceType.Docx?)
  }

  lemma UploadsAreUploadable(lower: string -> string, kb: Id, title: string, sourceType: SourceType,
                             url: string, filename: string, content: Bytes, maxUpload: nat)
    requires lower("") == ""
    ensures
      var built := BuildInput(lower, kb, title, sourceType, url, filename, content, maxUpload);
      built.Some? ==> Uploadable(built.value)
  {
  }

  // ---- the checksum short-circuit --------------------------------------------------

  ghost predicate FastPathMatches(sha: string -> string, t: Tables, input: Input, d: Id) {
    var cs := InputChecksum(sha, input);
    && cs != "" && d in t.docs
    && var doc := t.docs[d];
    && doc.kb == input.kb && doc.checksum == cs && doc.status.DocReady?
    && ((doc.sourceRef != "" && doc.sourceRef == input.sourceRef) || (doc.sourceRef == "" && doc.title == input.title))
  }

  /** The document the unique index leads to. */
  ghost predicate KeyLeadsTo(sha: string -> string, t: Tables, input: Input, d: Id) {
    exists j :: j in t.jobs && t.jobs[j].key == InputKey(sha, input) && t.jobs[j].docId == d
  }

  ghost predicate AllUploads(run: seq<Label>) {
    forall n :: 0 <= n < |run| && run[n].Enqueue? ==> Uploadable(run[n].input)
  }

  ghost predicate DocUploadable(s: System, d: Id) {
    d in s.tables.docs && d in s.log.origin ==> Uploadable(InputOf(s, d))
  }

  lemma UploadableStep(env: Env, s: System, l: Label, d: Id)
    requires Paired(env, s) && Enabled(env, s, l) && (l.Enqueue? ==> Uploadable(l.input))
    requires DocUploadable(s, d)
    ensures DocUploadable(Apply(env, s, l), d)
  {
    if !l.Enqueue? {
      StepKeepsIds(env, s, l);
      if !l.DeleteRow? {
        StepKeepsRows(env, s, l);
        assert d in s.tables.docs ==> SameSource(s.tables.docs[d], TablesAfter(env, s, l).docs[d]);
      }
    }
  }

  lemma {:induction false} AlwaysUploadable(env: Env, run: seq<Label>, d: Id)
    requires Legal(env, run) && AllUploads(run)
    ensures DocUploadable(After(env, run), d)
    decreases |run|
  {
    if run != [] {
      var front := run[..|run| - 1];
      AlwaysUploadable(env, front, d);
      AlwaysPaired(env, front);
      UploadableStep(env, After(env, front), run[|run| - 1], d);
    }
  }

  // ---- what a document's checksum can be, in every run -----------------------------------

  ghost predicate ParsedDoc(s: System, d: Id) {
    d in s.tables.docs && d in s.log.origin && !s.tables.docs[d].sourceType.Url?
  }

  /** A text a worker can have got from the document: extracted from the enqueued bytes, or from none. */
  ghost predicate OwnText(env: Env, sourceType: SourceType, origin: Bytes, text: string) {
    Extract(env, sourceType, origin) == Some(text) || Extract(env, sourceType, "") == Some(text)
  }

  ghost predicate ChecksumOfText(env: Env, text: Option<string>, checksum: string) {
    text.Some? && checksum == Checksum(env.sha, text.value)
  }

  ghost predicate ChecksumOfOwnText(env: Env, sourceType: SourceType, origin: Bytes, checksum: string) {
    || ChecksumOfText(env, Extract(env, sourceType, origin), checksum)
    || ChecksumOfText(env, Extract(env, sourceType, ""), checksum)
  }

  /** The checksum is that of the enqueued bytes until a worker replaces it by that of a text; a ready row has the latter. */
  ghost predicate RowOfOwnText(env: Env, doc: Doc, origin: Bytes) {
    && (doc.content.Some? ==> doc.content.value == origin)
    && (doc.checksum == Checksum(env.sha, origin) || ChecksumOfOwnText(env, doc.sourceType, origin, doc.checksum))
    && (doc.status.DocReady? ==> ChecksumOfOwnText(env, doc.sourceType, origin, doc.checksum))
  }

  ghost predicate DocOfOwnText(env: Env, s: System, d: Id) {
    ParsedDoc(s, d) ==> RowOfOwnText(env, s.tables.docs[d], s.log.origin[d])
  }

  ghost predicate PcOfOwnText(env: Env, sourceType: SourceType, origin: Bytes, pc: Pc) {
    match pc
    case Loaded(_, raw) => raw == origin || raw == ""
    case Parsed(_, text) => OwnText(env, sourceType, origin, text)
    case DocPhased(_, text) => OwnText(env, sourceType, origin, text)
    case Indexing(_, text) => OwnText(env, sourceType, origin, text)
    case Imported(_, text, _) => OwnText(env, sourceType, origin, text)
    case _ => true
  }

  ghost predicate WorkOnOwnText(env: Env, s: System, w: Id) {
    var pc := PcOf(s, w);
    !pc.Idle? && ParsedDoc(s, pc.c.docId) ==>
      && pc.c.sourceType == s.tables.docs[pc.c.docId].sourceType
      && PcOfOwnText(env, pc.c.sourceType, s.log.origin[pc.c.docId], pc)
  }

  ghost predicate OwnTexts(env: Env, s: System) {
    (forall d :: DocOfOwnText(env, s, d)) && (forall w :: WorkOnOwnText(env, s, w))
  }

  lemma OldDoc(env: Env, s: System, l: Label, d: Id)
    requires Enabled(env, s, l) && !l.Enqueue? && d in TablesAfter(env, s, l).docs
    ensures d in s.tables.docs && TablesAfter(env, s, l).docs[d].sourceType == s.tables.docs[d].sourceType
  {
    if !l.DeleteRow? {
      hide TablesAfter, Enabled;
      StepKeepsRows(env, s, l);
      assert SameSource(s.tables.docs[d], TablesAfter(env, s, l).docs[d]);
    }
  }

  /** A step leaves the source type and the enqueued bytes of a document that was there. */
  lemma SourceStands(env: Env, s: System, l: Label, d: Id)
    requires Enabled(env, s, l) && !l.Enqueue? && ParsedDoc(Apply(env, s, l), d)
    ensures ParsedDoc(s, d) && Apply(env, s, l).log.origin[d] == s.log.origin[d]
    ensures TablesAfter(env, s, l).docs[d].sourceType == s.tables.docs[d].sourceType
  {
    hide TablesAfter, LogAfter, Enabled;
    StepKeepsIds(env, s, l);
    OldDoc(env, s, l, d);
  }

  lemma CommitWritesChecksum(env: Env, t: Tables, c: Claim, text: string, count: nat, d: Id)
    requires d in t.docs
    ensures d in CommitTables(env, t, c, text, count).docs
    ensures
      var after := CommitTables(env, t, c, text, count).docs[d];
      if d == c.docId then after.content == None && after.checksum == Checksum(env.sha, text) else after == t.docs[d]
  {
    hide Checksum;
  }

  lemma OthersKeepChecksum(env: Env, s: System, l: Label, d: Id)
    requires Enabled(env, s, l) && !l.Enqueue? && !l.CommitOk? && d in s.tables.docs && d in TablesAfter(env, s, l).docs
    ensures
      var before, after := s.tables.docs[d], TablesAfter(env, s, l).docs[d];
      after.content == before.content && after.checksum == before.checksum && (after.status.DocReady? ==> before.status.DocReady?)
  {
    hide CommitTables, SetJobPhase, FailJobTables, ReviveJob, SameRows, Claimable, IdempotencyKey, Checksum, Backoff64, KeyTaken, Extract;
  }

  /** Only a commit writes a checksum or makes a row ready, and what it writes comes from the text its worker holds. */
  lemma ChecksumWritten(env: Env, s: System, l: Label, d: Id)
    requires Enabled(env, s, l) && !l.Enqueue? && d in s.tables.docs && d in TablesAfter(env, s, l).docs
    ensures
      var before, after := s.tables.docs[d], TablesAfter(env, s, l).docs[d];
      && (after.content == before.content || after.content == None)
      && (|| (after.checksum == before.checksum && (after.status.DocReady? ==> before.status.DocReady?))
          || (l.CommitOk? && PcOf(s, l.worker).c.docId == d && after.checksum == Checksum(env.sha, PcOf(s, l.worker).text)))
  {
    hide CommitTables, Checksum, IdempotencyKey;
    if l.CommitOk? {
      var pc := PcOf(s, l.worker);
      CommitWritesChecksum(env, s.tables, pc.c, pc.text, pc.count, d);
    } else {
      OthersKeepChecksum(env, s, l, d);
    }
  }

  lemma OldDocOfOwnText(env: Env, s: System, l: Label, d: Id)
    requires OwnTexts(env, s) && Enabled(env, s, l) && !l.Enqueue?
    requires ParsedDoc(s, d) && d in TablesAfter(env, s, l).docs
    requires TablesAfter(env, s, l).docs[d].sourceType == s.tables.docs[d].sourceType
    ensures RowOfOwnText(env, TablesAfter(env, s, l).docs[d], s.log.origin[d])
  {
    hide TablesAfter, Extract;
    ChecksumWritten(env, s, l, d);
    assert DocOfOwnText(env, s, d);
    assert l.CommitOk? ==> WorkOnOwnText(env, s, l.worker);
  }

  lemma DocOfOwnTextStep(env: Env, s: System, l: Label, d: Id)
    requires Paired(env, s) && OwnTexts(env, s) && Enabled(env, s, l) && !l.Enqueue?
    ensures DocOfOwnText(env, Apply(env, s, l), d)
  {
    hide Paired, OwnTexts, Enabled, TablesAfter, LogAfter, RowOfOwnText;
    if ParsedDoc(Apply(env, s, l), d) {
      StepKeepsIds(env, s, l);
      OldDoc(env, s, l, d);
      SourceStands(env, s, l, d);
      OldDocOfOwnText(env, s, l, d);
    }
  }

  lemma EnqueuedOwnText(env: Env, s: System, l: Label, d: Id)
    requires Paired(env, s) && DocOfOwnText(env, s, d) && Enabled(env, s, l) && l.Enqueue?
    ensures DocOfOwnText(env, Apply(env, s, l), d)
  {
    hide HalfAfter, ChunksAfter, Extract;
  }

  lemma WorkOnOwnTextStep(env: Env, s: System, l: Label, w: Id)
    requires Paired(env, s) && OwnTexts(env, s) && Enabled(env, s, l) && !l.Enqueue?
    ensures WorkOnOwnText(env, Apply(env, s, l), w)
  {
    hide Paired, OwnTexts, TablesAfter, LogAfter, HalfAfter, ChunksAfter, RetriesAfter, Extract, KeyTaken, Claimable,
      ChecksumOfOwnText;
    PcMoves(env, s, l, w);
    var pc := PcOf(Apply(env, s, l), w);
    if !pc.Idle? && ParsedDoc(Apply(env, s, l), pc.c.docId) {
      SourceStands(env, s, l, pc.c.docId);
      OwnTextOf(env, s, pc.c.docId, w);
    }
  }

  lemma OwnTextOf(env: Env, s: System, d: Id, w: Id)
    requires OwnTexts(env, s)
    ensures DocOfOwnText(env, s, d) && WorkOnOwnText(env, s, w)
  {
  }

  lemma EnqueueKeepsWork(env: Env, s: System, l: Label, w: Id)
    requires Paired(env, s) && WorkOnOwnText(env, s, w) && Enabled(env, s, l) && l.Enqueue?
    ensures WorkOnOwnText(env, Apply(env, s, l), w)
  {
    hide HalfAfter, ChunksAfter, RetriesAfter, PcOfOwnText;
    assert ClaimRemembered(s, w);
  }

  lemma OwnTextStep(env: Env, s: System, l: Label, d: Id, w: Id)
    requires Paired(env, s) && OwnTexts(env, s) && Enabled(env, s, l)
    ensures DocOfOwnText(env, Apply(env, s, l), d) && WorkOnOwnText(env, Apply(env, s, l), w)
  {
    hide Paired, Enabled, Apply, DocOfOwnText, WorkOnOwnText;
    if l.Enqueue? {
      OwnTextOf(env, s, d, w);
      EnqueuedOwnText(env, s, l, d);
      EnqueueKeepsWork(env, s, l, w);
    } else {
      DocOfOwnTextStep(env, s, l, d);
      WorkOnOwnTextStep(env, s, l, w);
    }
  }

  /**
   In every run, however late workers write and whichever reads fail: a document that is not a url has
   the checksum of its enqueued bytes or of a text extracted from them or from no bytes, and of such a
   text once it is ready.
   */
  lemma {:induction false} AlwaysOwnText(env: Env, run: seq<Label>)
    requires Legal(env, run)
    ensures OwnTexts(env, After(env, run))
    decreases |run|
  {
    if run != [] {
      var front, l := run[..|run| - 1], run[|run| - 1];
      AlwaysOwnText(env, front);
      AlwaysPaired(env, front);
      var s := After(env, front);
      hide Apply, After, DocOfOwnText, WorkOnOwnText;
      forall d ensures DocOfOwnText(env, Apply(env, s, l), d) {
        OwnTextStep(env, s, l, d, "");
      }
      forall w ensures WorkOnOwnText(env, Apply(env, s, l), w) {
        OwnTextStep(env, s, l, "", w);
      }
      RunApplies(env, run);
    }
  }

  lemma RunApplies(env: Env, run: seq<Label>)
    requires Legal(env, run) && run != []
    ensures Legal(env, run[..|run| - 1]) && Enabled(env, After(env, run[..|run| - 1]), run[|run| - 1])
    ensures After(env, run) == Apply(env, After(env, run[..|run| - 1]), run[|run| - 1])
  {
  }

  /** A text is its own extraction: such a document has the checksum of its own bytes or of none. */
  lemma AlwaysOwnBytes(env: Env, run: seq<Label>, d: Id)
    requires Legal(env, run)
    ensures
      var s := After(env, run);
      d in s.tables.docs && ReadAsText(s.tables.docs[d].sourceType) ==>
        && d in s.log.origin
        && (|| s.tables.docs[d].checksum == Checksum(env.sha, s.log.origin[d])
            || s.tables.docs[d].checksum == Checksum(env.sha, ""))
  {
    hide After, Legal, Paired;
    AlwaysPaired(env, run);
    AlwaysOwnText(env, run);
    OwnTextOf(env, After(env, run), d, "");
    if d in After(env, run).tables.docs {
      DocHasOrigin(env, After(env, run), d);
    }
  }

  lemma DocHasOrigin(env: Env, s: System, d: Id)
    requires Paired(env, s) && d in s.tables.docs
    ensures d in s.log.origin
  {
    assert DocPaired(env, s, d);
  }

  // ---- the two paths agree ---------------------------------------------------------------

  /** The document is the only one the unique key leads to. */
  ghost predicate KeyLeadsOnlyTo(sha: string -> string, t: Tables, input: Input, d: Id) {
    KeyLeadsTo(sha, t, input, d) && forall e :: KeyLeadsTo(sha, t, input, e) ==> e == d
  }

  lemma SameKeyLeadsOnlyTo(env: Env, s: System, input: Input, d: Id)
    requires Paired(env, s) && d in s.tables.docs
    requires DocHasJob(s, d) && s.tables.jobs[s.log.jobOf[d]].key == InputKey(env.sha, input)
    ensures KeyLeadsOnlyTo(env.sha, s.tables, input, d)
  {
    var j := s.log.jobOf[d];
    forall e | KeyLeadsTo(env.sha, s.tables, input, e) ensures e == d {
      var k :| k in s.tables.jobs && s.tables.jobs[k].key == InputKey(env.sha, input) && s.tables.jobs[k].docId == e;
      assert KeyUnique(s, j, k);
    }
  }

  /**
   For an upload with content and without a source reference, in every reachable state and however
   late workers wrote: whatever ready document the short-circuit finds is the one the unique key
   leads to (or SHA-256 gives the content the digest of no content at all).
   */
  lemma FastPathAgreesWithKey(env: Env, run: seq<Label>, input: Input, d: Id)
    requires Legal(env, run) && AllUploads(run)
    requires Uploadable(input) && input.sourceRef == "" && input.raw != "" && !Collision(env.sha, input.raw, "")
    requires FastPathMatches(env.sha, After(env, run).tables, input, d)
    ensures KeyLeadsOnlyTo(env.sha, After(env, run).tables, input, d)
  {
    var s := After(env, run);
    AlwaysPaired(env, run);
    AlwaysUploadable(env, run, d);
    AlwaysOwnText(env, run);
    assert DocPaired(env, s, d) && DocOfOwnText(env, s, d);
    ChecksumFaithful(env.sha, input.raw, "");
    SameKeyLeadsOnlyTo(env, s, input, d);
  }

  /** Hence LIMIT 1 has no choice: two matches of one such upload are the same document. */
  lemma FastPathDeterministic(env: Env, run: seq<Label>, input: Input, d: Id, e: Id)
    requires Legal(env, run) && AllUploads(run)
    requires Uploadable(input) && input.sourceRef == "" && input.raw != "" && !Collision(env.sha, input.raw, "")
    requires FastPathMatches(env.sha, After(env, run).tables, input, d)
    requires FastPathMatches(env.sha, After(env, run).tables, input, e)
    ensures d == e
  {
    hide After, Legal, FastPathMatches;
    FastPathAgreesWithKey(env, run, input, d);
    FastPathAgreesWithKey(env, run, input, e);
  }

  predicate SameSourceKey(doc: Doc, input: Input) {
    SourceKey(doc.sourceRef, doc.title) == SourceKey(input.sourceRef, input.title)
  }

  /** The digests that a document's match with an upload rests on are 64 hex digits and do not collide. */
  ghost predicate MatchClean(sha: string -> string, s: System, d: Id, input: Input)
    requires d in s.tables.docs && d in s.log.origin
  {
    var own := InputOf(s, d);
    && (SameSourceKey(s.tables.docs[d], input) || (IsDigest(sha(own.raw)) && IsDigest(sha(input.raw))))
    && !Collision(sha, own.raw, input.raw)
    && !Collision(sha, KeyText(own.kb, SourceKey(own.sourceRef, own.title), InputChecksum(sha, own)),
                  KeyText(input.kb, SourceKey(input.sourceRef, input.title), InputChecksum(sha, input)))
  }

  /**
   Exactly when the two paths agree, with a source reference or without, in every reachable state: the
   document the short-circuit found is one the key leads to if and only if it was not a url, has the
   upload's source key and was enqueued with the very bytes of the upload.  The short-circuit itself
   compares the upload's bytes with the checksum of the text a worker extracted, and takes any document
   without a reference that has the upload's title.
   */
  lemma MatchAgreesExactly(env: Env, run: seq<Label>, input: Input, d: Id)
    requires Legal(env, run) && FastPathMatches(env.sha, After(env, run).tables, input, d)
    ensures d in After(env, run).log.origin
    ensures
      var s := After(env, run);
      MatchClean(env.sha, s, d, input) ==>
        (KeyLeadsTo(env.sha, s.tables, input, d) <==>
           (!s.tables.docs[d].sourceType.Url? && SameSourceKey(s.tables.docs[d], input) && s.log.origin[d] == input.raw))
  {
    var s := After(env, run);
    AlwaysPaired(env, run);
    assert DocPaired(env, s, d);
    if MatchClean(env.sha, s, d, input) {
      MatchKeys(env.sha, s, d, input);
      OwnKeyLeads(env, s, input, d);
    }
  }

  /** The key the document was enqueued under is the upload's exactly for the same source key and the same bytes of a non-url. */
  lemma MatchKeys(sha: string -> string, s: System, d: Id, input: Input)
    requires FastPathMatches(sha, s.tables, input, d) && d in s.log.origin && MatchClean(sha, s, d, input)
    ensures
      (InputKey(sha, InputOf(s, d)) == InputKey(sha, input)) <==>
      (!s.tables.docs[d].sourceType.Url? && SameSourceKey(s.tables.docs[d], input) && s.log.origin[d] == input.raw)
  {
    var own := InputOf(s, d);
    var mine, theirs := InputChecksum(sha, own), InputChecksum(sha, input);
    var here, there := SourceKey(own.sourceRef, own.title), SourceKey(input.sourceRef, input.title);
    ChecksumFaithful(sha, own.raw, input.raw);
    assert ("idem:" + sha(KeyText(own.kb, here, mine)))[5..] == sha(KeyText(own.kb, here, mine));
    assert ("idem:" + sha(KeyText(input.kb, there, theirs)))[5..] == sha(KeyText(input.kb, there, theirs));
    if here == there {
      SameFieldsSameText(input.kb, there, mine, theirs);
    } else if KeyText(own.kb, here, mine) == KeyText(input.kb, there, theirs) {
      ChecksumShape(sha, own.raw);
      ChecksumShape(sha, input.raw);
      SourcesApart(input.kb, here, mine, there, theirs);
    }
  }

  lemma SourcesApart(kb: Id, source1: string, cs1: string, source2: string, cs2: string)
    requires IsChecksum(cs1) && IsChecksum(cs2) && KeyText(kb, source1, cs1) == KeyText(kb, source2, cs2)
    ensures source1 == source2
  {
    var front := kb + ":";
    assert KeyText(kb, source1, cs1) == front + (source1 + ":" + cs1);
    assert KeyText(kb, source2, cs2) == front + (source2 + ":" + cs2);
    assert KeyText(kb, source1, cs1)[|front|..] == source1 + ":" + cs1;
    assert KeyText(kb, source2, cs2)[|front|..] == source2 + ":" + cs2;
    SourceIsBeforeLastField(source1, cs1, source2, cs2);
  }

  lemma SameFieldsSameText(kb: Id, source: string, cs1: string, cs2: string)
    ensures KeyText(kb, source, cs1) == KeyText(kb, source, cs2) <==> cs1 == cs2
  {
    var front := kb + ":" + source + ":";
    assert KeyText(kb, source, cs1)[|front|..] == cs1 && KeyText(kb, source, cs2)[|front|..] == cs2;
  }

  lemma OwnKeyLeads(env: Env, s: System, input: Input, d: Id)
    requires Paired(env, s) && d in s.tables.docs && d in s.log.origin
    ensures KeyLeadsTo(env.sha, s.tables, input, d) <==> InputKey(env.sha, InputOf(s, d)) == InputKey(env.sha, input)
  {
    assert DocPaired(env, s, d);
    var own := s.log.jobOf[d];
    forall j | j in s.tables.jobs && s.tables.jobs[j].docId == d ensures j == own {
      assert JobPaired(s, j);
    }
  }

  /**
   For an upload without content and without a source reference: the match agrees with the key exactly
   when the matched row's content_bytes is zero, in every reachable state.
   */
  lemma EmptyUploadAgrees(env: Env, run: seq<Label>, input: Input, d: Id)
    requires Legal(env, run) && AllUploads(run)
    requires Uploadable(input) && input.sourceRef == "" && input.raw == ""
    requires FastPathMatches(env.sha, After(env, run).tables, input, d)
    ensures d in After(env, run).log.origin
    ensures
      var s := After(env, run);
      MatchClean(env.sha, s, d, input) ==>
        (KeyLeadsTo(env.sha, s.tables, input, d) <==> s.tables.docs[d].contentBytes == 0)
  {
    AlwaysPaired(env, run);
    AlwaysUploadable(env, run, d);
    assert DocPaired(env, After(env, run), d);
    MatchAgreesExactly(env, run, input, d);
  }

  /** The texts extracted from the document's bytes and from none do not collide with the upload. */
  ghost predicate TextsClean(env: Env, s: System, d: Id, input: Input)
    requires d in s.tables.docs && d in s.log.origin
  {
    && TextClean(env, Extract(env, s.tables.docs[d].sourceType, s.log.origin[d]), input.raw)
    && TextClean(env, Extract(env, s.tables.docs[d].sourceType, ""), input.raw)
  }

  ghost predicate TextClean(env: Env, text: Option<string>, raw: Bytes) {
    text.Some? ==> !Collision(env.sha, text.value, raw)
  }

  lemma SameChecksumSameText(env: Env, text: Option<string>, raw: Bytes, checksum: string)
    requires ChecksumOfText(env, text, checksum) && checksum == Checksum(env.sha, raw) && TextClean(env, text, raw)
    ensures text == Some(raw)
  {
    ChecksumFaithful(env.sha, text.value, raw);
  }

  /**
   In every run: a document that is not a url and that the short-circuit finds has the upload's bytes
   as the text extracted from what was enqueued, or from no bytes.  So when the upload's bytes are
   neither their own extracted text nor that of no bytes, no match agrees with the key: the upload is
   answered with a different file of that name.
   */
  lemma FileMatchIsAnotherFile(env: Env, run: seq<Label>, input: Input, d: Id)
    requires Legal(env, run) && FastPathMatches(env.sha, After(env, run).tables, input, d)
    ensures d in After(env, run).log.origin
    ensures
      var s := After(env, run);
      var sourceType := s.tables.docs[d].sourceType;
      && (!sourceType.Url? && TextsClean(env, s, d, input) ==> OwnText(env, sourceType, s.log.origin[d], input.raw))
      && (TextsClean(env, s, d, input) && MatchClean(env.sha, s, d, input) && !OwnText(env, sourceType, input.raw, input.raw)
          ==> !KeyLeadsTo(env.sha, s.tables, input, d))
  {
    var s := After(env, run);
    AlwaysPaired(env, run);
    DocHasOrigin(env, s, d);
    AlwaysOwnText(env, run);
    OwnTextOf(env, s, d, "");
    hide After, Legal, Paired, OwnTexts, Extract, KeyLeadsTo, MatchClean, IdempotencyKey, Checksum;
    var doc, origin := s.tables.docs[d], s.log.origin[d];
    if !doc.sourceType.Url? && TextsClean(env, s, d, input) {
      if ChecksumOfText(env, Extract(env, doc.sourceType, origin), doc.checksum) {
        SameChecksumSameText(env, Extract(env, doc.sourceType, origin), input.raw, doc.checksum);
      } else {
        SameChecksumSameText(env, Extract(env, doc.sourceType, ""), input.raw, doc.checksum);
      }
    }
    MatchAgreesExactly(env, run, input, d);
  }
}
