/**
 The streaming ask, from the model's events through the session history to the frames on the
 wire.  Every call that can fail is given as an outcome: the retrieval, the model stream, the
 two history statements, and each write to the client.
 */
module Streaming {
  import opened Basics
  import opened Sessions

  datatype Hit = Hit(chunkId: Id, docId: Id, title: string, sectionPath: seq<string>, score: real, content: string)

  datatype Citation = Citation(chunkId: Id, docId: Id, title: string, sectionPath: seq<string>, score: real, snippet: string)

  datatype Frame =
    | Token(text: string)
    | Done(citations: seq<Citation>, mode: string, hitCount: nat, sessionId: Id)
    | Failure(message: string)

  datatype ModelEvent = TextDelta(text: string) | Ignored

  datatype StreamEnd = Eof | Fault(message: string)

  /** How the collaborators of one ask answer: `setup` is an error of retrieval, prompt or stream opening. */
  datatype Provider = Provider(setup: Option<string>, hits: seq<Hit>, events: seq<ModelEvent>, end: StreamEnd)

  datatype Persistence = NoRecorder | Recorder(ensure: EnsureCalls, append: AppendCalls, newId: Id)

  datatype Request = Request(kb: Id, user: Id, session: Id, question: string, mode: string)

  const WRITE_FAILED := "write"
  const UNSUPPORTED_MODE := "retrieval: unsupported mode"

  // ---- what an exchange amounts to ----------------------------------------------------

  /** The deltas that are shown: text events that are not empty, in order. */
  function Texts(events: seq<ModelEvent>): seq<string> {
    if events == [] then []
    else
      var e, front := events[|events| - 1], Texts(events[..|events| - 1]);
      if e.TextDelta? && e.text != "" then front + [e.text] else front
  }

  function Tokens(texts: seq<string>): seq<Frame> {
    seq(|texts|, i requires 0 <= i < |texts| => Token(texts[i]))
  }

  function Concat(texts: seq<string>): string {
    if texts == [] then "" else Concat(texts[..|texts| - 1]) + texts[|texts| - 1]
  }

  function Truncate(s: string, n: nat): string {
    if |s| <= n then s else s[..n]
  }

  function Cite(hit: Hit, snippetChars: nat): Citation {
    Citation(hit.chunkId, hit.docId, hit.title, hit.sectionPath, hit.score, Truncate(hit.content, snippetChars))
  }

  function Citations(hits: seq<Hit>, snippetChars: nat): seq<Citation> {
    seq(|hits|, i requires 0 <= i < |hits| => Cite(hits[i], snippetChars))
  }

  /** The first of the writes from `first` on that breaks, or `until` when none before it does. */
  function FirstBreak(breaks: nat -> bool, first: nat, until: nat): (n: nat)
    requires first <= until
    ensures first <= n <= until
    ensures forall k :: first <= k < n ==> !breaks(k)
    ensures n < until ==> breaks(n)
    decreases until - first
  {
    if first == until || breaks(first) then first else FirstBreak(breaks, first + 1, until)
  }

  /** What one exchange leaves: the frames the client got and the pair the history holds. */
  datatype Outcome = Outcome(frames: seq<Frame>, pair: Option<Ask>)

  /** The last frame, attempted as write n. */
  function Attempt(breaks: nat -> bool, n: nat, frame: Frame): seq<Frame> {
    if breaks(n) then [] else [frame]
  }

  function Record(request: Request, session: Id, answer: string): Ask {
    Ask(session, request.kb, request.user, request.question, answer, request.mode)
  }

  function Exchange(sessions: map<Id, Session>, request: Request, p: Provider, plan: Persistence,
                    breaks: nat -> bool, snippetChars: nat): Outcome
  {
    var texts := Texts(p.events);
    var sent := FirstBreak(breaks, 0, |texts|);
    if request.mode != "hybrid" && request.mode != "vector" then Outcome(Attempt(breaks, 0, Failure(UNSUPPORTED_MODE)), None)
    else if p.setup.Some? then Outcome(Attempt(breaks, 0, Failure(p.setup.value)), None)
    else if sent < |texts| then Outcome(Tokens(texts[..sent]) + Attempt(breaks, sent + 1, Failure(WRITE_FAILED)), None)
    else if p.end.Fault? then Outcome(Tokens(texts) + Attempt(breaks, sent, Failure(p.end.message)), None)
    else Finish(sessions, request, p, plan, breaks, snippetChars)
  }

  /** The part after the stream reached its end: record the pair, then tell the client. */
  function Finish(sessions: map<Id, Session>, request: Request, p: Provider, plan: Persistence,
                  breaks: nat -> bool, snippetChars: nat): Outcome
  {
    var texts := Texts(p.events);
    var n := |texts|;
    match plan
    case NoRecorder => Outcome(Tokens(texts) + Close(request, p, request.session, breaks, snippetChars), None)
    case Recorder(ensure, append, newId) =>
      match EnsuredSession(sessions, request.kb, request.user, request.session, newId, ensure)
      case Err(message) => Outcome(Tokens(texts) + Attempt(breaks, n, Failure(message)), None)
      case Ok(session) =>
        var pair := if BothWritten(append) then Some(Record(request, session, Concat(texts))) else None;
        if AppendFailure(append).Some? then Outcome(Tokens(texts) + Attempt(breaks, n, Failure(AppendFailure(append).value)), pair)
        else Outcome(Tokens(texts) + Close(request, p, session, breaks, snippetChars), pair)
  }

  /** The done frame, and an error frame when writing it fails. */
  function Close(request: Request, p: Provider, session: Id, breaks: nat -> bool, snippetChars: nat): seq<Frame> {
    var n := |Texts(p.events)|;
    if breaks(n) then Attempt(breaks, n + 1, Failure(WRITE_FAILED))
    else [Done(Citations(p.hits, snippetChars), request.mode, |p.hits|, session)]
  }

  // ---- the protocol -------------------------------------------------------------------

  predicate Terminal(frame: Frame) {
    frame.Done? || frame.Failure?
  }

  /** The frames from index k on are one terminal frame or none, those before it tokens. */
  ghost predicate TokensThenTerminal(frames: seq<Frame>, k: nat) {
    && k <= |frames| <= k + 1
    && (forall i :: 0 <= i < k ==> frames[i].Token?)
    && (|frames| == k + 1 ==> Terminal(frames[k]))
  }

  /** Tokens, then at most one of done and error; exactly one when no write fails. */
  lemma FrameProtocol(sessions: map<Id, Session>, request: Request, p: Provider, plan: Persistence,
                      breaks: nat -> bool, snippetChars: nat) returns (k: nat)
    ensures
      var frames := Exchange(sessions, request, p, plan, breaks, snippetChars).frames;
      && TokensThenTerminal(frames, k)
      && ((forall n :: !breaks(n)) ==> |frames| == k + 1)
  {
    var texts := Texts(p.events);
    var sent := FirstBreak(breaks, 0, |texts|);
    k := if (request.mode != "hybrid" && request.mode != "vector") || p.setup.Some? then 0 else sent;
  }

  /** The text the token frames show, concatenated. */
  function Shown(frames: seq<Frame>): string {
    if frames == [] then ""
    else
      var last := frames[|frames| - 1];
      Shown(frames[..|frames| - 1]) + (if last.Token? then last.text else "")
  }

  lemma {:induction false} ShownTokens(texts: seq<string>, tail: seq<Frame>)
    requires |tail| <= 1 && forall f :: f in tail ==> !f.Token?
    ensures Shown(Tokens(texts) + tail) == Concat(texts)
    decreases |texts| + |tail|
  {
    var frames := Tokens(texts) + tail;
    if tail != [] {
      assert frames[..|frames| - 1] == Tokens(texts) + [];
      ShownTokens(texts, []);
    } else if texts != [] {
      assert frames[..|frames| - 1] == Tokens(texts[..|texts| - 1]) + [];
      ShownTokens(texts[..|texts| - 1], []);
    }
  }

  /** A pair is recorded only of a stream that reached its end with every delta shown, and its answer is what was shown. */
  lemma RecordedOnlyAtEof(sessions: map<Id, Session>, request: Request, p: Provider, plan: Persistence,
                          breaks: nat -> bool, snippetChars: nat)
    ensures
      var o := Exchange(sessions, request, p, plan, breaks, snippetChars);
      o.pair.Some? ==>
        && p.setup.None? && p.end.Eof? && Tokens(Texts(p.events)) <= o.frames
        && o.pair.value.answer == Shown(o.frames) && o.pair.value.question == request.question
        && plan.Recorder? && o.pair.value.kb == request.kb && o.pair.value.user == request.user
        && (o.pair.value.session == plan.newId || Owns(sessions, o.pair.value.session, request.kb, request.user))
  {
    var o := Exchange(sessions, request, p, plan, breaks, snippetChars);
    if o.pair.Some? {
      var texts := Texts(p.events);
      var tail := o.frames[|texts|..];
      assert o.frames == Tokens(texts) + tail;
      ShownTokens(texts, tail);
    }
  }

  /** With a recorder, a client that sees done knows its pair is recorded, in the session the frame names. */
  lemma DoneMeansRecorded(sessions: map<Id, Session>, request: Request, p: Provider, plan: Persistence,
                          breaks: nat -> bool, snippetChars: nat, i: nat)
    requires plan.Recorder?
    requires i < |Exchange(sessions, request, p, plan, breaks, snippetChars).frames|
    requires Exchange(sessions, request, p, plan, breaks, snippetChars).frames[i].Done?
    ensures
      var o := Exchange(sessions, request, p, plan, breaks, snippetChars);
      && i == |o.frames| - 1
      && o.pair == Some(Record(request, o.frames[i].sessionId, Shown(o.frames)))
      && (forall n: nat :: n <= i ==> !breaks(n))
  {
    RecordedOnlyAtEof(sessions, request, p, plan, breaks, snippetChars);
    hide Shown, Texts, Concat, Citations, EnsuredSession, Tokens;
    DoneIsLast(sessions, request, p, plan, breaks, snippetChars, i);
  }

  lemma DoneIsLast(sessions: map<Id, Session>, request: Request, p: Provider, plan: Persistence,
                   breaks: nat -> bool, snippetChars: nat, i: nat)
    requires plan.Recorder?
    requires i < |Exchange(sessions, request, p, plan, breaks, snippetChars).frames|
    requires Exchange(sessions, request, p, plan, breaks, snippetChars).frames[i].Done?
    ensures
      var o, n := Exchange(sessions, request, p, plan, breaks, snippetChars), |Texts(p.events)|;
      && i == n == |o.frames| - 1 && !breaks(n) && FirstBreak(breaks, 0, n) == n
      && o.pair == Some(Record(request, o.frames[i].sessionId, Concat(Texts(p.events))))
  {
    hide Texts, Concat, Citations, EnsuredSession;
  }

  /** Done is what the client gets exactly when nothing failed before it, and then it carries the citations of the hits. */
  lemma DoneIffNothingFailed(sessions: map<Id, Session>, request: Request, p: Provider, plan: Persistence,
                             breaks: nat -> bool, snippetChars: nat)
    ensures
      var frames := Exchange(sessions, request, p, plan, breaks, snippetChars).frames;
      (frames != [] && frames[|frames| - 1].Done?) <==>
        (&& (request.mode == "hybrid" || request.mode == "vector") && p.setup.None? && p.end.Eof?
         && (forall n :: 0 <= n <= |Texts(p.events)| ==> !breaks(n))
         && (plan.Recorder? ==>
              EnsuredSession(sessions, request.kb, request.user, request.session, plan.newId, plan.ensure).Ok?
              && AppendFailure(plan.append).None?))
  {
  }

  /** A citation names its hit and quotes the beginning of its content. */
  ghost predicate CitesHit(c: Citation, hit: Hit, snippetChars: nat) {
    && c.chunkId == hit.chunkId && c.docId == hit.docId && c.title == hit.title
    && c.sectionPath == hit.sectionPath && c.score == hit.score
    && c.snippet <= hit.content && |c.snippet| == if |hit.content| < snippetChars then |hit.content| else snippetChars
  }

  /** A done frame cites every hit in order, with the mode asked for; without a recorder it passes the session id through. */
  lemma DoneCitesHits(sessions: map<Id, Session>, request: Request, p: Provider, plan: Persistence,
                      breaks: nat -> bool, snippetChars: nat)
    ensures
      var frames := Exchange(sessions, request, p, plan, breaks, snippetChars).frames;
      frames != [] && frames[|frames| - 1].Done? ==>
        var done := frames[|frames| - 1];
        && done.mode == request.mode && done.hitCount == |p.hits| == |done.citations|
        && (forall i :: 0 <= i < |p.hits| ==> CitesHit(done.citations[i], p.hits[i], snippetChars))
        && (plan.NoRecorder? ==> done.sessionId == request.session)
  {
    hide Texts, Concat, EnsuredSession;
  }

  /** The shown deltas of two stretches of events are those of the first and then those of the second. */
  lemma {:induction false} TextsInOrder(a: seq<ModelEvent>, b: seq<ModelEvent>)
    ensures Texts(a + b) == Texts(a) + Texts(b)
    decreases |b|
  {
    if b == [] {
      assert a + b == a;
    } else {
      assert (a + b)[..|a + b| - 1] == a + b[..|b| - 1];
      TextsInOrder(a, b[..|b| - 1]);
    }
  }

  lemma TextsOfOne(text: string)
    ensures Texts([TextDelta(text)]) == if text == "" then [] else [text]
    ensures Texts([Ignored]) == [] && Texts([]) == []
  {
    assert [TextDelta(text)][..0] == [] && [Ignored][..0] == [];
  }

  lemma {:induction false} ConcatInOrder(a: seq<string>, b: seq<string>)
    ensures Concat(a + b) == Concat(a) + Concat(b)
    ensures |b| == 1 ==> Concat(b) == b[0]
    decreases |b|
  {
    if b == [] {
      assert a + b == a;
    } else {
      assert (a + b)[..|a + b| - 1] == a + b[..|b| - 1];
      ConcatInOrder(a, b[..|b| - 1]);
    }
  }

  /** A response whose writes fail for good once one has failed. */
  ghost predicate Sticky(breaks: nat -> bool) {
    forall m, n :: m <= n && breaks(m) ==> breaks(n)
  }

  ghost predicate ErrorYetRecorded(o: Outcome) {
    o.pair.Some? && o.frames != [] && o.frames[|o.frames| - 1].Failure?
  }

  /** The stream ended, every delta was written, and both messages are in the history. */
  ghost predicate RecordedAtEnd(sessions: map<Id, Session>, request: Request, p: Provider, plan: Persistence, breaks: nat -> bool) {
    && (request.mode == "hybrid" || request.mode == "vector") && p.setup.None? && p.end.Eof?
    && (forall n :: 0 <= n < |Texts(p.events)| ==> !breaks(n))
    && plan.Recorder? && BothWritten(plan.append)
    && EnsuredSession(sessions, request.kb, request.user, request.session, plan.newId, plan.ensure).Ok?
  }

  /**
   An error frame does not mean that nothing was recorded.  Exactly when a client is told of an error and
   its pair is in the history: the commit was in doubt, or the done frame could not be written and the
   error frame could.  Over a response that stays broken only the first is left.
   */
  lemma ErrorAfterRecordingExactly(sessions: map<Id, Session>, request: Request, p: Provider, plan: Persistence,
                                   breaks: nat -> bool, snippetChars: nat)
    ensures
      var o, n := Exchange(sessions, request, p, plan, breaks, snippetChars), |Texts(p.events)|;
      && (ErrorYetRecorded(o) <==>
            (RecordedAtEnd(sessions, request, p, plan, breaks)
             && (if plan.append.end.CommitInDoubt? then !breaks(n) else breaks(n) && !breaks(n + 1))))
      && (Sticky(breaks) && ErrorYetRecorded(o) ==> plan.append.end.CommitInDoubt?)
  {
    hide Texts, Concat, Citations, EnsuredSession;
    var texts := Texts(p.events);
    if FirstBreak(breaks, 0, |texts|) < |texts| {
      assert breaks(FirstBreak(breaks, 0, |texts|));
    }
  }

  /** Every write succeeds, the commit reports an error and has happened: the client sees an error, the history the pair. */
  lemma ErrorAfterRecording(request: Request, events: seq<ModelEvent>, newId: Id)
    requires request.mode == "hybrid" && request.session == ""
    ensures
      var o := Exchange(map[], request, Provider(None, [], events, Eof),
                        Recorder(EnsureCalls(true, Committed), AppendCalls(true, true, true, CommitInDoubt), newId), (k: nat) => false, 0);
      o.frames == Tokens(Texts(events)) + [Failure("commit")] && o.pair.Some?
  {
  }

  // ---- the program ----------------------------------------------------------------------

  /** The response being written: `frames` are those its writer accepted.  An error of the flush is dropped, so a client may see fewer. */
  class Wire {
    const breaks: nat -> bool
    var frames: seq<Frame>
    var writes: nat

    constructor (breaks: nat -> bool)
      ensures this.breaks == breaks && frames == [] && writes == 0
    {
      this.breaks, frames, writes := breaks, [], 0;
    }

    method WriteFrame(frame: Frame) returns (failure: Option<string>)
      modifies this
      ensures writes == old(writes) + 1
      ensures frames == old(frames) + Attempt(breaks, old(writes), frame)
      ensures failure == if breaks(old(writes)) then Some(WRITE_FAILED) else None
    {
      var n := writes;
      writes := writes + 1;
      if breaks(n) {
        return Some(WRITE_FAILED);
      }
      frames := frames + [frame];
      failure := None;
    }
  }

  datatype StreamEvent = TokenEvent(text: string) | DoneEvent(hits: seq<Hit>)

  /** One ask in progress: the callback passed to the stream and the variables it captures. */
  class Asking {
    const wire: Wire
    const snippetChars: nat
    var answer: string
    var citations: seq<Citation>
    var hitCount: nat

    constructor (wire: Wire, snippetChars: nat)
      ensures this.wire == wire && this.snippetChars == snippetChars && answer == "" && citations == [] && hitCount == 0
    {
      this.wire, this.snippetChars := wire, snippetChars;
      answer, citations, hitCount := "", [], 0;
    }

    method Emit(ev: StreamEvent) returns (failure: Option<string>)
      modifies this, wire
      ensures ev.TokenEvent? ==>
        && answer == old(answer) + ev.text && citations == old(citations) && hitCount == old(hitCount)
        && wire.writes == old(wire.writes) + 1
        && wire.frames == old(wire.frames) + Attempt(wire.breaks, old(wire.writes), Token(ev.text))
        && failure == (if wire.breaks(old(wire.writes)) then Some(WRITE_FAILED) else None)
      ensures ev.DoneEvent? ==>
        && failure == None && answer == old(answer) && unchanged(wire)
        && citations == Citations(ev.hits, snippetChars) && hitCount == |ev.hits|
    {
      match ev
      case TokenEvent(text) =>
        answer := answer + text;
        failure := wire.WriteFrame(Token(text));
      case DoneEvent(hits) =>
        var cites := [];
        for i := 0 to |hits|
          invariant cites == Citations(hits[..i], snippetChars)
        {
          cites := cites + [Cite(hits[i], snippetChars)];
          assert hits[..i + 1] == hits[..i] + [hits[i]];
        }
        assert hits[..|hits|] == hits;
        citations, hitCount := cites, |hits|;
        failure := None;
    }
  }

  /** The read loop: the deltas go to the client one by one until a write fails. */
  method Forward(events: seq<ModelEvent>, ask: Asking) returns (failure: Option<string>)
    requires ask.wire.frames == [] && ask.wire.writes == 0 && ask.answer == ""
    modifies ask, ask.wire
    ensures
      var texts := Texts(events);
      var sent := FirstBreak(ask.wire.breaks, 0, |texts|);
      && ask.wire.frames == Tokens(texts[..sent])
      && failure == (if sent < |texts| then Some(WRITE_FAILED) else None)
      && ask.wire.writes == (if sent < |texts| then sent + 1 else sent)
      && (failure == None ==> ask.answer == Concat(texts))
  {
    hide Texts, Concat, FirstBreak, Tokens;
    ghost var texts := Texts(events);
    NoTexts(events);
    for i := 0 to |events|
      invariant Shows(ask, Texts(events[..i])) && Texts(events[..i]) <= texts
      invariant forall k :: 0 <= k < |Texts(events[..i])| ==> !ask.wire.breaks(k)
    {
      var ev := events[i];
      ghost var shown := Texts(events[..i]);
      NextText(events, i);
      if ev.TextDelta? && ev.text != "" {
        var emitFailure := ask.Emit(TokenEvent(ev.text));
        ShowOneMore(shown, ev.text);
        if emitFailure.Some? {
          BreaksAt(ask.wire.breaks, |shown|, |texts|);
          assert texts[..|shown|] == shown;
          return emitFailure;
        }
      }
    }
    assert events[..|events|] == events && texts[..|texts|] == texts;
    NoBreak(ask.wire.breaks, |texts|);
    failure := None;
  }

  /** Deltas are forwarded until a write fails, the stream faults or it ends; only then come the citations. */
  method StreamAnswer(p: Provider, ask: Asking) returns (failure: Option<string>)
    requires ask.wire.frames == [] && ask.wire.writes == 0 && ask.answer == ""
    modifies ask, ask.wire
    ensures
      var texts := Texts(p.events);
      var sent := FirstBreak(ask.wire.breaks, 0, |texts|);
      if p.setup.Some? then
        failure == p.setup && ask.wire.frames == [] && ask.wire.writes == 0
      else if sent < |texts| then
        failure == Some(WRITE_FAILED) && ask.wire.frames == Tokens(texts[..sent]) && ask.wire.writes == sent + 1
      else
        && ask.wire.frames == Tokens(texts) && ask.wire.writes == |texts| && ask.answer == Concat(texts)
        && failure == (if p.end.Fault? then Some(p.end.message) else None)
        && (failure == None ==> ask.citations == Citations(p.hits, ask.snippetChars) && ask.hitCount == |p.hits|)
  {
    hide Texts, Concat, Tokens, Citations;
    if p.setup.Some? {
      return p.setup;
    }
    failure := Forward(p.events, ask);
    if failure.Some? {
      return;
    }
    assert Texts(p.events)[..|Texts(p.events)|] == Texts(p.events);
    if p.end.Fault? {
      return Some(p.end.message);
    }
    failure := ask.Emit(DoneEvent(p.hits));
  }

  /** These texts, and nothing else, were written and collected. */
  ghost predicate Shows(ask: Asking, shown: seq<string>)
    reads ask, ask.wire
  {
    ask.wire.frames == Tokens(shown) && ask.wire.writes == |shown| && ask.answer == Concat(shown)
  }

  lemma NoTexts(events: seq<ModelEvent>)
    ensures Texts(events[..0]) == [] && Concat([]) == "" && Tokens([]) == []
  {
    assert events[..0] == [];
  }

  lemma ShowOneMore(texts: seq<string>, text: string)
    ensures Concat(texts + [text]) == Concat(texts) + text
    ensures Tokens(texts + [text]) == Tokens(texts) + [Token(text)] && Tokens(texts) + [] == Tokens(texts)
  {
    assert (texts + [text])[..|texts|] == texts;
  }

  lemma NextText(events: seq<ModelEvent>, i: nat)
    requires i < |events|
    ensures
      var shown, ev := Texts(events[..i]), events[i];
      Texts(events[..i + 1]) == if ev.TextDelta? && ev.text != "" then shown + [ev.text] else shown
    ensures Texts(events[..i + 1]) <= Texts(events)
  {
    assert events[..i + 1][..i] == events[..i];
    TextsGrow(events, i + 1);
  }

  lemma {:induction false} TextsGrow(events: seq<ModelEvent>, n: nat)
    requires n <= |events|
    ensures Texts(events[..n]) <= Texts(events)
    decreases |events|
  {
    if n < |events| {
      var front := events[..|events| - 1];
      TextsGrow(front, n);
      assert front[..n] == events[..n];
    } else {
      assert events[..n] == events;
    }
  }

  lemma BreaksAt(breaks: nat -> bool, n: nat, until: nat)
    requires n < until && breaks(n) && forall k :: 0 <= k < n ==> !breaks(k)
    ensures FirstBreak(breaks, 0, until) == n
  {
  }

  lemma NoBreak(breaks: nat -> bool, until: nat)
    requires forall k :: 0 <= k < until ==> !breaks(k)
    ensures FirstBreak(breaks, 0, until) == until
  {
  }

  class AskService {
    const repo: Repo
    const snippetChars: nat

    constructor (repo: Repo, snippetChars: nat)
      ensures this.repo == repo && this.snippetChars == snippetChars
    {
      this.repo, this.snippetChars := repo, snippetChars;
    }

    /** Records the pair in the request's session; without a recorder the session id is passed through. */
    method Persist(request: Request, answer: string, plan: Persistence) returns (r: Result<Id>)
      requires repo.Valid() && (plan.Recorder? ==> plan.newId !in repo.sessions)
      modifies repo
      ensures repo.Valid()
      ensures r == PersistAnswer(old(repo.sessions), request, plan)
      ensures PersistedPair(old(repo.sessions), request, answer, plan).None? ==> repo.rows == old(repo.rows)
      ensures
        var pair := PersistedPair(old(repo.sessions), request, answer, plan);
        pair.Some? ==>
          && Owns(repo.sessions, pair.value.session, request.kb, request.user)
          && TranscriptBelow(repo.rows, pair.value.session, repo.nextSeq)
             == TranscriptBelow(old(repo.rows), pair.value.session, old(repo.nextSeq))
                + [UserMessage(pair.value), AssistantMessage(pair.value)]
    {
      if plan.NoRecorder? {
        return Ok(request.session);
      }
      var session := repo.EnsureSession(request.kb, request.user, request.session, request.question, plan.newId, plan.ensure);
      if session.Err? {
        return session;
      }
      var failure := repo.AppendPair(Record(request, session.value, answer), plan.append);
      if failure.Some? {
        return Err(failure.value);
      }
      r := session;
    }

    /** What follows the end of the stream: the pair is recorded, then done is delivered. */
    method Conclude(request: Request, p: Provider, plan: Persistence, ask: Asking) returns (failure: Option<string>)
      requires repo.Valid() && (plan.Recorder? ==> plan.newId !in repo.sessions)
      requires request.mode == "hybrid" || request.mode == "vector"
      requires p.setup.None? && p.end.Eof? && FirstBreak(ask.wire.breaks, 0, |Texts(p.events)|) == |Texts(p.events)|
      requires ask.wire.frames == Tokens(Texts(p.events)) && ask.wire.writes == |Texts(p.events)|
      requires ask.answer == Concat(Texts(p.events)) && ask.hitCount == |p.hits|
      requires ask.citations == Citations(p.hits, snippetChars)
      modifies repo, ask.wire
      ensures repo.Valid()
      ensures ask.wire.frames + (if failure.Some? then Attempt(ask.wire.breaks, ask.wire.writes, Failure(failure.value)) else [])
        == Exchange(old(repo.sessions), request, p, plan, ask.wire.breaks, snippetChars).frames
      ensures HistoryHas(Exchange(old(repo.sessions), request, p, plan, ask.wire.breaks, snippetChars).pair,
                         old(repo.rows), old(repo.nextSeq), repo.sessions, repo.rows, repo.nextSeq)
    {
      hide Exchange, Texts, Concat, Tokens, Citations, TranscriptBelow, Owns;
      Completed(repo.sessions, request, p, plan, ask.wire.breaks, snippetChars);
      var session := Persist(request, ask.answer, plan);
      if session.Err? {
        return Some(session.message);
      }
      failure := ask.wire.WriteFrame(Done(ask.citations, request.mode, ask.hitCount, session.value));
    }

    method AskStream(request: Request, p: Provider, plan: Persistence, wire: Wire) returns (failure: Option<string>)
      requires repo.Valid() && (plan.Recorder? ==> plan.newId !in repo.sessions)
      requires wire.frames == [] && wire.writes == 0
      modifies repo, wire
      ensures repo.Valid()
      ensures wire.frames + (if failure.Some? then Attempt(wire.breaks, wire.writes, Failure(failure.value)) else [])
        == Exchange(old(repo.sessions), request, p, plan, wire.breaks, snippetChars).frames
      ensures HistoryHas(Exchange(old(repo.sessions), request, p, plan, wire.breaks, snippetChars).pair,
                         old(repo.rows), old(repo.nextSeq), repo.sessions, repo.rows, repo.nextSeq)
    {
      hide Exchange, Texts, Concat, Tokens, Citations;
      Unsupported(repo.sessions, request, p, plan, wire.breaks, snippetChars);
      if request.mode != "hybrid" && request.mode != "vector" {
        return Some(UNSUPPORTED_MODE);
      }
      var ask := new Asking(wire, snippetChars);
      failure := StreamAnswer(p, ask);
      if failure.Some? {
        StoppedShort(repo.sessions, request, p, plan, wire.breaks, snippetChars);
        return;
      }
      failure := Conclude(request, p, plan, ask);
    }
  }

  function PersistAnswer(sessions: map<Id, Session>, request: Request, plan: Persistence): Result<Id> {
    match plan
    case NoRecorder => Ok(request.session)
    case Recorder(ensure, append, newId) =>
      var session := EnsuredSession(sessions, request.kb, request.user, request.session, newId, ensure);
      if session.Ok? && AppendFailure(append).Some? then Err(AppendFailure(append).value) else session
  }

  function PersistedPair(sessions: map<Id, Session>, request: Request, answer: string, plan: Persistence): Option<Ask> {
    match plan
    case NoRecorder => None
    case Recorder(ensure, append, newId) =>
      match EnsuredSession(sessions, request.kb, request.user, request.session, newId, ensure)
      case Ok(session) => if BothWritten(append) then Some(Record(request, session, answer)) else None
      case Err(_) => None
  }

  lemma Unsupported(sessions: map<Id, Session>, request: Request, p: Provider, plan: Persistence, breaks: nat -> bool, snippetChars: nat)
    ensures request.mode != "hybrid" && request.mode != "vector" ==>
      Exchange(sessions, request, p, plan, breaks, snippetChars) == Outcome(Attempt(breaks, 0, Failure(UNSUPPORTED_MODE)), None)
  {
  }

  /** An exchange whose stream did not reach its end. */
  lemma StoppedShort(sessions: map<Id, Session>, request: Request, p: Provider, plan: Persistence, breaks: nat -> bool, snippetChars: nat)
    requires request.mode == "hybrid" || request.mode == "vector"
    requires p.setup.Some? || p.end.Fault? || FirstBreak(breaks, 0, |Texts(p.events)|) < |Texts(p.events)|
    ensures
      var texts := Texts(p.events);
      var sent := FirstBreak(breaks, 0, |texts|);
      Exchange(sessions, request, p, plan, breaks, snippetChars) ==
        if p.setup.Some? then Outcome(Attempt(breaks, 0, Failure(p.setup.value)), None)
        else if sent < |texts| then Outcome(Tokens(texts[..sent]) + Attempt(breaks, sent + 1, Failure(WRITE_FAILED)), None)
        else Outcome(Tokens(texts) + Attempt(breaks, sent, Failure(p.end.message)), None)
  {
  }

  /** An exchange whose stream reached its end, by what persisting the answer returns. */
  lemma Completed(sessions: map<Id, Session>, request: Request, p: Provider, plan: Persistence, breaks: nat -> bool, snippetChars: nat)
    requires request.mode == "hybrid" || request.mode == "vector"
    requires p.setup.None? && p.end.Eof? && FirstBreak(breaks, 0, |Texts(p.events)|) == |Texts(p.events)|
    ensures
      var texts := Texts(p.events);
      var n, r := |texts|, PersistAnswer(sessions, request, plan);
      var o := Exchange(sessions, request, p, plan, breaks, snippetChars);
      && o.pair == PersistedPair(sessions, request, Concat(texts), plan)
      && o.frames == Tokens(texts) + (
        if r.Err? then Attempt(breaks, n, Failure(r.message))
        else if breaks(n) then Attempt(breaks, n + 1, Failure(WRITE_FAILED))
        else [Done(Citations(p.hits, snippetChars), request.mode, |p.hits|, r.value)])
  {
  }

  /** The pair is at the end of its session's transcript, and the session is the asker's; or nothing was recorded. */
  ghost predicate HistoryHas(pair: Option<Ask>, rows: Rows, next: nat, sessions: map<Id, Session>, rowsAfter: Rows, nextAfter: nat) {
    match pair
    case None => rowsAfter == rows
    case Some(ask) =>
      && Owns(sessions, ask.session, ask.kb, ask.user)
      && TranscriptBelow(rowsAfter, ask.session, nextAfter)
         == TranscriptBelow(rows, ask.session, next) + [UserMessage(ask), AssistantMessage(ask)]
  }

  /** The transcript's last two messages are this question by the user and this answer by the assistant. */
  ghost predicate EndsWith(transcript: seq<Message>, session: Id, question: string, answer: string, mode: string) {
    && |transcript| >= 2
    && Carries(transcript[|transcript| - 2], session, User, question, mode)
    && Carries(transcript[|transcript| - 1], session, Assistant, answer, mode)
  }

  /** After a done frame the session it names ends with the question asked and the answer shown. */
  lemma DoneInHistory(sessions: map<Id, Session>, request: Request, p: Provider, plan: Persistence, breaks: nat -> bool, snippetChars: nat,
                      rows: Rows, next: nat, sessionsAfter: map<Id, Session>, rowsAfter: Rows, nextAfter: nat)
    requires plan.Recorder?
    requires
      var o := Exchange(sessions, request, p, plan, breaks, snippetChars);
      && HistoryHas(o.pair, rows, next, sessionsAfter, rowsAfter, nextAfter)
      && o.frames != [] && o.frames[|o.frames| - 1].Done?
    ensures
      var frames := Exchange(sessions, request, p, plan, breaks, snippetChars).frames;
      var session := frames[|frames| - 1].sessionId;
      EndsWith(TranscriptBelow(rowsAfter, session, nextAfter), session, request.question, Shown(frames), request.mode)
  {
    var frames := Exchange(sessions, request, p, plan, breaks, snippetChars).frames;
    DoneMeansRecorded(sessions, request, p, plan, breaks, snippetChars, |frames| - 1);
    hide Exchange, TranscriptBelow, Shown;
  }

  const OK := 200
  const BAD_REQUEST := 400
  const INTERNAL_ERROR := 500

  /** A request that can be read and answered in frames gets exactly the frames of its exchange. */
  method AskStreamHandler(body: Option<Request>, canFlush: bool, service: AskService, p: Provider, plan: Persistence, wire: Wire)
    returns (status: int)
    requires service.repo.Valid() && (plan.Recorder? ==> plan.newId !in service.repo.sessions)
    requires wire.frames == [] && wire.writes == 0
    modifies service.repo, wire
    ensures status == if body.None? then BAD_REQUEST else if !canFlush then INTERNAL_ERROR else OK
    ensures status != OK ==> unchanged(service.repo) && wire.frames == []
    ensures status == OK ==>
      var o := Exchange(old(service.repo.sessions), body.value, p, plan, wire.breaks, service.snippetChars);
      && wire.frames == o.frames
      && HistoryHas(o.pair, old(service.repo.rows), old(service.repo.nextSeq), service.repo.sessions, service.repo.rows, service.repo.nextSeq)
    ensures status == OK && plan.Recorder? && wire.frames != [] && wire.frames[|wire.frames| - 1].Done? ==>
      EndsWith(TranscriptBelow(service.repo.rows, wire.frames[|wire.frames| - 1].sessionId, service.repo.nextSeq),
               wire.frames[|wire.frames| - 1].sessionId, body.value.question, Shown(wire.frames), body.value.mode)
  {
    if body.None? {
      return BAD_REQUEST;
    }
    if !canFlush {
      return INTERNAL_ERROR;
    }
    var failure := service.AskStream(body.value, p, plan, wire);
    if failure.Some? {
      var _ := wire.WriteFrame(Failure(failure.value));
    }
    status := OK;
    hide Exchange, Texts, Tokens, TranscriptBelow, Shown, EndsWith, HistoryHas;
    if plan.Recorder? && wire.frames != [] && wire.frames[|wire.frames| - 1].Done? {
      DoneInHistory(old(service.repo.sessions), body.value, p, plan, wire.breaks, service.snippetChars,
                    old(service.repo.rows), old(service.repo.nextSeq), service.repo.sessions, service.repo.rows, service.repo.nextSeq);
    }
  }
}
