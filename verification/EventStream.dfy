/**
 Frames on the wire: what the handler writes for each, and how a client reads an event stream
 (section 9.2 of the WHATWG HTML standard).
 */
module EventStream {
  import opened Streaming

  datatype Event = Event(name: string, data: string)

  function Encode(e: Event): string {
    "event: " + e.name + "\n" + "data: " + e.data + "\n" + "\n"
  }

  function EncodeAll(events: seq<Event>): string {
    if events == [] then "" else EncodeAll(events[..|events| - 1]) + Encode(events[|events| - 1])
  }

  // ---- the client's parser ------------------------------------------------------------

  /** The current line, whether the last character was a carriage return, the two buffers, and the events dispatched. */
  datatype Parser = Parser(line: string, afterReturn: bool, name: string, data: string, out: seq<Event>)

  const FRESH := Parser("", false, "", "", [])

  /** The line up to its first colon. */
  function Field(line: string): string {
    if line == "" || line[0] == ':' then "" else [line[0]] + Field(line[1..])
  }

  /** What follows the colon, without one leading space. */
  function Value(line: string): string {
    var n := |Field(line)|;
    if n >= |line| then ""
    else
      var rest := line[n + 1..];
      if rest != "" && rest[0] == ' ' then rest[1..] else rest
  }

  function Dispatch(p: Parser): Parser {
    if p.data == "" then p.(name := "")
    else p.(name := "", data := "", out := p.out + [Event(if p.name == "" then "message" else p.name, p.data[..|p.data| - 1])])
  }

  function EndLine(p: Parser): Parser {
    var q := p.(line := "");
    if p.line == "" then Dispatch(q)
    else if p.line[0] == ':' then q
    else if Field(p.line) == "event" then q.(name := Value(p.line))
    else if Field(p.line) == "data" then q.(data := q.data + Value(p.line) + "\n")
    else q
  }

  /** One character: lines end with LF, CR or CR LF. */
  function Feed(p: Parser, c: char): Parser {
    if c == '\n' && p.afterReturn then p.(afterReturn := false)
    else if c == '\n' || c == '\r' then EndLine(p).(afterReturn := c == '\r')
    else p.(line := p.line + [c], afterReturn := false)
  }

  function FeedAll(p: Parser, s: string): Parser
    decreases |s|
  {
    if s == "" then p else FeedAll(Feed(p, s[0]), s[1..])
  }

  // ---- round trip -----------------------------------------------------------------------

  predicate OneLine(s: string) {
    forall i :: 0 <= i < |s| ==> s[i] != '\n' && s[i] != '\r'
  }

  lemma {:induction false} FeedConcat(p: Parser, s: string, t: string)
    ensures FeedAll(p, s + t) == FeedAll(FeedAll(p, s), t)
    decreases |s|
  {
    if s == "" {
      assert s + t == t;
    } else {
      assert (s + t)[0] == s[0] && (s + t)[1..] == s[1..] + t;
      FeedConcat(Feed(p, s[0]), s[1..], t);
    }
  }

  lemma {:induction false} FeedOneLine(p: Parser, s: string)
    requires OneLine(s) && !p.afterReturn
    ensures FeedAll(p, s) == p.(line := p.line + s)
    decreases |s|
  {
    if s == "" {
      assert p.line + s == p.line;
    } else {
      FeedOneLine(Feed(p, s[0]), s[1..]);
      assert p.line + [s[0]] + s[1..] == p.line + s;
    }
  }

  lemma {:induction false} FieldBeforeColon(field: string, rest: string)
    requires ':' !in field
    ensures Field(field + ":" + rest) == field
    decreases |field|
  {
    var line := field + ":" + rest;
    if field != "" {
      assert line[1..] == field[1..] + ":" + rest;
      FieldBeforeColon(field[1..], rest);
    }
  }

  /** A whole line "field: value" and its end. */
  lemma FeedField(p: Parser, field: string, value: string)
    requires p.line == "" && !p.afterReturn
    requires field != "" && ':' !in field && OneLine(field) && OneLine(value)
    ensures
      var line := field + ":" + (" " + value);
      && Field(line) == field && Value(line) == value
      && FeedAll(p, line + "\n") == EndLine(p.(line := line))
  {
    var line := field + ":" + (" " + value);
    FieldBeforeColon(field, " " + value);
    assert line[|field| + 1..] == " " + value;
    assert (" " + value)[1..] == value;
    FeedConcat(p, line, "\n");
    FeedOneLine(p, line);
    assert p.line + line == line;
    var q := p.(line := line);
    assert FeedAll(q, "\n") == Feed(q, '\n');
  }

  lemma FeedName(p: Parser, name: string)
    requires p.line == "" && !p.afterReturn && OneLine(name)
    ensures FeedAll(p, "event: " + name + "\n") == p.(name := name)
  {
    hide FeedAll, Feed, Field, Value, Dispatch;
    var line := "event" + ":" + (" " + name);
    FeedField(p, "event", name);
    assert line + "\n" == "event: " + name + "\n";
    assert EndLine(p.(line := line)) == p.(name := name);
  }

  lemma FeedData(p: Parser, data: string)
    requires p.line == "" && !p.afterReturn && OneLine(data)
    ensures FeedAll(p, "data: " + data + "\n") == p.(data := p.data + data + "\n")
  {
    hide FeedAll, Feed, Field, Value, Dispatch;
    var line := "data" + ":" + (" " + data);
    FeedField(p, "data", data);
    assert line + "\n" == "data: " + data + "\n";
    assert EndLine(p.(line := line)) == p.(data := p.data + data + "\n");
  }

  lemma FeedBlank(p: Parser, data: string)
    requires p.line == "" && !p.afterReturn && p.name != "" && p.data == data + "\n"
    ensures FeedAll(p, "\n") == p.(name := "", data := "", out := p.out + [Event(p.name, data)])
  {
    assert FeedAll(p, "\n") == Feed(p, '\n');
    assert (data + "\n")[..|data|] == data;
  }

  lemma FeedEvent(p: Parser, e: Event)
    requires p.line == "" && !p.afterReturn && p.name == "" && p.data == ""
    requires e.name != "" && OneLine(e.name) && OneLine(e.data)
    ensures FeedAll(p, Encode(e)) == p.(out := p.out + [e])
  {
    hide FeedAll;
    var first, second := "event: " + e.name + "\n", "data: " + e.data + "\n";
    assert Encode(e) == first + (second + "\n");
    FeedConcat(p, first, second + "\n");
    FeedName(p, e.name);
    var named := p.(name := e.name);
    FeedConcat(named, second, "\n");
    FeedData(named, e.data);
    assert "" + e.data + "\n" == e.data + "\n";
    FeedBlank(named.(data := e.data + "\n"), e.data);
  }

  ghost predicate Sendable(events: seq<Event>) {
    forall i :: 0 <= i < |events| ==> events[i].name != "" && OneLine(events[i].name) && OneLine(events[i].data)
  }

  /** A client reads back exactly the events that were written. */
  lemma {:induction false} RoundTrip(events: seq<Event>)
    requires Sendable(events)
    ensures FeedAll(FRESH, EncodeAll(events)) == FRESH.(out := events)
    decreases |events|
  {
    if events != [] {
      var front, e := events[..|events| - 1], events[|events| - 1];
      RoundTrip(front);
      FeedConcat(FRESH, EncodeAll(front), Encode(e));
      FeedEvent(FRESH.(out := front), e);
      assert front + [e] == events;
    }
  }

  lemma {:induction false} OutGrows(p: Parser, s: string)
    ensures p.out <= FeedAll(p, s).out
    decreases |s|
  {
    if s != "" {
      OutGrows(Feed(p, s[0]), s[1..]);
    }
  }

  /** A stream cut off anywhere yields the first of its events and never part of one. */
  lemma CutOffAnywhere(events: seq<Event>, n: nat)
    requires Sendable(events) && n <= |EncodeAll(events)|
    ensures FeedAll(FRESH, EncodeAll(events)[..n]).out <= events
  {
    var whole := EncodeAll(events);
    assert whole == whole[..n] + whole[n..];
    FeedConcat(FRESH, whole[..n], whole[n..]);
    OutGrows(FeedAll(FRESH, whole[..n]), whole[n..]);
    RoundTrip(events);
  }

  /** CR, LF and CR LF each end a line, and end it alike. */
  lemma LineEndsAlike(p: Parser)
    requires !p.afterReturn
    ensures FeedAll(p, "\r\n") == FeedAll(p, "\n") && FeedAll(p, "\r").(afterReturn := false) == FeedAll(p, "\n")
  {
    assert "\r\n"[1..] == "\n" && "\n"[1..] == "" && "\r"[1..] == "";
    assert FeedAll(p, "\r\n") == FeedAll(Feed(p, '\r'), "\n");
  }

  /** A comment, a line that starts with a colon, is passed over. */
  lemma CommentsIgnored(p: Parser, comment: string)
    requires p.line == "" && !p.afterReturn && OneLine(comment)
    ensures FeedAll(p, ":" + comment + "\n") == p
  {
    var line := ":" + comment;
    FeedConcat(p, line, "\n");
    FeedOneLine(p, line);
    assert p.line + line == line;
    assert FeedAll(p.(line := line), "\n") == Feed(p.(line := line), '\n');
  }

  /** A blank line after no data dispatches nothing and forgets the event's name. */
  lemma NoDataNoEvent(p: Parser)
    requires p.line == "" && !p.afterReturn && p.data == ""
    ensures FeedAll(p, "\n") == p.(name := "")
  {
    assert FeedAll(p, "\n") == Feed(p, '\n');
  }

  // ---- the frames of an ask --------------------------------------------------------------

  function EventOf(json: Frame -> string, frame: Frame): Event {
    match frame
    case Token(_) => Event("token", json(frame))
    case Done(_, _, _, _) => Event("done", json(frame))
    case Failure(_) => Event("error", json(frame))
  }

  function EventsOf(json: Frame -> string, frames: seq<Frame>): seq<Event> {
    seq(|frames|, i requires 0 <= i < |frames| => EventOf(json, frames[i]))
  }

  /** With payloads on one line, as JSON escapes line ends, the client sees the frames of the exchange, in order. */
  lemma ClientSeesFrames(json: Frame -> string, frames: seq<Frame>)
    requires forall frame :: OneLine(json(frame))
    ensures
      var read := FeedAll(FRESH, EncodeAll(EventsOf(json, frames))).out;
      && |read| == |frames|
      && forall i :: 0 <= i < |frames| ==>
           && read[i].data == json(frames[i])
           && read[i].name == if frames[i].Token? then "token" else if frames[i].Done? then "done" else "error"
  {
    assert OneLine("token") && OneLine("done") && OneLine("error");
    RoundTrip(EventsOf(json, frames));
  }
}
