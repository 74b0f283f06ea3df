/**
 The question-and-answer history: sessions, message pairs appended in transactions, and the
 transcript read back in insertion order.  Sequence numbers come from one counter that no
 rollback winds back.
 */
module Sessions {
  import opened Basics

  type Id = string

  datatype Role = User | Assistant

  datatype Session = Session(kb: Id, user: Id, title: string)

  /** One message row; `kb` and `user` are those of the ask it came from, which no column stores. */
  datatype Message = Message(session: Id, role: Role, content: string, mode: string, kb: Id, user: Id)

  type Rows = map<nat, Message>

  /** The messages of a session with a sequence number below n, in order. */
  function TranscriptBelow(rows: Rows, session: Id, n: nat): seq<Message> {
    if n == 0 then []
    else if n - 1 in rows && rows[n - 1].session == session then TranscriptBelow(rows, session, n - 1) + [rows[n - 1]]
    else TranscriptBelow(rows, session, n - 1)
  }

  function Title(question: string): string {
    if |question| > 80 then question[..80] else question
  }

  predicate Owns(sessions: map<Id, Session>, session: Id, kb: Id, user: Id) {
    session in sessions && sessions[session].kb == kb && sessions[session].user == user
  }

  /** An ask that has its session and is about to record its question and answer. */
  datatype Ask = Ask(session: Id, kb: Id, user: Id, question: string, answer: string, mode: string)

  function UserMessage(ask: Ask): Message {
    Message(ask.session, User, ask.question, ask.mode, ask.kb, ask.user)
  }

  function AssistantMessage(ask: Ask): Message {
    Message(ask.session, Assistant, ask.answer, ask.mode, ask.kb, ask.user)
  }

  predicate Carries(m: Message, session: Id, role: Role, content: string, mode: string) {
    m.session == session && m.role == role && m.content == content && m.mode == mode
  }

  // ---- the repository, one caller at a time ---------------------------------------------

  datatype EnsureCalls = EnsureCalls(lookupOk: bool, insert: CommitEnd)

  datatype AppendCalls = AppendCalls(begun: bool, userOk: bool, assistantOk: bool, end: CommitEnd)

  /** The session an ask gets: its own when it names one, else a new one. */
  function EnsuredSession(sessions: map<Id, Session>, kb: Id, user: Id, session: Id, newId: Id, calls: EnsureCalls): Result<Id> {
    if session != "" && !calls.lookupOk then Err("select qa_session")
    else if session != "" && Owns(sessions, session, kb, user) then Ok(session)
    else if calls.insert.Committed? then Ok(newId)
    else Err("sessions: create")
  }

  /** A new session row is written: also by an insert that reports an error and happened. */
  predicate SessionInserted(sessions: map<Id, Session>, kb: Id, user: Id, session: Id, calls: EnsureCalls) {
    (session == "" || (calls.lookupOk && !Owns(sessions, session, kb, user))) && !calls.insert.CommitLost?
  }

  predicate BothWritten(calls: AppendCalls) {
    calls.begun && calls.userOk && calls.assistantOk && !calls.end.CommitLost?
  }

  function AppendFailure(calls: AppendCalls): Option<string> {
    if !calls.begun then Some("begin")
    else if !calls.userOk then Some("sessions: append user msg")
    else if !calls.assistantOk then Some("sessions: append assistant msg")
    else if !calls.end.Committed? then Some("commit")
    else None
  }

  /** The sequence numbers the transaction draws, which no rollback gives back; a failing insert has drawn its own. */
  function Drawn(calls: AppendCalls): nat {
    if !calls.begun then 0 else if !calls.userOk then 1 else 2
  }

  class Repo {
    var sessions: map<Id, Session>
    var rows: Rows
    var nextSeq: nat

    ghost predicate Valid()
      reads this
    {
      forall n :: n in rows ==> n < nextSeq
    }

    constructor ()
      ensures Valid() && sessions == map[] && rows == map[]
    {
      sessions, rows, nextSeq := map[], map[], 0;
    }

    /** The session returned belongs to this knowledge base and user; a foreign or unknown id makes a new one, even behind an error. */
    method EnsureSession(kb: Id, user: Id, session: Id, question: string, newId: Id, calls: EnsureCalls) returns (r: Result<Id>)
      requires newId !in sessions
      modifies this`sessions
      ensures r == EnsuredSession(old(sessions), kb, user, session, newId, calls)
      ensures r.Ok? ==> Owns(sessions, r.value, kb, user)
      ensures r.Ok? ==> r.value in sessions && sessions[r.value].kb == kb && sessions[r.value].user == user
      ensures session in old(sessions) && session != "" && old(sessions[session]).kb == kb && old(sessions[session]).user == user && calls.lookupOk ==>
        r == Ok(session) && sessions == old(sessions)
      ensures sessions == if SessionInserted(old(sessions), kb, user, session, calls)
        then old(sessions)[newId := Session(kb, user, Title(question))] else old(sessions)
      ensures r.Ok? && SessionInserted(old(sessions), kb, user, session, calls) ==> r == Ok(newId)
      ensures SessionInserted(old(sessions), kb, user, session, calls) ==>
        && sessions[newId].kb == kb && sessions[newId].user == user
        && sessions[newId].title <= question && |sessions[newId].title| == if |question| < 80 then |question| else 80
    {
      if session != "" {
        if !calls.lookupOk {
          return Err("select qa_session");
        }
        if session in sessions && sessions[session].kb == kb && sessions[session].user == user {
          return Ok(session);
        }
      }
      if calls.insert.CommitLost? {
        return Err("sessions: create");
      }
      sessions := sessions[newId := Session(kb, user, Title(question))];
      r := if calls.insert.Committed? then Ok(newId) else Err("sessions: create");
    }

    /** Both messages or neither; without an error, both, at the end of the session's transcript. */
    method AppendPair(ask: Ask, calls: AppendCalls) returns (failure: Option<string>)
      requires Valid()
      modifies this`rows, this`nextSeq
      ensures Valid() && nextSeq == old(nextSeq) + Drawn(calls)
      ensures failure == AppendFailure(calls)
      ensures rows == if BothWritten(calls)
        then old(rows)[old(nextSeq) := UserMessage(ask)][old(nextSeq) + 1 := AssistantMessage(ask)] else old(rows)
      ensures TranscriptBelow(rows, ask.session, nextSeq)
        == TranscriptBelow(old(rows), ask.session, old(nextSeq))
           + (if BothWritten(calls) then [UserMessage(ask), AssistantMessage(ask)] else [])
      ensures BothWritten(calls) ==>
        && old(nextSeq) in rows && old(nextSeq) + 1 in rows
        && Carries(rows[old(nextSeq)], ask.session, User, ask.question, ask.mode)
        && Carries(rows[old(nextSeq) + 1], ask.session, Assistant, ask.answer, ask.mode)
    {
      ghost var before, first := rows, nextSeq;
      if !calls.begun {
        return Some("begin");
      }
      var staged := rows[nextSeq := UserMessage(ask)];
      nextSeq := nextSeq + 1;
      if !calls.userOk {
        NothingAbove(rows, ask.session, first, nextSeq);
        return Some("sessions: append user msg");
      }
      staged := staged[nextSeq := AssistantMessage(ask)];
      nextSeq := nextSeq + 1;
      if !calls.assistantOk {
        NothingAbove(rows, ask.session, first, nextSeq);
        return Some("sessions: append assistant msg");
      }
      if calls.end.CommitLost? {
        NothingAbove(rows, ask.session, first, nextSeq);
        return Some("commit");
      }
      rows := staged;
      SameBelow(before, rows, ask.session, first);
      assert TranscriptBelow(rows, ask.session, first + 1) == TranscriptBelow(rows, ask.session, first) + [UserMessage(ask)];
      failure := if calls.end.Committed? then None else Some("commit");
    }

    /** A session of another knowledge base is not found; else all its messages come in insertion order. */
    method Transcript(kb: Id, session: Id, readOk: bool) returns (r: Option<seq<Message>>)
      requires Valid()
      ensures r.Some? ==> session in sessions && sessions[session].kb == kb && r.value == TranscriptBelow(rows, session, nextSeq)
      ensures readOk && session in sessions && sessions[session].kb == kb ==> r.Some?
    {
      if session !in sessions || sessions[session].kb != kb || !readOk {
        return None;
      }
      var out: seq<Message> := [];
      for n := 0 to nextSeq
        invariant out == TranscriptBelow(rows, session, n)
      {
        if n in rows && rows[n].session == session {
          out := out + [rows[n]];
        }
      }
      r := Some(out);
    }
  }

  lemma {:induction false} NothingAbove(rows: Rows, session: Id, m: nat, n: nat)
    requires m <= n && forall k :: k in rows ==> k < m
    ensures TranscriptBelow(rows, session, n) == TranscriptBelow(rows, session, m)
    decreases n
  {
    if m < n {
      NothingAbove(rows, session, m, n - 1);
    }
  }

  lemma {:induction false} SameBelow(rows: Rows, more: Rows, session: Id, n: nat)
    requires forall k :: 0 <= k < n ==> Lookup(rows, k) == Lookup(more, k)
    ensures TranscriptBelow(rows, session, n) == TranscriptBelow(more, session, n)
  {
    if n > 0 {
      SameBelow(rows, more, session, n - 1);
      assert Lookup(rows, n - 1) == Lookup(more, n - 1);
    }
  }
}

/** Asks of many callers at once: every interleaving of their transactions. */
module Transcripts {
  import opened Basics
  import opened Sessions

  /** A transaction of AppendPair, with the sequence numbers it has drawn. */
  datatype Tx = Opened(ask: Ask) | UserIn(ask: Ask, u: nat) | BothIn(ask: Ask, u: nat, a: nat)

  datatype History = History(sessions: map<Id, Session>, rows: Rows, nextSeq: nat, open: map<Id, Tx>, recorded: seq<Ask>)

  /** An ask that gets a session and records nothing is an Ensure rolled back; so is a session insert in doubt. */
  datatype Move =
    | Ensure(call: Id, kb: Id, user: Id, session: Id, question: string, answer: string, mode: string, newId: Id)
    | InsertUser(call: Id)
    | InsertAssistant(call: Id)
    | Commit(call: Id)
    | Rollback(call: Id)
    | Burn           // an insert that failed after drawing its number

  const NOTHING := History(map[], map[], 0, map[], [])

  predicate CanMove(h: History, m: Move) {
    match m
    case Ensure(c, _, _, _, _, _, _, newId) => c !in h.open && newId !in h.sessions
    case InsertUser(c) => c in h.open && h.open[c].Opened?
    case InsertAssistant(c) => c in h.open && h.open[c].UserIn?
    case Commit(c) => c in h.open && h.open[c].BothIn?
    case Rollback(c) => c in h.open
    case Burn => true
  }

  function SessionFor(h: History, m: Move): Id
    requires m.Ensure?
  {
    if m.session != "" && Owns(h.sessions, m.session, m.kb, m.user) then m.session else m.newId
  }

  function RowsWith(h: History, tx: Tx): Rows
    requires tx.BothIn?
  {
    h.rows[tx.u := UserMessage(tx.ask)][tx.a := AssistantMessage(tx.ask)]
  }

  function Moved(h: History, m: Move): History
    requires CanMove(h, m)
  {
    match m
    case Ensure(c, kb, user, _, q, a, mode, newId) =>
      var session := SessionFor(h, m);
      h.(sessions := if session in h.sessions then h.sessions else h.sessions[newId := Session(kb, user, Title(q))],
         open := h.open[c := Opened(Ask(session, kb, user, q, a, mode))])
    case InsertUser(c) => h.(nextSeq := h.nextSeq + 1, open := h.open[c := UserIn(h.open[c].ask, h.nextSeq)])
    case InsertAssistant(c) =>
      h.(nextSeq := h.nextSeq + 1, open := h.open[c := BothIn(h.open[c].ask, h.open[c].u, h.nextSeq)])
    case Commit(c) =>
      h.(rows := RowsWith(h, h.open[c]), open := h.open - {c}, recorded := h.recorded + [h.open[c].ask])
    case Rollback(c) => h.(open := h.open - {c})
    case Burn => h.(nextSeq := h.nextSeq + 1)
  }

  ghost predicate Played(moves: seq<Move>)
    decreases |moves|, 0
  {
    moves == [] || (Played(moves[..|moves| - 1]) && CanMove(Result(moves[..|moves| - 1]), moves[|moves| - 1]))
  }

  ghost function Result(moves: seq<Move>): History
    requires Played(moves)
    decreases |moves|, 1
  {
    if moves == [] then NOTHING else Moved(Result(moves[..|moves| - 1]), moves[|moves| - 1])
  }

  // ---- sequence numbers never clash ------------------------------------------------

  predicate Drew(tx: Tx, n: nat) {
    (!tx.Opened? && tx.u == n) || (tx.BothIn? && tx.a == n)
  }

  /** Numbers in rows and in open transactions are drawn, and no two hold the same one; a question's is below its answer's. */
  ghost predicate Numbered(h: History) {
    && (forall n :: n in h.rows ==> n < h.nextSeq)
    && (forall c, n: nat :: c in h.open && Drew(h.open[c], n) ==> n < h.nextSeq)
    && (forall c, n: nat {:trigger Drew(h.open[c], n)} :: c in h.open && Drew(h.open[c], n) ==> n !in h.rows)
    && (forall c, d, n: nat :: c in h.open && d in h.open && Drew(h.open[c], n) && Drew(h.open[d], n) ==> c == d)
    && (forall c :: c in h.open && h.open[c].BothIn? ==> h.open[c].u < h.open[c].a)
  }

  lemma NumberedMove(h: History, m: Move)
    requires Numbered(h) && CanMove(h, m)
    ensures Numbered(Moved(h, m))
  {
    var k := Moved(h, m);
    if m.Commit? {
      assert Drew(h.open[m.call], h.open[m.call].u) && Drew(h.open[m.call], h.open[m.call].a);
    }
    if m.InsertAssistant? {
      assert Drew(h.open[m.call], h.open[m.call].u);
    }
    forall c, n: nat | c in k.open && Drew(k.open[c], n) ensures n < k.nextSeq && n !in k.rows {
      assert c in h.open && (n == h.nextSeq || Drew(h.open[c], n));
    }
    forall c, d, n: nat | c in k.open && d in k.open && Drew(k.open[c], n) && Drew(k.open[d], n) ensures c == d {
      assert c in h.open && (n == h.nextSeq || Drew(h.open[c], n));
      assert d in h.open && (n == h.nextSeq || Drew(h.open[d], n));
    }
  }

  // ---- balance ---------------------------------------------------------------------

  function CountRole(messages: seq<Message>, role: Role): nat {
    if messages == [] then 0
    else CountRole(messages[..|messages| - 1], role) + (if messages[|messages| - 1].role == role then 1 else 0)
  }

  function CountBelow(rows: Rows, session: Id, role: Role, n: nat): nat {
    CountRole(TranscriptBelow(rows, session, n), role)
  }

  lemma CountSnoc(messages: seq<Message>, m: Message, role: Role)
    ensures CountRole(messages + [m], role) == CountRole(messages, role) + (if m.role == role then 1 else 0)
  {
    assert (messages + [m])[..|messages|] == messages;
  }

  lemma {:induction false} CountAfterAdd(rows: Rows, k: nat, m: Message, session: Id, role: Role, n: nat)
    requires k !in rows
    ensures CountBelow(rows[k := m], session, role, n)
         == CountBelow(rows, session, role, n) + (if k < n && m.session == session && m.role == role then 1 else 0)
  {
    if n > 0 {
      CountAfterAdd(rows, k, m, session, role, n - 1);
      var more := rows[k := m];
      if n - 1 in more && more[n - 1].session == session {
        CountSnoc(TranscriptBelow(more, session, n - 1), more[n - 1], role);
      }
      if n - 1 in rows && rows[n - 1].session == session {
        CountSnoc(TranscriptBelow(rows, session, n - 1), rows[n - 1], role);
      }
    }
  }

  /** Below every sequence number there are at least as many questions as answers, and as many in all. */
  ghost predicate Balanced(h: History, session: Id) {
    && (forall n: nat :: CountBelow(h.rows, session, Assistant, n) <= CountBelow(h.rows, session, User, n))
    && CountBelow(h.rows, session, Assistant, h.nextSeq) == CountBelow(h.rows, session, User, h.nextSeq)
  }

  lemma CommitCounts(h: History, c: Id, session: Id, n: nat)
    requires Numbered(h) && CanMove(h, Commit(c))
    ensures
      var tx, rows := h.open[c], RowsWith(h, h.open[c]);
      var own := tx.ask.session == session;
      && CountBelow(rows, session, User, n) == CountBelow(h.rows, session, User, n) + (if own && tx.u < n then 1 else 0)
      && CountBelow(rows, session, Assistant, n) == CountBelow(h.rows, session, Assistant, n) + (if own && tx.a < n then 1 else 0)
  {
    var tx := h.open[c];
    assert Drew(tx, tx.u) && Drew(tx, tx.a);
    var first := h.rows[tx.u := UserMessage(tx.ask)];
    CountAfterAdd(h.rows, tx.u, UserMessage(tx.ask), session, User, n);
    CountAfterAdd(h.rows, tx.u, UserMessage(tx.ask), session, Assistant, n);
    CountAfterAdd(first, tx.a, AssistantMessage(tx.ask), session, User, n);
    CountAfterAdd(first, tx.a, AssistantMessage(tx.ask), session, Assistant, n);
  }

  lemma BalancedMove(h: History, m: Move, session: Id)
    requires Numbered(h) && Balanced(h, session) && CanMove(h, m)
    ensures Balanced(Moved(h, m), session)
  {
    hide CountBelow;
    var k := Moved(h, m);
    if m.Commit? {
      var tx := h.open[m.call];
      assert Drew(tx, tx.u) && Drew(tx, tx.a);
      forall n: nat ensures CountBelow(k.rows, session, Assistant, n) <= CountBelow(k.rows, session, User, n) {
        CommitCounts(h, m.call, session, n);
      }
      CommitCounts(h, m.call, session, h.nextSeq);
    } else if k.nextSeq != h.nextSeq {
      CountUnchangedAbove(h.rows, session, User, h.nextSeq);
      CountUnchangedAbove(h.rows, session, Assistant, h.nextSeq);
    }
  }

  lemma CountUnchangedAbove(rows: Rows, session: Id, role: Role, n: nat)
    requires n !in rows
    ensures CountBelow(rows, session, role, n + 1) == CountBelow(rows, session, role, n)
  {
    assert TranscriptBelow(rows, session, n + 1) == TranscriptBelow(rows, session, n);
  }

  lemma {:induction false} AlwaysBalanced(moves: seq<Move>, session: Id)
    requires Played(moves)
    ensures Numbered(Result(moves)) && Balanced(Result(moves), session)
    decreases |moves|
  {
    if moves != [] {
      var front := moves[..|moves| - 1];
      AlwaysBalanced(front, session);
      NumberedMove(Result(front), moves[|moves| - 1]);
      BalancedMove(Result(front), moves[|moves| - 1], session);
    } else {
      forall n: nat, role ensures CountBelow(map[], session, role, n) == 0 {
        NothingAbove(map[], session, 0, n);
      }
    }
  }

  /** Every beginning of a transcript is the transcript below some sequence number. */
  lemma {:induction false} PrefixIsBelow(rows: Rows, session: Id, n: nat, k: nat) returns (m: nat)
    requires k <= |TranscriptBelow(rows, session, n)|
    ensures m <= n && TranscriptBelow(rows, session, m) == TranscriptBelow(rows, session, n)[..k]
  {
    var whole := TranscriptBelow(rows, session, n);
    if k == |whole| {
      m := n;
      assert whole[..k] == whole;
    } else {
      var front := TranscriptBelow(rows, session, n - 1);
      m := PrefixIsBelow(rows, session, n - 1, k);
      assert whole[..k] == front[..k];
    }
  }

  /** The committed transcript: equal numbers of questions and answers, and in no beginning of it an answer too many. */
  lemma TranscriptBalance(moves: seq<Move>, session: Id)
    requires Played(moves)
    ensures
      var h := Result(moves);
      var transcript := TranscriptBelow(h.rows, session, h.nextSeq);
      && CountRole(transcript, User) == CountRole(transcript, Assistant)
      && (forall k :: 0 <= k <= |transcript| ==> CountRole(transcript[..k], Assistant) <= CountRole(transcript[..k], User))
  {
    var h := Result(moves);
    AlwaysBalanced(moves, session);
    var transcript := TranscriptBelow(h.rows, session, h.nextSeq);
    assert CountBelow(h.rows, session, User, h.nextSeq) == CountBelow(h.rows, session, Assistant, h.nextSeq);
    forall k | 0 <= k <= |transcript|
      ensures CountRole(transcript[..k], Assistant) <= CountRole(transcript[..k], User)
    {
      var m := PrefixIsBelow(h.rows, session, h.nextSeq, k);
      assert CountBelow(h.rows, session, Assistant, m) <= CountBelow(h.rows, session, User, m);
    }
  }

  // ---- ownership -------------------------------------------------------------------

  ghost predicate Owned(h: History) {
    && (forall n :: n in h.rows ==> Owns(h.sessions, h.rows[n].session, h.rows[n].kb, h.rows[n].user))
    && (forall c :: c in h.open ==> Owns(h.sessions, h.open[c].ask.session, h.open[c].ask.kb, h.open[c].ask.user))
  }

  /** Every message came from an ask by the knowledge base and user that own its session. */
  lemma {:induction false} AlwaysOwned(moves: seq<Move>)
    requires Played(moves)
    ensures Owned(Result(moves))
    decreases |moves|
  {
    if moves != [] {
      var front, m := moves[..|moves| - 1], moves[|moves| - 1];
      AlwaysOwned(front);
      var h, k := Result(front), Moved(Result(front), m);
      forall c | c in k.open ensures Owns(k.sessions, k.open[c].ask.session, k.open[c].ask.kb, k.open[c].ask.user) {
        if c in h.open {
          assert Owns(h.sessions, h.open[c].ask.session, h.open[c].ask.kb, h.open[c].ask.user);
        }
      }
    }
  }

  /** So a session's messages are those of its own user and knowledge base. */
  lemma MessagesOfOwner(moves: seq<Move>, n: nat)
    requires Played(moves) && n in Result(moves).rows
    ensures
      var h := Result(moves);
      var m := h.rows[n];
      m.session in h.sessions && h.sessions[m.session].kb == m.kb && h.sessions[m.session].user == m.user
  {
    AlwaysOwned(moves);
  }

  // ---- asks of one session that do not overlap --------------------------------------

  predicate UnderWay(h: History, c: Id, session: Id) {
    c in h.open && h.open[c].ask.session == session && !h.open[c].Opened?
  }

  /** A session's transaction draws its first number only when none of the same session is under way. */
  ghost predicate Waits(h: History, m: Move, session: Id) {
    m.InsertUser? && m.call in h.open && h.open[m.call].ask.session == session ==>
      forall c :: c != m.call ==> !UnderWay(h, c, session)
  }

  ghost predicate Serial(moves: seq<Move>, session: Id)
    requires Played(moves)
    decreases |moves|
  {
    moves == [] || (Serial(moves[..|moves| - 1], session) && Waits(Result(moves[..|moves| - 1]), moves[|moves| - 1], session))
  }

  /** The question and the answer of each ask of a session, in turn. */
  function InTurn(asks: seq<Ask>, session: Id): seq<Message> {
    if asks == [] then []
    else
      var ask := asks[|asks| - 1];
      InTurn(asks[..|asks| - 1], session)
      + (if ask.session == session then [UserMessage(ask), AssistantMessage(ask)] else [])
  }

  ghost predicate Alternates(h: History, session: Id) {
    && TranscriptBelow(h.rows, session, h.nextSeq) == InTurn(h.recorded, session)
    && (forall c, d :: UnderWay(h, c, session) && UnderWay(h, d, session) ==> c == d)
    && (forall c, n :: UnderWay(h, c, session) && n in h.rows && h.rows[n].session == session ==> n < h.open[c].u)
  }

  lemma {:induction false} OthersAddNothing(rows: Rows, more: Rows, session: Id, n: nat)
    requires forall k :: k in rows && rows[k].session == session ==> k in more && more[k] == rows[k]
    requires forall k :: k in more && more[k].session == session ==> k in rows && more[k] == rows[k]
    ensures TranscriptBelow(more, session, n) == TranscriptBelow(rows, session, n)
  {
    if n > 0 {
      OthersAddNothing(rows, more, session, n - 1);
    }
  }

  lemma {:induction false} NoneOfSessionAbove(rows: Rows, session: Id, m: nat, n: nat)
    requires m <= n && forall k :: k in rows && rows[k].session == session ==> k < m || n <= k
    ensures TranscriptBelow(rows, session, n) == TranscriptBelow(rows, session, m)
    decreases n
  {
    if m < n {
      NoneOfSessionAbove(rows, session, m, n - 1);
    }
  }

  lemma PairGoesLast(rows: Rows, u: nat, a: nat, ask: Ask, n: nat)
    requires u < a < n && u !in rows && a !in rows
    requires forall k :: k in rows && rows[k].session == ask.session ==> k < u
    ensures TranscriptBelow(rows[u := UserMessage(ask)][a := AssistantMessage(ask)], ask.session, n)
         == TranscriptBelow(rows, ask.session, n) + [UserMessage(ask), AssistantMessage(ask)]
  {
    var session, more := ask.session, rows[u := UserMessage(ask)][a := AssistantMessage(ask)];
    SameBelow(rows, more, session, u);
    NoneOfSessionAbove(rows, session, u, n);
    assert TranscriptBelow(more, session, u + 1) == TranscriptBelow(more, session, u) + [UserMessage(ask)];
    NoneOfSessionAbove(more, session, u + 1, a);
    assert TranscriptBelow(more, session, a + 1) == TranscriptBelow(more, session, a) + [AssistantMessage(ask)];
    NoneOfSessionAbove(more, session, a + 1, n);
  }

  lemma InTurnSnoc(asks: seq<Ask>, ask: Ask, session: Id)
    ensures InTurn(asks + [ask], session)
         == InTurn(asks, session) + (if ask.session == session then [UserMessage(ask), AssistantMessage(ask)] else [])
  {
    assert (asks + [ask])[..|asks|] == asks;
  }

  lemma CommitAlternates(h: History, c: Id, session: Id)
    requires Numbered(h) && Alternates(h, session) && CanMove(h, Commit(c))
    ensures Alternates(Moved(h, Commit(c)), session)
  {
    var tx, k := h.open[c], Moved(h, Commit(c));
    assert Drew(tx, tx.u) && Drew(tx, tx.a);
    InTurnSnoc(h.recorded, tx.ask, session);
    forall d | UnderWay(k, d, session) ensures UnderWay(h, d, session) {
    }
    assert tx.ask.session == session ==> UnderWay(h, c, session);
    if tx.ask.session == session {
      PairGoesLast(h.rows, tx.u, tx.a, tx.ask, h.nextSeq);
    } else {
      OthersAddNothing(h.rows, k.rows, session, h.nextSeq);
    }
  }

  lemma AlternatesMove(h: History, m: Move, session: Id)
    requires Numbered(h) && Alternates(h, session) && CanMove(h, m) && Waits(h, m, session)
    ensures Alternates(Moved(h, m), session)
  {
    var k := Moved(h, m);
    forall d | UnderWay(k, d, session) ensures UnderWay(h, d, session) || (m.InsertUser? && d == m.call) {
    }
    if m.Commit? {
      CommitAlternates(h, m.call, session);
    } else if k.nextSeq != h.nextSeq {
      assert TranscriptBelow(h.rows, session, h.nextSeq + 1) == TranscriptBelow(h.rows, session, h.nextSeq);
    }
  }

  /** Asks of a session whose transactions do not overlap alternate strictly, in the order they were recorded. */
  lemma {:induction false} SerialAlternates(moves: seq<Move>, session: Id)
    requires Played(moves) && Serial(moves, session)
    ensures
      var h := Result(moves);
      Numbered(h) && Alternates(h, session) && TranscriptBelow(h.rows, session, h.nextSeq) == InTurn(h.recorded, session)
    decreases |moves|
  {
    if moves != [] {
      var front := moves[..|moves| - 1];
      SerialAlternates(front, session);
      NumberedMove(Result(front), moves[|moves| - 1]);
      AlternatesMove(Result(front), moves[|moves| - 1], session);
    }
  }

  /** The asks of one session, in order. */
  function AsksOf(asks: seq<Ask>, session: Id): seq<Ask> {
    if asks == [] then []
    else
      var ask := asks[|asks| - 1];
      AsksOf(asks[..|asks| - 1], session) + (if ask.session == session then [ask] else [])
  }

  lemma {:induction false} InTurnReads(asks: seq<Ask>, session: Id, i: nat)
    ensures |InTurn(asks, session)| == 2 * |AsksOf(asks, session)|
    ensures i < |AsksOf(asks, session)| ==>
      var ask := AsksOf(asks, session)[i];
      && Carries(InTurn(asks, session)[2 * i], session, User, ask.question, ask.mode)
      && Carries(InTurn(asks, session)[2 * i + 1], session, Assistant, ask.answer, ask.mode)
    decreases |asks|
  {
    if asks != [] {
      InTurnReads(asks[..|asks| - 1], session, i);
    }
  }

  /** So the i-th exchange of such a transcript is the question and the answer of the i-th recorded ask of the session. */
  lemma SerialReads(moves: seq<Move>, session: Id, i: nat)
    requires Played(moves) && Serial(moves, session) && i < |AsksOf(Result(moves).recorded, session)|
    ensures
      var h := Result(moves);
      var transcript, ask := TranscriptBelow(h.rows, session, h.nextSeq), AsksOf(h.recorded, session)[i];
      && |transcript| == 2 * |AsksOf(h.recorded, session)|
      && Carries(transcript[2 * i], session, User, ask.question, ask.mode)
      && Carries(transcript[2 * i + 1], session, Assistant, ask.answer, ask.mode)
  {
    SerialAlternates(moves, session);
    InTurnReads(Result(moves).recorded, session, i);
  }

  lemma Play(moves: seq<Move>, m: Move)
    requires Played(moves) && CanMove(Result(moves), m)
    ensures Played(moves + [m]) && Result(moves + [m]) == Moved(Result(moves), m)
  {
    assert (moves + [m])[..|moves|] == moves;
  }

  /** The moves of an ask whose statements end as given, once it has its session. */
  function AppendMoves(call: Id, calls: AppendCalls): seq<Move> {
    if !calls.begun then [Rollback(call)]
    else if !calls.userOk then [Burn, Rollback(call)]
    else if !calls.assistantOk then [InsertUser(call), Burn, Rollback(call)]
    else [InsertUser(call), InsertAssistant(call), if calls.end.CommitLost? then Rollback(call) else Commit(call)]
  }

  /** The call's transaction is over, and rows and numbers are as the repository leaves them. */
  ghost predicate Appended(h: History, k: History, c: Id, ask: Ask, calls: AppendCalls) {
    && k.sessions == h.sessions && k.open == h.open - {c} && k.nextSeq == h.nextSeq + Drawn(calls)
    && k.rows == (if BothWritten(calls)
         then h.rows[h.nextSeq := UserMessage(ask)][h.nextSeq + 1 := AssistantMessage(ask)] else h.rows)
    && k.recorded == (if BothWritten(calls) then h.recorded + [ask] else h.recorded)
  }

  lemma PlayTwo(moves: seq<Move>, m: Move, n: Move)
    requires Played(moves) && CanMove(Result(moves), m) && CanMove(Moved(Result(moves), m), n)
    ensures Played(moves + [m, n]) && Result(moves + [m, n]) == Moved(Moved(Result(moves), m), n)
  {
    hide Played, Result, Moved, CanMove;
    Play(moves, m);
    Play(moves + [m], n);
    assert moves + [m] + [n] == moves + [m, n];
  }

  lemma PlayThree(moves: seq<Move>, m: Move, n: Move, o: Move)
    requires Played(moves) && CanMove(Result(moves), m) && CanMove(Moved(Result(moves), m), n)
    requires CanMove(Moved(Moved(Result(moves), m), n), o)
    ensures Played(moves + [m, n, o]) && Result(moves + [m, n, o]) == Moved(Moved(Moved(Result(moves), m), n), o)
  {
    hide Played, Result, Moved, CanMove;
    PlayTwo(moves, m, n);
    Play(moves + [m, n], o);
    assert moves + [m, n] + [o] == moves + [m, n, o];
  }

  lemma AppendIsPlayed(moves: seq<Move>, c: Id, ask: Ask, calls: AppendCalls)
    requires Played(moves) && c in Result(moves).open && Result(moves).open[c] == Opened(ask)
    ensures Played(moves + AppendMoves(c, calls))
    ensures Appended(Result(moves), Result(moves + AppendMoves(c, calls)), c, ask, calls)
  {
    hide Played, Result;
    var h := Result(moves);
    if !calls.begun {
      Play(moves, Rollback(c));
    } else if !calls.userOk {
      PlayTwo(moves, Burn, Rollback(c));
    } else if !calls.assistantOk {
      PlayThree(moves, InsertUser(c), Burn, Rollback(c));
    } else {
      PlayThree(moves, InsertUser(c), InsertAssistant(c), if calls.end.CommitLost? then Rollback(c) else Commit(c));
    }
  }

  /**
   An ask in one piece is a play of these moves: from whatever others have left, its session is found or
   made and its pair written as the repository does, in the same sequence numbers.
   */
  lemma AskIsPlayed(moves: seq<Move>, ensure: Move, calls: AppendCalls)
    requires Played(moves) && ensure.Ensure? && CanMove(Result(moves), ensure)
    ensures Played(moves + [ensure] + AppendMoves(ensure.call, calls))
    ensures
      var h, begun := Result(moves), Result(moves + [ensure]);
      var k := Result(moves + [ensure] + AppendMoves(ensure.call, calls));
      var ask := Ask(SessionFor(h, ensure), ensure.kb, ensure.user, ensure.question, ensure.answer, ensure.mode);
      && k.open == h.open && begun.rows == h.rows && begun.nextSeq == h.nextSeq
      && Appended(begun, k, ensure.call, ask, calls)
  {
    hide Appended, Played, Result, AppendMoves;
    Play(moves, ensure);
    var begun := moves + [ensure];
    var ask := Result(begun).open[ensure.call].ask;
    AppendIsPlayed(begun, ensure.call, ask, calls);
    AppendedOpen(Result(begun), Result(begun + AppendMoves(ensure.call, calls)), ensure.call, ask, calls);
    assert Result(begun).open - {ensure.call} == Result(moves).open;
  }

  lemma AppendedOpen(h: History, k: History, c: Id, ask: Ask, calls: AppendCalls)
    requires Appended(h, k, c, ask, calls)
    ensures k.open == h.open - {c}
  {
  }

  /** Two asks of one session at once may record both questions before either answer: balanced, not alternating. */
  lemma OverlappingAsksInterleave(kb: Id, user: Id, first: string, second: string, answer: string, mode: string)
    returns (moves: seq<Move>)
    ensures Played(moves)
    ensures
      var h, one, two := Result(moves), Ask("s", kb, user, first, answer, mode), Ask("s", kb, user, second, answer, mode);
      TranscriptBelow(h.rows, "s", h.nextSeq) == [UserMessage(one), UserMessage(two), AssistantMessage(one), AssistantMessage(two)]
  {
    var one, two := Ask("s", kb, user, first, answer, mode), Ask("s", kb, user, second, answer, mode);
    moves := [];
    var todo := [Ensure("a", kb, user, "", first, answer, mode, "s"), Ensure("b", kb, user, "s", second, answer, mode, "t"),
                 InsertUser("a"), InsertUser("b"), InsertAssistant("a"), InsertAssistant("b"), Commit("a"), Commit("b")];
    Play(moves, todo[0]);
    moves := moves + [todo[0]];
    Play(moves, todo[1]);
    moves := moves + [todo[1]];
    assert Result(moves).open == map["a" := Opened(one), "b" := Opened(two)];
    Play(moves, todo[2]);
    moves := moves + [todo[2]];
    Play(moves, todo[3]);
    moves := moves + [todo[3]];
    Play(moves, todo[4]);
    moves := moves + [todo[4]];
    Play(moves, todo[5]);
    moves := moves + [todo[5]];
    assert Result(moves).open == map["a" := BothIn(one, 0, 2), "b" := BothIn(two, 1, 3)];
    assert Result(moves).rows == map[] && Result(moves).nextSeq == 4;
    Play(moves, todo[6]);
    moves := moves + [todo[6]];
    Play(moves, todo[7]);
    moves := moves + [todo[7]];
    var rows := Result(moves).rows;
    assert rows == map[0 := UserMessage(one), 2 := AssistantMessage(one), 1 := UserMessage(two), 3 := AssistantMessage(two)];
    assert TranscriptBelow(rows, "s", 1) == [UserMessage(one)];
    assert TranscriptBelow(rows, "s", 2) == [UserMessage(one), UserMessage(two)];
    assert TranscriptBelow(rows, "s", 3) == [UserMessage(one), UserMessage(two), AssistantMessage(one)];
  }
}
