/** The chat sheet (Meeat/MeetUpWaitView.swift, `ChatView`): a transcript that
    only grows, a text field, and `sendMessage`, which appends the trimmed text
    as the user's message and schedules one canned reply from the other party.
    The reply, delivered by a one-second timer in the source, is the separate
    event `ReceiveReply`; the random pick among the canned answers is its
    parameter. */
module Chat {
  import opened Models

  datatype ChatMessage = ChatMessage(id: Uuid, text: string, isFromUser: bool, timestamp: Date)

  /** The answers the other party picks from. */
  const CannedResponses: seq<string> :=
    ["Okay!", "No problem \U{1F60A}", "Understood", "Thanks for sharing!", "That's interesting"]

  /** The whitespace trimmed from the input: the ASCII blanks and line breaks. */
  predicate IsWhitespace(c: char)
  {
    c == ' ' || c == '\t' || c == '\n' || c == '\r'
  }

  /** Text made only of whitespace (the empty text included). */
  predicate Blank(s: string)
  {
    forall k :: 0 <= k < |s| ==> IsWhitespace(s[k])
  }

  /** Drops leading whitespace: the result is a suffix of `s` that does not
      start with whitespace, and everything dropped was whitespace. */
  function TrimLeading(s: string): (r: string)
    ensures |r| <= |s| && r == s[|s| - |r|..]
    ensures forall k :: 0 <= k < |s| - |r| ==> IsWhitespace(s[k])
    ensures r != [] ==> !IsWhitespace(r[0])
    decreases |s|
  {
    if s != [] && IsWhitespace(s[0]) then TrimLeading(s[1..]) else s
  }

  /** Drops trailing whitespace: the result is a prefix of `s` that does not
      end with whitespace, and everything dropped was whitespace. */
  function TrimTrailing(s: string): (r: string)
    ensures |r| <= |s| && r == s[..|r|]
    ensures forall k :: |r| <= k < |s| ==> IsWhitespace(s[k])
    ensures r != [] ==> !IsWhitespace(r[|r| - 1])
    decreases |s|
  {
    if s != [] && IsWhitespace(s[|s| - 1]) then TrimTrailing(s[..|s| - 1]) else s
  }

  /** Non-blank text with no whitespace at either end. */
  predicate IsTrimmed(t: string)
  {
    t != [] && !IsWhitespace(t[0]) && !IsWhitespace(t[|t| - 1])
  }

  /** Every character of `s` outside `s[a..b]` is whitespace. */
  predicate BlankOutside(s: string, a: int, b: int)
    requires 0 <= a <= b <= |s|
  {
    (forall k :: 0 <= k < a ==> IsWhitespace(s[k])) &&
    (forall k :: b <= k < |s| ==> IsWhitespace(s[k]))
  }

  /** `trimmingCharacters(in:)`: the result is empty exactly when the input
      is all whitespace, and otherwise neither starts nor ends with it;
      `TrimKeepsMiddle` shows it is the input with only edge blanks cut. */
  function Trim(s: string): (r: string)
    ensures r == [] <==> Blank(s)
    ensures r != [] ==> IsTrimmed(r)
    ensures |r| <= |s|
  {
    var t := TrimLeading(s);
    var r := TrimTrailing(t);
    assert r != [] ==> r[0] == t[0];
    r
  }

  /** What `Trim` keeps: a contiguous slice of the input, with only whitespace
      cut from either end. */
  lemma TrimKeepsMiddle(s: string)
    ensures exists a, b :: 0 <= a <= b <= |s| && Trim(s) == s[a..b] && BlankOutside(s, a, b)
  {
    TrimIsSlice(s, TrimLeading(s), TrimTrailing(TrimLeading(s)));
  }

  /** Cutting blanks from the front of `s` (leaving `t`) and then from the
      back of `t` (leaving `r`) leaves the slice `s[a..a + |r|]`, where `a` is
      the number of blanks cut from the front. */
  lemma TrimIsSlice(s: string, t: string, r: string)
    requires |t| <= |s| && t == s[|s| - |t|..]
    requires forall k :: 0 <= k < |s| - |t| ==> IsWhitespace(s[k])
    requires |r| <= |t| && r == t[..|r|]
    requires forall k :: |r| <= k < |t| ==> IsWhitespace(t[k])
    ensures var a := |s| - |t|; 0 <= a <= a + |r| <= |s| && r == s[a..a + |r|] && BlankOutside(s, a, a + |r|)
  {
    var a := |s| - |t|;
    forall k | a + |r| <= k < |s|
      ensures IsWhitespace(s[k])
    {
      assert s[k] == t[k - a];
    }
  }

  /** Trimming leaves trimmed text as it is. */
  lemma TrimmedIsFixed(t: string)
    requires IsTrimmed(t)
    ensures Trim(t) == t
  {
    assert TrimLeading(t) == t;
    assert TrimTrailing(t) == t;
  }

  /** Trimming twice is trimming once. */
  lemma TrimIdempotent(s: string)
    ensures Trim(Trim(s)) == Trim(s)
  {
    var r := Trim(s);
    if r != [] {
      TrimmedIsFixed(r);
    }
  }

  /** The send button's enable gate and the guard at the top of
      `sendMessage`: both test the same trimmed text. */
  predicate CanSend(text: string): (ok: bool)
    ensures ok <==> !Blank(text)
  {
    Trim(text) != []
  }

  /** The sheet's state; `pendingReplies` counts the reply timers started by
      sends that have not fired yet. */
  datatype ChatState = ChatState(messageText: string, messages: seq<ChatMessage>, pendingReplies: nat)

  /** The greetings the sheet opens with: the other party's, then the user's. */
  const OtherGreeting: string := "Hello! Nice to meet you \U{1F60A}"
  const UserGreeting: string := "Hello! Nice to meet you too \U{1F604}"

  /** The sheet's opening state: both greetings, stamped with the time it
      opens, an empty field and no reply pending. */
  function InitialChat(greetingId: Uuid, answerId: Uuid, now: Date): (c: ChatState)
    ensures c.messageText == "" && c.pendingReplies == 0
    ensures |c.messages| == 2 && !c.messages[0].isFromUser && c.messages[1].isFromUser
    ensures forall m :: m in c.messages ==> m.timestamp == now && m.text != []
  {
    ChatState("", [
      ChatMessage(greetingId, OtherGreeting, false, now),
      ChatMessage(answerId, UserGreeting, true, now)], 0)
  }

  datatype ChatEvent =
    | TypeText(text: string)
    | Send(id: Uuid, at: Date)
    | Reply(answer: string, id: Uuid, at: Date)

  /** A reply can only arrive while one is pending, and is one of the canned
      answers; typing and tapping Send are always possible (a tap on the
      disabled button does nothing). */
  predicate ChatEnabled(c: ChatState, e: ChatEvent)
  {
    e.Reply? ==> c.pendingReplies > 0 && e.answer in CannedResponses
  }

  /** One event. A send of blank text changes nothing; otherwise it appends
      exactly one user message holding the trimmed text, keeps every earlier
      message, clears the field and starts one reply timer. A reply appends
      exactly one message from the other party. */
  function ChatNext(c: ChatState, e: ChatEvent): (d: ChatState)
    requires ChatEnabled(c, e)
    ensures c.messages <= d.messages && |d.messages| <= |c.messages| + 1
    ensures e.Send? && Trim(c.messageText) == [] ==> d == c
    ensures e.Send? && Trim(c.messageText) != [] ==>
      d.messages == c.messages + [ChatMessage(e.id, Trim(c.messageText), true, e.at)] &&
      d.messageText == "" && d.pendingReplies == c.pendingReplies + 1
    ensures e.Reply? ==>
      d.messages == c.messages + [ChatMessage(e.id, e.answer, false, e.at)] &&
      d.pendingReplies + 1 == c.pendingReplies && d.messageText == c.messageText
    ensures e.TypeText? ==> d.messages == c.messages && d.messageText == e.text
  {
    match e
    case TypeText(text) => c.(messageText := text)
    case Send(id, at) =>
      var trimmed := Trim(c.messageText);
      if trimmed == [] then c
      else ChatState("", c.messages + [ChatMessage(id, trimmed, true, at)], c.pendingReplies + 1)
    case Reply(answer, id, at) =>
      c.(messages := c.messages + [ChatMessage(id, answer, false, at)], pendingReplies := c.pendingReplies - 1)
  }

  /** The number of messages in `ms` from the user (`fromUser`) or from the
      other party (`!fromUser`). */
  function Count(ms: seq<ChatMessage>, fromUser: bool): nat
    decreases |ms|
  {
    if ms == [] then 0
    else Count(ms[..|ms| - 1], fromUser) + (if ms[|ms| - 1].isFromUser == fromUser then 1 else 0)
  }

  lemma CountAppend(ms: seq<ChatMessage>, m: ChatMessage, fromUser: bool)
    ensures Count(ms + [m], fromUser) == Count(ms, fromUser) + (if m.isFromUser == fromUser then 1 else 0)
  {
    assert (ms + [m])[..|ms|] == ms;
  }

  /** Every reply answers a message the user sent (the two greetings pair up),
      and every message from the user is non-blank trimmed text. */
  ghost predicate ChatInv(c: ChatState)
  {
    Count(c.messages, true) == Count(c.messages, false) + c.pendingReplies &&
    forall m :: m in c.messages && m.isFromUser ==> IsTrimmed(m.text)
  }

  lemma InitialChatInv(greetingId: Uuid, answerId: Uuid, now: Date)
    ensures ChatInv(InitialChat(greetingId, answerId, now))
  {
    var m0 := ChatMessage(greetingId, OtherGreeting, false, now);
    var m1 := ChatMessage(answerId, UserGreeting, true, now);
    var ms := InitialChat(greetingId, answerId, now).messages;
    assert ms == [m0] + [m1];
    assert Count([m0], true) == 0 && Count([m0], false) == 1 by {
      assert [m0][..0] == [];
    }
    CountAppend([m0], m1, true);
    CountAppend([m0], m1, false);
    assert IsTrimmed(UserGreeting);
  }

  /** Appending one message keeps the invariant when a user message is
      trimmed text and the pending count moves with the sender: one more for
      the user's message, one fewer for a reply. */
  lemma AppendKeepsInv(c: ChatState, m: ChatMessage, text: string, pending: nat)
    requires ChatInv(c)
    requires m.isFromUser ==> IsTrimmed(m.text) && pending == c.pendingReplies + 1
    requires !m.isFromUser ==> pending + 1 == c.pendingReplies
    ensures ChatInv(ChatState(text, c.messages + [m], pending))
  {
    var ms := c.messages + [m];
    CountAppend(c.messages, m, true);
    CountAppend(c.messages, m, false);
    forall m' | m' in ms && m'.isFromUser
      ensures IsTrimmed(m'.text)
    {
      if m' != m {
        assert m' in c.messages;
      }
    }
  }

  lemma ChatNextKeepsInv(c: ChatState, e: ChatEvent)
    requires ChatInv(c) && ChatEnabled(c, e)
    ensures ChatInv(ChatNext(c, e))
  {
    match e
    case TypeText(_) =>
    case Send(id, at) => SendKeepsInv(c, id, at);
    case Reply(answer, id, at) => ReplyKeepsInv(c, answer, id, at);
  }

  lemma SendKeepsInv(c: ChatState, id: Uuid, at: Date)
    requires ChatInv(c)
    ensures ChatInv(ChatNext(c, Send(id, at)))
  {
    var t := Trim(c.messageText);
    if t != [] {
      var m := ChatMessage(id, t, true, at);
      assert ChatNext(c, Send(id, at)) == ChatState("", c.messages + [m], c.pendingReplies + 1);
      AppendKeepsInv(c, m, "", c.pendingReplies + 1);
    }
  }

  lemma ReplyKeepsInv(c: ChatState, answer: string, id: Uuid, at: Date)
    requires ChatInv(c) && c.pendingReplies > 0 && answer in CannedResponses
    ensures ChatInv(ChatNext(c, Reply(answer, id, at)))
  {
    var m := ChatMessage(id, answer, false, at);
    assert ChatNext(c, Reply(answer, id, at)) == ChatState(c.messageText, c.messages + [m], c.pendingReplies - 1);
    AppendKeepsInv(c, m, c.messageText, c.pendingReplies - 1);
  }

  /** The state after a sequence of events, or `None` if a reply came when
      none was pending. */
  function ChatRun(c: ChatState, events: seq<ChatEvent>): Option<ChatState>
    decreases |events|
  {
    if events == [] then Some(c)
    else if !ChatEnabled(c, events[0]) then None
    else ChatRun(ChatNext(c, events[0]), events[1..])
  }

  /** Over every sequence of typing, sends and replies the transcript only
      grows (each earlier message stays where it was) and the invariant holds:
      replies never outnumber the user's messages. */
  lemma {:induction false} TranscriptOnlyGrows(c: ChatState, events: seq<ChatEvent>)
    requires ChatInv(c) && ChatRun(c, events).Some?
    ensures c.messages <= ChatRun(c, events).value.messages
    ensures ChatInv(ChatRun(c, events).value)
    ensures Count(ChatRun(c, events).value.messages, false) <= Count(ChatRun(c, events).value.messages, true)
    decreases |events|
  {
    if events != [] {
      var d := ChatNext(c, events[0]);
      ChatNextKeepsInv(c, events[0]);
      TranscriptOnlyGrows(d, events[1..]);
    }
  }

  class ChatView {
    var messageText: string
    var messages: seq<ChatMessage>
    var pendingReplies: nat

    function State(): ChatState
      reads this
    {
      ChatState(messageText, messages, pendingReplies)
    }

    ghost predicate Valid()
      reads this
    {
      ChatInv(State())
    }

    /** The sheet opens with the two greetings and an empty field. */
    constructor (greetingId: Uuid, answerId: Uuid, now: Date)
      ensures Valid() && State() == InitialChat(greetingId, answerId, now)
    {
      var c := InitialChat(greetingId, answerId, now);
      InitialChatInv(greetingId, answerId, now);
      messageText, messages, pendingReplies := c.messageText, c.messages, c.pendingReplies;
      new;
      assert State() == c;
    }

    /** The text field's binding. */
    method TypeText(text: string)
      requires Valid()
      modifies this`messageText
      ensures Valid() && State() == ChatNext(old(State()), ChatEvent.TypeText(text))
    {
      messageText := text;
    }

    /** The send button's `disabled` modifier, negated. */
    method SendEnabled() returns (enabled: bool)
      ensures enabled <==> exists k :: 0 <= k < |messageText| && !IsWhitespace(messageText[k])
    {
      enabled := CanSend(messageText);
    }

    /** `sendMessage`: `id` and `now` are the fresh UUID and the clock reading
        the new message receives. */
    method SendMessage(id: Uuid, now: Date)
      requires Valid()
      modifies this
      ensures Valid() && State() == ChatNext(old(State()), Send(id, now))
      ensures Trim(old(messageText)) == [] ==> State() == old(State())
      ensures Trim(old(messageText)) != [] ==>
        messages == old(messages) + [ChatMessage(id, Trim(old(messageText)), true, now)] && messageText == ""
    {
      ghost var before := State();
      var trimmedText := Trim(messageText);
      if trimmedText == [] {
        return;
      }
      var message := ChatMessage(id, trimmedText, true, now);
      AppendKeepsInv(before, message, "", pendingReplies + 1);
      messages := messages + [message];
      messageText := "";
      pendingReplies := pendingReplies + 1;
    }

    /** The reply timer fires with `answer`, the random pick among the canned
        answers. */
    method ReceiveReply(answer: string, id: Uuid, now: Date)
      requires Valid() && pendingReplies > 0 && answer in CannedResponses
      modifies this
      ensures Valid() && State() == ChatNext(old(State()), Reply(answer, id, now))
      ensures messages == old(messages) + [ChatMessage(id, answer, false, now)]
    {
      ghost var before := State();
      messages := messages + [ChatMessage(id, answer, false, now)];
      pendingReplies := pendingReplies - 1;
      ChatNextKeepsInv(before, Reply(answer, id, now));
    }
  }
}
