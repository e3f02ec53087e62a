/** The open-chat screen of the client: its message list, the echo suppression of live messages,
    sending, and the debounced typing indicator (src/screens/ChatScreen.js). */
module OpenChat {
  import opened Common
  import opened ChatTypes

  /** The quiet period after the last keystroke before "stopped typing" is sent, in milliseconds. */
  const TypingQuietMs: int := 1000

  /** What the screen emits on its socket. */
  datatype Emit =
    | Typing(chatId: string, isTyping: bool)
    | SendMessage(message: Message)

  /** The POST the screen sends: the path's chat id, the body, and the `user-id` header. */
  datatype PostRequest = PostRequest(chatId: string, text: string, replyTo: Option<ReplyRef>, userIdHeader: string)

  // ---------------------------------------------------------------------------
  // `String.prototype.trim`
  // ---------------------------------------------------------------------------

  /** The characters `trim` removes: ECMAScript's WhiteSpace and LineTerminator. */
  predicate IsSpace(c: char)
  {
    || c == '\t' || c == '\n' || c == '\U{000B}' || c == '\U{000C}' || c == '\r' || c == ' '
    || c == '\U{00A0}' || c == '\U{1680}' || ('\U{2000}' <= c <= '\U{200A}')
    || c == '\U{2028}' || c == '\U{2029}' || c == '\U{202F}' || c == '\U{205F}' || c == '\U{3000}'
    || c == '\U{FEFF}'
  }

  predicate AllSpace(s: string)
  {
    forall i :: 0 <= i < |s| ==> IsSpace(s[i])
  }

  /** The length of the run of white space that starts `s`. */
  function LeadingSpaces(s: string): (n: nat)
    ensures n <= |s|
    ensures AllSpace(s[..n])
    ensures n < |s| ==> !IsSpace(s[n])
  {
    if s == [] || !IsSpace(s[0]) then 0
    else
      var n := 1 + LeadingSpaces(s[1..]);
      assert s[..n] == [s[0]] + s[1..][..n - 1];
      n
  }

  /** The length of the run of white space that ends `s`. */
  function TrailingSpaces(s: string): (n: nat)
    ensures n <= |s|
    ensures AllSpace(s[|s| - n..])
    ensures n < |s| ==> !IsSpace(s[|s| - n - 1])
  {
    if s == [] || !IsSpace(s[|s| - 1]) then 0
    else
      var p := s[..|s| - 1];
      var n := 1 + TrailingSpaces(p);
      assert s[|s| - n..] == p[|p| - (n - 1)..] + [s[|s| - 1]];
      n
  }

  /** `r` is `s` with the white space `s[..a]` before it and `s[a + |r|..]` after it. */
  predicate TrimmedAt(s: string, r: string, a: int)
  {
    && 0 <= a <= |s| - |r|
    && s[a..a + |r|] == r
    && AllSpace(s[..a])
    && AllSpace(s[a + |r|..])
  }

  /** `s.trim()`: the slice of `s` left after removing white space at both ends; it neither starts
      nor ends with white space, and it is empty exactly when `s` is all white space. */
  function Trim(s: string): (r: string)
    ensures exists a :: TrimmedAt(s, r, a)
    ensures r != [] ==> !IsSpace(r[0]) && !IsSpace(r[|r| - 1])
    ensures r == [] <==> AllSpace(s)
  {
    var a := LeadingSpaces(s);
    var t := s[a..];
    var n := TrailingSpaces(t);
    var r := t[..|t| - n];
    TrimmedSlice(s, a, t, n, r);
    TrimBorders(s, a, t, n, r);
    if r == [] then BlankIsAllSpace(s, a, n); r else r
  }

  lemma TrimmedSlice(s: string, a: nat, t: string, n: nat, r: string)
    requires a <= |s| && t == s[a..] && n <= |t| && r == t[..|t| - n]
    requires AllSpace(s[..a]) && AllSpace(t[|t| - n..])
    ensures TrimmedAt(s, r, a)
  {
    assert s[a..a + |r|] == r;
    assert s[a + |r|..] == t[|t| - n..];
  }

  lemma TrimBorders(s: string, a: nat, t: string, n: nat, r: string)
    requires a <= |s| && t == s[a..] && n <= |t| && r == t[..|t| - n]
    requires a < |s| ==> !IsSpace(s[a])
    requires n < |t| ==> !IsSpace(t[|t| - n - 1])
    ensures r != [] ==> !IsSpace(r[0]) && !IsSpace(r[|r| - 1]) && !AllSpace(s)
  {
    if r != [] {
      assert r[0] == s[a];
      assert r[|r| - 1] == t[|t| - n - 1];
    }
  }

  lemma BlankIsAllSpace(s: string, a: nat, n: nat)
    requires a <= |s| && n == |s| - a
    requires AllSpace(s[..a]) && AllSpace(s[a..][|s[a..]| - n..])
    ensures AllSpace(s)
  {
    assert s[a..][|s[a..]| - n..] == s[a..];
    forall i | 0 <= i < |s| ensures IsSpace(s[i]) {
      if i >= a { assert s[i] == s[a..][i - a]; }
      else { assert s[i] == s[..a][i]; }
    }
  }

  /** Trimming twice is trimming once. */
  lemma TrimTwice(s: string)
    ensures Trim(Trim(s)) == Trim(s)
  {
    var r := Trim(s);
    if r != [] {
      assert LeadingSpaces(r) == 0 && r[0..] == r;
      assert TrailingSpaces(r) == 0 && r[..|r|] == r;
    }
  }

  // ---------------------------------------------------------------------------
  // The message list.
  // ---------------------------------------------------------------------------

  /** The `new_message` handler's test: the message belongs to this chat and someone else sent it. */
  predicate Accepts(m: Message, chatId: string, userId: string)
  {
    m.chatId == chatId && m.senderId != userId
  }

  /** `new_message`: the list grows by the message at its tail when the test accepts it, and is
      unchanged otherwise. */
  function Receive(messages: seq<Message>, m: Message, chatId: string, userId: string): (r: seq<Message>)
    ensures |r| == |messages| || |r| == |messages| + 1
    ensures r[..|messages|] == messages
    ensures |r| == |messages| + 1 <==> Accepts(m, chatId, userId)
    ensures |r| > |messages| ==> r[|messages|] == m
  {
    if Accepts(m, chatId, userId) then messages + [m] else messages
  }

  /** The copy of the server's answer that the sender keeps and broadcasts: marked as its own and unread. */
  function OwnCopy(response: Message, userId: string): (r: Message)
    ensures r.senderId == userId && r.isRead == Some(false)
    ensures r.(senderId := response.senderId, isRead := response.isRead) == response
    ensures forall chatId :: !Accepts(r, chatId, userId)
  {
    response.(senderId := userId, isRead := Some(false))
  }

  /** Sending appends the own copy; when the broker echoes that copy back, the echo carries the local
      sender id and is dropped, so exactly one copy is shown. */
  lemma EchoLeavesOneCopy(messages: seq<Message>, response: Message, chatId: string, userId: string)
    ensures var own := OwnCopy(response, userId);
      && Receive(messages + [own], own, chatId, userId) == messages + [own]
      && multiset(Receive(messages + [own], own, chatId, userId))[own] == multiset(messages)[own] + 1
  {
  }

  /** The sender-only test also drops a message this user sent from another session: such a message
      reaches this screen only through a later reload. */
  lemma OwnMessagesFromElsewhereDropped(messages: seq<Message>, m: Message, chatId: string, userId: string)
    requires m.senderId == userId
    ensures Receive(messages, m, chatId, userId) == messages
  {
  }

  /** The reply snapshot a post carries: the target's id and text, or nothing. */
  function Snapshot(replyTo: Option<Message>): (r: Option<ReplyRef>)
    ensures r.Some? <==> replyTo.Some?
    ensures r.Some? ==> r.value.id == replyTo.value.id && r.value.text == replyTo.value.text
  {
    match replyTo
    case None => None
    case Some(m) => Some(ReplyRef(m.id, m.text))
  }

  // ---------------------------------------------------------------------------
  // The typing debounce, on a logical clock.
  // ---------------------------------------------------------------------------

  /** The typing part of the screen: the deadline of the pending stop timer, if any, and the emits so far. */
  datatype Typist = Typist(deadline: Option<int>, out: seq<Emit>)

  /** The stop timer is due at `now`. */
  predicate Due(t: Typist, now: int)
  {
    t.deadline.Some? && t.deadline.value <= now
  }

  /** The clock reaches `now`: a stop timer that is due fires once and emits "stopped typing"; a timer
      not yet due, or no timer, leaves everything as it is. */
  function Tick(t: Typist, chatId: string, now: int): (r: Typist)
    ensures Due(t, now) ==> r.deadline.None? && r.out == t.out + [Typing(chatId, false)]
    ensures !Due(t, now) ==> r == t
    ensures !Due(r, now)
  {
    if Due(t, now) then Typist(None, t.out + [Typing(chatId, false)])
    else t
  }

  /** A keystroke at `now`: a stop timer already due has fired by itself before it (clearing it then does
      nothing), then "typing" is emitted and a new stop timer is set a quiet period from now, replacing
      one not yet due. */
  function Keystroke(t: Typist, chatId: string, now: int): (r: Typist)
    ensures r.deadline == Some(now + TypingQuietMs)
    ensures Due(t, now) ==> r.out == t.out + [Typing(chatId, false), Typing(chatId, true)]
    ensures !Due(t, now) ==> r.out == t.out + [Typing(chatId, true)]
  {
    var fired := Tick(t, chatId, now);
    Typist(Some(now + TypingQuietMs), fired.out + [Typing(chatId, true)])
  }

  datatype ClockEvent = KeyAt(at: int) | TickAt(at: int)

  function Step(t: Typist, chatId: string, e: ClockEvent): Typist
  {
    match e
    case KeyAt(now) => Keystroke(t, chatId, now)
    case TickAt(now) => Tick(t, chatId, now)
  }

  function Replay(t: Typist, chatId: string, events: seq<ClockEvent>): Typist
    decreases |events|
  {
    if events == [] then t else Replay(Step(t, chatId, events[0]), chatId, events[1..])
  }

  /** The number of emits in `out` that say `isTyping`. */
  function CountTyping(out: seq<Emit>, isTyping: bool): nat
  {
    if out == [] then 0
    else CountTyping(out[..|out| - 1], isTyping) + (if out[|out| - 1].Typing? && out[|out| - 1].isTyping == isTyping then 1 else 0)
  }

  lemma CountTypingAppend(out: seq<Emit>, e: Emit, isTyping: bool)
    ensures CountTyping(out + [e], isTyping) == CountTyping(out, isTyping) + (if e.Typing? && e.isTyping == isTyping then 1 else 0)
  {
    assert (out + [e])[..|out|] == out;
  }

  /** Every "stopped typing" answers an earlier "typing", and a pending timer stands for one more
      "typing" not yet answered: at most one stop is ever pending. */
  predicate Balanced(t: Typist)
  {
    CountTyping(t.out, false) + (if t.deadline.Some? then 1 else 0) <= CountTyping(t.out, true)
  }

  lemma StepBalanced(t: Typist, chatId: string, e: ClockEvent)
    requires Balanced(t)
    ensures Balanced(Step(t, chatId, e))
  {
    match e
    case KeyAt(now) =>
      var fired := Tick(t, chatId, now);
      CountTypingAppend(t.out, Typing(chatId, false), true);
      CountTypingAppend(t.out, Typing(chatId, false), false);
      CountTypingAppend(fired.out, Typing(chatId, true), true);
      CountTypingAppend(fired.out, Typing(chatId, true), false);
    case TickAt(now) =>
      CountTypingAppend(t.out, Typing(chatId, false), true);
      CountTypingAppend(t.out, Typing(chatId, false), false);
  }

  /** Any run of keystrokes and clock ticks keeps the typing emits balanced. */
  lemma {:induction false} ReplayBalanced(t: Typist, chatId: string, events: seq<ClockEvent>)
    requires Balanced(t)
    ensures Balanced(Replay(t, chatId, events))
    decreases |events|
  {
    if events != [] {
      StepBalanced(t, chatId, events[0]);
      ReplayBalanced(Step(t, chatId, events[0]), chatId, events[1..]);
    }
  }

  function Ticks(times: seq<int>): (r: seq<ClockEvent>)
    ensures |r| == |times|
    ensures forall i :: 0 <= i < |times| ==> r[i] == TickAt(times[i])
  {
    if times == [] then [] else [TickAt(times[0])] + Ticks(times[1..])
  }

  /** With no timer pending, clock ticks emit nothing. */
  lemma {:induction false} IdleTicksSilent(t: Typist, chatId: string, times: seq<int>)
    requires t.deadline.None?
    ensures Replay(t, chatId, Ticks(times)) == t
    decreases |times|
  {
    if times != [] {
      assert Ticks(times)[1..] == Ticks(times[1..]);
      IdleTicksSilent(t, chatId, times[1..]);
    }
  }

  /** With a timer pending, a run of clock ticks emits exactly one "stopped typing" if some tick
      reaches the deadline, and nothing otherwise. */
  lemma {:induction false} PendingStopFiresOnce(t: Typist, chatId: string, times: seq<int>)
    requires t.deadline.Some?
    ensures Replay(t, chatId, Ticks(times)).out ==
      t.out + (if exists i :: 0 <= i < |times| && times[i] >= t.deadline.value then [Typing(chatId, false)] else [])
    decreases |times|
  {
    if times != [] {
      var d := t.deadline.value;
      assert Ticks(times)[0] == TickAt(times[0]) && Ticks(times)[1..] == Ticks(times[1..]);
      ReachesCons(times, d);
      if times[0] >= d {
        IdleTicksSilent(Tick(t, chatId, times[0]), chatId, times[1..]);
      } else {
        PendingStopFiresOnce(t, chatId, times[1..]);
      }
    }
  }

  /** Some tick of a non-empty run reaches `d` exactly when the first does or a later one does. */
  lemma ReachesCons(times: seq<int>, d: int)
    requires times != []
    ensures (exists i :: 0 <= i < |times| && times[i] >= d) <==>
      times[0] >= d || exists i :: 0 <= i < |times[1..]| && times[1..][i] >= d
  {
    if exists i :: 0 <= i < |times[1..]| && times[1..][i] >= d {
      var i :| 0 <= i < |times[1..]| && times[1..][i] >= d;
      assert times[i + 1] >= d;
    }
    if exists i :: 0 <= i < |times| && times[i] >= d {
      var i :| 0 <= i < |times| && times[i] >= d;
      if i > 0 {
        assert times[1..][i - 1] >= d;
      }
    }
  }

  /** After the last keystroke at `k`, the clock ticks emit exactly one "stopped typing" when one of
      them reaches `k + 1000`, and none before. */
  lemma LastKeystrokeThenQuiet(t: Typist, chatId: string, k: int, times: seq<int>)
    ensures Replay(Keystroke(t, chatId, k), chatId, Ticks(times)).out ==
      Tick(t, chatId, k).out + [Typing(chatId, true)]
            + (if exists i :: 0 <= i < |times| && times[i] >= k + TypingQuietMs then [Typing(chatId, false)] else [])
  {
    PendingStopFiresOnce(Keystroke(t, chatId, k), chatId, times);
  }

  /** A keystroke at 0 and another at 900: a tick at 1000 emits nothing, and the stop is emitted at 1900. */
  lemma KeystrokeRestartsTimer(chatId: string)
    ensures Replay(Typist(None, []), chatId, [KeyAt(0), KeyAt(900), TickAt(1000)]).out
         == [Typing(chatId, true), Typing(chatId, true)]
    ensures Replay(Typist(None, []), chatId, [KeyAt(0), KeyAt(900), TickAt(1000), TickAt(1900)]).out
         == [Typing(chatId, true), Typing(chatId, true), Typing(chatId, false)]
  {
  }

  /** Keystrokes at 0 and 5000 and a tick at 6000: the first timer has fired at 1000, before the second
      keystroke, so each keystroke gets its own "stopped typing". */
  lemma LateKeystrokeKeepsEarlierStop(chatId: string)
    ensures Replay(Typist(None, []), chatId, [KeyAt(0), KeyAt(5000), TickAt(6000)]).out
         == [Typing(chatId, true), Typing(chatId, false), Typing(chatId, true), Typing(chatId, false)]
  {
  }

  // ---------------------------------------------------------------------------
  // The screen's state and its handlers.
  // ---------------------------------------------------------------------------

  class ChatScreen {
    const chatId: string
    const userId: string
    var messages: seq<Message>
    var inputText: string
    /** The message selected as reply target. */
    var replyTo: Option<Message>
    /** Whether the other side is typing (the `user_typing` indicator). */
    var isTyping: bool
    /** The deadline of the pending stop timer (`typingTimeoutRef`), on the logical clock. */
    var typingDeadline: Option<int>
    /** Everything emitted on the socket, in order. */
    var emitted: seq<Emit>
    /** Every POST sent, in order. */
    var posts: seq<PostRequest>

    ghost predicate Valid()
      reads this
    {
      Balanced(Typist(typingDeadline, emitted))
    }

    constructor (chatId: string, userId: string)
      ensures Valid()
      ensures this.chatId == chatId && this.userId == userId
      ensures messages == [] && inputText == "" && replyTo.None? && !isTyping
      ensures typingDeadline.None? && emitted == [] && posts == []
    {
      this.chatId, this.userId := chatId, userId;
      messages, inputText, replyTo, isTyping := [], "", None, false;
      typingDeadline, emitted, posts := None, [], [];
    }

    /** `loadMessages`: replaces the list with the server's log; `read` is the random read flag drawn per message. */
    method LoadMessages(fetched: seq<Message>, read: seq<bool>)
      requires Valid() && |read| == |fetched|
      modifies this`messages
      ensures Valid()
      ensures |messages| == |fetched|
      ensures forall i :: 0 <= i < |fetched| ==> messages[i] == fetched[i].(isRead := Some(read[i]))
    {
      messages := seq(|fetched|, i requires 0 <= i < |fetched| => fetched[i].(isRead := Some(read[i])));
    }

    /** `new_message`. */
    method OnNewMessage(m: Message)
      requires Valid()
      modifies this`messages
      ensures Valid()
      ensures messages == Receive(old(messages), m, chatId, userId)
    {
      if m.chatId == chatId && m.senderId != userId {
        messages := messages + [m];
      }
    }

    /** `user_typing`: only events for this chat move the indicator. */
    method OnUserTyping(eventChatId: string, typing: bool)
      requires Valid()
      modifies this`isTyping
      ensures Valid()
      ensures isTyping == if eventChatId == chatId then typing else old(isTyping)
    {
      if eventChatId == chatId {
        isTyping := typing;
      }
    }

    /** The cancel button of the reply bar. */
    method CancelReply()
      requires Valid()
      modifies this`replyTo
      ensures Valid() && replyTo.None?
    {
      replyTo := None;
    }

    /** `handleTyping`: store the input, emit "typing", and restart the stop timer; a timer that is already
        due has fired before the keystroke. */
    method HandleTyping(text: string, now: int)
      requires Valid()
      modifies this`inputText, this`emitted, this`typingDeadline
      ensures Valid()
      ensures inputText == text
      ensures Typist(typingDeadline, emitted) == Keystroke(Typist(old(typingDeadline), old(emitted)), chatId, now)
    {
      inputText := text;
      StepBalanced(Typist(typingDeadline, emitted), chatId, KeyAt(now));
      if typingDeadline.Some? && typingDeadline.value <= now {
        emitted := emitted + [Typing(chatId, false)];
      }
      emitted := emitted + [Typing(chatId, true)];
      typingDeadline := Some(now + TypingQuietMs);
    }

    /** The logical clock reaches `now`; a due stop timer fires. */
    method ClockTick(now: int)
      requires Valid()
      modifies this`emitted, this`typingDeadline
      ensures Valid()
      ensures Typist(typingDeadline, emitted) == Tick(Typist(old(typingDeadline), old(emitted)), chatId, now)
    {
      StepBalanced(Typist(typingDeadline, emitted), chatId, TickAt(now));
      if typingDeadline.Some? && typingDeadline.value <= now {
        emitted := emitted + [Typing(chatId, false)];
        typingDeadline := None;
      }
    }

    /** `sendMessage` up to the `await`: blank input does nothing; otherwise the trimmed text and the reply
        snapshot are posted, and the input and the reply selection are cleared. */
    method BeginSend() returns (request: Option<PostRequest>)
      requires Valid()
      modifies this`inputText, this`replyTo, this`posts
      ensures Valid()
      ensures request.None? <==> AllSpace(old(inputText))
      ensures request.None? ==> inputText == old(inputText) && replyTo == old(replyTo) && posts == old(posts)
      ensures request.Some? ==>
        && request.value == PostRequest(chatId, Trim(old(inputText)), Snapshot(old(replyTo)), userId)
        && request.value.text != []
        && inputText == "" && replyTo.None?
        && posts == old(posts) + [request.value]
    {
      var text := Trim(inputText);
      if text == "" {
        return None;
      }
      inputText := "";
      var body := PostRequest(chatId, text, Snapshot(replyTo), userId);
      replyTo := None;
      posts := posts + [body];
      request := Some(body);
    }

    /** `sendMessage` after the `await`: on success the own copy is appended once and emitted as
        `send_message`; on failure nothing changes (the input stays cleared). */
    method CompleteSend(response: Option<Message>)
      requires Valid()
      modifies this`messages, this`emitted
      ensures Valid()
      ensures response.None? ==> messages == old(messages) && emitted == old(emitted)
      ensures response.Some? ==>
        && messages == old(messages) + [OwnCopy(response.value, userId)]
        && emitted == old(emitted) + [SendMessage(OwnCopy(response.value, userId))]
    {
      if response.Some? {
        var own := OwnCopy(response.value, userId);
        messages := messages + [own];
        CountTypingAppend(emitted, SendMessage(own), true);
        CountTypingAppend(emitted, SendMessage(own), false);
        emitted := emitted + [SendMessage(own)];
      }
    }
  }
}
