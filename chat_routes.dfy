/** The chat routes of the server: a bearer-token gate, the chat directory,
    and the per-chat message log kept in memory (backend/routes/chats.js). */
module ChatRoutes {
  import opened Common
  import opened ChatTypes

  /** A route's answer: the JSON body, or the 401 the token gate sends. */
  datatype Response<T> = Ok(value: T) | Unauthorized

  /** A chat of the directory joined with the text and time of its last message. */
  datatype ChatEntry = ChatEntry(chat: Chat, lastMessage: Option<string>, lastMessageTime: Option<int>)

  // ---------------------------------------------------------------------------
  // The token gate: `authorization?.split(' ')[1]` must be a non-empty string.
  // ---------------------------------------------------------------------------

  /** The index of the first space in `s`, or `|s|` when there is none. */
  function SpaceIndex(s: string): (i: nat)
    ensures i <= |s|
    ensures forall k :: 0 <= k < i ==> s[k] != ' '
    ensures i < |s| ==> s[i] == ' '
  {
    if s == [] then 0
    else if s[0] == ' ' then 0
    else 1 + SpaceIndex(s[1..])
  }

  /** The second field of `h.split(' ')`: the text between the first and the
      second space (or the end), and None when `h` has no space at all. */
  function Token(h: string): (r: Option<string>)
    ensures r.None? <==> ' ' !in h
    ensures r.Some? ==> ' ' !in r.value
    ensures r.Some? ==>
      var i := SpaceIndex(h);
      && i + 1 + |r.value| <= |h|
      && h[i + 1..i + 1 + |r.value|] == r.value
      && (i + 1 + |r.value| == |h| || h[i + 1 + |r.value|] == ' ')
  {
    var i := SpaceIndex(h);
    if i == |h| then None
    else
      var rest := h[i + 1..];
      Some(rest[..SpaceIndex(rest)])
  }

  /** The gate lets a request through exactly when the header is present and its token is non-empty.
      Only the presence of a token is checked, never its validity. */
  predicate Authorized(authorization: Option<string>)
    ensures authorization.None? ==> !Authorized(authorization)
    ensures Authorized(authorization) ==> ' ' in authorization.value
  {
    authorization.Some? && Truthy(Token(authorization.value))
  }

  /** A header of the form "Bearer <token>" passes the gate with that token, whatever the token is. */
  lemma BearerHeaderAccepted(token: string)
    requires token != [] && ' ' !in token
    ensures Token("Bearer " + token) == Some(token)
    ensures Authorized(Some("Bearer " + token))
  {
    var h := "Bearer " + token;
    assert h[6] == ' ' && forall k :: 0 <= k < 6 ==> h[k] != ' ';
    assert SpaceIndex(h) == 6;
    assert h[7..] == token;
    assert SpaceIndex(token) == |token|;
    assert token[..|token|] == token;
  }

  /** The gate's exact condition: the header has a space, and the character right after the first space
      exists and is not itself a space. A missing header, a header with no space, "Bearer " and
      "Bearer  x" (two spaces) are all rejected. */
  lemma AuthorizedIff(h: string)
    ensures Authorized(Some(h)) <==>
      exists i :: 0 <= i < |h| - 1 && h[i] == ' ' && (forall k :: 0 <= k < i ==> h[k] != ' ') && h[i + 1] != ' '
  {
    var i := SpaceIndex(h);
    if Authorized(Some(h)) {
      var rest := h[i + 1..];
      assert SpaceIndex(rest) > 0;
      assert h[i + 1] == rest[0];
    }
    if exists j :: 0 <= j < |h| - 1 && h[j] == ' ' && (forall k :: 0 <= k < j ==> h[k] != ' ') && h[j + 1] != ' ' {
      var j :| 0 <= j < |h| - 1 && h[j] == ' ' && (forall k :: 0 <= k < j ==> h[k] != ' ') && h[j + 1] != ' ';
      assert i == j;
      var rest := h[i + 1..];
      assert rest[0] != ' ';
      assert SpaceIndex(rest) > 0;
    }
  }

  // ---------------------------------------------------------------------------
  // The message log and the chat list join.
  // ---------------------------------------------------------------------------

  /** `messages.get(chatId) || []`: a chat with no log reads as the empty log. */
  function LogOf(messages: map<string, seq<Message>>, chatId: string): seq<Message>
  {
    if chatId in messages then messages[chatId] else []
  }

  /** `req.headers['user-id'] || '1'`. */
  function SenderOf(userIdHeader: Option<string>): (senderId: string)
    ensures senderId != ""
    ensures Truthy(userIdHeader) ==> senderId == userIdHeader.value
    ensures !Truthy(userIdHeader) ==> senderId == "1"
  {
    if Truthy(userIdHeader) then userIdHeader.value else "1"
  }

  /** The message a POST stores and returns. `clock` is the reading taken for the id and
      `createdAt` the one taken for the timestamp. */
  function NewMessage(chatId: string, text: string, replyTo: Option<ReplyRef>, userIdHeader: Option<string>,
                      clock: nat, createdAt: int): (m: Message)
    ensures m.id == clock && m.chatId == chatId && m.text == text && m.createdAt == createdAt
    ensures m.senderId == SenderOf(userIdHeader) && m.senderId != ""
    ensures m.replyTo == replyTo && m.isRead.None?
  {
    Message(clock, chatId, SenderOf(userIdHeader), text, replyTo, createdAt, None)
  }

  /** The log after appending `m` to chat `chatId`; the chat's log is created if it has none. */
  function Appended(messages: map<string, seq<Message>>, chatId: string, m: Message): (r: map<string, seq<Message>>)
    ensures r.Keys == messages.Keys + {chatId}
    ensures LogOf(r, chatId) == LogOf(messages, chatId) + [m]
    ensures forall c :: c != chatId ==> LogOf(r, c) == LogOf(messages, c)
  {
    messages[chatId := LogOf(messages, chatId) + [m]]
  }

  /** One entry of the chat list: the chat with its last message's text and time, both absent for an empty log. */
  function Join(chat: Chat, log: seq<Message>): ChatEntry
  {
    if log == [] then ChatEntry(chat, None, None)
    else ChatEntry(chat, Some(log[|log| - 1].text), Some(log[|log| - 1].createdAt))
  }

  /** The chat list: one entry per directory chat, in directory order, each joined with its log's last message. */
  function ChatList(chats: seq<Chat>, messages: map<string, seq<Message>>): (r: seq<ChatEntry>)
    ensures |r| == |chats|
    ensures forall i :: 0 <= i < |chats| ==> r[i].chat == chats[i]
    ensures forall i :: 0 <= i < |chats| ==>
      var log := LogOf(messages, chats[i].id);
      && (r[i].lastMessage.Some? <==> log != [])
      && (r[i].lastMessageTime.Some? <==> log != [])
      && (log != [] ==>
            r[i].lastMessage.value == log[|log| - 1].text && r[i].lastMessageTime.value == log[|log| - 1].createdAt)
  {
    if chats == [] then []
    else [Join(chats[0], LogOf(messages, chats[0].id))] + ChatList(chats[1..], messages)
  }

  /** After a post to chat `c`, the chat list shows that post as the last message of every directory
      entry with id `c`, and every other entry is as it was. */
  lemma {:induction false} PostShowsInChatList(chats: seq<Chat>, messages: map<string, seq<Message>>, c: string, m: Message)
    ensures var before, after := ChatList(chats, messages), ChatList(chats, Appended(messages, c, m));
      forall i :: 0 <= i < |chats| ==>
        after[i] == if chats[i].id == c then ChatEntry(chats[i], Some(m.text), Some(m.createdAt)) else before[i]
  {
    if chats != [] {
      PostShowsInChatList(chats[1..], messages, c, m);
      var before, after := ChatList(chats, messages), ChatList(chats, Appended(messages, c, m));
      assert before == [Join(chats[0], LogOf(messages, chats[0].id))] + ChatList(chats[1..], messages);
      assert after == [Join(chats[0], LogOf(Appended(messages, c, m), chats[0].id))] + ChatList(chats[1..], Appended(messages, c, m));
      forall i | 0 <= i < |chats|
        ensures after[i] == if chats[i].id == c then ChatEntry(chats[i], Some(m.text), Some(m.createdAt)) else before[i]
      {
        if i > 0 {
          assert after[i] == ChatList(chats[1..], Appended(messages, c, m))[i - 1];
          assert before[i] == ChatList(chats[1..], messages)[i - 1];
        }
      }
    }
  }

  /** The number of entries of the chat list for chat `id`. */
  function EntriesFor(entries: seq<ChatEntry>, id: string): nat
  {
    if entries == [] then 0 else (if entries[0].chat.id == id then 1 else 0) + EntriesFor(entries[1..], id)
  }

  /** A directory with distinct ids lists each of its chats exactly once. */
  lemma {:induction false} OneEntryPerChat(chats: seq<Chat>, messages: map<string, seq<Message>>, i: int)
    requires forall j, k :: 0 <= j < k < |chats| ==> chats[j].id != chats[k].id
    requires 0 <= i < |chats|
    ensures EntriesFor(ChatList(chats, messages), chats[i].id) == 1
  {
    var r := ChatList(chats, messages);
    assert r[1..] == ChatList(chats[1..], messages);
    if i == 0 {
      NoEntryFor(chats[1..], messages, chats[0].id);
    } else {
      OneEntryPerChat(chats[1..], messages, i - 1);
    }
  }

  lemma {:induction false} NoEntryFor(chats: seq<Chat>, messages: map<string, seq<Message>>, id: string)
    requires forall j :: 0 <= j < |chats| ==> chats[j].id != id
    ensures EntriesFor(ChatList(chats, messages), id) == 0
  {
    if chats != [] {
      assert ChatList(chats, messages)[1..] == ChatList(chats[1..], messages);
      NoEntryFor(chats[1..], messages, id);
    }
  }

  /** The server's in-memory state: the chat directory (the values of the `chats` map, in insertion
      order) and the `messages` map from chat id to that chat's log. */
  class ChatStore {
    var chats: seq<Chat>
    var messages: map<string, seq<Message>>

    /** The directory is keyed by chat id. */
    ghost predicate Valid()
      reads this
    {
      forall i, j :: 0 <= i < j < |chats| ==> chats[i].id != chats[j].id
    }

    /** Start-up: no messages, and the directory seeded with the group chat "1" and the private chat "2". */
    constructor ()
      ensures Valid()
      ensures chats == [Chat("1", "Общий чат", Group), Chat("2", "Иван Петров", Private)]
      ensures messages == map[]
    {
      chats := [Chat("1", "Общий чат", Group), Chat("2", "Иван Петров", Private)];
      messages := map[];
    }

    /** GET `/`: the chat list, one entry per directory chat, or 401 without a token. */
    method GetChats(authorization: Option<string>) returns (r: Response<seq<ChatEntry>>)
      requires Valid()
      ensures r.Unauthorized? <==> !Authorized(authorization)
      ensures r.Ok? ==> |r.value| == |chats| && r.value == ChatList(chats, messages)
      ensures r.Ok? ==> forall id :: (exists i :: 0 <= i < |chats| && chats[i].id == id) ==> EntriesFor(r.value, id) == 1
    {
      if !Authorized(authorization) {
        return Unauthorized;
      }
      r := Ok(ChatList(chats, messages));
      forall id | exists i :: 0 <= i < |chats| && chats[i].id == id
        ensures EntriesFor(r.value, id) == 1
      {
        var i :| 0 <= i < |chats| && chats[i].id == id;
        OneEntryPerChat(chats, messages, i);
      }
    }

    /** GET `/:chatId/messages`: the chat's log in append order, empty when it has none, or 401 without a token. */
    method GetMessages(authorization: Option<string>, chatId: string) returns (r: Response<seq<Message>>)
      ensures r.Unauthorized? <==> !Authorized(authorization)
      ensures r.Ok? && chatId in messages ==> r.value == messages[chatId]
      ensures r.Ok? && chatId !in messages ==> r.value == []
    {
      if !Authorized(authorization) {
        return Unauthorized;
      }
      if chatId in messages {
        r := Ok(messages[chatId]);
      } else {
        r := Ok([]);
      }
    }

    /** POST `/:chatId/messages`: appends one message at the tail of the chat's log and returns it.
        The chat id is not checked against the directory. Without a token nothing changes. */
    method PostMessage(authorization: Option<string>, chatId: string, text: string, replyTo: Option<ReplyRef>,
                       userIdHeader: Option<string>, clock: nat, createdAt: int) returns (r: Response<Message>)
      requires Valid()
      modifies this
      ensures Valid() && chats == old(chats)
      ensures r.Unauthorized? <==> !Authorized(authorization)
      ensures r.Unauthorized? ==> messages == old(messages)
      ensures r.Ok? ==>
        && r.value == Message(clock, chatId, SenderOf(userIdHeader), text, replyTo, createdAt, None)
        && messages == Appended(old(messages), chatId, r.value)
    {
      if !Authorized(authorization) {
        return Unauthorized;
      }
      var message := NewMessage(chatId, text, replyTo, userIdHeader, clock, createdAt);
      if chatId !in messages {
        messages := messages[chatId := []];
      }
      messages := messages[chatId := messages[chatId] + [message]];
      r := Ok(message);
    }
  }

  /** A post to a chat id that has no log, even one the directory does not know, creates a log holding
      exactly that message; the other logs are untouched. */
  lemma FirstPostCreatesLog(messages: map<string, seq<Message>>, chatId: string, m: Message)
    requires chatId !in messages
    ensures Appended(messages, chatId, m)[chatId] == [m]
    ensures forall c :: c in messages ==> c in Appended(messages, chatId, m) && Appended(messages, chatId, m)[c] == messages[c]
  {
  }
}
