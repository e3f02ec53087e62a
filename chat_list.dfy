/** The chat-list screen of the client: the list of chats it keeps, and the updaters that fold live
    events and user actions into it (src/screens/ChatsScreen.js). */
module ChatList {
  import opened Common
  import opened ChatTypes
  import ChatRoutes

  /** A chat as the list screen holds it: the server's entry plus the client-side fields. */
  datatype ChatItem = ChatItem(
    id: string,
    name: string,
    kind: ChatKind,
    lastMessage: Option<string>,
    lastMessageTime: Option<int>,
    unreadCount: nat,
    online: bool,
    isPinned: bool,
    isMuted: bool,
    isTyping: bool)

  // ---------------------------------------------------------------------------
  // `prev.map(chat => chat.id === id ? f(chat) : chat)` and the updaters built on it.
  // ---------------------------------------------------------------------------

  /** Applies `f` to every chat with the given id and leaves the others as they are. */
  function UpdateWhere(s: seq<ChatItem>, id: string, f: ChatItem -> ChatItem): (r: seq<ChatItem>)
    ensures |r| == |s|
    ensures forall i :: 0 <= i < |s| ==> r[i] == if s[i].id == id then f(s[i]) else s[i]
  {
    if s == [] then []
    else [if s[0].id == id then f(s[0]) else s[0]] + UpdateWhere(s[1..], id, f)
  }

  /** When `f` keeps ids, updating a list changes how often a chat with another id occurs by nothing. */
  lemma {:induction false} UpdateWhereKeepsOthers(s: seq<ChatItem>, id: string, f: ChatItem -> ChatItem)
    requires forall c :: f(c).id == c.id
    ensures forall c: ChatItem :: c.id != id ==> multiset(UpdateWhere(s, id, f))[c] == multiset(s)[c]
  {
    if s != [] {
      UpdateWhereKeepsOthers(s[1..], id, f);
      assert s == [s[0]] + s[1..];
      var head := if s[0].id == id then f(s[0]) else s[0];
      assert UpdateWhere(s, id, f) == [head] + UpdateWhere(s[1..], id, f);
      assert head.id == s[0].id;
    }
  }

  function WithPinFlipped(c: ChatItem): ChatItem { c.(isPinned := !c.isPinned) }

  function WithMuteFlipped(c: ChatItem): ChatItem { c.(isMuted := !c.isMuted) }

  /** `handlePin`: flips `isPinned` of the chats with that id; the order and every other field are kept. */
  function TogglePin(s: seq<ChatItem>, id: string): (r: seq<ChatItem>)
    ensures |r| == |s|
    ensures forall i :: 0 <= i < |s| ==>
      && r[i].isPinned == (if s[i].id == id then !s[i].isPinned else s[i].isPinned)
      && r[i].(isPinned := s[i].isPinned) == s[i]
  {
    UpdateWhere(s, id, WithPinFlipped)
  }

  /** `handleMute`: flips `isMuted` of the chats with that id; the order and every other field are kept. */
  function ToggleMute(s: seq<ChatItem>, id: string): (r: seq<ChatItem>)
    ensures |r| == |s|
    ensures forall i :: 0 <= i < |s| ==>
      && r[i].isMuted == (if s[i].id == id then !s[i].isMuted else s[i].isMuted)
      && r[i].(isMuted := s[i].isMuted) == s[i]
  {
    UpdateWhere(s, id, WithMuteFlipped)
  }

  /** Pinning twice gives back the original list. */
  lemma TogglePinTwice(s: seq<ChatItem>, id: string)
    ensures TogglePin(TogglePin(s, id), id) == s
  {
    var r := TogglePin(TogglePin(s, id), id);
    assert forall i :: 0 <= i < |s| ==> r[i] == s[i];
  }

  /** Muting twice gives back the original list. */
  lemma ToggleMuteTwice(s: seq<ChatItem>, id: string)
    ensures ToggleMute(ToggleMute(s, id), id) == s
  {
    var r := ToggleMute(ToggleMute(s, id), id);
    assert forall i :: 0 <= i < |s| ==> r[i] == s[i];
  }

  /** The `user_typing` updater: sets `isTyping` on the chats with that id; the order and every other
      field are kept. */
  function SetTyping(s: seq<ChatItem>, chatId: string, isTyping: bool): (r: seq<ChatItem>)
    ensures |r| == |s|
    ensures forall i :: 0 <= i < |s| ==>
      && r[i].isTyping == (if s[i].id == chatId then isTyping else s[i].isTyping)
      && r[i].(isTyping := s[i].isTyping) == s[i]
  {
    UpdateWhere(s, chatId, (c: ChatItem) => c.(isTyping := isTyping))
  }

  // ---------------------------------------------------------------------------
  // `prev.filter(keep)`, `handleDelete` and the search filter.
  // ---------------------------------------------------------------------------

  /** The chats of `s` that `keep` accepts, in their original order. */
  function Filter(s: seq<ChatItem>, keep: ChatItem -> bool): (r: seq<ChatItem>)
    ensures |r| <= |s|
    ensures forall c {:trigger c in r} :: c in r <==> c in s && keep(c)
    ensures forall c {:trigger multiset(r)[c]} :: keep(c) ==> multiset(r)[c] == multiset(s)[c]
  {
    if s == [] then []
    else
      assert s == [s[0]] + s[1..];
      (if keep(s[0]) then [s[0]] else []) + Filter(s[1..], keep)
  }

  /** Filtering works piece by piece, so what it keeps stays in its original relative order. */
  lemma {:induction false} FilterConcat(a: seq<ChatItem>, b: seq<ChatItem>, keep: ChatItem -> bool)
    ensures Filter(a + b, keep) == Filter(a, keep) + Filter(b, keep)
  {
    if a == [] {
      assert a + b == b;
    } else {
      var h, t := a[0], a[1..];
      assert a == [h] + t;
      assert a + b == [h] + (t + b);
      FilterConcat(t, b, keep);
      FilterCons(h, t + b, keep);
      FilterCons(h, t, keep);
    }
  }

  /** A filter that accepts every chat of the list gives back the list itself. */
  lemma {:induction false} FilterKeepsAll(s: seq<ChatItem>, keep: ChatItem -> bool)
    requires forall c :: c in s ==> keep(c)
    ensures Filter(s, keep) == s
  {
    if s != [] {
      FilterKeepsAll(s[1..], keep);
      assert s == [s[0]] + s[1..];
    }
  }

  /** Two filters that accept the same chats give the same list. */
  lemma {:induction false} FilterSameTest(s: seq<ChatItem>, p: ChatItem -> bool, q: ChatItem -> bool)
    requires forall c :: p(c) == q(c)
    ensures Filter(s, p) == Filter(s, q)
  {
    if s != [] {
      FilterSameTest(s[1..], p, q);
    }
  }

  /** `handleDelete`: drops every chat with that id and keeps the others. */
  function Remove(s: seq<ChatItem>, id: string): (r: seq<ChatItem>)
    ensures forall c :: c in r <==> c in s && c.id != id
    ensures forall c: ChatItem :: c.id != id ==> multiset(r)[c] == multiset(s)[c]
  {
    Filter(s, (c: ChatItem) => c.id != id)
  }

  /** Deleting works piece by piece: the chats that remain keep their original relative order. */
  lemma RemoveConcat(a: seq<ChatItem>, b: seq<ChatItem>, id: string)
    ensures Remove(a + b, id) == Remove(a, id) + Remove(b, id)
  {
    FilterConcat(a, b, (c: ChatItem) => c.id != id);
  }

  /** `toLowerCase` on the Latin and Cyrillic letters (U+0041..U+005A, U+0400..U+042F); other characters are kept. */
  function LowerChar(c: char): char
  {
    if 'A' <= c <= 'Z' then (c as int + 32) as char
    else if 'А' <= c <= 'Я' then (c as int + 32) as char
    else if 'Ѐ' <= c <= 'Џ' then (c as int + 80) as char
    else c
  }

  function Lower(s: string): (r: string)
    ensures |r| == |s|
  {
    seq(|s|, i requires 0 <= i < |s| => LowerChar(s[i]))
  }

  /** Lower-casing twice is lower-casing once. */
  lemma LowerTwice(s: string)
    ensures Lower(Lower(s)) == Lower(s)
  {
  }

  /** `s.includes(t)`: `t` starts at some position of `s`. */
  predicate Contains(s: string, t: string)
    decreases |s|
  {
    (|t| <= |s| && s[..|t|] == t) || (s != [] && Contains(s[1..], t))
  }

  /** `t` occurs in `s` starting at index `i`. */
  predicate OccursAt(s: string, t: string, i: int)
  {
    0 <= i <= |s| - |t| && s[i..i + |t|] == t
  }

  /** `Contains` means what `includes` means: `t` occurs in `s` at some index. */
  lemma {:induction false} ContainsIff(s: string, t: string)
    ensures Contains(s, t) <==> exists i :: OccursAt(s, t, i)
    decreases |s|
  {
    if |t| <= |s| && s[..|t|] == t {
      assert OccursAt(s, t, 0);
    }
    if s != [] {
      ContainsIff(s[1..], t);
      if Contains(s[1..], t) {
        var i :| OccursAt(s[1..], t, i);
        assert s[i + 1..i + 1 + |t|] == s[1..][i..i + |t|];
        assert OccursAt(s, t, i + 1);
      }
      if exists i :: OccursAt(s, t, i) {
        var i :| OccursAt(s, t, i);
        if i > 0 {
          assert s[1..][i - 1..i - 1 + |t|] == s[i..i + |t|];
          assert OccursAt(s[1..], t, i - 1);
        }
      }
    } else if exists i :: OccursAt(s, t, i) {
      var i :| OccursAt(s, t, i);
      assert t == [];
    }
  }

  /** The search test of one chat: its lower-cased name contains the lower-cased query. */
  predicate Matches(c: ChatItem, query: string)
  {
    Contains(Lower(c.name), Lower(query))
  }

  /** `filteredChats`: the chats whose name contains the query, ignoring case, in list order. */
  function Search(s: seq<ChatItem>, query: string): (r: seq<ChatItem>)
    ensures forall c :: c in r <==> c in s && Matches(c, query)
    ensures forall c :: Matches(c, query) ==> multiset(r)[c] == multiset(s)[c]
  {
    Filter(s, (c: ChatItem) => Matches(c, query))
  }

  /** The empty query keeps every chat, in order. */
  lemma SearchEmptyQuery(s: seq<ChatItem>)
    ensures Search(s, "") == s
  {
    forall c | c in s ensures Matches(c, "") {
      assert Lower(c.name)[..0] == Lower("");
    }
    FilterKeepsAll(s, (c: ChatItem) => Matches(c, ""));
  }

  /** The search ignores the case of the query. */
  lemma SearchIgnoresQueryCase(s: seq<ChatItem>, query: string)
    ensures Search(s, query) == Search(s, Lower(query))
  {
    LowerTwice(query);
    FilterSameTest(s, (c: ChatItem) => Matches(c, query), (c: ChatItem) => Matches(c, Lower(query)));
  }

  // ---------------------------------------------------------------------------
  // `updateChatPreview`: the preview update followed by the list sort.
  // ---------------------------------------------------------------------------

  /** The comparator of the sort says `a` goes strictly before `b`: pinned before unpinned, then the newer
      last message first. When either time is absent the comparator yields NaN, which the sort reads
      as "equal". */
  predicate Precedes(a: ChatItem, b: ChatItem)
    ensures a.isPinned && !b.isPinned ==> Precedes(a, b)
    ensures Precedes(a, b) ==> a.isPinned || !b.isPinned
    ensures a.lastMessageTime.None? || b.lastMessageTime.None? ==> (Precedes(a, b) <==> a.isPinned && !b.isPinned)
    ensures SameClass(a, b) ==> !Precedes(a, b)
  {
    || (a.isPinned && !b.isPinned)
    || (a.isPinned == b.isPinned && a.lastMessageTime.Some? && b.lastMessageTime.Some?
        && a.lastMessageTime.value > b.lastMessageTime.value)
  }

  /** The comparator is a strict order: no two chats go strictly before each other. */
  lemma PrecedesAsymmetric(a: ChatItem, b: ChatItem)
    ensures Precedes(a, b) ==> !Precedes(b, a)
  {
  }

  /** Inserts `x` before the first chat that does not go strictly before it, so equal chats keep
      their input order. */
  function Insert(x: ChatItem, s: seq<ChatItem>): (r: seq<ChatItem>)
    ensures multiset(r) == multiset(s) + multiset{x}
  {
    if s == [] then [x]
    else if Precedes(s[0], x) then
      assert s == [s[0]] + s[1..];
      [s[0]] + Insert(x, s[1..])
    else [x] + s
  }

  /** `Array.prototype.sort` with the comparator, as a stable insertion sort. */
  function SortChats(s: seq<ChatItem>): (r: seq<ChatItem>)
    ensures multiset(r) == multiset(s)
  {
    if s == [] then []
    else
      assert s == [s[0]] + s[1..];
      Insert(s[0], SortChats(s[1..]))
  }

  /** No chat goes strictly before one that comes earlier in the list. */
  predicate Ordered(s: seq<ChatItem>)
  {
    forall i, j :: 0 <= i < j < |s| ==> !Precedes(s[j], s[i])
  }

  predicate Timed(s: seq<ChatItem>)
  {
    forall c :: c in s ==> c.lastMessageTime.Some?
  }

  lemma NotPrecedesTransitive(a: ChatItem, b: ChatItem, c: ChatItem)
    requires a.lastMessageTime.Some? && b.lastMessageTime.Some? && c.lastMessageTime.Some?
    requires !Precedes(b, a) && !Precedes(c, b)
    ensures !Precedes(c, a)
  {
  }

  /** A chat that no chat of an ordered list goes strictly before can head that list. */
  lemma ConsOrdered(h: ChatItem, t: seq<ChatItem>)
    requires Ordered(t)
    requires forall e :: e in t ==> !Precedes(e, h)
    ensures Ordered([h] + t)
  {
    var r := [h] + t;
    forall i, j | 0 <= i < j < |r| ensures !Precedes(r[j], r[i]) {
      assert r[j] == t[j - 1];
      if i > 0 {
        assert r[i] == t[i - 1];
      }
    }
  }

  /** No chat of an ordered list goes strictly before its head. */
  lemma OrderedHead(s: seq<ChatItem>)
    requires s != [] && Ordered(s)
    ensures forall e :: e in s[1..] ==> !Precedes(e, s[0])
  {
    forall e | e in s[1..] ensures !Precedes(e, s[0]) {
      var k :| 0 <= k < |s| - 1 && s[1..][k] == e;
      assert s[k + 1] == e;
    }
  }

  lemma {:induction false} InsertOrdered(x: ChatItem, s: seq<ChatItem>)
    requires Ordered(s) && Timed(s) && x.lastMessageTime.Some?
    ensures Ordered(Insert(x, s))
  {
    if s == [] {
    } else {
      OrderedHead(s);
      assert s == [s[0]] + s[1..];
      if Precedes(s[0], x) {
        assert Ordered(s[1..]) by {
          forall i, j | 0 <= i < j < |s| - 1 ensures !Precedes(s[1..][j], s[1..][i]) {
            assert s[1..][j] == s[j + 1] && s[1..][i] == s[i + 1];
          }
        }
        InsertOrdered(x, s[1..]);
        var t := Insert(x, s[1..]);
        forall e | e in t ensures !Precedes(e, s[0]) {
          assert e in multiset(t);
        }
        ConsOrdered(s[0], t);
      } else {
        forall e | e in s ensures !Precedes(e, x) {
          if e != s[0] {
            assert e in s[1..];
            NotPrecedesTransitive(x, s[0], e);
          }
        }
        ConsOrdered(x, s);
      }
    }
  }

  lemma {:induction false} SortOrdered(s: seq<ChatItem>)
    requires Timed(s)
    ensures Ordered(SortChats(s))
  {
    if s != [] {
      var rest := SortChats(s[1..]);
      SortOrdered(s[1..]);
      forall c | c in rest ensures c.lastMessageTime.Some? {
        assert c in multiset(rest);
        assert c in s[1..];
      }
      assert s[0] in s;
      InsertOrdered(s[0], rest);
    }
  }

  /** `a` and `b` tie under the comparator for a reason other than NaN: same pinned flag, same time. */
  predicate SameClass(a: ChatItem, b: ChatItem)
  {
    a.isPinned == b.isPinned && a.lastMessageTime == b.lastMessageTime
  }

  /** The test that selects the chats in the same class as `k`. */
  function ClassOf(k: ChatItem): ChatItem -> bool
  {
    (c: ChatItem) => SameClass(c, k)
  }

  /** A test that only selects chats that tie with each other. */
  ghost predicate SelectsTies(p: ChatItem -> bool)
  {
    forall a, b :: p(a) && p(b) ==> !Precedes(a, b)
  }

  lemma FilterSingle(y: ChatItem, p: ChatItem -> bool)
    ensures Filter([y], p) == if p(y) then [y] else []
  {
    assert [y][1..] == [];
  }

  /** Inserting a chat puts it ahead of every chat it ties with, and does not reorder the others. */
  lemma {:induction false} InsertStable(x: ChatItem, s: seq<ChatItem>, p: ChatItem -> bool)
    requires SelectsTies(p)
    ensures Filter(Insert(x, s), p) == (if p(x) then [x] else []) + Filter(s, p)
  {
    if s == [] {
      FilterSingle(x, p);
    } else {
      var h, t := s[0], s[1..];
      assert s == [h] + t;
      if Precedes(h, x) {
        InsertStable(x, t, p);
        TiesExclude(h, x, p);
        SkipPast(x, h, t, Insert(x, t), p);
      } else {
        FilterCons(x, s, p);
      }
    }
  }

  /** A chat that goes strictly before another is not selected together with it by a tie test. */
  lemma TiesExclude(h: ChatItem, x: ChatItem, p: ChatItem -> bool)
    requires SelectsTies(p)
    requires Precedes(h, x)
    ensures !(p(h) && p(x))
  {
  }

  lemma FilterCons(h: ChatItem, t: seq<ChatItem>, p: ChatItem -> bool)
    ensures Filter([h] + t, p) == (if p(h) then [h] else []) + Filter(t, p)
  {
    assert ([h] + t)[0] == h;
    assert ([h] + t)[1..] == t;
  }

  /** The step of `InsertStable` where `x` moves past the head `h`, which it does not tie with. */
  lemma SkipPast(x: ChatItem, h: ChatItem, t: seq<ChatItem>, ins: seq<ChatItem>, p: ChatItem -> bool)
    requires !(p(h) && p(x))
    requires Filter(ins, p) == (if p(x) then [x] else []) + Filter(t, p)
    ensures Filter([h] + ins, p) == (if p(x) then [x] else []) + Filter([h] + t, p)
  {
    FilterCons(h, ins, p);
    FilterCons(h, t, p);
    SwapEmpty(if p(h) then [h] else [], if p(x) then [x] else [], Filter(t, p));
  }

  /** Two pieces of which one is empty can be swapped. */
  lemma SwapEmpty(a: seq<ChatItem>, b: seq<ChatItem>, c: seq<ChatItem>)
    requires a == [] || b == []
    ensures a + (b + c) == b + (a + c)
  {
    if a == [] { assert a + (b + c) == b + c; assert a + c == c; }
    else { assert b + c == c; assert b + (a + c) == a + c; }
  }

  /** The sort is stable on ties: the chats of one tie class come out in their input order. */
  lemma {:induction false} SortStable(s: seq<ChatItem>, p: ChatItem -> bool)
    requires SelectsTies(p)
    ensures Filter(SortChats(s), p) == Filter(s, p)
  {
    if s != [] {
      SortStable(s[1..], p);
      InsertStable(s[0], SortChats(s[1..]), p);
      assert s == [s[0]] + s[1..];
      FilterConcat([s[0]], s[1..], p);
    }
  }

  /** Chats with the same pinned flag and the same time keep their input order through the sort. */
  lemma SortKeepsClassOrder(s: seq<ChatItem>, k: ChatItem)
    ensures Filter(SortChats(s), ClassOf(k)) == Filter(s, ClassOf(k))
  {
    SortStable(s, ClassOf(k));
  }

  /** The preview update of the chat the message belongs to: its last message and time become the
      message's, and its unread count goes up by one, whoever sent the message. */
  function WithPreview(c: ChatItem, m: Message): (r: ChatItem)
    ensures r.lastMessage == Some(m.text) && r.lastMessageTime == Some(m.createdAt)
    ensures r.unreadCount == c.unreadCount + 1
    ensures r.(lastMessage := c.lastMessage, lastMessageTime := c.lastMessageTime, unreadCount := c.unreadCount) == c
  {
    c.(lastMessage := Some(m.text), lastMessageTime := Some(m.createdAt), unreadCount := c.unreadCount + 1)
  }

  /** `updateChatPreview`: updates the message's chat, then sorts the list. The list is rearranged and
      no chat is added or lost; the message's chat carries the preview and one more unread; every other
      chat is unchanged field for field. */
  function UpdatePreview(s: seq<ChatItem>, m: Message): (r: seq<ChatItem>)
    ensures |r| == |s|
    ensures forall c :: c in s && c.id == m.chatId ==> WithPreview(c, m) in r
    ensures forall c: ChatItem :: c.id != m.chatId ==> multiset(r)[c] == multiset(s)[c]
    ensures forall c :: c in r && c.id == m.chatId ==>
      c.lastMessage == Some(m.text) && c.lastMessageTime == Some(m.createdAt) && c.unreadCount >= 1
  {
    var f := (c: ChatItem) => WithPreview(c, m);
    var u := UpdateWhere(s, m.chatId, f);
    PreviewFacts(s, m, f, u, SortChats(u));
    SortChats(u)
  }

  /** The facts behind the contract of `UpdatePreview`, for the updated list `u` and its sort `r`. */
  lemma PreviewFacts(s: seq<ChatItem>, m: Message, f: ChatItem -> ChatItem, u: seq<ChatItem>, r: seq<ChatItem>)
    requires forall c :: f(c) == WithPreview(c, m)
    requires u == UpdateWhere(s, m.chatId, f) && r == SortChats(u)
    ensures |r| == |s|
    ensures forall c :: c in s && c.id == m.chatId ==> WithPreview(c, m) in r
    ensures forall c: ChatItem :: c.id != m.chatId ==> multiset(r)[c] == multiset(s)[c]
    ensures forall c :: c in r && c.id == m.chatId ==>
      c.lastMessage == Some(m.text) && c.lastMessageTime == Some(m.createdAt) && c.unreadCount >= 1
  {
    assert multiset(r) == multiset(u);
    assert |r| == |u| by {
      assert |multiset(r)| == |r| && |multiset(u)| == |u|;
    }
    PreviewKeepsOthers(s, m, f, u);
    PreviewTarget(s, m, f, u, r);
  }

  lemma PreviewKeepsOthers(s: seq<ChatItem>, m: Message, f: ChatItem -> ChatItem, u: seq<ChatItem>)
    requires forall c :: f(c) == WithPreview(c, m)
    requires u == UpdateWhere(s, m.chatId, f)
    ensures forall c: ChatItem :: c.id != m.chatId ==> multiset(u)[c] == multiset(s)[c]
  {
    forall c ensures f(c).id == c.id {
      assert f(c) == WithPreview(c, m);
    }
    UpdateWhereKeepsOthers(s, m.chatId, f);
  }

  lemma PreviewTarget(s: seq<ChatItem>, m: Message, f: ChatItem -> ChatItem, u: seq<ChatItem>, r: seq<ChatItem>)
    requires forall c :: f(c) == WithPreview(c, m)
    requires u == UpdateWhere(s, m.chatId, f) && multiset(r) == multiset(u)
    ensures forall c :: c in s && c.id == m.chatId ==> WithPreview(c, m) in r
    ensures forall c :: c in r && c.id == m.chatId ==>
      c.lastMessage == Some(m.text) && c.lastMessageTime == Some(m.createdAt) && c.unreadCount >= 1
  {
    forall c | c in s && c.id == m.chatId ensures WithPreview(c, m) in r {
      var i :| 0 <= i < |s| && s[i] == c;
      assert u[i] == WithPreview(c, m);
      assert u[i] in multiset(u);
    }
    forall c | c in r && c.id == m.chatId
      ensures c.lastMessage == Some(m.text) && c.lastMessageTime == Some(m.createdAt) && c.unreadCount >= 1
    {
      assert c in multiset(u);
      var i :| 0 <= i < |u| && u[i] == c;
      assert s[i].id == m.chatId;
      assert c == WithPreview(s[i], m);
    }
  }

  /** A message for a chat that is not in the list changes no field: the list is only re-sorted. */
  lemma PreviewUnknownChat(s: seq<ChatItem>, m: Message)
    requires forall c :: c in s ==> c.id != m.chatId
    ensures multiset(UpdatePreview(s, m)) == multiset(s)
  {
    var u := UpdateWhere(s, m.chatId, (c: ChatItem) => WithPreview(c, m));
    assert u == s;
  }

  /** After `updateChatPreview` every pinned chat comes before every unpinned chat, and within each group
      the newer last message comes first, provided every chat other than the message's has a time
      (a chat without one makes the comparator NaN and the order engine-dependent). */
  lemma PreviewOrdered(s: seq<ChatItem>, m: Message)
    requires forall c :: c in s && c.id != m.chatId ==> c.lastMessageTime.Some?
    ensures var r := UpdatePreview(s, m);
      && (forall i, j :: 0 <= i < j < |r| && r[j].isPinned ==> r[i].isPinned)
      && (forall i, j :: 0 <= i < j < |r| && r[i].isPinned == r[j].isPinned ==>
            r[i].lastMessageTime.Some? && r[j].lastMessageTime.Some?
            && r[i].lastMessageTime.value >= r[j].lastMessageTime.value)
  {
    var u := UpdateWhere(s, m.chatId, (c: ChatItem) => WithPreview(c, m));
    assert Timed(u) by {
      forall c | c in u ensures c.lastMessageTime.Some? {
        var i :| 0 <= i < |u| && u[i] == c;
        assert s[i] in s;
      }
    }
    SortOrdered(u);
    SortTimed(u);
    assert UpdatePreview(s, m) == SortChats(u);
    OrderedMeans(SortChats(u));
  }

  /** Sorting keeps every chat, so a list whose chats all have a time still has after the sort. */
  lemma SortTimed(s: seq<ChatItem>)
    requires Timed(s)
    ensures Timed(SortChats(s))
  {
    forall c | c in SortChats(s) ensures c.lastMessageTime.Some? {
      assert c in multiset(SortChats(s));
    }
  }

  /** In an ordered list of timed chats, pinned chats come first and each group runs newest first. */
  lemma OrderedMeans(r: seq<ChatItem>)
    requires Ordered(r) && Timed(r)
    ensures forall i, j :: 0 <= i < j < |r| && r[j].isPinned ==> r[i].isPinned
    ensures forall i, j :: 0 <= i < j < |r| && r[i].isPinned == r[j].isPinned ==>
      r[i].lastMessageTime.Some? && r[j].lastMessageTime.Some?
      && r[i].lastMessageTime.value >= r[j].lastMessageTime.value
  {
    forall i, j | 0 <= i < j < |r|
      ensures r[j].isPinned ==> r[i].isPinned
      ensures r[i].isPinned == r[j].isPinned ==> r[i].lastMessageTime.value >= r[j].lastMessageTime.value
    {
      assert r[i] in r && r[j] in r;
      assert !Precedes(r[j], r[i]);
    }
  }

  function Fixture(id: string, pinned: bool, time: int): ChatItem
  {
    ChatItem(id, id, Private, Some(""), Some(time), 0, false, pinned, false, false)
  }

  /** Chats A (pinned, time 5), B (unpinned, time 10) and C (pinned, time 1) sort as [A, C, B]. */
  lemma SortFixture()
    ensures SortChats([Fixture("A", true, 5), Fixture("B", false, 10), Fixture("C", true, 1)])
         == [Fixture("A", true, 5), Fixture("C", true, 1), Fixture("B", false, 10)]
  {
  }

  // ---------------------------------------------------------------------------
  // The screen's state cell and its handlers.
  // ---------------------------------------------------------------------------

  /** A server entry as `loadChats` stores it: a random unread count and online flag, no flags set. */
  function FromEntry(e: ChatRoutes.ChatEntry, unread: nat, online: bool): (r: ChatItem)
    ensures r.id == e.chat.id && r.name == e.chat.name && r.kind == e.chat.kind
    ensures r.lastMessage == e.lastMessage && r.lastMessageTime == e.lastMessageTime
    ensures r.unreadCount == unread && r.online == online
    ensures !r.isPinned && !r.isMuted && !r.isTyping
  {
    ChatItem(e.chat.id, e.chat.name, e.chat.kind, e.lastMessage, e.lastMessageTime, unread, online, false, false, false)
  }

  /** A freshly loaded chat shows the text and time of the last message of its server log, and neither
      when the log is empty. */
  lemma LoadedPreviewIsLastMessage(chats: seq<Chat>, messages: map<string, seq<Message>>, unread: nat, online: bool, i: int)
    requires 0 <= i < |chats|
    ensures var c := FromEntry(ChatRoutes.ChatList(chats, messages)[i], unread, online);
      var log := ChatRoutes.LogOf(messages, chats[i].id);
      && c.id == chats[i].id
      && (c.lastMessage.Some? <==> log != [])
      && (c.lastMessageTime.Some? <==> log != [])
      && (log != [] ==> c.lastMessage.value == log[|log| - 1].text && c.lastMessageTime.value == log[|log| - 1].createdAt)
  {
  }

  class ChatsScreen {
    var chats: seq<ChatItem>
    var searchQuery: string

    constructor ()
      ensures chats == [] && searchQuery == ""
    {
      chats, searchQuery := [], "";
    }

    /** `loadChats`: replaces the list with the server's chat list; `unread` and `online` are the
        random values drawn for each chat. */
    method LoadChats(entries: seq<ChatRoutes.ChatEntry>, unread: seq<nat>, online: seq<bool>)
      requires |unread| == |entries| && |online| == |entries|
      requires forall i :: 0 <= i < |unread| ==> unread[i] < 5
      modifies this
      ensures searchQuery == old(searchQuery)
      ensures |chats| == |entries|
      ensures forall i :: 0 <= i < |entries| ==> chats[i] == FromEntry(entries[i], unread[i], online[i])
    {
      chats := seq(|entries|, i requires 0 <= i < |entries| => FromEntry(entries[i], unread[i], online[i]));
    }

    /** `new_message`. */
    method OnNewMessage(m: Message)
      modifies this
      ensures chats == UpdatePreview(old(chats), m) && searchQuery == old(searchQuery)
    {
      chats := UpdatePreview(chats, m);
    }

    /** `user_typing`. */
    method OnUserTyping(chatId: string, isTyping: bool)
      modifies this
      ensures chats == SetTyping(old(chats), chatId, isTyping) && searchQuery == old(searchQuery)
    {
      chats := SetTyping(chats, chatId, isTyping);
    }

    method HandlePin(chatId: string)
      modifies this
      ensures chats == TogglePin(old(chats), chatId) && searchQuery == old(searchQuery)
    {
      chats := TogglePin(chats, chatId);
    }

    method HandleMute(chatId: string)
      modifies this
      ensures chats == ToggleMute(old(chats), chatId) && searchQuery == old(searchQuery)
    {
      chats := ToggleMute(chats, chatId);
    }

    method HandleDelete(chatId: string)
      modifies this
      ensures chats == Remove(old(chats), chatId) && searchQuery == old(searchQuery)
    {
      chats := Remove(chats, chatId);
    }

    method SetSearchQuery(query: string)
      modifies this
      ensures searchQuery == query && chats == old(chats)
    {
      searchQuery := query;
    }

    /** What the list shows: the chats that match the search query. */
    function FilteredChats(): (r: seq<ChatItem>)
      reads this
      ensures forall c :: c in r <==> c in chats && Matches(c, searchQuery)
    {
      Search(chats, searchQuery)
    }
  }
}
