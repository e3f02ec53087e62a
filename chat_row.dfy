/** One row of the chat list: the time label with its age buckets, the unread badge and the
    footer text (src/components/SwipeableChat.js). Instants are milliseconds since the epoch. */
module ChatRow {
  import opened Common
  import ChatList

  const DayMs: int := 86400000
  const WeekMs: int := 604800000

  // ---------------------------------------------------------------------------
  // `formatTime`
  // ---------------------------------------------------------------------------

  /** The weekday abbreviations, indexed by `getDay()` (0 is Sunday). */
  const WeekdayNames: seq<string> := ["Вс", "Пн", "Вт", "Ср", "Чт", "Пт", "Сб"]

  /** The time label; the locale formatting of the time of day and of the date is not modelled,
      so those two carry the instant. */
  datatype TimeLabel =
    | NoTime
    | TimeOfDay(at: int)
    | Weekday(name: string)
    | DayMonth(at: int)

  /** `getDay()` of the instant `at` in a time zone `offsetMs` ahead of UTC: the epoch day was a Thursday. */
  function WeekdayIndex(at: int, offsetMs: int): (d: nat)
    ensures d < |WeekdayNames|
  {
    ((at + offsetMs) / DayMs + 4) % 7
  }

  /** A day later is the next weekday. */
  lemma NextDayNextWeekday(at: int, offsetMs: int)
    ensures WeekdayIndex(at + DayMs, offsetMs) == (WeekdayIndex(at, offsetMs) + 1) % 7
  {
    var q := (at + offsetMs) / DayMs;
    assert (at + DayMs + offsetMs) / DayMs == q + 1 by {
      assert at + DayMs + offsetMs == (q + 1) * DayMs + (at + offsetMs) % DayMs;
    }
  }

  /** `formatTime(timestamp)` at the instant `now`: nothing for an absent timestamp; otherwise the time of
      day when less than a day old (a timestamp in the future included), the weekday when less than a
      week old, and the date beyond that. */
  function FormatTime(timestamp: Option<int>, now: int, offsetMs: int): (r: TimeLabel)
    ensures r.NoTime? <==> timestamp.None?
    ensures r.TimeOfDay? <==> timestamp.Some? && now - timestamp.value < DayMs
    ensures r.Weekday? <==> timestamp.Some? && DayMs <= now - timestamp.value < WeekMs
    ensures r.DayMonth? <==> timestamp.Some? && WeekMs <= now - timestamp.value
    ensures r.TimeOfDay? || r.DayMonth? ==> r.at == timestamp.value
    ensures r.Weekday? ==> r.name == WeekdayNames[WeekdayIndex(timestamp.value, offsetMs)]
  {
    match timestamp
    case None => NoTime
    case Some(at) =>
      var diff := now - at;
      if diff < DayMs then TimeOfDay(at)
      else if diff < WeekMs then Weekday(WeekdayNames[WeekdayIndex(at, offsetMs)])
      else DayMonth(at)
  }

  /** How coarse a label is: the time of day is the finest. */
  function Coarseness(l: TimeLabel): nat
  {
    match l
    case NoTime => 0
    case TimeOfDay(_) => 1
    case Weekday(_) => 2
    case DayMonth(_) => 3
  }

  /** An older message never gets a finer label than a newer one. */
  lemma OlderIsCoarser(older: int, newer: int, now: int, offsetMs: int)
    requires older <= newer
    ensures Coarseness(FormatTime(Some(older), now, offsetMs)) >= Coarseness(FormatTime(Some(newer), now, offsetMs))
  {
  }

  /** Three UTC days after the epoch, a message a few days old is labelled Sunday. */
  lemma SundayLabel()
    ensures FormatTime(Some(3 * DayMs), 5 * DayMs, 0) == Weekday("Вс")
  {
    assert WeekdayIndex(3 * DayMs, 0) == 0;
  }

  // ---------------------------------------------------------------------------
  // The unread badge.
  // ---------------------------------------------------------------------------

  function DigitChar(d: nat): char
    requires d < 10
  {
    "0123456789"[d]
  }

  /** The decimal digits of `n`, as JavaScript prints a non-negative integer. */
  function NatToString(n: nat): (s: string)
    ensures 1 <= |s|
    ensures forall i :: 0 <= i < |s| ==> '0' <= s[i] <= '9'
    ensures |s| > 1 ==> s[0] != '0'
    decreases n
  {
    if n < 10 then [DigitChar(n)] else NatToString(n / 10) + [DigitChar(n % 10)]
  }

  /** Reads decimal digits back into a number. */
  function ParseNat(s: string): nat
    requires forall i :: 0 <= i < |s| ==> '0' <= s[i] <= '9'
  {
    if s == [] then 0 else 10 * ParseNat(s[..|s| - 1]) + (s[|s| - 1] - '0') as nat
  }

  /** The printed count reads back as the count. */
  lemma {:induction false} ParsePrinted(n: nat)
    ensures ParseNat(NatToString(n)) == n
    decreases n
  {
    var s := NatToString(n);
    if n >= 10 {
      var t, d := NatToString(n / 10), DigitChar(n % 10);
      assert s == t + [d];
      assert s[..|s| - 1] == t && s[|s| - 1] == d;
      ParsePrinted(n / 10);
      DigitValue(n % 10);
    } else {
      assert s == [DigitChar(n)] && s[..0] == [];
      DigitValue(n);
    }
  }

  /** A digit character reads back as its value. */
  lemma DigitValue(d: nat)
    requires d < 10
    ensures (DigitChar(d) - '0') as nat == d
  {
  }

  /** The badge: absent for no unread messages, "99+" above 99, and the count itself otherwise. */
  function Badge(unreadCount: nat): (r: Option<string>)
    ensures r.None? <==> unreadCount == 0
    ensures r.Some? ==> (r.value == "99+" <==> unreadCount > 99)
    ensures r.Some? && unreadCount <= 99 ==> ParseNat(NatToString(unreadCount)) == unreadCount && r.value == NatToString(unreadCount)
  {
    if unreadCount == 0 then None
    else if unreadCount > 99 then Some("99+")
    else (ParsePrinted(unreadCount); Some(NatToString(unreadCount)))
  }

  /** The badge never takes more than three characters. */
  lemma BadgeFits(unreadCount: nat)
    ensures Badge(unreadCount).Some? ==> |Badge(unreadCount).value| <= 3
  {
    if 10 <= unreadCount <= 99 {
      assert NatToString(unreadCount) == NatToString(unreadCount / 10) + [DigitChar(unreadCount % 10)];
    }
  }

  // ---------------------------------------------------------------------------
  // The footer and the whole row.
  // ---------------------------------------------------------------------------

  const TypingText: string := "печатает..."
  const NoMessagesText: string := "Нет сообщений"

  /** The footer: the typing notice while the other side types, else the last message, else the
      placeholder (an empty last message counts as none). */
  function FooterText(isTyping: bool, lastMessage: Option<string>): (r: string)
    ensures isTyping ==> r == TypingText
    ensures !isTyping && Truthy(lastMessage) ==> r == lastMessage.value
    ensures !isTyping && !Truthy(lastMessage) ==> r == NoMessagesText
    ensures r != ""
  {
    if isTyping then TypingText else if Truthy(lastMessage) then lastMessage.value else NoMessagesText
  }

  /** What a row shows, rendering aside. */
  datatype RowView = RowView(
    name: string,
    pinnedBar: bool,
    onlineDot: bool,
    mutedIcon: bool,
    time: Option<TimeLabel>,
    footer: string,
    badge: Option<string>,
    badgeMuted: bool)

  /** The row of a chat at the instant `now`. */
  function Row(c: ChatList.ChatItem, now: int, offsetMs: int): (r: RowView)
    ensures r.time.Some? <==> c.lastMessageTime.Some?
    ensures r.time.Some? ==> r.time.value != NoTime
    ensures r.badge.Some? <==> c.unreadCount > 0
    ensures r.footer == FooterText(c.isTyping, c.lastMessage)
    ensures r.pinnedBar == c.isPinned && r.onlineDot == c.online && r.mutedIcon == c.isMuted && r.badgeMuted == c.isMuted
  {
    RowView(
      c.name, c.isPinned, c.online, c.isMuted,
      if c.lastMessageTime.Some? then Some(FormatTime(c.lastMessageTime, now, offsetMs)) else None,
      FooterText(c.isTyping, c.lastMessage),
      Badge(c.unreadCount),
      c.isMuted)
  }
}
