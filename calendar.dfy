/** The farm calendar page: the farm events and their notifications, both
    kept in localStorage (`calendarEvents_v2`, `calendarNotifications_v1`)
    and mirrored in page state, the notification engine that runs every
    minute, the yearly produce totals and the monthly advice. */
module Calendar {
  import opened Wrappers
  import opened Lists
  import opened Text
  import opened Store

  datatype EType = Plant | Prune | Fertilize | Water | Harvest | Spray

  /** A calendar entry. `etype`, the two amounts and the note live in the
      optional `extendedProps`; a missing property is `None`. */
  datatype FarmEvent = FarmEvent(
    id: string,
    title: string,
    start: string,
    end: Option<string>,
    etype: Option<EType>,
    fertilizerKg: Option<real>,
    harvestKg: Option<real>,
    note: Option<string>)

  /** A notification "today: <event>" for one event on one day. */
  datatype NotiItem = NotiItem(
    id: string,
    eventId: Option<string>,
    title: string,
    dueDate: string,
    createdAt: int,
    read: bool)

  /** The events shown before anything is stored. */
  const InitialEvents: seq<FarmEvent> := [
    FarmEvent("1", "🌱 ปลูกลำไย", "2025-01-07", None, Some(Plant), None, None, None),
    FarmEvent("2", "✂️ ตัดแต่งกิ่ง", "2025-02-10", None, Some(Prune), None, None, None),
    FarmEvent("3", "🍂 ใส่ปุ๋ย 50 กก.", "2025-03-14", None, Some(Fertilize), Some(50.0), None, None),
    FarmEvent("4", "💧 รดน้ำต้นไม้", "2025-05-20", None, Some(Water), None, None, None),
    FarmEvent("5", "🌾 เก็บเกี่ยวลำไย 1200 กก.", "2025-10-05", None, Some(Harvest), None, Some(1200.0), None)
  ]

  // ---------------------------------------------------------------- titles

  function EmojiOf(t: EType): string {
    match t
    case Plant => "🌱"
    case Prune => "✂️"
    case Fertilize => "🍂"
    case Water => "💧"
    case Harvest => "🌾"
    case Spray => "🚁"
  }

  function DefaultName(t: EType): string {
    match t
    case Plant => "ปลูกลำไย"
    case Prune => "ตัดแต่งกิ่ง"
    case Fertilize => "ใส่ปุ๋ย"
    case Water => "รดน้ำต้นไม้"
    case Harvest => "เก็บเกี่ยวลำไย"
    case Spray => "พ่นโดรน"
  }

  /** JavaScript truthiness of an optional amount: present and not zero. */
  predicate IsTruthy(kg: Option<real>) {
    kg.Some? && kg.value != 0.0
  }

  /** `base || fallback`. */
  function OrElse(base: string, fallback: string): (r: string)
    ensures r != "" <== fallback != ""
    ensures base != "" ==> r == base
  {
    if base != "" then base else fallback
  }

  /** `s.endsWith(suffix)`. */
  predicate HasSuffix(s: string, suffix: string) {
    |suffix| <= |s| && s[|s| - |suffix|..] == suffix
  }

  /** `buildTitle`: the type's emoji, a space and a name, which is the typed
      text or else the type's default name (the fallbacks written out for
      fertilize and harvest are those default names); a fertilize or harvest
      entry with a non-zero amount then adds that amount in kilograms,
      rendered by `show`, and every other entry ends with its name. */
  function BuildTitle(t: EType, base: string, fert: Option<real>, hv: Option<real>, show: real -> string): (r: string)
    ensures HasPrefix(r, EmojiOf(t) + " " + OrElse(base, DefaultName(t)))
    ensures t == Fertilize && IsTruthy(fert) ==> HasSuffix(r, " " + show(fert.value) + " กก.")
    ensures t == Harvest && IsTruthy(hv) ==> HasSuffix(r, " " + show(hv.value) + " กก.")
    ensures t == Fertilize && IsTruthy(fert) ==>
      r == EmojiOf(t) + " " + OrElse(base, DefaultName(t)) + " " + show(fert.value) + " กก."
    ensures t == Harvest && IsTruthy(hv) ==>
      r == EmojiOf(t) + " " + OrElse(base, DefaultName(t)) + " " + show(hv.value) + " กก."
    ensures !(t == Fertilize && IsTruthy(fert)) && !(t == Harvest && IsTruthy(hv)) ==>
      r == EmojiOf(t) + " " + OrElse(base, DefaultName(t))
  {
    var prefix := EmojiOf(t) + " " + OrElse(base, DefaultName(t));
    var r := if t == Fertilize && IsTruthy(fert) then EmojiOf(t) + " " + OrElse(base, "ใส่ปุ๋ย") + (" " + show(fert.value) + " กก.")
      else if t == Harvest && IsTruthy(hv) then EmojiOf(t) + " " + OrElse(base, "เก็บเกี่ยวลำไย") + (" " + show(hv.value) + " กก.")
      else prefix;
    assert r[..|prefix|] == prefix;
    r
  }

  /** An amount of zero is not shown: the title is the one without amounts. */
  lemma ZeroAmountNotShown(t: EType, base: string, show: real -> string)
    ensures BuildTitle(t, base, Some(0.0), Some(0.0), show) == BuildTitle(t, base, None, None, show)
  {
  }

  // ---------------------------------------------------------------- dates

  /** `ymd`: year, month (counted from 0 as `getMonth` does) and day as
      `YYYY-MM-DD`, month and day padded to two digits. */
  function Ymd(year: nat, month0: nat, day: nat): string {
    NatToString(year) + "-" + Pad2(month0 + 1) + "-" + Pad2(day)
  }

  /** The three fields can be read back off a `ymd` key: the year before
      the second-last dash, then two digits of month (from 1) and two of
      day. */
  lemma YmdFields(year: nat, month0: nat, day: nat)
    requires month0 < 12 && day < 100
    ensures var r := Ymd(year, month0, day);
      |r| >= 6 && r[|r| - 6] == '-' && r[|r| - 3] == '-'
      && r[..|r| - 6] == NatToString(year)
      && r[|r| - 5..|r| - 3] == Pad2(month0 + 1) && DecimalValue(Pad2(month0 + 1)) == month0 + 1
      && r[|r| - 2..] == Pad2(day) && DecimalValue(Pad2(day)) == day
  {
    var y := NatToString(year);
    var m := Pad2(month0 + 1);
    var d := Pad2(day);
    Pad2RoundTrip(month0 + 1);
    Pad2RoundTrip(day);
    var r := y + "-" + m + "-" + d;
    assert r[|r| - 5..|r| - 3] == m;
    assert r[|r| - 2..] == d;
    assert r[..|r| - 6] == y;
  }

  /** Distinct dates give distinct day keys. */
  lemma YmdInjective(y1: nat, m1: nat, d1: nat, y2: nat, m2: nat, d2: nat)
    requires m1 < 12 && d1 < 100 && m2 < 12 && d2 < 100
    requires Ymd(y1, m1, d1) == Ymd(y2, m2, d2)
    ensures y1 == y2 && m1 == m2 && d1 == d2
  {
    YmdFields(y1, m1, d1);
    YmdFields(y2, m2, d2);
    NatToStringRoundTrip(y1);
    NatToStringRoundTrip(y2);
  }

  // ---------------------------------------------------------------- notification engine

  /** The key under which a notification is recognised: `${eventId}-${dueDate}`
      (a missing event id prints as `undefined`). */
  function NotiKey(n: NotiItem): string {
    n.eventId.GetOr("undefined") + "-" + n.dueDate
  }

  /** The key an event has on `day`: `${id}-${day}`. */
  function EventKey(e: FarmEvent, day: string): string {
    e.id + "-" + day
  }

  /** The keys of the stored notifications. */
  function Keys(ns: seq<NotiItem>): (r: set<string>)
    ensures forall i :: 0 <= i < |ns| ==> NotiKey(ns[i]) in r
  {
    set n | n in ns :: NotiKey(n)
  }

  /** Events whose start falls on `today`; `dayOf` stands for
      `ymd(new Date(start))`. */
  function IsToday(today: string, dayOf: string -> string): FarmEvent -> bool {
    (e: FarmEvent) => dayOf(e.start) == today
  }

  /** Events of today that have no notification under their key yet. */
  function Unannounced(existing: set<string>, today: string): FarmEvent -> bool {
    (e: FarmEvent) => EventKey(e, today) !in existing
  }

  /** The notification created for event `e` on `today`. */
  function TodayNotice(e: FarmEvent, today: string, createdAt: int, id: string): (n: NotiItem)
    ensures NotiKey(n) == EventKey(e, today)
  {
    NotiItem(id, Some(e.id), "วันนี้: " + e.title, today, createdAt, false)
  }

  /** The notifications one tick creates, in the order of `todays`: one per
      event whose key is not in `existing`, the `k`-th of them with id
      `nonce(k)` and creation time `clock(k)`, since each reads the clock
      itself. */
  function NewOnes(todays: seq<FarmEvent>, existing: set<string>, today: string, clock: nat -> int, nonce: nat -> string): seq<NotiItem>
    decreases |todays|
  {
    if todays == [] then []
    else
      var pre := NewOnes(todays[..|todays| - 1], existing, today, clock, nonce);
      var e := todays[|todays| - 1];
      if EventKey(e, today) in existing then pre else pre + [TodayNotice(e, today, clock(|pre|), nonce(|pre|))]
  }

  /** One more event of the day extends the new notifications by at most
      its own. */
  lemma NewOnesSnoc(seen: seq<FarmEvent>, e: FarmEvent, existing: set<string>, today: string, clock: nat -> int, nonce: nat -> string)
    ensures NewOnes(seen + [e], existing, today, clock, nonce) ==
      (var pre := NewOnes(seen, existing, today, clock, nonce);
       if EventKey(e, today) in existing then pre else pre + [TodayNotice(e, today, clock(|pre|), nonce(|pre|))])
  {
    assert (seen + [e])[..|seen|] == seen;
  }

  /** `r` is the list of notifications announcing `unseen`, one each, in
      order, the `i`-th with id `nonce(i)` and creation time `clock(i)`. */
  predicate Announces(r: seq<NotiItem>, unseen: seq<FarmEvent>, today: string, clock: nat -> int, nonce: nat -> string) {
    |r| == |unseen|
    && forall i :: 0 <= i < |r| ==> r[i] == TodayNotice(unseen[i], today, clock(i), nonce(i))
  }

  lemma AnnouncesStep(r: seq<NotiItem>, unseen: seq<FarmEvent>, e: FarmEvent, today: string, clock: nat -> int, nonce: nat -> string)
    requires Announces(r, unseen, today, clock, nonce)
    ensures Announces(r + [TodayNotice(e, today, clock(|r|), nonce(|r|))], unseen + [e], today, clock, nonce)
  {
  }

  /** What a tick creates: for each of today's events without a
      notification under its key, in order, an unread notification due
      today, pointing at that event and titled after it. */
  lemma {:induction false} NewOnesContent(todays: seq<FarmEvent>, existing: set<string>, today: string, clock: nat -> int, nonce: nat -> string)
    ensures Announces(NewOnes(todays, existing, today, clock, nonce), Filter(todays, Unannounced(existing, today)), today, clock, nonce)
    decreases |todays|
  {
    if todays != [] {
      var front := todays[..|todays| - 1];
      var e := todays[|todays| - 1];
      assert todays == front + [e];
      NewOnesContent(front, existing, today, clock, nonce);
      FilterAppend(front, [e], Unannounced(existing, today));
      var pre := NewOnes(front, existing, today, clock, nonce);
      var unseenFront := Filter(front, Unannounced(existing, today));
      if EventKey(e, today) in existing {
        assert Filter([e], Unannounced(existing, today)) == [];
        assert Filter(todays, Unannounced(existing, today)) == unseenFront;
      } else {
        assert Filter([e], Unannounced(existing, today)) == [e];
        assert Filter(todays, Unannounced(existing, today)) == unseenFront + [e];
        AnnouncesStep(pre, unseenFront, e, today, clock, nonce);
      }
    }
  }

  /** A tick only creates notifications under keys that were not there, and
      afterwards every one of today's events has its key present. */
  lemma NewOnesKeys(todays: seq<FarmEvent>, existing: set<string>, today: string, clock: nat -> int, nonce: nat -> string)
    ensures forall n :: n in NewOnes(todays, existing, today, clock, nonce) ==> NotiKey(n) !in existing
    ensures forall j :: 0 <= j < |todays| ==>
      EventKey(todays[j], today) in existing + Keys(NewOnes(todays, existing, today, clock, nonce))
  {
    var r := NewOnes(todays, existing, today, clock, nonce);
    var unseen := Filter(todays, Unannounced(existing, today));
    NewOnesContent(todays, existing, today, clock, nonce);
    forall n | n in r
      ensures NotiKey(n) !in existing
    {
      var i :| 0 <= i < |r| && r[i] == n;
      assert unseen[i] in unseen;
    }
    forall j | 0 <= j < |todays|
      ensures EventKey(todays[j], today) in existing + Keys(r)
    {
      if EventKey(todays[j], today) !in existing {
        assert todays[j] in unseen;
        var i :| 0 <= i < |unseen| && unseen[i] == todays[j];
        assert NotiKey(r[i]) == EventKey(todays[j], today);
      }
    }
  }

  /** A second tick on the same day with the same events finds every key
      present and creates nothing. */
  lemma TickIdempotent(todays: seq<FarmEvent>, ns: seq<NotiItem>, today: string, clock: nat -> int, later: nat -> int, nonce: nat -> string, nonce2: nat -> string)
    ensures NewOnes(todays, Keys(NewOnes(todays, Keys(ns), today, clock, nonce) + ns), today, later, nonce2) == []
  {
    var added := NewOnes(todays, Keys(ns), today, clock, nonce);
    var existing := Keys(added + ns);
    NewOnesKeys(todays, Keys(ns), today, clock, nonce);
    forall j | 0 <= j < |todays|
      ensures !Unannounced(existing, today)(todays[j])
    {
      var k := EventKey(todays[j], today);
      if k in Keys(ns) {
        var n :| n in ns && NotiKey(n) == k;
        assert n in added + ns;
      } else {
        var n :| n in added && NotiKey(n) == k;
        assert n in added + ns;
      }
    }
    FilterNone(todays, Unannounced(existing, today));
    NewOnesContent(todays, existing, today, later, nonce2);
  }

  /** The loop of `tick`: walks today's events in order and makes a
      notification for each one whose key is not yet taken, numbering the
      new ones from zero. */
  method CollectNew(todays: seq<FarmEvent>, existing: set<string>, today: string, clock: nat -> int, nonce: nat -> string)
    returns (newOnes: seq<NotiItem>)
    ensures newOnes == NewOnes(todays, existing, today, clock, nonce)
  {
    newOnes := [];
    ghost var seen: seq<FarmEvent> := [];
    var i := 0;
    while i < |todays|
      invariant 0 <= i <= |todays|
      invariant seen == todays[..i]
      invariant newOnes == NewOnes(seen, existing, today, clock, nonce)
    {
      var e := todays[i];
      NewOnesSnoc(seen, e, existing, today, clock, nonce);
      if EventKey(e, today) !in existing {
        newOnes := newOnes + [TodayNotice(e, today, clock(|newOnes|), nonce(|newOnes|))];
      }
      seen := seen + [e];
      i := i + 1;
    }
    assert seen == todays;
  }

  /** The page state of the calendar. The hook writes every update straight
      back to its key, so the state and the stored value are one. */
  class Board {
    var events: seq<FarmEvent>
    var notis: seq<NotiItem>

    /** Reading both keys on mount: the stored lists, or the sample events
        and no notifications when a key is absent or unreadable. */
    constructor(storedEvents: Stored<seq<FarmEvent>>, storedNotis: Stored<seq<NotiItem>>)
      ensures events == Load(storedEvents, InitialEvents)
      ensures notis == Load(storedNotis, [])
    {
      events := Load(storedEvents, InitialEvents);
      notis := Load(storedNotis, []);
    }

    /** One run of `tick`: the notifications for today's events without
        one are put in front of the existing notifications, which follow
        unchanged; the events are not touched. */
    method Tick(today: string, dayOf: string -> string, clock: nat -> int, nonce: nat -> string)
      modifies this`notis
      ensures notis == NewOnes(Filter(events, IsToday(today, dayOf)), Keys(old(notis)), today, clock, nonce) + old(notis)
    {
      var todays := Filter(events, IsToday(today, dayOf));
      if |todays| == 0 {
        assert todays == [];
        return;
      }
      var newOnes := CollectNew(todays, Keys(notis), today, clock, nonce);
      if |newOnes| > 0 {
        notis := newOnes + notis;
      }
    }

    /** `handleDeleteEvent`: drops every event with that id. */
    method DeleteEvent(id: string)
      modifies this`events
      ensures events == WithoutEvent(old(events), id)
    {
      events := Filter(events, IdIsNot(id));
    }

    /** `handleSaveEvent`: with a picked date range, appends the event the
        form describes; without one, changes nothing. */
    method SaveEvent(range: Option<DateRange>, form: EventForm, stamp: string, show: real -> string)
      modifies this`events
      ensures range.None? ==> events == old(events)
      ensures range.Some? ==> events == old(events) + [NewEvent(range.value, form, stamp, show)]
    {
      if range.None? {
        return;
      }
      events := events + [NewEvent(range.value, form, stamp, show)];
    }

    /** The "read all" button. */
    method MarkAllRead()
      modifies this`notis
      ensures notis == Map(old(notis), MarkRead)
      ensures UnreadCount(notis) == 0
    {
      notis := Map(notis, MarkRead);
      ReadAllClearsBadge(old(notis));
    }

    /** The per-item "read" button. */
    method MarkReadById(id: string)
      modifies this`notis
      ensures notis == Map(old(notis), MarkReadIf(id))
      ensures UnreadCount(notis) == UnreadCount(old(notis)) - |Filter(old(notis), UnreadWithId(id))|
    {
      ReadOneCount(notis, id);
      notis := Map(notis, MarkReadIf(id));
    }
  }

  // ---------------------------------------------------------------- event edits

  function IdIsNot(id: string): FarmEvent -> bool {
    (e: FarmEvent) => e.id != id
  }

  /** The events without those carrying `id`, the others keeping their order. */
  function WithoutEvent(events: seq<FarmEvent>, id: string): (r: seq<FarmEvent>)
    ensures forall i :: 0 <= i < |r| ==> r[i].id != id
    ensures forall e :: e in r <==> e in events && e.id != id
    ensures (forall i :: 0 <= i < |events| ==> events[i].id != id) ==> r == events
    ensures multiset(r) <= multiset(events) && Subsequence(r, events)
  {
    var r := Filter(events, IdIsNot(id));
    assert multiset(r) <= multiset(events) && Subsequence(r, events) by {
      FilterMultiset(events, IdIsNot(id));
      FilterSubsequence(events, IdIsNot(id));
    }
    assert (forall i :: 0 <= i < |events| ==> events[i].id != id) ==> r == events by {
      if forall i :: 0 <= i < |events| ==> events[i].id != id {
        FilterAll(events, IdIsNot(id));
      }
    }
    r
  }

  /** The date or range picked on the calendar (`newEventRange`). */
  datatype DateRange = DateRange(start: string, end: Option<string>)

  /** The add-event form: the type, the typed name, the two amounts (`None`
      for an empty box) and the note. */
  datatype EventForm = EventForm(etype: EType, titleText: string, fertilizerKg: Option<real>, harvestKg: Option<real>, note: string)

  /** The event `handleSaveEvent` builds: id from the clock, the built
      title, the picked range, an amount only for its own type (an empty box
      counts as 0), and the note only when one was typed. */
  function NewEvent(range: DateRange, form: EventForm, stamp: string, show: real -> string): (e: FarmEvent)
    ensures e.id == stamp && e.start == range.start && e.end == range.end
    ensures e.etype == Some(form.etype)
    ensures e.fertilizerKg.Some? <==> form.etype == Fertilize
    ensures e.harvestKg.Some? <==> form.etype == Harvest
    ensures e.fertilizerKg.Some? ==> e.fertilizerKg.value == form.fertilizerKg.GetOr(0.0)
    ensures e.harvestKg.Some? ==> e.harvestKg.value == form.harvestKg.GetOr(0.0)
    ensures e.note == None <==> form.note == ""
    ensures e.title == BuildTitle(form.etype, form.titleText, e.fertilizerKg, e.harvestKg, show)
  {
    var fert := if form.etype == Fertilize then Some(form.fertilizerKg.GetOr(0.0)) else None;
    var harv := if form.etype == Harvest then Some(form.harvestKg.GetOr(0.0)) else None;
    FarmEvent(stamp, BuildTitle(form.etype, form.titleText, fert, harv, show), range.start, range.end,
              Some(form.etype), fert, harv, if form.note != "" then Some(form.note) else None)
  }

  // ---------------------------------------------------------------- read marking

  predicate IsUnread(n: NotiItem) {
    !n.read
  }

  /** The badge: how many notifications are unread. */
  function UnreadCount(ns: seq<NotiItem>): (r: nat)
    ensures r <= |ns|
  {
    |Filter(ns, IsUnread)|
  }

  function MarkRead(n: NotiItem): NotiItem {
    n.(read := true)
  }

  function MarkReadIf(id: string): NotiItem -> NotiItem {
    (n: NotiItem) => if n.id == id then n.(read := true) else n
  }

  function UnreadWithId(id: string): NotiItem -> bool {
    (n: NotiItem) => !n.read && n.id == id
  }

  /** After marking everything read the badge is 0. */
  lemma {:induction false} ReadAllClearsBadge(ns: seq<NotiItem>)
    ensures UnreadCount(Map(ns, MarkRead)) == 0
    decreases |ns|
  {
    if ns != [] {
      assert Map(ns, MarkRead)[1..] == Map(ns[1..], MarkRead);
      ReadAllClearsBadge(ns[1..]);
    }
  }

  /** Marking one id read lowers the badge by exactly the unread entries
      with that id; the others keep their state. */
  lemma {:induction false} ReadOneCount(ns: seq<NotiItem>, id: string)
    ensures UnreadCount(Map(ns, MarkReadIf(id))) == UnreadCount(ns) - |Filter(ns, UnreadWithId(id))|
    decreases |ns|
  {
    if ns != [] {
      assert Map(ns, MarkReadIf(id))[1..] == Map(ns[1..], MarkReadIf(id));
      ReadOneCount(ns[1..], id);
    }
  }

  // ---------------------------------------------------------------- yearly totals

  datatype Produce = FertilizerKg | HarvestKg

  /** `e.extendedProps?.<kind>Kg || 0`. */
  function KgOf(e: FarmEvent, kind: Produce): real {
    (if kind == FertilizerKg then e.fertilizerKg else e.harvestKg).GetOr(0.0)
  }

  /** Events of `year`; `yearOf` stands for `new Date(start).getFullYear()`. */
  function InYear(year: int, yearOf: string -> int): FarmEvent -> bool {
    (e: FarmEvent) => yearOf(e.start) == year
  }

  /** The `reduce` behind `sumFertilizerKg` / `sumHarvestKg`, folding from
      the first event: events of other years add nothing. */
  function SumKg(events: seq<FarmEvent>, year: int, yearOf: string -> int, kind: Produce): real
    decreases |events|
  {
    if events == [] then 0.0
    else
      var acc := SumKg(events[..|events| - 1], year, yearOf, kind);
      var e := events[|events| - 1];
      if yearOf(e.start) != year then acc else acc + KgOf(e, kind)
  }

  /** The plain total of a list's amounts. */
  function TotalKg(events: seq<FarmEvent>, kind: Produce): real
    decreases |events|
  {
    if events == [] then 0.0 else KgOf(events[0], kind) + TotalKg(events[1..], kind)
  }

  lemma {:induction false} TotalKgAppend(a: seq<FarmEvent>, b: seq<FarmEvent>, kind: Produce)
    ensures TotalKg(a + b, kind) == TotalKg(a, kind) + TotalKg(b, kind)
    decreases |a|
  {
    if a == [] {
      assert a + b == b;
    } else {
      assert (a + b)[0] == a[0];
      assert (a + b)[1..] == a[1..] + b;
      TotalKgAppend(a[1..], b, kind);
    }
  }

  /** The yearly total is the total of exactly that year's events. */
  lemma {:induction false} SumKgIsYearTotal(events: seq<FarmEvent>, year: int, yearOf: string -> int, kind: Produce)
    ensures SumKg(events, year, yearOf, kind) == TotalKg(Filter(events, InYear(year, yearOf)), kind)
    decreases |events|
  {
    if events != [] {
      var front := events[..|events| - 1];
      var e := events[|events| - 1];
      assert events == front + [e];
      SumKgIsYearTotal(front, year, yearOf, kind);
      FilterAppend(front, [e], InYear(year, yearOf));
      TotalKgAppend(Filter(front, InYear(year, yearOf)), Filter([e], InYear(year, yearOf)), kind);
    }
  }

  /** Totals add up over a concatenation, so appending an event of the
      year raises the total by its amount, and one of another year not at
      all. */
  lemma SumKgAppend(a: seq<FarmEvent>, b: seq<FarmEvent>, year: int, yearOf: string -> int, kind: Produce)
    ensures SumKg(a + b, year, yearOf, kind) == SumKg(a, year, yearOf, kind) + SumKg(b, year, yearOf, kind)
  {
    SumKgIsYearTotal(a + b, year, yearOf, kind);
    SumKgIsYearTotal(a, year, yearOf, kind);
    SumKgIsYearTotal(b, year, yearOf, kind);
    FilterAppend(a, b, InYear(year, yearOf));
    TotalKgAppend(Filter(a, InYear(year, yearOf)), Filter(b, InYear(year, yearOf)), kind);
  }

  // ---------------------------------------------------------------- monthly advice

  const PruneAdvice: string := "ยังไม่มีกิจกรรมตัดแต่งกิ่งช่วงปลายฤดูหนาว แนะนำวางแผนตัดแต่งเพื่อกระตุ้นตาดอก"
  const FertilizeAdvice: string := "เดือนนี้ยังไม่มีการใส่ปุ๋ย แนะนำตรวจสภาพต้น/ดิน และคำนวณปริมาณปุ๋ยที่เหมาะสม"
  const WaterAdvice: string := "เข้าหน้าร้อน ควรรดน้ำสม่ำเสมอเพื่อลดความเครียดของต้นลำไย"
  const HarvestAdvice: string := "มีการเก็บเกี่ยวแล้ว แนะนำบันทึกผลผลิตและวิเคราะห์ต้นทุนรอบที่ผ่านมา"
  const NoAdvice: string := "ไม่มีคำแนะนำเฉพาะ แผนงานเดือนนี้ดูครบถ้วนแล้ว ✅"

  /** `monthEvents(m)`: the events of the shown year and month `m`
      (0-based); `monthOf` stands for `new Date(start).getMonth()`. */
  function MonthEvents(events: seq<FarmEvent>, year: int, m: int, yearOf: string -> int, monthOf: string -> int): seq<FarmEvent> {
    Filter(events, (e: FarmEvent) => yearOf(e.start) == year && monthOf(e.start) == m)
  }

  predicate HasType(list: seq<FarmEvent>, t: EType) {
    exists i :: 0 <= i < |list| && list[i].etype == Some(t)
  }

  /** `recommendationsForMonth(m)`: prune advice in months 1–2 without a
      prune event, fertilizer advice without a fertilize event, water advice
      in months 2–5 without a water event, harvest advice after a harvest
      event, in that order; and the all-clear line exactly when none
      applies, so the list is never empty. */
  method RecommendationsForMonth(events: seq<FarmEvent>, year: int, m: int, yearOf: string -> int, monthOf: string -> int)
    returns (recs: seq<string>)
    ensures recs != []
    ensures var list := MonthEvents(events, year, m, yearOf, monthOf);
      recs == (if !HasType(list, Prune) && (m == 1 || m == 2) then [PruneAdvice] else [])
        + (if !HasType(list, Fertilize) then [FertilizeAdvice] else [])
        + (if !HasType(list, Water) && 2 <= m <= 5 then [WaterAdvice] else [])
        + (if HasType(list, Harvest) then [HarvestAdvice] else [])
        + (if HasType(list, Fertilize) && !HasType(list, Harvest)
              && (HasType(list, Prune) || !(m == 1 || m == 2))
              && (HasType(list, Water) || !(2 <= m <= 5)) then [NoAdvice] else [])
  {
    var list := MonthEvents(events, year, m, yearOf, monthOf);
    var hasFert := HasType(list, Fertilize);
    var hasPrune := HasType(list, Prune);
    var hasWater := HasType(list, Water);
    recs := [];
    if !hasPrune && (m == 1 || m == 2) {
      recs := recs + [PruneAdvice];
    }
    if !hasFert {
      recs := recs + [FertilizeAdvice];
    }
    if !hasWater && (m >= 2 && m <= 5) {
      recs := recs + [WaterAdvice];
    }
    if HasType(list, Harvest) {
      recs := recs + [HarvestAdvice];
    }
    if |recs| == 0 {
      recs := recs + [NoAdvice];
    }
  }
}
