/** The provider's slot page: the slot calendar (`provider_slots`), the
    booking inbox (`incoming_bookings`), and the responses it sends back to
    the farmer (`alerts_current`) and to the provider's own notification
    list (`provider_notifications`). */
module ProviderSlots {
  import opened Wrappers
  import opened Lists
  import opened Text
  import opened Records
  import opened Store
  import opened Notices

  /** Appended to every clock time shown in a notification or alert. */
  const TodaySuffix: string := " วันนี้"
  /** Appended to a date before the browser parses it, so it reads as local midnight. */
  const Midnight: string := "T00:00:00"

  // ----- notifications -----

  /** The notification `pushProviderNoti` creates; `stamp` is the decimal
      form of the current time in milliseconds, `clock` its "HH:MM" rendering. */
  function ProviderNotice(stamp: string, clock: string, message: string, kind: string, link: Option<string>): ProviderNoti {
    ProviderNoti("noti_" + stamp, message, clock + TodaySuffix, link, Some(kind), Some(true))
  }

  /** `pushProviderNoti`: puts a new unread notification in front of the stored list. */
  method PushProviderNoti(st: LocalStore, stamp: string, clock: string, message: string, kind: string, link: Option<string>)
    modifies st`providerNotifications
    ensures st.providerNotifications == Present([ProviderNotice(stamp, clock, message, kind, link)] + Load(old(st.providerNotifications), []))
  {
    var list := Load(st.providerNotifications, []);
    st.providerNotifications := Present([ProviderNotice(stamp, clock, message, kind, link)] + list);
  }

  /** A pushed notification always raises the provider's badge by one. */
  lemma PushRaisesBadge(stamp: string, clock: string, message: string, kind: string, link: Option<string>, ns: seq<ProviderNoti>)
    ensures UnreadCount([ProviderNotice(stamp, clock, message, kind, link)] + ns) == UnreadCount(ns) + 1
  {
    PushUnreadCount(ProviderNotice(stamp, clock, message, kind, link), ns);
  }

  // ----- slots -----

  /** Data from the old format names a weekday and no date. */
  predicate NeedsMigration(raw: seq<Slot>) {
    |raw| > 0 && raw[0].day != "" && raw[0].date == ""
  }

  /** One old-format slot, dated `date`. */
  function MigrateSlot(s: Slot, date: string): Slot {
    Slot(date, "", s.start, s.end, Some(s.isBooked.GetOr(false)))
  }

  /** Every old-format slot becomes a slot with the same hours, dated by the
      clock as read for it (`dateAt(i)` for the slot at position `i`, since
      the map callback reads the clock once per slot); the booked flag is
      made explicit and keeps its meaning. */
  function Migrate(raw: seq<Slot>, dateAt: nat -> string): (r: seq<Slot>)
    ensures |r| == |raw|
    ensures forall i :: 0 <= i < |r| ==>
      r[i].date == dateAt(i) && r[i].day == "" && r[i].start == raw[i].start && r[i].end == raw[i].end
      && r[i].isBooked == Some(!IsFree(raw[i]))
    ensures !NeedsMigration(r)
  {
    var r := seq(|raw|, i requires 0 <= i < |raw| => MigrateSlot(raw[i], dateAt(i)));
    assert forall i :: 0 <= i < |r| ==> r[i].isBooked == Some(!IsFree(raw[i])) by {
      forall i | 0 <= i < |r| ensures r[i].isBooked == Some(!IsFree(raw[i])) {
        assert r[i] == MigrateSlot(raw[i], dateAt(i));
        if raw[i].isBooked.Some? {
          assert raw[i].isBooked.GetOr(false) == raw[i].isBooked.value;
        }
      }
    }
    r
  }

  /** Migration neither books nor frees a slot, whatever the dates. */
  lemma MigrateKeepsFreeCount(raw: seq<Slot>, dateAt: nat -> string)
    ensures |Filter(Migrate(raw, dateAt), IsFree)| == |Filter(raw, IsFree)|
  {
    FilterCountPointwise(Migrate(raw, dateAt), raw, IsFree, IsFree);
  }

  /** The page's initial slot list: migrated and written back when the data
      is in the old format, read as it is otherwise. */
  method LoadSlots(st: LocalStore, dateAt: nat -> string) returns (slots: seq<Slot>)
    modifies st`providerSlots
    ensures var raw := Load(old(st.providerSlots), []);
      if NeedsMigration(raw) then slots == Migrate(raw, dateAt) && st.providerSlots == Present(slots)
      else slots == raw && st.providerSlots == old(st.providerSlots)
  {
    var raw := Load(st.providerSlots, []);
    if NeedsMigration(raw) {
      slots := Migrate(raw, dateAt);
      st.providerSlots := Present(slots);
    } else {
      slots := raw;
    }
  }

  /** The guards of `addRangeSlots`: both dates given and parseable, the
      range not reversed, and the start time strictly before the end time as
      strings. `parse` is the browser's date parser, giving a day number. */
  predicate RangeAccepted(startDateISO: string, startTime: string, endDateISO: string, endTime: string,
                          parse: string -> Option<int>) {
    startDateISO != "" && endDateISO != ""
    && parse(startDateISO + Midnight).Some? && parse(endDateISO + Midnight).Some?
    && parse(startDateISO + Midnight).value <= parse(endDateISO + Midnight).value
    && StrLess(startTime, endTime)
  }

  /** For times the time inputs produce, the string guard is the time order. */
  lemma RangeGuardIsTimeOrder(startDateISO: string, startTime: string, endDateISO: string, endTime: string,
                              parse: string -> Option<int>)
    requires IsClockTime(startTime) && IsClockTime(endTime)
    requires RangeAccepted(startDateISO, startTime, endDateISO, endTime, parse)
    ensures MinutesOf(startTime) < MinutesOf(endTime)
  {
    ClockStrLessIsTimeOrder(startTime, endTime);
  }

  function FreeSlot(date: string, start: string, end: string): Slot {
    Slot(date, "", start, end, Some(false))
  }

  /** `addRangeSlots`: one free slot per day from the start date to the end
      date inclusive, all with the same hours, appended after the existing
      slots. A rejected range changes nothing. `dateOf` renders a day number
      as the date the slot is stored under. */
  method AddRangeSlots(st: LocalStore, startDateISO: string, startTime: string, endDateISO: string, endTime: string,
                       parse: string -> Option<int>, dateOf: int -> string)
    modifies st`providerSlots
    ensures !RangeAccepted(startDateISO, startTime, endDateISO, endTime, parse) ==> st.providerSlots == old(st.providerSlots)
    ensures RangeAccepted(startDateISO, startTime, endDateISO, endTime, parse) ==>
      var prev := Load(old(st.providerSlots), []);
      var first := parse(startDateISO + Midnight).value;
      var last := parse(endDateISO + Midnight).value;
      st.providerSlots.Present?
      && |st.providerSlots.value| == |prev| + (last - first + 1)
      && st.providerSlots.value[..|prev|] == prev
      && forall k :: |prev| <= k < |st.providerSlots.value| ==>
           st.providerSlots.value[k] == FreeSlot(dateOf(first + (k - |prev|)), startTime, endTime)
  {
    if startDateISO == "" || endDateISO == "" {
      return;
    }
    var startDate := parse(startDateISO + Midnight);
    var endDate := parse(endDateISO + Midnight);
    if startDate.None? || endDate.None? {
      return;
    }
    if endDate.value < startDate.value {
      return;
    }
    if !StrLess(startTime, endTime) {
      return;
    }
    var newSlots: seq<Slot> := [];
    var d := startDate.value;
    while d <= endDate.value
      invariant startDate.value <= d <= endDate.value + 1
      invariant |newSlots| == d - startDate.value
      invariant forall k :: 0 <= k < |newSlots| ==> newSlots[k] == FreeSlot(dateOf(startDate.value + k), startTime, endTime)
      decreases endDate.value - d
    {
      newSlots := newSlots + [FreeSlot(dateOf(d), startTime, endTime)];
      d := d + 1;
    }
    var prev := Load(st.providerSlots, []);
    st.providerSlots := Present(prev + newSlots);
  }

  /** The delete button: removes the slot at `index` and nothing else. */
  method DeleteSlot(st: LocalStore, index: int)
    modifies st`providerSlots
    ensures st.providerSlots == Present(DropIndex(Load(old(st.providerSlots), []), index))
  {
    st.providerSlots := Present(DropIndex(Load(st.providerSlots, []), index));
  }

  /** Deleting a free slot leaves one free slot fewer; deleting a booked one,
      or a position that does not exist, leaves the free count as it was. */
  lemma DeleteFreeCount(slots: seq<Slot>, index: int)
    ensures |Filter(DropIndex(slots, index), IsFree)|
      == |Filter(slots, IsFree)| - (if 0 <= index < |slots| && IsFree(slots[index]) then 1 else 0)
  {
    if 0 <= index < |slots| {
      FilterDropCount(slots, index, IsFree);
    }
  }

  function MarkBooked(s: Slot): Slot {
    s.(isBooked := Some(true))
  }

  /** The "book" button: marks the slot at `index` booked. */
  method BookSlot(st: LocalStore, index: int)
    modifies st`providerSlots
    ensures st.providerSlots == Present(UpdateIndex(Load(old(st.providerSlots), []), index, MarkBooked))
  {
    st.providerSlots := Present(UpdateIndex(Load(st.providerSlots, []), index, MarkBooked));
  }

  /** Booking a free slot leaves one free slot fewer and keeps the list's
      length; booking a booked one changes no count. */
  lemma BookFreeCount(slots: seq<Slot>, index: int)
    ensures |UpdateIndex(slots, index, MarkBooked)| == |slots|
    ensures |Filter(UpdateIndex(slots, index, MarkBooked), IsFree)|
      == |Filter(slots, IsFree)| - (if 0 <= index < |slots| && IsFree(slots[index]) then 1 else 0)
  {
    if 0 <= index < |slots| {
      FilterUpdateCount(slots, index, MarkBooked(slots[index]), IsFree);
    }
  }

  /** What accepting a booking does to the calendar: the first free slot, if
      there is one, is booked. `None` means the calendar is left as it is. */
  function BookFirstFree(slots: seq<Slot>): (r: Option<seq<Slot>>)
    ensures r.None? <==> forall j :: 0 <= j < |slots| ==> !IsFree(slots[j])
    ensures r.Some? ==> (|r.value| == |slots|
      && |Filter(r.value, IsFree)| == |Filter(slots, IsFree)| - 1)
  {
    match FindIndex(slots, IsFree)
    case None => None
    case Some(i) =>
      FilterUpdateCount(slots, i, MarkBooked(slots[i]), IsFree);
      Some(slots[i := MarkBooked(slots[i])])
  }

  /** The slot `BookFirstFree` books is the earliest free one, and no other
      slot changes. */
  lemma BookFirstFreeTakesEarliest(slots: seq<Slot>, i: nat)
    requires i < |slots| && IsFree(slots[i])
    requires forall j :: 0 <= j < i ==> !IsFree(slots[j])
    ensures BookFirstFree(slots) == Some(slots[i := MarkBooked(slots[i])])
  {
    assert FindIndex(slots, IsFree) == Some(i);
  }

  // ----- the booking inbox -----

  function WithStatus(id: string, status: BookingStatus): InboxBooking -> InboxBooking {
    (b: InboxBooking) => if b.id == id then b.(status := status) else b
  }

  /** `prev.map(b => b.id === id ? { ...b, status } : b)`: every booking with
      the id takes the new status; every other booking and every other field
      is left as it was. */
  function SetStatus(bs: seq<InboxBooking>, id: string, status: BookingStatus): (r: seq<InboxBooking>)
    ensures |r| == |bs|
    ensures forall i :: 0 <= i < |r| ==>
      r[i].id == bs[i].id && r[i].slot == bs[i].slot && r[i].createdAt == bs[i].createdAt
      && r[i].status == (if bs[i].id == id then status else bs[i].status)
  {
    Map(bs, WithStatus(id, status))
  }

  /** A response to an id the inbox does not hold changes nothing. */
  lemma SetStatusUnknownId(bs: seq<InboxBooking>, id: string, status: BookingStatus)
    requires forall i :: 0 <= i < |bs| ==> bs[i].id != id
    ensures SetStatus(bs, id, status) == bs
  {
    var r := SetStatus(bs, id, status);
    assert forall i :: 0 <= i < |bs| ==> r[i] == bs[i];
  }

  /** The later response wins: nothing keeps an accepted booking from being
      rejected afterwards, or the other way round. */
  lemma SetStatusLastWins(bs: seq<InboxBooking>, id: string, first: BookingStatus, second: BookingStatus)
    ensures SetStatus(SetStatus(bs, id, first), id, second) == SetStatus(bs, id, second)
  {
    var a := SetStatus(SetStatus(bs, id, first), id, second);
    var b := SetStatus(bs, id, second);
    assert forall i :: 0 <= i < |bs| ==> a[i] == b[i];
  }

  predicate IsPending(b: InboxBooking) {
    b.status == Pending
  }

  /** The requests still shown with accept and reject buttons. */
  function PendingList(bs: seq<InboxBooking>): (r: seq<InboxBooking>)
    ensures forall i :: 0 <= i < |r| ==> r[i] in bs && r[i].status == Pending
    ensures forall i :: 0 <= i < |bs| && bs[i].status == Pending ==> bs[i] in r
    ensures multiset(r) <= multiset(bs) && Subsequence(r, bs)
  {
    FilterMultiset(bs, IsPending);
    FilterSubsequence(bs, IsPending);
    Filter(bs, IsPending)
  }

  /** Once answered, a request leaves the pending list, and every other
      request keeps its place in it. */
  lemma AnsweredLeavesPending(bs: seq<InboxBooking>, id: string, status: BookingStatus)
    requires status != Pending
    ensures forall i :: 0 <= i < |PendingList(SetStatus(bs, id, status))| ==> PendingList(SetStatus(bs, id, status))[i].id != id
    ensures forall i :: 0 <= i < |bs| && bs[i].id != id && bs[i].status == Pending ==> bs[i] in PendingList(SetStatus(bs, id, status))
  {
    var r := SetStatus(bs, id, status);
    forall i | 0 <= i < |bs| && bs[i].id != id && bs[i].status == Pending
      ensures bs[i] in PendingList(r)
    {
      assert r[i] == bs[i];
    }
  }

  // ----- responses -----

  /** The alert the farmer receives when the provider accepts. */
  function AcceptedAlert(bkId: string, slotText: string, clock: string): FarmerAlert {
    FarmerAlert("ผู้ให้บริการยืนยันแล้ว", None, Some("ผู้ให้บริการยืนยันรับงานช่วงเวลา " + slotText + " แล้ว"),
                clock + TodaySuffix, None, "accepted_" + bkId)
  }

  /** The alert the farmer receives when the provider rejects. */
  function RejectedAlert(bkId: string, slotText: string, clock: string): FarmerAlert {
    FarmerAlert("ผู้ให้บริการปฏิเสธคิว", None,
                Some("คิวช่วงเวลา " + slotText + " ถูกปฏิเสธ โปรดเลือกคิวใหม่หรือผู้ให้บริการรายอื่น"),
                clock + TodaySuffix, None, "rejected_" + bkId)
  }

  /** A response alert's signature names its booking and its verdict: two
      responses share a signature only when they answer the same booking the
      same way. */
  lemma ResponseSignaturesDistinct(a: string, b: string, textA: string, textB: string, clockA: string, clockB: string)
    ensures AcceptedAlert(a, textA, clockA).signature == AcceptedAlert(b, textB, clockB).signature ==> a == b
    ensures RejectedAlert(a, textA, clockA).signature == RejectedAlert(b, textB, clockB).signature ==> a == b
    ensures AcceptedAlert(a, textA, clockA).signature != RejectedAlert(b, textB, clockB).signature
  {
    assert ("accepted_" + a)[9..] == a && ("accepted_" + b)[9..] == b;
    assert ("rejected_" + a)[9..] == a && ("rejected_" + b)[9..] == b;
    assert ("accepted_" + a)[0] == 'a' && ("rejected_" + b)[0] == 'r';
  }

  /** `acceptBooking`: marks the booking accepted, tells the farmer, notes
      it in the provider's own list (linking to the provider home page), and
      books the first free slot when there is one. The alert and the
      notification each read the clock: `alertClock` is the alert's reading,
      `stamp` and `notiClock` the notification's. */
  method AcceptBooking(st: LocalStore, bkId: string, slotText: string, alertClock: string, stamp: string, notiClock: string)
    modifies st`incomingBookings, st`alertsCurrent, st`providerNotifications, st`providerSlots
    ensures st.incomingBookings == Present(SetStatus(Load(old(st.incomingBookings), []), bkId, Accepted))
    ensures st.alertsCurrent == Present([AcceptedAlert(bkId, slotText, alertClock)] + Load(old(st.alertsCurrent), []))
    ensures st.providerNotifications == Present(
      [ProviderNotice(stamp, notiClock, "คุณยืนยันรับงานช่วง " + slotText + " แล้ว", "booking:accepted", Some("/serverpage"))]
      + Load(old(st.providerNotifications), []))
    ensures match BookFirstFree(Load(old(st.providerSlots), []))
      case None => st.providerSlots == old(st.providerSlots)
      case Some(next) => st.providerSlots == Present(next)
  {
    st.incomingBookings := Present(SetStatus(Load(st.incomingBookings, []), bkId, Accepted));
    var farmerAlerts := Load(st.alertsCurrent, []);
    st.alertsCurrent := Present([AcceptedAlert(bkId, slotText, alertClock)] + farmerAlerts);
    PushProviderNoti(st, stamp, notiClock, "คุณยืนยันรับงานช่วง " + slotText + " แล้ว", "booking:accepted", Some("/serverpage"));
    var booked := BookFirstFree(Load(st.providerSlots, []));
    if booked.Some? {
      st.providerSlots := Present(booked.value);
    }
  }

  /** `rejectBooking`: marks the booking rejected, tells the farmer to pick
      another slot, and notes it in the provider's list without a link. The
      calendar is not touched. The clock readings are as for accepting. */
  method RejectBooking(st: LocalStore, bkId: string, slotText: string, alertClock: string, stamp: string, notiClock: string)
    modifies st`incomingBookings, st`alertsCurrent, st`providerNotifications
    ensures st.incomingBookings == Present(SetStatus(Load(old(st.incomingBookings), []), bkId, Rejected))
    ensures st.alertsCurrent == Present([RejectedAlert(bkId, slotText, alertClock)] + Load(old(st.alertsCurrent), []))
    ensures st.providerNotifications == Present(
      [ProviderNotice(stamp, notiClock, "คุณปฏิเสธคิวช่วง " + slotText, "booking:rejected", None)]
      + Load(old(st.providerNotifications), []))
  {
    st.incomingBookings := Present(SetStatus(Load(st.incomingBookings, []), bkId, Rejected));
    var farmerAlerts := Load(st.alertsCurrent, []);
    st.alertsCurrent := Present([RejectedAlert(bkId, slotText, alertClock)] + farmerAlerts);
    PushProviderNoti(st, stamp, notiClock, "คุณปฏิเสธคิวช่วง " + slotText, "booking:rejected", None);
  }

  /** Accepting the same request twice is not prevented: the farmer gets two
      alerts with the same signature, and a second free slot is booked.
      Each acceptance has its own clock readings. */
  method AcceptTwice(st: LocalStore, bkId: string, slotText: string,
                     alertClock1: string, stamp1: string, notiClock1: string,
                     alertClock2: string, stamp2: string, notiClock2: string)
    modifies st`incomingBookings, st`alertsCurrent, st`providerNotifications, st`providerSlots
    ensures st.alertsCurrent.Present? && |st.alertsCurrent.value| >= 2
    ensures st.alertsCurrent.value[0].signature == st.alertsCurrent.value[1].signature == "accepted_" + bkId
    ensures st.incomingBookings == Present(SetStatus(Load(old(st.incomingBookings), []), bkId, Accepted))
    ensures match BookFirstFree(Load(old(st.providerSlots), []))
      case None => st.providerSlots == old(st.providerSlots)
      case Some(once) =>
        match BookFirstFree(once)
        case None => st.providerSlots == Present(once)
        case Some(twice) => st.providerSlots == Present(twice)
  {
    AcceptBooking(st, bkId, slotText, alertClock1, stamp1, notiClock1);
    AcceptBooking(st, bkId, slotText, alertClock2, stamp2, notiClock2);
    SetStatusLastWins(Load(old(st.incomingBookings), []), bkId, Accepted, Accepted);
  }
}
