/** The farmer's fixed-offer booking form: a hard-coded list of offered
    days and time ranges, two of which are shown as already booked, and a
    confirm button that files the chosen one with the provider. */
module BookingForm {
  import opened Wrappers
  import opened Lists
  import opened Records
  import opened Store

  datatype Offer = Offer(date: string, times: seq<string>)

  /** The offered days and their time ranges. */
  const Offers: seq<Offer> := [
    Offer("2025-01-20", ["09:00-12:00", "13:00-16:00"]),
    Offer("2025-01-21", ["08:00-11:00", "14:00-17:00"]),
    Offer("2025-01-22", ["10:00-13:00", "15:00-18:00"])
  ]

  /** The hard-coded "already booked" test that disables a button. */
  predicate IsBookedSlot(date: string, time: string) {
    (date == "2025-01-21" && time == "14:00-17:00") || (date == "2025-01-22" && time == "10:00-13:00")
  }

  /** Every (day, time range) button the form shows. */
  function OfferedPairs(offers: seq<Offer>): seq<(string, string)> {
    if offers == [] then []
    else Map(offers[0].times, (t: string) => (offers[0].date, t)) + OfferedPairs(offers[1..])
  }

  function PairBooked(pair: (string, string)): bool {
    IsBookedSlot(pair.0, pair.1)
  }

  /** Of the six buttons, exactly two are disabled: the fourth and the
      fifth, which are these. */
  lemma ExactlyTwoBooked()
    ensures |OfferedPairs(Offers)| == 6
    ensures forall i :: 0 <= i < |OfferedPairs(Offers)| ==> (PairBooked(OfferedPairs(Offers)[i]) <==> i == 3 || i == 4)
    ensures OfferedPairs(Offers)[3] == ("2025-01-21", "14:00-17:00")
    ensures OfferedPairs(Offers)[4] == ("2025-01-22", "10:00-13:00")
  {
    var a := Map(Offers[0].times, (t: string) => (Offers[0].date, t));
    var b := Map(Offers[1].times, (t: string) => (Offers[1].date, t));
    var c := Map(Offers[2].times, (t: string) => (Offers[2].date, t));
    assert Offers[1..] == [Offers[1], Offers[2]] && Offers[1..][1..] == [Offers[2]];
    assert OfferedPairs([Offers[2]]) == c + OfferedPairs([]);
    assert OfferedPairs(Offers) == a + b + c;
  }

  /** The slot a button selects: its day, a space, and its time range. */
  function SelectedSlotText(date: string, time: string): (r: string)
    ensures |r| == |date| + 1 + |time|
  {
    date + " " + time
  }

  /** A day written as YYYY-MM-DD can be read back off the selected text. */
  lemma SelectedSlotParts(date: string, time: string)
    requires |date| == 10
    ensures SelectedSlotText(date, time)[..10] == date
    ensures SelectedSlotText(date, time)[10] == ' '
    ensures SelectedSlotText(date, time)[11..] == time
  {
    var r := SelectedSlotText(date, time);
    assert r == date + [' '] + time;
  }

  /** The request filed with the provider; `stamp` is the decimal time in
      milliseconds as read for the id, `isoNow` a separate reading of the
      clock as ISO text. */
  function FormRequest(slot: string, stamp: string, isoNow: string): InboxBooking {
    InboxBooking("bk_" + stamp, slot, Pending, isoNow)
  }

  /** The provider's notification about the request. */
  function FormNotice(slot: string, stamp: string): ProviderNoti {
    ProviderNoti("nt_" + stamp, "มีคนจองคิวช่วงเวลา " + slot, "เมื่อสักครู่",
                 Some("/provider-slot"), Some("booking_request"), Some(true))
  }

  /** `handleConfirm`: with nothing selected nothing is written; otherwise a
      pending request for the selected slot and an unread notification are
      put in front of the provider's lists. The two ids read the clock
      separately, hence two stamps. */
  method HandleConfirm(st: LocalStore, selected: Option<string>, bookingStamp: string, notiStamp: string, isoNow: string)
    modifies st`incomingBookings, st`providerNotifications
    ensures selected.None? || selected.value == "" ==>
      st.incomingBookings == old(st.incomingBookings) && st.providerNotifications == old(st.providerNotifications)
    ensures selected.Some? && selected.value != "" ==>
      st.incomingBookings == Present([FormRequest(selected.value, bookingStamp, isoNow)] + Load(old(st.incomingBookings), []))
      && st.providerNotifications == Present([FormNotice(selected.value, notiStamp)] + Load(old(st.providerNotifications), []))
  {
    if selected.None? || selected.value == "" {
      return;
    }
    var slot := selected.value;
    var inbox := Load(st.incomingBookings, []);
    st.incomingBookings := Present([FormRequest(slot, bookingStamp, isoNow)] + inbox);
    var noti := Load(st.providerNotifications, []);
    st.providerNotifications := Present([FormNotice(slot, notiStamp)] + noti);
  }
}
