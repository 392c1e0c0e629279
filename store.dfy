/** The browser's local storage: one entry per collection key, each either
    missing, unreadable, or holding a value. */
module Store {
  import opened Records

  /** What `localStorage.getItem` plus `JSON.parse` yield for one key:
      `Absent` is a missing entry or the empty string, `Corrupt` text that
      does not parse. */
  datatype Stored<T> = Absent | Corrupt | Present(value: T)

  /** `load(key, fallback)`: the stored value, or `fallback` when the key is
      absent or its text does not parse. Never fails. */
  function Load<T>(raw: Stored<T>, fallback: T): (r: T)
    ensures raw.Present? ==> r == raw.value
    ensures !raw.Present? ==> r == fallback
  {
    match raw
    case Present(v) => v
    case _ => fallback
  }

  /** Reading back what `save` wrote gives the saved value, whatever the fallback. */
  lemma SaveThenLoad<T>(value: T, fallback: T)
    ensures Load(Present(value), fallback) == value
  {
  }

  class LocalStore {
    var providerSlots: Stored<seq<Slot>>                 // "provider_slots"
    var incomingBookings: Stored<seq<InboxBooking>>      // "incoming_bookings"
    var providerNotifications: Stored<seq<ProviderNoti>> // "provider_notifications"
    var alertsCurrent: Stored<seq<FarmerAlert>>          // "alerts_current"
    var alertsPast: Stored<seq<FarmerAlert>>             // "alerts_past"
    var alertsReadCount: Stored<int>                     // "alerts_read_count"
    var bookingHistory: Stored<seq<HistoryBooking>>      // "bookingHistory"
    var providerJobs: Stored<seq<Job>>                   // "provider_jobs"
    var providerDraft: Stored<Draft>                     // "providerDraft_v1"

    /** A fresh origin: no key is set. */
    constructor ()
      ensures providerSlots == Absent && incomingBookings == Absent
      ensures providerNotifications == Absent && alertsCurrent == Absent
      ensures alertsPast == Absent && alertsReadCount == Absent
      ensures bookingHistory == Absent && providerJobs == Absent && providerDraft == Absent
    {
      providerSlots, incomingBookings, providerNotifications := Absent, Absent, Absent;
      alertsCurrent, alertsPast, alertsReadCount := Absent, Absent, Absent;
      bookingHistory, providerJobs, providerDraft := Absent, Absent, Absent;
    }
  }
}
