/** The record shapes kept in the browser's local storage, shared by the
    farmer-side and provider-side pages. Optional JavaScript fields are
    `Option`s; a field read only for its truthiness is a string whose empty
    value stands for "absent". */
module Records {
  import opened Wrappers

  /** A provider's availability on one day. `day` is the legacy field that
      older data carried instead of `date`. */
  datatype Slot = Slot(date: string, day: string, start: string, end: string, isBooked: Option<bool>)

  /** `!s.isBooked`: a slot whose flag is missing counts as free. */
  predicate IsFree(s: Slot) {
    s.isBooked != Some(true)
  }

  datatype BookingStatus = Pending | Accepted | Rejected

  /** An entry of the provider's `incoming_bookings` inbox. */
  datatype InboxBooking = InboxBooking(id: string, slot: string, status: BookingStatus, createdAt: string)

  /** An entry of `provider_notifications`. */
  datatype ProviderNoti = ProviderNoti(
    id: string, message: string, time: string,
    link: Option<string>, kind: Option<string>, isUnread: Option<bool>)

  /** An entry of `alerts_current` / `alerts_past`; `signature` identifies
      the event that produced it. */
  datatype FarmerAlert = FarmerAlert(
    kind: string, severity: Option<string>, message: Option<string>,
    time: string, color: Option<string>, signature: string)

  /** The farmer's private booking history (`bookingHistory`). */
  datatype HistoryStatus = AwaitingConfirmation | Confirmed | Cancelled

  function HistoryStatusLabel(s: HistoryStatus): string {
    match s
    case AwaitingConfirmation => "รอยืนยัน"
    case Confirmed => "ยืนยันแล้ว"
    case Cancelled => "ยกเลิก"
  }

  datatype HistoryBooking = HistoryBooking(
    id: string, providerId: int, providerName: string, price: string,
    bookedAt: int, status: HistoryStatus, note: Option<string>,
    areaRai: Option<real>, startDate: Option<string>)

  /** A provider's job (`provider_jobs`). */
  datatype JobStatus = Waiting | InProgress | Finished

  function JobStatusLabel(s: JobStatus): string {
    match s
    case Waiting => "รอเริ่มงาน"
    case InProgress => "กำลังดำเนินการ"
    case Finished => "จบงาน"
  }

  datatype Job = Job(
    id: string, title: string, location: string, date: string,
    price: string, area: string, status: JobStatus, finishedAt: Option<int>)

  /** The provider's registration draft (`providerDraft_v1`). */
  datatype ProfessionType = SprayDrone | FertilizerSpread | Pruning | Harvest | Irrigation | GrassCutting

  /** A value held by the registration form; a key missing from the form is
      JavaScript's `undefined`. */
  datatype FormValue = Str(s: string) | Num(n: real) | Null

  type Form = map<string, FormValue>

  datatype ProfessionEntry = ProfessionEntry(id: string, kind: ProfessionType, data: Form)

  datatype Draft = Draft(professions: seq<ProfessionEntry>, photo1: Option<string>)
}
