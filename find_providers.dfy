/** The farmer's provider search page: the search filter, the private
    booking history (`bookingHistory`) with its year groups and "show all"
    modal, booking creation (which also writes the provider's inbox and
    notification list) and the farmer's alert badge. */
module FindProviders {
  import opened Wrappers
  import opened Lists
  import opened Text
  import opened Records
  import opened Store
  import opened Notices

  const DatePrefix: string := "วันที่ "
  const BookedAtPrefix: string := "จองเมื่อเวลา "
  /** The service filter value that shows every service. */
  const AllServices: string := "ทั้งหมด"
  const PageSize: nat := 8

  datatype Provider = Provider(id: int, name: string, service: string, location: string, price: string)

  // ----- slot text -----

  /** `makeSlotText`: the requested start date when one is given, otherwise
      the booking time (`clock`, the current time as "HH:MM"). */
  function MakeSlotText(fromDate: Option<string>, clock: string): string {
    if fromDate.Some? && fromDate.value != "" then DatePrefix + fromDate.value
    else BookedAtPrefix + clock
  }

  /** Reads the date back out of a slot text, when it names one. */
  function SlotTextDate(text: string): Option<string> {
    if HasPrefix(text, DatePrefix) then Some(text[|DatePrefix|..]) else None
  }

  /** The slot text names the given date exactly when a date was given, so
      a provider reading the inbox sees the date the farmer asked for. */
  lemma SlotTextRoundTrip(fromDate: Option<string>, clock: string)
    ensures SlotTextDate(MakeSlotText(fromDate, clock))
      == if fromDate.Some? && fromDate.value != "" then fromDate else None
  {
    var t := MakeSlotText(fromDate, clock);
    if fromDate.Some? && fromDate.value != "" {
      assert t[..|DatePrefix|] == DatePrefix;
      assert t[|DatePrefix|..] == fromDate.value;
    } else {
      assert t[0] == 'จ' && DatePrefix[0] == 'ว';
    }
  }

  // ----- the farmer's alert badge -----

  /** `Math.max(0, alerts.length - Number(readCount || "0"))`; `None` is the
      NaN an unreadable counter yields, which shows no badge. */
  function UnreadCount(alerts: nat, readCount: Stored<int>): (r: Option<nat>)
    ensures r.None? <==> readCount.Corrupt?
    ensures r.Some? ==> r.value + Load(readCount, 0) >= alerts
    ensures r.Some? ==> (r.value == 0 <==> alerts <= Load(readCount, 0))
    ensures r.Some? && r.value > 0 ==> r.value + Load(readCount, 0) == alerts
  {
    match readCount
    case Corrupt => None
    case _ =>
      var read := Load(readCount, 0);
      Some(if alerts <= read then 0 else alerts - read)
  }

  /** `markAlertsRead`, run when the bell opens: remembers how many alerts
      there are, so that a badge recomputed from the store is 0. The page's
      badge is memoised on the alert list and is not recomputed by this
      write. */
  method MarkAlertsRead(st: LocalStore)
    modifies st`alertsReadCount
    ensures st.alertsReadCount == Present(|Load(st.alertsCurrent, [])|)
    ensures UnreadCount(|Load(st.alertsCurrent, [])|, st.alertsReadCount) == Some(0)
  {
    st.alertsReadCount := Present(|Load(st.alertsCurrent, [])|);
  }

  /** The badge counts alerts, not which ones were seen: once the farmer
      has read `n` alerts and one of them is acknowledged away, the next new
      alert does not show. */
  lemma BadgeCountsNotIdentity(n: nat)
    requires n > 0
    ensures UnreadCount(n + 1, Present(n)) == Some(1)
    ensures UnreadCount((n - 1) + 1, Present(n)) == Some(0)
  {
  }

  // ----- provider search -----

  /** The normalised query: trimmed and lower-cased. */
  function Query(searchTerm: string): string {
    ToLower(Trim(searchTerm))
  }

  predicate MatchSearch(q: string, p: Provider) {
    q == "" || Contains(ToLower(p.name), q) || Contains(ToLower(p.location), q) || Contains(ToLower(p.service), q)
  }

  predicate MatchService(serviceFilter: string, p: Provider) {
    serviceFilter == AllServices || p.service == serviceFilter
  }

  function Shown(searchTerm: string, serviceFilter: string): Provider -> bool {
    (p: Provider) => MatchSearch(Query(searchTerm), p) && MatchService(serviceFilter, p)
  }

  /** `providersToRender`: the providers matching both the search text (in
      name, location or service) and the service filter, in list order. */
  function ProvidersToRender(ps: seq<Provider>, searchTerm: string, serviceFilter: string): (r: seq<Provider>)
    ensures forall i :: 0 <= i < |r| ==>
      r[i] in ps && MatchSearch(Query(searchTerm), r[i]) && MatchService(serviceFilter, r[i])
    ensures forall i :: 0 <= i < |ps| && MatchSearch(Query(searchTerm), ps[i]) && MatchService(serviceFilter, ps[i]) ==> ps[i] in r
    ensures multiset(r) <= multiset(ps) && Subsequence(r, ps)
  {
    FilterMultiset(ps, Shown(searchTerm, serviceFilter));
    FilterSubsequence(ps, Shown(searchTerm, serviceFilter));
    Filter(ps, Shown(searchTerm, serviceFilter))
  }

  /** A blank search with every service selected lists every provider. */
  lemma UnfilteredShowsAll(ps: seq<Provider>, searchTerm: string)
    requires Trim(searchTerm) == ""
    ensures ProvidersToRender(ps, searchTerm, AllServices) == ps
  {
    assert Query(searchTerm) == "";
    FilterAll(ps, Shown(searchTerm, AllServices));
  }

  // ----- the booking history -----

  /** The history entry `createBooking` records; `areaRai` is already the
      number read from the area field, `None` when the field is empty. */
  function NewHistoryEntry(p: Provider, id: string, now: int, areaRai: Option<real>, formDate: string, formNote: string): HistoryBooking {
    HistoryBooking(id, p.id, p.name, p.price, now, AwaitingConfirmation,
                   if formNote == "" then None else Some(formNote),
                   areaRai,
                   if formDate == "" then None else Some(formDate))
  }

  /** The notification the provider receives for a new request. */
  function RequestNotice(id: string, slotText: string, clock: string): ProviderNoti {
    ProviderNoti("noti_" + id, "มีคำขอจองใหม่ • " + slotText, clock + " วันนี้",
                 Some("/provider-slot"), Some("booking"), Some(true))
  }

  /** `createBooking`: the new entry goes in front of the farmer's history,
      and a pending request carrying the same id goes in front of the
      provider's inbox, with an unread notification announcing it.
      `numberOf` is JavaScript's `Number` on the area field. The clock is
      read separately for the entry (`now`), the request (`isoNow`, and
      `inboxClock` for its slot text), and the notification (`notiSlotClock`
      for its slot text, `notiClock` for its time). */
  method CreateBooking(st: LocalStore, p: Provider, id: string, now: int, isoNow: string,
                       inboxClock: string, notiSlotClock: string, notiClock: string,
                       formArea: string, formDate: string, formNote: string, numberOf: string -> Option<real>)
    modifies st`bookingHistory, st`incomingBookings, st`providerNotifications
    ensures var areaRai := if formArea == "" then None else numberOf(formArea);
      var entry := NewHistoryEntry(p, id, now, areaRai, formDate, formNote);
      st.bookingHistory == Present([entry] + Load(old(st.bookingHistory), []))
      && st.incomingBookings == Present([InboxBooking(id, MakeSlotText(entry.startDate, inboxClock), Pending, isoNow)]
                                        + Load(old(st.incomingBookings), []))
      && st.providerNotifications == Present([RequestNotice(id, MakeSlotText(entry.startDate, notiSlotClock), notiClock)]
                                             + Load(old(st.providerNotifications), []))
  {
    var areaRai := if formArea == "" then None else numberOf(formArea);
    var booking := NewHistoryEntry(p, id, now, areaRai, formDate, formNote);
    var bookings := Load(st.bookingHistory, []);
    st.bookingHistory := Present([booking] + bookings);

    var inbox := Load(st.incomingBookings, []);
    var item := InboxBooking(booking.id, MakeSlotText(booking.startDate, inboxClock), Pending, isoNow);
    st.incomingBookings := Present([item] + inbox);

    var noti := Load(st.providerNotifications, []);
    st.providerNotifications := Present([RequestNotice(booking.id, MakeSlotText(booking.startDate, notiSlotClock), notiClock)] + noti);
  }

  /** The request the provider receives is the farmer's entry seen from the
      other side: same id, pending, and a slot text naming the requested date,
      as does the notification's, whatever the two clock readings. */
  lemma RequestMatchesEntry(p: Provider, id: string, now: int, areaRai: Option<real>, formDate: string, formNote: string,
                            inboxClock: string, notiSlotClock: string, notiClock: string, isoNow: string)
    ensures var entry := NewHistoryEntry(p, id, now, areaRai, formDate, formNote);
      var item := InboxBooking(id, MakeSlotText(entry.startDate, inboxClock), Pending, isoNow);
      var notice := RequestNotice(id, MakeSlotText(entry.startDate, notiSlotClock), notiClock);
      item.id == entry.id && entry.status == AwaitingConfirmation && item.status == Pending
      && SlotTextDate(item.slot) == entry.startDate
      && (formDate != "" ==> notice.message == "มีคำขอจองใหม่ • " + item.slot)
  {
    var entry := NewHistoryEntry(p, id, now, areaRai, formDate, formNote);
    SlotTextRoundTrip(entry.startDate, inboxClock);
  }

  function CancelIf(id: string): HistoryBooking -> HistoryBooking {
    (b: HistoryBooking) => if b.id == id then b.(status := Cancelled) else b
  }

  /** `cancelBooking`'s map: entries with the id become cancelled, every
      other entry and field stays. */
  function Cancel(hs: seq<HistoryBooking>, id: string): (r: seq<HistoryBooking>)
    ensures |r| == |hs|
    ensures forall i :: 0 <= i < |r| ==>
      (if hs[i].id == id then r[i] == hs[i].(status := Cancelled) else r[i] == hs[i])
  {
    Map(hs, CancelIf(id))
  }

  method CancelBooking(st: LocalStore, id: string)
    modifies st`bookingHistory
    ensures st.bookingHistory == Present(Cancel(Load(old(st.bookingHistory), []), id))
  {
    st.bookingHistory := Present(Cancel(Load(st.bookingHistory, []), id));
  }

  function IdIsNot(id: string): HistoryBooking -> bool {
    (b: HistoryBooking) => b.id != id
  }

  /** `deleteBooking`'s filter: no entry with the id is left, every other
      entry is. */
  function Delete(hs: seq<HistoryBooking>, id: string): (r: seq<HistoryBooking>)
    ensures forall i :: 0 <= i < |r| ==> r[i].id != id && r[i] in hs
    ensures forall i :: 0 <= i < |hs| && hs[i].id != id ==> hs[i] in r
  {
    Filter(hs, IdIsNot(id))
  }

  /** Deleting keeps the rest in their order: deleting from two parts of
      the history is deleting from each. */
  lemma DeleteKeepsOrder(a: seq<HistoryBooking>, b: seq<HistoryBooking>, id: string)
    ensures Delete(a + b, id) == Delete(a, id) + Delete(b, id)
  {
    FilterAppend(a, b, IdIsNot(id));
  }

  method DeleteBooking(st: LocalStore, id: string)
    modifies st`bookingHistory
    ensures st.bookingHistory == Present(Delete(Load(old(st.bookingHistory), []), id))
  {
    st.bookingHistory := Present(Delete(Load(st.bookingHistory, []), id));
  }

  method ClearAll(st: LocalStore)
    modifies st`bookingHistory
    ensures st.bookingHistory == Present([])
  {
    st.bookingHistory := Present([]);
  }

  // ----- year groups -----

  /** The group name of `getYear`: the start date's year when a date was
      given, the booking time's year otherwise; `dateYear` and `stampYear`
      are the browser's calendar, `None` for an invalid date ("NaN"). */
  function YearKey(dateYear: string -> Option<int>, stampYear: int -> Option<int>): HistoryBooking -> string {
    (b: HistoryBooking) =>
      var y := if b.startDate.Some? && b.startDate.value != "" then dateYear(b.startDate.value) else stampYear(b.bookedAt);
      if y.Some? then IntToString(y.value) else "NaN"
  }

  function InGroup(yearOf: HistoryBooking -> string, y: string): HistoryBooking -> bool {
    (b: HistoryBooking) => yearOf(b) == y
  }

  /** `groups` holds, for each year occurring in `items`, exactly that
      year's entries in order, and nothing else. */
  ghost predicate Grouped(groups: map<string, seq<HistoryBooking>>, items: seq<HistoryBooking>, yearOf: HistoryBooking -> string) {
    (forall y :: y in groups ==> groups[y] == Filter(items, InGroup(yearOf, y)) && groups[y] != [])
    && (forall j :: 0 <= j < |items| ==> yearOf(items[j]) in groups)
  }

  /** `(acc[y] ||= []).push(b)`. */
  function AddToGroup(groups: map<string, seq<HistoryBooking>>, y: string, b: HistoryBooking): map<string, seq<HistoryBooking>> {
    if y in groups then groups[y := groups[y] + [b]] else groups[y := [b]]
  }

  /** One step of the reduction keeps the grouping exact. */
  lemma GroupStep(groups: map<string, seq<HistoryBooking>>, items: seq<HistoryBooking>, b: HistoryBooking, yearOf: HistoryBooking -> string)
    requires Grouped(groups, items, yearOf)
    ensures Grouped(AddToGroup(groups, yearOf(b), b), items + [b], yearOf)
  {
    var y := yearOf(b);
    var g := AddToGroup(groups, y, b);
    forall z | z in g
      ensures g[z] == Filter(items + [b], InGroup(yearOf, z))
    {
      FilterAppend(items, [b], InGroup(yearOf, z));
      if z == y && y !in groups {
        FilterNone(items, InGroup(yearOf, y));
      }
    }
    forall j | 0 <= j < |items| + 1 ensures yearOf((items + [b])[j]) in g {
      if j < |items| {
        assert (items + [b])[j] == items[j];
      }
    }
  }

  /** `groupByYear`: one group per year that occurs, holding exactly that
      year's entries in input order. */
  method GroupByYear(items: seq<HistoryBooking>, yearOf: HistoryBooking -> string) returns (groups: map<string, seq<HistoryBooking>>)
    ensures Grouped(groups, items, yearOf)
  {
    groups := map[];
    ghost var seen: seq<HistoryBooking> := [];
    var k := 0;
    while k < |items|
      invariant 0 <= k <= |items| && seen == items[..k]
      invariant Grouped(groups, seen, yearOf)
    {
      GroupStep(groups, seen, items[k], yearOf);
      groups := AddToGroup(groups, yearOf(items[k]), items[k]);
      seen := seen + [items[k]];
      k := k + 1;
    }
    assert seen == items;
  }

  // ----- the "show all" modal -----

  function BookedAt(b: HistoryBooking): int {
    b.bookedAt
  }

  function HasStatus(s: HistoryStatus): HistoryBooking -> bool {
    (b: HistoryBooking) => b.status == s
  }

  function MatchText(s: string): HistoryBooking -> bool {
    (b: HistoryBooking) => Contains(ToLower(b.providerName), s) || Contains(ToLower(b.note.GetOr("")), s)
  }

  /** The tab filter; `None` is the "all" tab. */
  function ByTab(items: seq<HistoryBooking>, tab: Option<HistoryStatus>): (r: seq<HistoryBooking>)
    ensures forall i :: 0 <= i < |r| ==> r[i] in items && (tab.Some? ==> r[i].status == tab.value)
    ensures forall i :: 0 <= i < |items| && (tab.Some? ==> items[i].status == tab.value) ==> items[i] in r
    ensures multiset(r) <= multiset(items) && Subsequence(r, items)
  {
    if tab.None? then
      SubsequenceRefl(items);
      items
    else
      FilterMultiset(items, HasStatus(tab.value));
      FilterSubsequence(items, HasStatus(tab.value));
      Filter(items, HasStatus(tab.value))
  }

  /** The text filter, applied only when the trimmed query is not blank. */
  function ByText(items: seq<HistoryBooking>, q: string): (r: seq<HistoryBooking>)
    ensures Trim(q) == "" ==> r == items
    ensures forall i :: 0 <= i < |r| ==> r[i] in items && (Trim(q) != "" ==> MatchText(ToLower(Trim(q)))(r[i]))
    ensures forall i :: 0 <= i < |items| && (Trim(q) != "" ==> MatchText(ToLower(Trim(q)))(items[i])) ==> items[i] in r
  {
    if Trim(q) == "" then items else Filter(items, MatchText(ToLower(Trim(q))))
  }

  /** The modal's list: the tab's and the query's entries, newest booking first. */
  function ModalList(items: seq<HistoryBooking>, tab: Option<HistoryStatus>, q: string): (r: seq<HistoryBooking>)
    ensures SortedDesc(r, BookedAt)
    ensures multiset(r) == multiset(ByText(ByTab(items, tab), q))
  {
    SortDesc(ByText(ByTab(items, tab), q), BookedAt)
  }

  /** With the "all" tab and a blank query, the modal lists every entry. */
  lemma ModalUnfilteredListsAll(items: seq<HistoryBooking>, q: string)
    requires Trim(q) == ""
    ensures multiset(ModalList(items, None, q)) == multiset(items)
  {
  }

  /** `Math.max(1, Math.ceil(n / 8))`: the fewest pages of eight holding
      every entry, and never zero. */
  function TotalPages(n: nat): (r: nat)
    ensures r >= 1
    ensures n == 0 ==> r == 1
    ensures r * PageSize >= n
    ensures n > 0 ==> (r - 1) * PageSize < n
  {
    if n == 0 then 1 else (n + PageSize - 1) / PageSize
  }

  /** `filtered.slice((page - 1) * 8, page * 8)`. */
  function PageItems<T>(list: seq<T>, page: int): (r: seq<T>)
    ensures |r| <= PageSize
    ensures 1 <= page && page * PageSize <= |list| ==> r == list[(page - 1) * PageSize..page * PageSize]
    ensures 1 <= page && (page - 1) * PageSize <= |list| < page * PageSize ==> r == list[(page - 1) * PageSize..]
    ensures page >= 1 && (page - 1) * PageSize >= |list| ==> r == []
  {
    JsSlice(list, (page - 1) * PageSize, page * PageSize)
  }

  /** The first `k` pages, one after another. */
  function FirstPages<T>(list: seq<T>, k: nat): seq<T> {
    if k == 0 then [] else FirstPages(list, k - 1) + PageItems(list, k)
  }

  /** Paging loses nothing and repeats nothing: the first `k` pages are the
      list's first `8 k` entries, so all `TotalPages` pages together are the
      whole list. */
  lemma {:induction false} FirstPagesArePrefix<T>(list: seq<T>, k: nat)
    ensures FirstPages(list, k) == list[..if k * PageSize <= |list| then k * PageSize else |list|]
  {
    if k > 0 {
      FirstPagesArePrefix(list, k - 1);
      var lo := if (k - 1) * PageSize <= |list| then (k - 1) * PageSize else |list|;
      var hi := if k * PageSize <= |list| then k * PageSize else |list|;
      assert PageItems(list, k) == list[lo..hi];
      assert list[..lo] + list[lo..hi] == list[..hi];
    }
  }

  lemma PagesCoverList<T>(list: seq<T>)
    ensures FirstPages(list, TotalPages(|list|)) == list
  {
    FirstPagesArePrefix(list, TotalPages(|list|));
    assert list[..|list|] == list;
  }

  /** The previous and next buttons keep the page within `1..totalPages`. */
  function PrevPage(page: int): (r: int)
    ensures r >= 1
    ensures page > 1 ==> r == page - 1
  {
    if page - 1 < 1 then 1 else page - 1
  }

  function NextPage(page: int, totalPages: int): (r: int)
    ensures r <= totalPages
    ensures 1 <= page <= totalPages ==> 1 <= r
    ensures page < totalPages ==> r == page + 1
  {
    if page + 1 < totalPages then page + 1 else totalPages
  }
}
