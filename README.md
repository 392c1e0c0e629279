# project_longon booking layer in Dafny

This project models the browser-side booking coordination of the longan-farm
web application project_longon and proves properties of the model. It also
covers the few rule engines and validators that sit beside it.

Farmers and service providers share one browser `localStorage` store. It
holds these lists:

- the provider's availability slots (`provider_slots`);
- the booking inbox (`incoming_bookings`);
- the provider's notifications (`provider_notifications`);
- the farmer's alerts (`alerts_current`, `alerts_past`) and the count of alerts read (`alerts_read_count`);
- the farmer's private booking history (`bookingHistory`);
- the provider's jobs (`provider_jobs`);
- the provider's registration draft (`providerDraft_v1`).

Every page reads a list, changes it and writes the whole list back.

The model has these parts:

- **Store.** `Store.LocalStore` is a class with one field per key. Each field is `Absent`, `Corrupt` (does not parse) or `Present(value)`. `Store.Load` is the pages' `load`/`lsLoad` helper.
- **Page operations.** Each operation that writes the store directly is a method that `modifies` exactly the keys it writes. Its `ensures` gives the new value of every key in terms of the old one. An operation whose result the page writes back itself (`ServerPage.HandlePrimary`) is a function of the old values.
- **Specification functions.** The list transformations (marking, filtering, migrating, merging) are functions. The lemmas about them state what the pages promise: counts, idempotence, order, round trips.
- **Parameters for the environment.** The clock, generated ids, locale renderings and the browser's date and number parsers are parameters of the operations. Examples: `stamp`, `clock`, `isoNow`, `nonce`, `parse`, `toNumber`.
- **Calendar.** The calendar page keeps its two lists in a hook that persists every update. It is modelled as the class `Calendar.Board`, whose fields are both the page state and the stored value.
- **`POST /api/plots/add`.** This server handler is a pure function from the request body to its outcome: a 400 with its message, a 500, or the row to insert.

Modules:

- `Wrappers`, `Lists`, `Text`: `Option`; JavaScript-style `filter`/`map`/`slice`/`sort`; string helpers (prefix, `includes`, `trim`, lower case, decimal rendering).
- `Records`: the shared record types.
- `Store`: the key-value store.
- `Notices`: the provider notification list, which several pages share.
- `ProviderSlots`: `src/pages/ProviderSlotPage.tsx`.
- `FindProviders`: `src/pages/FindProviders.tsx`.
- `BookingForm`: `src/pages/BookingForm.tsx`.
- `AlertPage`: `src/pages/AlertPage.tsx`.
- `DashboardAlerts`: `src/pages/DashboardData.tsx`.
- `Calendar`: `src/pages/Calendarttwo.tsx`.
- `ServerPage`: `src/pages/ServerPage.tsx`.
- `ServerSetup`: `src/pages/ServerSetup.tsx`.
- `PlotRoute`: `backend/routes/plotpage.js`.

## Model

| member | source | states |
|---|---|---|
| Store.Load | src/pages/ProviderSlotPage.tsx:25-32 | the stored value when the key holds one that parses, the fallback when it is absent or corrupt |
| Store.SaveThenLoad | src/pages/ProviderSlotPage.tsx:33-35 | loading what was saved gives it back, whatever the fallback |
| Notices.UnreadCount | src/pages/ServerPage.tsx:241 | the badge counts the unread notifications and never exceeds their number |
| Notices.ReadAll | src/pages/ProviderSlotPage.tsx:286 | same length; every item is the original with `isUnread` false |
| Notices.ReadAllClearsBadge | src/pages/ServerPage.tsx:360 | after marking all read the badge is 0 |
| Notices.ReadAllIdempotent | src/pages/ServerPage.tsx:360 | marking all read twice is the same as once |
| Notices.PushUnreadCount | src/pages/ProviderSlotPage.tsx:48-54 | prepending a notification raises the badge by one exactly when it is unread |
| Notices.MarkOneReadCount | src/pages/ServerPage.tsx:245-246 | marking item `i` read lowers the badge by one if it was unread, else leaves it |
| Notices.MarkAllRead | src/pages/ServerPage.tsx:357-363 | with a non-empty list, stores the list with every item read and the badge at 0; an empty list writes nothing |
| ProviderSlots.PushProviderNoti | src/pages/ProviderSlotPage.tsx:45-63 | the stored notifications become the new unread `noti_<stamp>` notice in front of the old list |
| ProviderSlots.PushRaisesBadge | src/pages/ProviderSlotPage.tsx:48-54 | a pushed notification raises the provider's badge by exactly one |
| ProviderSlots.Migrate | src/pages/ProviderSlotPage.tsx:82-90 | same length; each slot is dated by its own clock reading, with the same hours and an explicit booked flag of the same meaning; the result never needs migrating again |
| ProviderSlots.MigrateKeepsFreeCount | src/pages/ProviderSlotPage.tsx:83-89 | migration keeps the number of free slots, whatever the dates read |
| ProviderSlots.LoadSlots | src/pages/ProviderSlotPage.tsx:80-93 | old-format data is migrated and written back; any other data is returned as is and not written |
| ProviderSlots.RangeGuardIsTimeOrder | src/pages/ProviderSlotPage.tsx:155 | for "HH:MM" times the string comparison that guards the range is the order of the times in minutes |
| ProviderSlots.AddRangeSlots | src/pages/ProviderSlotPage.tsx:145-177 | a refused range (empty or unparsable date, reversed range, start time not before end time) changes nothing; otherwise exactly `last - first + 1` free slots, one per consecutive day, follow the old slots unchanged |
| ProviderSlots.DeleteSlot | src/pages/ProviderSlotPage.tsx:179-185 | stores the slots with position `index` removed; an out-of-range index removes nothing |
| ProviderSlots.DeleteFreeCount | src/pages/ProviderSlotPage.tsx:179-185 | deleting lowers the free count by one exactly when the deleted slot was free |
| ProviderSlots.BookSlot | src/pages/ProviderSlotPage.tsx:187-193 | stores the slots with only position `index` marked booked |
| ProviderSlots.BookFreeCount | src/pages/ProviderSlotPage.tsx:187-193 | booking keeps the length and lowers the free count by one exactly when that slot was free |
| ProviderSlots.BookFirstFree | src/pages/ProviderSlotPage.tsx:220-228 | nothing changes exactly when every slot is booked; otherwise the length is kept and the free count drops by one |
| ProviderSlots.BookFirstFreeTakesEarliest | src/pages/ProviderSlotPage.tsx:221-224 | the slot booked is the first free one and no other slot changes |
| ProviderSlots.SetStatus | src/pages/ProviderSlotPage.tsx:197 | every booking with the id gets the new status, all other fields and bookings unchanged |
| ProviderSlots.SetStatusUnknownId | src/pages/ProviderSlotPage.tsx:197 | an id no booking has changes nothing |
| ProviderSlots.SetStatusLastWins | src/pages/ProviderSlotPage.tsx:196-234 | answering a booking twice leaves the second answer, with no check that it was pending |
| ProviderSlots.PendingList | src/pages/ProviderSlotPage.tsx:258 | holds exactly the pending bookings of the inbox, in inbox order and none more often than there |
| ProviderSlots.AnsweredLeavesPending | src/pages/ProviderSlotPage.tsx:196-258 | after an answer the booking is no longer pending and every other pending booking still is |
| ProviderSlots.ResponseSignaturesDistinct | src/pages/ProviderSlotPage.tsx:208-250 | `accepted_<id>` and `rejected_<id>` determine the id and never coincide |
| ProviderSlots.AcceptBooking | src/pages/ProviderSlotPage.tsx:195-230 | the booking becomes accepted; an `accepted_<id>` alert and a `booking:accepted` unread notification linking to `/serverpage` are put in front, each with its own clock reading; the first free slot is booked, if any |
| ProviderSlots.RejectBooking | src/pages/ProviderSlotPage.tsx:232-256 | the booking becomes rejected; a `rejected_<id>` alert and a `booking:rejected` notification are put in front, each with its own clock reading; the slots are not written |
| ProviderSlots.AcceptTwice | src/pages/ProviderSlotPage.tsx:195-230 | accepting the same id twice leaves two alerts with the same signature on top and books up to two free slots, one per acceptance |
| FindProviders.SlotTextRoundTrip | src/pages/FindProviders.tsx:185-188 | the slot text names the date back exactly when a non-empty date was given |
| FindProviders.UnreadCount | src/pages/FindProviders.tsx:211-214 | `max(0, alerts - readCount)`: never negative, 0 exactly when the read count covers the alerts, else their difference; a value that does not parse as a number gives none |
| FindProviders.MarkAlertsRead | src/pages/FindProviders.tsx:376-378 | stores the number of current alerts as the read count, after which a badge recomputed from the store is 0 |
| FindProviders.BadgeCountsNotIdentity | src/pages/FindProviders.tsx:211-214 | the badge counts alerts, not which were seen: one new alert shows as 1, but after one read alert is acknowledged away the next new one does not show |
| FindProviders.ProvidersToRender | src/pages/FindProviders.tsx:242-254 | holds exactly the providers that match both the trimmed, lower-cased search and the service filter, in list order and none more often than there |
| FindProviders.UnfilteredShowsAll | src/pages/FindProviders.tsx:242-254 | a blank search with "ทั้งหมด" shows every provider in order |
| FindProviders.CreateBooking | src/pages/FindProviders.tsx:294-354 | prepends the "รอยืนยัน" history entry, the pending inbox request with the same id, and the unread `noti_<id>` notification linking to `/provider-slot`; each slot text and time uses its own clock reading |
| FindProviders.RequestMatchesEntry | src/pages/FindProviders.tsx:297-322 | the inbox request and the history entry share the id, and the slot text names the requested date; with a date chosen, the notification announces the same slot text whatever the clock readings |
| FindProviders.Cancel | src/pages/FindProviders.tsx:356-362 | same length; only the entries with the id become "ยกเลิก" |
| FindProviders.CancelBooking | src/pages/FindProviders.tsx:356-362 | stores the history with those entries cancelled |
| FindProviders.Delete | src/pages/FindProviders.tsx:364-368 | removes exactly the entries with the id |
| FindProviders.DeleteKeepsOrder | src/pages/FindProviders.tsx:365 | deleting distributes over concatenation, so the rest keep their order |
| FindProviders.DeleteBooking | src/pages/FindProviders.tsx:364-368 | stores the history without those entries |
| FindProviders.ClearAll | src/pages/FindProviders.tsx:370-373 | stores an empty history |
| FindProviders.GroupStep | src/pages/FindProviders.tsx:173-174 | adding a booking to its year's group keeps every group exactly the bookings of that year, in order |
| FindProviders.GroupByYear | src/pages/FindProviders.tsx:171-176 | each group holds exactly the bookings of its year in input order, and every year seen has a group |
| FindProviders.ByTab | src/pages/FindProviders.tsx:748 | holds exactly the entries with the chosen status, or all of them for "ทั้งหมด", in history order and none more often than there |
| FindProviders.ByText | src/pages/FindProviders.tsx:749-756 | a blank query keeps the list; otherwise exactly the entries whose provider or note contains the query |
| FindProviders.ModalList | src/pages/FindProviders.tsx:746-758 | newest booking first and a permutation of the filtered entries |
| FindProviders.ModalUnfilteredListsAll | src/pages/FindProviders.tsx:746-758 | with no filter the modal lists every entry |
| FindProviders.TotalPages | src/pages/FindProviders.tsx:760 | one page for an empty list; otherwise the fewest pages of eight that hold every entry |
| FindProviders.PageItems | src/pages/FindProviders.tsx:761 | at most eight entries: the page's slice of the list, the tail on the last page, nothing past the end |
| FindProviders.FirstPagesArePrefix | src/pages/FindProviders.tsx:761 | the first `k` pages joined are the list's prefix of `8k` entries |
| FindProviders.PagesCoverList | src/pages/FindProviders.tsx:760-761 | all pages joined give the whole list back |
| FindProviders.PrevPage | src/pages/FindProviders.tsx:850 | never below page 1; one back from any later page |
| FindProviders.NextPage | src/pages/FindProviders.tsx:857 | never past the last page; one on from any earlier page |
| BookingForm.ExactlyTwoBooked | src/pages/BookingForm.tsx:30-105 | of the six offered slots exactly two are disabled: 2025-01-21 14:00-17:00 and 2025-01-22 10:00-13:00 |
| BookingForm.SelectedSlotText | src/pages/BookingForm.tsx:110 | the selected slot is date, space and time |
| BookingForm.SelectedSlotParts | src/pages/BookingForm.tsx:110 | the date and the time can be read back from the slot text |
| BookingForm.HandleConfirm | src/pages/BookingForm.tsx:36-72 | nothing selected writes nothing; otherwise a pending `bk_<stamp>` request and an unread `booking_request` notification linking to `/provider-slot` go in front of the old lists |
| AlertPage.LoadAlerts | src/pages/AlertPage.tsx:52-68 | absent or corrupt gives none; otherwise the same alerts with colour red kept and every other colour made orange |
| AlertPage.LoadAlertsIdempotent | src/pages/AlertPage.tsx:58-64 | normalising twice is normalising once |
| AlertPage.Refresh | src/pages/AlertPage.tsx:77-82 | shows the stored lists, and the samples only for a list that loads empty |
| AlertPage.AcknowledgeOne | src/pages/AlertPage.tsx:99-100 | current loses exactly item `idx`; past gets it in front, capped at 300 |
| AlertPage.AcknowledgeKeepsTotal | src/pages/AlertPage.tsx:99-102 | below the cap no alert is lost or duplicated between the two lists |
| AlertPage.Acknowledge | src/pages/AlertPage.tsx:91-105 | no current key or an index out of range writes nothing; otherwise both lists are stored as acknowledged |
| AlertPage.AcknowledgeEvery | src/pages/AlertPage.tsx:111-112 | current empties; past becomes current then old past, capped at 300 |
| AlertPage.AcknowledgeEveryKeepsAll | src/pages/AlertPage.tsx:112 | below the cap every alert ends in past |
| AlertPage.AcknowledgeAll | src/pages/AlertPage.tsx:107-117 | no current key writes nothing; otherwise stores the empty current list and the merged past |
| AlertPage.ClearHistory | src/pages/AlertPage.tsx:119-122 | stores an empty past and leaves current untouched |
| DashboardAlerts.SignatureInjective | src/pages/DashboardData.tsx:98-133 | the four rules have four different signatures |
| DashboardAlerts.FiredExactly | src/pages/DashboardData.tsx:81-139 | a rule's alert is raised exactly when its threshold test holds on a reading whose values are numbers |
| DashboardAlerts.FiredShape | src/pages/DashboardData.tsx:81-139 | at most three alerts, pairwise distinct signatures, never both PM alerts |
| DashboardAlerts.RuleAlert | src/pages/DashboardData.tsx:91-134 | every alert carries its rule's signature and the time given; red except the PM-over-standard alert, which is orange |
| DashboardAlerts.EvaluateAlerts | src/pages/DashboardData.tsx:81-139 | one alert per fired rule, in the code's order |
| DashboardAlerts.IsDuplicate | src/pages/DashboardData.tsx:77-79 | holds exactly when some item has the signature |
| DashboardAlerts.MergeAlerts | src/pages/DashboardData.tsx:158-172 | writes nothing when every alert is already there; otherwise the new ones go in front and the newest 100 are kept |
| DashboardAlerts.MergeAddsOnlyNew | src/pages/DashboardData.tsx:161-168 | only alerts whose signature is not current are added, and the list never exceeds 100 |
| DashboardAlerts.MergeSettles | src/pages/DashboardData.tsx:158-172 | below the cap, merging the same reading again adds nothing |
| Calendar.OrElse | src/pages/Calendarttwo.tsx:62-64 | `base` or else the fallback: the base when it is non-empty, never empty when the fallback is not |
| Calendar.BuildTitle | src/pages/Calendarttwo.tsx:60-65 | exactly the type's emoji, a space and the name (typed or default), followed for fertilising or harvesting with a non-zero amount by a space, the amount and " กก." |
| Calendar.ZeroAmountNotShown | src/pages/Calendarttwo.tsx:62-64 | an amount of 0 gives the title without amount |
| Calendar.YmdFields | src/pages/Calendarttwo.tsx:67-73 | the date reads year, a dash, the two-digit month, a dash and the two-digit day |
| Calendar.YmdInjective | src/pages/Calendarttwo.tsx:67-73 | different dates give different strings |
| Calendar.Keys | src/pages/Calendarttwo.tsx:145-146 | every stored notification's key is in the set |
| Calendar.TodayNotice | src/pages/Calendarttwo.tsx:150-159 | the new notification's key is its event's key for today |
| Calendar.NewOnesSnoc | src/pages/Calendarttwo.tsx:149-161 | one more event adds its notification exactly when its key is not yet taken |
| Calendar.NewOnesContent | src/pages/Calendarttwo.tsx:148-161 | the new notifications announce, in order, exactly the events of today whose key is absent, each with its own id and clock reading |
| Calendar.NewOnesKeys | src/pages/Calendarttwo.tsx:145-161 | no new key was already present, and afterwards every event of today has a notification |
| Calendar.TickIdempotent | src/pages/Calendarttwo.tsx:140-165 | a second run on the same day after a first one adds nothing, whatever the clock and ids |
| Calendar.CollectNew | src/pages/Calendarttwo.tsx:148-161 | the loop builds exactly the new notifications |
| Calendar.Board.constructor | src/pages/Calendarttwo.tsx:76-123 | the stored lists, or the sample events and no notifications when a key is absent or corrupt |
| Calendar.Board.Tick | src/pages/Calendarttwo.tsx:140-164 | the new notifications for today go in front of the old ones, which follow unchanged |
| Calendar.Board.DeleteEvent | src/pages/Calendarttwo.tsx:241-243 | the events without that id |
| Calendar.WithoutEvent | src/pages/Calendarttwo.tsx:242 | removes exactly the events with the id, the others keeping their order; an id no event has changes nothing |
| Calendar.Board.SaveEvent | src/pages/Calendarttwo.tsx:213-231 | no picked range changes nothing; otherwise the new event is appended |
| Calendar.NewEvent | src/pages/Calendarttwo.tsx:216-229 | id from the clock, the picked range, the type; a kg amount only for fertilising or harvesting, 0 when left blank |
| Calendar.Board.MarkAllRead | src/pages/Calendarttwo.tsx:397 | every notification read and the badge at 0 |
| Calendar.Board.MarkReadById | src/pages/Calendarttwo.tsx:424 | only notifications with that id are marked; the badge drops by the unread ones among them |
| Calendar.UnreadCount | src/pages/Calendarttwo.tsx:200 | never more than the number of notifications |
| Calendar.ReadAllClearsBadge | src/pages/Calendarttwo.tsx:397 | after marking all read the badge is 0 |
| Calendar.ReadOneCount | src/pages/Calendarttwo.tsx:424 | marking by id lowers the badge by the unread notifications with that id |
| Calendar.TotalKgAppend | src/pages/Calendarttwo.tsx:181-197 | the kg total of a concatenation is the sum of the totals |
| Calendar.SumKgIsYearTotal | src/pages/Calendarttwo.tsx:181-197 | the reduce is the total over the year's events, missing amounts counted 0 |
| Calendar.SumKgAppend | src/pages/Calendarttwo.tsx:181-197 | the yearly sum is additive over the event list |
| Calendar.RecommendationsForMonth | src/pages/Calendarttwo.tsx:246-267 | never empty; the prune advice only in months 1-2 without pruning, fertiliser advice without fertilising, water advice only in months 2-5 without watering, harvest advice with a harvest, else the all-done line |
| ServerPage.SlotPathIsNotLegacy | src/pages/ServerPage.tsx:229-231 | the rewritten link no longer contains the old path |
| ServerPage.Destination | src/pages/ServerPage.tsx:250-251 | the link when it is non-blank and free of the old path, else `/provider-slot`; never contains the old path |
| ServerPage.OnClickNoti | src/pages/ServerPage.tsx:243-253 | an index out of range writes nothing; otherwise only that notification is marked read and the destination is returned |
| ServerPage.OnClickNotiEffect | src/pages/ServerPage.tsx:241-252 | the click lowers the badge by one if the item was unread, and never leads to the old path |
| ServerPage.FixLink | src/pages/ServerPage.tsx:228-234 | only a link with the old path changes, to `/provider-slot` |
| ServerPage.FixLinks | src/pages/ServerPage.tsx:227-234 | every notification fixed, and `changed` exactly when one had the old path |
| ServerPage.MigrateLinks | src/pages/ServerPage.tsx:222-240 | writes the fixed list only when something changed |
| ServerPage.MigrationSettles | src/pages/ServerPage.tsx:222-240 | after migration no link has the old path, and a list without one is left as it is |
| ServerPage.LoadJobs | src/pages/ServerPage.tsx:256-261 | the stored jobs when there are any; otherwise the four seed jobs, which are also stored |
| ServerPage.Advance | src/pages/ServerPage.tsx:270-273 | รอเริ่มงาน to กำลังดำเนินการ, กำลังดำเนินการ to จบงาน with `finishedAt`, จบงาน unchanged; never backwards |
| ServerPage.HandlePrimary | src/pages/ServerPage.tsx:267-276 | only the jobs with the id advance; the others are untouched |
| ServerPage.ForwardOnly | src/pages/ServerPage.tsx:267-276 | no sequence of presses moves a job back, and a finished job never changes |
| ServerPage.TwoPressesFinish | src/pages/ServerPage.tsx:267-276 | two presses take a waiting job to finished, stamped with the second press |
| ServerPage.CurrentJobs | src/pages/ServerPage.tsx:292 | exactly the jobs waiting or in progress |
| ServerPage.WaitingJobs | src/pages/ServerPage.tsx:293 | exactly the waiting jobs |
| ServerPage.History | src/pages/ServerPage.tsx:296-302 | the finished jobs, newest `finishedAt` first, as a permutation |
| ServerPage.JobsPartition | src/pages/ServerPage.tsx:292-302 | current jobs and history together count every job once |
| ServerSetup.LoadDraft | src/pages/ServerSetup.tsx:119-126 | the stored draft, or one with no professions when the key is absent or corrupt |
| ServerSetup.FormForKeys | src/pages/ServerSetup.tsx:145-148 | the initial form has a value for exactly the keys of the fields |
| ServerSetup.FormForValues | src/pages/ServerSetup.tsx:147 | each key holds "no" for a yes/no field and "" otherwise, the last field with a key winning |
| ServerSetup.InitForm | src/pages/ServerSetup.tsx:143-150 | the loop builds the initial form over the fields then the related fields |
| ServerSetup.MissingEmptyIff | src/pages/ServerSetup.tsx:163-169 | no label is missing exactly when every required field is filled |
| ServerSetup.MissingStep | src/pages/ServerSetup.tsx:164-167 | a field adds its label exactly when it is required and blank |
| ServerSetup.MissingLabels | src/pages/ServerSetup.tsx:163-168 | the loop collects the labels of the blank required fields in catalog order |
| ServerSetup.PushProfession | src/pages/ServerSetup.tsx:159-178 | no service picked or a blank required field leaves the draft, the latter with the alert listing the labels; otherwise one entry is appended |
| ServerSetup.RemoveProfession | src/pages/ServerSetup.tsx:180-184 | stores the draft without the entries of that id |
| ServerSetup.PushThenRemove | src/pages/ServerSetup.tsx:175-181 | removing a freshly pushed entry restores the professions |
| ServerSetup.RemoveExactly | src/pages/ServerSetup.tsx:181 | exactly the entries with the id leave |
| PlotRoute.UpdatedDate | backend/routes/plotpage.js:36-43 | a parsable string or array keeps at most its first ten characters or elements; any other parsable kind, and any present value that does not convert to a string, throws; a missing value gives today; a present unparsable one is refused |
| PlotRoute.AddPlot | backend/routes/plotpage.js:26-81 | an inserted row has the valid status, a present id and name, location "" by default, colour green for ปกติ and orange otherwise unless given, and a date of at most ten characters or elements; the 500 comes exactly from an exception on the way: an unconvertible status in its message, a date that does not convert or has no `slice`, an unconvertible measurement, or an unconvertible user id |
| PlotRoute.IdentityCheckedFirst | backend/routes/plotpage.js:26-28 | a missing id or name is refused before anything else |
| PlotRoute.StatusCheckedSecond | backend/routes/plotpage.js:30-34 | then a status other than ปกติ and เฝ้าระวัง is refused, naming it, or answered 500 when it does not convert to a string |
| PlotRoute.DateCheckedThird | backend/routes/plotpage.js:36-43 | then a present unparsable date is refused, or answered 500 when it does not convert to a string |
| PlotRoute.NumbersCheckedLast | backend/routes/plotpage.js:45-52 | then, with the date missing or a parsable string or array, a measurement that is not a number is refused, unless converting one of the four throws, which answers 500 |
| PlotRoute.ArrayDateReachesNumbers | backend/routes/plotpage.js:36-52 | a parsable array date is sliced and the request goes on to the measurements' 400 |
| PlotRoute.ObjectStatusThrows | backend/routes/plotpage.js:30-34 | an object status with its own `toString` key throws while the message is built: 500, not 400 |
| PlotRoute.ObjectUserIdThrows | backend/routes/plotpage.js:59-71 | a user id object with its own `toString` key throws in `Number(user_id)`: 500, no insert |
| PlotRoute.InsertIff | backend/routes/plotpage.js:26-71 | the insert is reached exactly when every check passes and every conversion returns; the date is the first ten characters (or elements) of the given string (or array), or of now |

## Left out

- Cross-tab signalling: the `CustomEvent`, `BroadcastChannel` and `storage` listeners only re-read a key. The model has one browser context, so page state and stored value are the same.
- React plumbing: `useState`/`useEffect` timing, rendering, `navigate`, `alert`, the modal's `setPage(1)` reset and the one-minute timers.
- `handleSecondary` (src/pages/ServerPage.tsx:279-289) only navigates or opens a dialog; it changes no stored state.
- The clock, locale and randomness (`Date.now`, `toLocaleTimeString`, `toISOString`, `crypto.randomUUID`, `Math.random`, `makeId`) are parameters, one per reading in the code: an operation that reads the clock twice takes two readings, each calendar notification takes its own, and so does each migrated slot's date. Ids are therefore not proved distinct.
- JavaScript's `Number`, `Date.parse`, `String`, `toFixed` and `toLocaleString` are parameters, and floating point is `real` with NaN as `None`.
- JSON mechanics: a stored value either parses to a list of the record type or is `Corrupt`. Items of the wrong shape (a `null` element, a non-string `link`) are not represented, so the `typeof` checks of the link migration are not modelled.
- ProviderSlots.AddRangeSlots: the stored date of each day is `dateOf(day)`. The model does not claim it equals the typed date, because the page renders it in UTC.
- ServerPage.History and FindProviders.ModalList: sorted and a permutation. The model does not state that `Array.prototype.sort` keeps equal keys in order.
- Text.Trim covers the ASCII white space, the no-break space and the byte-order mark, not every Unicode space of `trim`. Text.ToLower lowers ASCII letters only, unlike `toLowerCase`.
- The mock provider list and the sample alerts' wording are data, not logic; only their shape is modelled.
- `notifyBrowser`, `fetch`, the sensor read of `DashboardData` and the database insert of `plotpage.js` are outside the model. So is the 500 answer after a database error; the 500 of `AddPlot` is an exception thrown while checking: `slice` on a parsable date that is neither a string nor an array, or a value that does not convert to a string or number. Which values `Date.parse` accepts is the `dateParses` parameter.
- PlotRoute.Converts: a JSON object is described only by whether it has an own `toString` key, the one way a parsed JSON body makes `String(v)` or `Number(v)` throw. The other keys of an object do not matter to the handler's checks. What the database driver does with object or array values is outside the model.
- The registration photo read by `FileReader` in `handleFinish` and the server upload.
- ServerSetup.PushProfession: a draft stored without a `professions` field (the `draft.professions` fallback to an empty list) is not representable, because a stored draft always has the list.
- Calendar.Board.Tick: two events of today with the same id both get a notification in one run, as in the code, since `existing` is not updated inside the loop. Keys built with `-` can collide (`a-b` plus `c` against `a` plus `b-c`). The model keeps both behaviours.
- FindProviders.MarkAlertsRead: the page's badge is a memo on the alert list (src/pages/FindProviders.tsx:211-214), so the written count does not change the badge on screen until the list changes. The model states the badge recomputed from the store, not the memo.
- Accept and reject do not check that the booking was pending and do not deduplicate alerts. The code behaves this way, although a booking's status could be read as one-way.
