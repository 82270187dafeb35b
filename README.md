# Vehicle-rental client: a verified model of its client-side logic

The app is a React Native client for a peer-to-peer vehicle-rental service. It talks to a REST backend and to two Socket.IO channels. Most of it is screens. This project models, in Dafny, the parts that hold rules:

- **Sessions and notifications** (`app_context.dfy`, module `AppContext`). The provider signs the stored user in and out and opens both socket channels. It keeps four listeners registered while a user is signed in. It maintains the notification list (de-duplicated by id, newest first, marked read one at a time or all at once) and the chat-session list (a snapshot mapped into summaries, then moved to the front by each update).
- **Socket service** (`socket_service.dfy`, module `Sockets`).
  - A class with two channel handles and two listener maps; the last registration wins.
  - A socket is an abstract record: a connected flag, handlers per event (socket.io's `on` appends), and the log of emitted messages. `SimulateNotificationConnect` and `SimulateChatConnect` stand for the transport's `'connect'` event.
  - A ghost set `retired` holds the handles that were dropped. It is what keeps a new handle distinct from every old one.
- **Vehicle details screen** (`car_details.dfy`, module `CarDetails`, over the civil calendar in `calendar.dfy`). Covered:
  - time parsing, the 15-minute time options and time-window validation;
  - the months to query, the booked-day expansion and the booking-overlap check;
  - the day count and total price;
  - the order of the "Book now" checks and the delete-error messages;
  - date display, the calendar grid, and the date picker's state (day presses, month navigation).

  Dates are civil `(year, month 0..11, day, hour, minute)` values. `Stamp` orders them by minutes since 0000-01-01 (proleptic Gregorian).
- **Time-picker modal** (`time_picker.dfy`): the 48 half-hour slots, scroll-to-index and index-from-offset, the five-character truncation on opening, and the `:00` suffix on confirming.
- **Filter modal** (`filter_modal.dfy`): the filter record and its transitions, including the dependent fields each change clears; which dropdowns are disabled; the option lists; and the two fetches with their early exits.
- **API client** (`api.dfy`): query strings as key/value sequences, the optional request bodies, and the request/response interceptors with their refresh-once policy.
- **Pending rental requests** (`pending_requests.dfy`): the status colour table, enriching each rental with vehicle and renter details (with fallbacks), the approve/reject decision, and the loading/refreshing state.
- **Owner's vehicle list** (`vehicle_list.dfy`): the card shown for a rejected vehicle, and the delete-confirmation state machine.
- **Earlier notification screen** (`old_notification.dfy`): chat/rental classification, the title, details, content and badge strings, the mark-as-read guard, and which of the screen's four states is shown.

`common.dfy` holds JavaScript truthiness (`Truthy`, `TruthyInt`, `OrElse`), decimal formatting with its round trip, `split`, and a generic remove-by-key (`Without`) with its lemmas. `chat_types.dfy` holds the payload and state records from `types/chatData.ts` and `types/context.ts`.

Network answers, storage contents and fresh client ids are parameters: an `Answer`/`MonthAnswer`/`UserReply` value, a `lookup` function, a server function, or a `freshId` function. Several methods without contracts chain calls into scenarios:

- `Sockets.RegisterBetweenCreateAndConnect`: a listener registered after a handle is created but before it connects is attached twice.
- `CarDetails.StaleEndDateIsCaughtByBookNow`: moving the start date past a chosen end date is only caught by "Book now".
- `Api.AlwaysUnauthorized`: a server that always answers 401 gets exactly one retry.
- `PendingRequests.RefreshAfterFailure` and `VehicleList.DeleteRejectedVehicle`: a refresh after a failed fetch, and deleting a rejected vehicle.

## Model

| member | source | states |
|---|---|---|
| Common.OrElse | utils/oldNotification.tsx:76 | `a \|\| b` on strings: the first string unless it is empty, else the fallback |
| Common.NatToStringRoundTrip | utils/car-details.tsx:209-213 | decimal text of a number is all digits and reads back as that number |
| Common.Pad2RoundTrip | utils/car-details.tsx:209-213 | `padStart(2, '0')` of a number is at least two digits, exactly two below 100, and reads back as the number |
| Common.SplitNoSep | utils/car-details.tsx:225 | splitting text that has no separator gives the text alone |
| Common.SplitAt | utils/car-details.tsx:225 | splitting at the first separator gives the part before it, then the split of the rest |
| Common.WithoutMembers | components/PendingRequests.tsx:83 | `filter(x => key(x) !== k)` keeps exactly the elements whose key differs, drops as many as have the key, and leaves no element with that key |
| Common.WithoutConcat | components/PendingRequests.tsx:83 | filtering distributes over concatenation, so relative order is kept |
| Common.WithoutAbsent | components/AppContext.tsx:209 | filtering a key that no element has changes nothing |
| Common.WithoutIdempotent | components/vehicle/VehicleList.tsx:73 | filtering the same key twice is filtering it once |
| Sockets.JoinPayload | services/socketService.ts:140-142 | the payload starts with the id; `page` and `limit` appear, once each and with their values, exactly when truthy (0 and undefined are left out) |
| Sockets.Socket.constructor | services/socketService.ts:20-23 | a new socket is not connected, has no handlers and has emitted nothing |
| Sockets.Socket.On | services/socketService.ts:92 | `on` appends the callback to that event's handlers and changes nothing else |
| Sockets.Socket.Off | services/socketService.ts:164-170 | `off(event)` drops every handler of that event and only that |
| Sockets.Socket.Emit | services/socketService.ts:144 | `emit` appends one message to the log |
| Sockets.Socket.Disconnect | services/socketService.ts:46 | `disconnect` clears the connected flag and keeps the handlers |
| Sockets.AttachedLookup | services/socketService.ts:28-30 | after re-attaching a listener map, each event in it has its stored callback appended once, and other events are untouched |
| Sockets.AttachedStep | services/socketService.ts:28-30 | re-attaching one more listener extends the attached handlers by exactly that callback |
| Sockets.SocketService.constructor | services/socketService.ts:8-12 | both handles are null and both listener maps are empty |
| Sockets.SocketService.DisconnectNotification | services/socketService.ts:45-48 | the handle is null afterwards; an existing one is disconnected and retired, a null handle is handled safely; everything else is unchanged |
| Sockets.SocketService.ConnectNotification | services/socketService.ts:16-23 | a no-op when the handle is connected; otherwise the old handle is retired and a fresh unconnected socket with the user's id and token replaces it |
| Sockets.SocketService.SimulateNotificationConnect | services/socketService.ts:25-34 | on connect every stored notification listener is attached to the socket, then `joinRoom {userId}` is emitted |
| Sockets.SocketService.DisconnectChat | services/socketService.ts:82-85 | the chat handle is null afterwards; an existing one is disconnected and retired |
| Sockets.SocketService.ConnectChat | services/socketService.ts:52-59 | a no-op when connected; otherwise a fresh chat socket replaces the retired old one |
| Sockets.SocketService.SimulateChatConnect | services/socketService.ts:61-71 | on connect every stored chat listener is attached, then `joinChatList {userId}` is emitted |
| Sockets.SocketService.AttachAll | services/socketService.ts:28-30 | the `forEach` loop attaches each listener of the map exactly once |
| Sockets.SocketService.RegisterNotificationListener | services/socketService.ts:90-93 | the map entry is overwritten (last registration wins) and, when a handle exists, the callback is appended to it |
| Sockets.SocketService.RegisterChatListener | services/socketService.ts:100-103 | the same rule for the chat channel |
| Sockets.SocketService.OnRentalNotification | services/socketService.ts:90-93 | registers the rental-notification listener: the map entry is overwritten; on a live handle the callback is appended to that event's handlers, and its other handlers, connected flag and emitted log are kept |
| Sockets.SocketService.OnMessageNotification | services/socketService.ts:95-98 | the same for message notifications, with the live handle's other handlers, connected flag and emitted log kept |
| Sockets.SocketService.OnChatListMessage | services/socketService.ts:100-103 | the same for chat-list snapshots on the chat channel, with the live chat handle's other handlers, connected flag and emitted log kept |
| Sockets.SocketService.OnChatListMessageUpdate | services/socketService.ts:105-108 | the same for chat-list updates on the chat channel, with the rest of the live chat handle kept |
| Sockets.SocketService.OnChatSessionMessage | services/socketService.ts:117-122 | the same for session messages on the chat channel, with the rest of the live chat handle kept |
| Sockets.SocketService.OnChatSessionMessageUpdate | services/socketService.ts:128-133 | the same for session message updates on the chat channel, with the rest of the live chat handle kept |
| Sockets.SocketService.JoinSession | services/socketService.ts:137-149 | emits `joinSession` with the payload rule only when the chat socket is connected, and emits nothing otherwise |
| Sockets.SocketService.JoinChatList | services/socketService.ts:151-161 | emits `joinChatList` with the payload rule only when connected |
| Sockets.SocketService.Off | services/socketService.ts:164-170 | removes the event from both listener maps and from both sockets, leaving every other event untouched |
| AppContext.AddNotification | components/AppContext.tsx:145-150 | a notification whose id is listed leaves the list unchanged; otherwise it is prepended unread; either way its id is listed afterwards |
| AppContext.AddKeepsIdsUnique | components/AppContext.tsx:145-150 | adding keeps the notification ids unique |
| AppContext.AddRedeliveryIsNoOp | components/AppContext.tsx:172-176 | delivering a notification with the same id again changes nothing |
| AppContext.MarkRead | components/AppContext.tsx:235-239 | exactly the entries with that id become read; order, payloads and client ids are unchanged |
| AppContext.MarkAll | components/AppContext.tsx:241-243 | every entry is read and nothing else changes |
| AppContext.MarkReadIdempotent | components/AppContext.tsx:235-239 | marking the same id twice is marking it once |
| AppContext.MarkAllIdempotent | components/AppContext.tsx:241-243 | marking all twice is marking all once |
| AppContext.MarkAllAbsorbsMarkRead | components/AppContext.tsx:241-243 | marking all after marking one gives the same list as marking all |
| AppContext.MarkReadKeepsIdsUnique | components/AppContext.tsx:235-243 | both mark operations keep ids unique |
| AppContext.DeliverThenMarkRead | components/AppContext.tsx:145-150 | after delivering a notification and marking its id, exactly one entry has that id and it is read |
| AppContext.RentalToast | components/AppContext.tsx:124-143 | the toast names the rental; tapping it opens rental history exactly when the current user is the renter, and otherwise that vehicle's rentals |
| AppContext.MessageToast | components/AppContext.tsx:158-171 | the title names the sender, or 'a user'; the body is 'Sent an image.' exactly for images, and otherwise the content in double quotes; tapping opens that chat |
| AppContext.Summarize | components/AppContext.tsx:181-193 | a summary takes its fields from the first receiver and the last message, with the defaults 'New Conversation', no receiver and 'No messages yet'; its unread count is 0 |
| AppContext.SummarizeSessions | components/AppContext.tsx:179-196 | a snapshot gives one summary per session, in order |
| AppContext.SnapshotKeepsOrder | components/AppContext.tsx:179-196 | summaries keep the session ids in order with no unread messages, and unique session ids stay unique |
| AppContext.FindSession | components/AppContext.tsx:201 | `find` returns the first session with that id, or none when no session has it |
| AppContext.ApplyListUpdate | components/AppContext.tsx:214 | an update for an unknown session leaves the list unchanged |
| AppContext.ListUpdatePresent | components/AppContext.tsx:200-211 | an update for a known session puts the FIRST session with that id (as `find` returns it) first, with the new content and time and every other field as before; the rest is the list without that id, in order |
| AppContext.CountKeyUnique | components/AppContext.tsx:209 | with unique ids, each id occurs once |
| AppContext.ListUpdateKeepsUnique | components/AppContext.tsx:198-216 | with unique session ids, an update keeps the length, keeps ids unique and loses no session |
| AppContext.WithoutUnique | components/AppContext.tsx:209 | filtering out one id keeps the other ids unique |
| AppContext.ListUpdateIdempotent | components/AppContext.tsx:198-216 | applying the same update twice is applying it once |
| AppContext.SnapshotThenUpdateExample | components/AppContext.tsx:179-216 | example only (the all-inputs facts are `SnapshotKeepsOrder` and `ListUpdatePresent`): a one-session snapshot followed by an update shows the updated content verbatim under the receiver's name |
| AppContext.AppProvider.constructor | components/AppContext.tsx:55-58 | the provider starts with no user, loading, and empty lists |
| AppContext.AppProvider.Logout | components/AppContext.tsx:61-67 | the user is null, notifications are empty, both channels are disconnected and dropped, and the chat sessions are kept; the loading and error flags and the listener flag it does not set are unchanged |
| AppContext.AppProvider.FetchUserAndConnect | components/AppContext.tsx:70-102 | both channels are dropped first: every old socket ends disconnected. Without a token the user stays null. A 200 reply with a user and a fresh token signs that user in on two new channels. Every other path ends logged out. Loading is false afterwards; the loading and error flags and the listener flag it does not set are unchanged |
| AppContext.AppProvider.SignIn | components/AppContext.tsx:78-98 | the branch after a token is found: signed in with both channels opened only when the reply succeeds, otherwise logged out; the loading and error flags and the listener flag it does not set are unchanged |
| AppContext.AppProvider.SyncListeners | components/AppContext.tsx:109-233 | the effect's cleanup removes the old registrations from the maps and the live sockets; then the four provider listeners are registered exactly when a user is signed in, and appended to each live socket's handlers; connection state and emitted logs are kept; the loading and error flags and the listener flag it does not set are unchanged |
| AppContext.AppProvider.RemoveListeners | components/AppContext.tsx:225-231 | the four provider events are removed from both listener maps and from both live sockets' handlers; other events, the connected flags and the emitted logs are kept; the loading and error flags and the listener flag it does not set are unchanged |
| AppContext.AppProvider.AddListeners | components/AppContext.tsx:219-222 | the rental and message handlers go on the notification channel, the snapshot and update handlers on the chat channel, in the maps and appended to each live socket's handlers; other events, connected flags and emitted logs are kept; the loading and error flags and the listener flag it does not set are unchanged |
| AppContext.WithNotificationHandlers | components/AppContext.tsx:219-220 | a live notification socket after setup: the rental and message handlers are each appended to their event's handlers, and every other event's handlers are unchanged |
| AppContext.WithChatHandlers | components/AppContext.tsx:221-222 | a live chat socket after setup: the snapshot and update handlers are each appended to their event's handlers, and every other event's handlers are unchanged |
| AppContext.AppProvider.ReceiveRentalNotification | components/AppContext.tsx:116-151 | a rental event shows the rental toast and adds the notification by the de-duplication rule; the loading and error flags and the listener flag it does not set are unchanged |
| AppContext.AppProvider.ReceiveMessageNotification | components/AppContext.tsx:153-177 | a message event shows the message toast and adds the notification by the same rule; the loading and error flags and the listener flag it does not set are unchanged |
| AppContext.AppProvider.ReceiveChatList | components/AppContext.tsx:179-196 | a snapshot replaces the chat sessions with their summaries and ends loading; the loading and error flags and the listener flag it does not set are unchanged |
| AppContext.AppProvider.ReceiveChatListUpdate | components/AppContext.tsx:198-216 | an update applies the move-to-front rule to the chat sessions; the loading and error flags and the listener flag it does not set are unchanged |
| AppContext.AppProvider.MarkNotificationAsRead | components/AppContext.tsx:235-239 | the notifications become `MarkRead` of the old list; the loading and error flags and the listener flag it does not set are unchanged |
| AppContext.AppProvider.MarkAllNotificationsAsRead | components/AppContext.tsx:241-243 | the notifications become all read; the loading and error flags and the listener flag it does not set are unchanged |
| AppContext.OffEach | components/AppContext.tsx:225-231 | the four `off` calls remove exactly the four provider events |
| AppContext.Cleared | components/AppContext.tsx:225-231 | after a due cleanup no provider event is registered, and events the provider does not own are untouched |
| Calendar.DaysInMonth | utils/car-details.tsx:275 | `new Date(y, m + 1, 0).getDate()` lies between 28 and 31 |
| Calendar.Weekday | utils/car-details.tsx:276 | `getDay()` is a weekday number from 0 (Sunday) to 6 |
| Calendar.NextDayNumber | utils/car-details.tsx:143 | `setDate(getDate() + 1)` moves to the next day number at the same time of day, exactly 1440 minutes later |
| Calendar.MonthStartMono | utils/car-details.tsx:414-427 | month starts strictly increase with the month index |
| Calendar.MonthStartBefore | utils/car-details.tsx:416-421 | an instant is at or after the start of month k exactly when its month index is at least k |
| Calendar.MonthIndexMono | utils/car-details.tsx:416 | a later instant is never in an earlier month |
| Calendar.WeekdayInMonth | utils/car-details.tsx:276-283 | day d of a month falls d − 1 weekdays after the first of that month |
| Calendar.KnownWeekdays | utils/car-details.tsx:276 | example only (the all-inputs fact is `WeekdayInMonth`): 1 January 1970 was a Thursday, 1 January 2024 a Monday and 29 February 2000 a Tuesday |
| CarDetails.NumberOf | utils/car-details.tsx:225 | `Number(part)`: digits read as their value, the empty string as 0, anything else as NaN (none) |
| CarDetails.ParseNeedsColon | utils/car-details.tsx:224-227 | without a ':' the minutes are undefined and the text does not parse |
| CarDetails.ParseTime | utils/car-details.tsx:224-227 | specified by `ParseNeedsColon`, `ParseFormat` and `ParseFormatWithSeconds` |
| CarDetails.FormatClock | utils/car-details.tsx:239-241 | specified by `ParseFormat` and `FormatClockInjective` |
| CarDetails.ParseFormat | utils/car-details.tsx:224-227 | parsing a zero-padded `HH:MM` gives back the time |
| CarDetails.ParseFormatWithSeconds | utils/car-details.tsx:224-227 | parsing `HH:MM:00` gives back the time; the seconds are ignored |
| CarDetails.FormatClockInjective | utils/car-details.tsx:239-241 | different times format differently |
| CarDetails.ValidateTime | utils/car-details.tsx:461-469 | true exactly when all three times parse and start ≤ time ≤ end in minutes, both ends included |
| CarDetails.Step | utils/car-details.tsx:242-247 | one loop turn moves strictly later and leaves the minutes below 60 |
| CarDetails.SlotsShape | utils/car-details.tsx:234-249 | the slots are empty exactly when the start is past the limit; otherwise they begin at the start, stay within the limit and increase strictly |
| CarDetails.GenerateTimeOptions | utils/car-details.tsx:229-250 | the while loop returns `TimeOptions` of its two inputs |
| CarDetails.TimeOptionsParsed | utils/car-details.tsx:229-250 | for two parsing inputs the options are the formatted slots from the start up to the end |
| CarDetails.TimeOptions | utils/car-details.tsx:229-250 | specified by `TimeOptionsParsed`, `OptionsIncreasing`, `OptionsWithinWindow` and `OptionsPassValidation`; `GenerateTimeOptions` is the loop proved equal to it |
| CarDetails.OptionsIncreasing | utils/car-details.tsx:229-250 | every option parses, the options strictly increase and are distinct, and the first is the start time |
| CarDetails.OptionsWithinWindow | utils/car-details.tsx:234-237 | the options are empty exactly when start > end, and each lies between start and end |
| CarDetails.OptionsPassValidation | utils/car-details.tsx:288-293 | every offered option passes `validateTime` against the window it was generated from |
| CarDetails.MonthPair | utils/car-details.tsx:418-419 | a month index gives a month number from 1 to 12 |
| CarDetails.MonthPairInjective | utils/car-details.tsx:415-421 | different month indexes give different (month, year) pairs, which is why the set never merges two months |
| CarDetails.MonthRange | utils/car-details.tsx:414-427 | the pairs of consecutive months from the first to the last index |
| CarDetails.MonthRangeOrdered | utils/car-details.tsx:414-427 | those pairs are chronological and distinct |
| CarDetails.MonthsToCheckFacts | utils/car-details.tsx:414-427 | empty exactly when start > end; otherwise from the start's month through the end's month, each month 1..12, chronological and distinct |
| CarDetails.MonthsToCheck | utils/car-details.tsx:414-427 | specified by `MonthsToCheckFacts` and `MonthsToCheckComplete`; `GetMonthsToCheck` is the loop proved equal to it |
| CarDetails.MonthsToCheckComplete | utils/car-details.tsx:414-427 | every instant between start and end has its month in the list |
| CarDetails.MonthRangeContains | utils/car-details.tsx:414-427 | every month index in the range is listed |
| CarDetails.PrefetchMonths | utils/car-details.tsx:124 | the prefetch queries the current month through January of next year |
| CarDetails.NextMonthStart | utils/car-details.tsx:421 | `new Date(y, m + 1, 1)` is midnight on the first of the next month |
| CarDetails.LoopExit | utils/car-details.tsx:416-426 | when the loop stops, the collected months are exactly `MonthsToCheck` |
| CarDetails.GetMonthsToCheck | utils/car-details.tsx:414-427 | the loop returns `MonthsToCheck(start, end)` |
| CarDetails.EntryIsPair | utils/car-details.tsx:418-420 | the pair the loop adds for an instant is that month's pair |
| CarDetails.MonthsFromFresh | utils/car-details.tsx:420 | a month the loop reaches is not yet in the set, so the set behaves as a list |
| CarDetails.CollectMonths | utils/car-details.tsx:416-422 | the while loop ends past the end date, having collected one pair per month from the start |
| CarDetails.DayRange | utils/car-details.tsx:141 | the set of whole days from lo to hi |
| CarDetails.LastBookedDay | utils/car-details.tsx:141-144 | the last day whose copy of the start time is still at or before the end |
| CarDetails.BookedDays | utils/car-details.tsx:138-145 | a day is booked by a booking exactly when it is on or after the start day and the start time on that day is not after the end |
| CarDetails.BookedDaysSpan | utils/car-details.tsx:138-145 | a booking books its first day, then every day to its end day, or to the day before when the end is earlier in the day than the start |
| CarDetails.ExpandBooking | utils/car-details.tsx:140-144 | the day-by-day while loop collects exactly `BookedDays` |
| CarDetails.UnionByMembers | utils/car-details.tsx:137-145 | a day is in the union exactly when some booking contributes it |
| CarDetails.AllBookedDaysMembers | utils/car-details.tsx:136-146 | a day is booked exactly when some booking books it |
| CarDetails.ExpandBookings | utils/car-details.tsx:136-146 | the `forEach` loop collects the union of all bookings' days |
| CarDetails.FetchBookedDates | utils/car-details.tsx:124-156 | no update exactly when some month's request throws (the loop is left for the catch and `setBookedDates` is not reached); otherwise the booked days are those of the bookings of every month from now through next January that answered with a 200 and an array, other months skipped |
| CarDetails.GatherBookings | utils/car-details.tsx:126-135 | the query loop completes exactly when no request throws, and then holds the answered months' bookings, in order |
| CarDetails.ConflictMeansSharedMinute | utils/car-details.tsx:446-452 | for proper intervals the conflict test holds exactly when the two half-open intervals share a minute, so back-to-back rentals never conflict |
| CarDetails.Conflicts | utils/car-details.tsx:446-452 | specified by `ConflictMeansSharedMinute` |
| CarDetails.CheckAvailability | utils/car-details.tsx:429-459 | false without a vehicle id or a date; false when any month's query fails; otherwise true exactly when no fetched booking conflicts |
| CarDetails.CollectedStep | utils/car-details.tsx:440-441 | one answered month appends its bookings |
| CarDetails.CollectBookings | utils/car-details.tsx:434-445 | the loop reports whether every month answered and, if so, returns their bookings in query order |
| CarDetails.AvailableMeansNoConflict | utils/car-details.tsx:429-459 | an available answer means no booking of any queried month conflicts |
| CarDetails.Available | utils/car-details.tsx:429-459 | specified by `AvailableMeansNoConflict` and `CollectedContains`; `CheckAvailability` is the method proved equal to it |
| CarDetails.CollectedContains | utils/car-details.tsx:440-441 | every booking of a queried month is among the collected ones |
| CarDetails.CalculateDays | utils/car-details.tsx:549-554 | 1 when a date is missing or the dates are equal; otherwise the difference rounded up to whole days |
| CarDetails.TotalPrice | utils/car-details.tsx:556 | 0 without a vehicle, else the price times the day count |
| CarDetails.TotalAtLeastOneDay | utils/car-details.tsx:556 | a non-negative price is always charged for at least one day |
| CarDetails.BookNowOrder | utils/car-details.tsx:471-513 | each outcome implies every earlier check passed; the confirmation screen is reached exactly when dates are set, end > start, both times are in their windows, the level is not 1, and the vehicle is available |
| CarDetails.BookNow | utils/car-details.tsx:471-513 | specified by `BookNowOrder` and `BookNowToast` |
| CarDetails.BookNowToast | utils/car-details.tsx:473-511 | no toast on success, an info toast exactly for the level-2 redirect, and a non-empty error toast for every other failure |
| CarDetails.GetErrorMessage | utils/car-details.tsx:533-547 | codes 2002, 2005, 2017 and 9001 map to their fixed messages; any other code falls back to the error's message or 'An unexpected error occurred.' |
| CarDetails.KnownCodesDistinct | utils/car-details.tsx:533-547 | example only (the all-inputs contract is `GetErrorMessage`'s): the four fixed messages are pairwise different |
| CarDetails.FormatDateTimeDate | utils/car-details.tsx:207-215 | empty exactly for a missing date; otherwise the text opens with the two-digit day, '/', and the two-digit one-based month |
| CarDetails.FormatDateTime | utils/car-details.tsx:207-215 | specified by `FormatDateTimeDate` and `FormatDateTimeTime` |
| CarDetails.FormatDateTimeTime | utils/car-details.tsx:207-215 | the text ends with the `HH:MM` time of day, which parses back to it |
| CarDetails.TimeOfDayText | utils/car-details.tsx:212-214 | a valid time of day is five characters and parses back |
| CarDetails.CalendarColumns | utils/car-details.tsx:274-283 | `firstDay` blanks, then days 1..daysInMonth; each day sits in its weekday's column, and no day repeats |
| CarDetails.CalendarGrid | utils/car-details.tsx:274-283 | specified by `CalendarColumns`; `BuildCalendar` is the loop proved equal to it |
| CarDetails.BuildCalendar | utils/car-details.tsx:274-283 | the two for loops build exactly that grid |
| CarDetails.BookedCellsDisabled | utils/car-details.tsx:349-351 | a day booked by any booking is drawn disabled |
| CarDetails.CellDisabled | utils/car-details.tsx:349-351 | specified by `BookedCellsDisabled` |
| CarDetails.PrevMonth | utils/car-details.tsx:299-306 | the previous month, wrapping from January to December of the previous year |
| CarDetails.NextMonth | utils/car-details.tsx:317-324 | the next month, wrapping from December to January of the next year |
| CarDetails.MonthNavigationRoundTrip | utils/car-details.tsx:299-324 | back then forward, or forward then back, returns to the same month |
| CarDetails.DatePicker.constructor | utils/car-details.tsx:43-54 | the picker starts closed, selecting the start, with no dates, on today's month, and the times at the vehicle's pickup and return start or '08:00' |
| CarDetails.DatePicker.ChooseTime | utils/car-details.tsx:217-222 | opens the picker on today's month, selecting the start, with dates, selected days and times kept |
| CarDetails.DatePicker.GoToPrevMonth | utils/car-details.tsx:299-306 | moves to the previous month; dates, selected days, times, the selection mode and visibility are kept |
| CarDetails.DatePicker.GoToNextMonth | utils/car-details.tsx:317-324 | moves to the next month; dates, selected days, times, the selection mode and visibility are kept |
| CarDetails.DatePicker.PickStartTime | utils/car-details.tsx:386 | sets the pickup time; the return time, dates, selected days, shown month and year, selection mode and visibility are kept |
| CarDetails.DatePicker.PickEndTime | utils/car-details.tsx:400 | sets the return time; the pickup time, dates, selected days, shown month and year, selection mode and visibility are kept |
| CarDetails.DatePicker.DayPress | utils/car-details.tsx:252-272 | the first press sets the start (at the pickup time) and moves to end selection. Later presses set the end, except an end not after the start, which is rejected and changes nothing. The shown month, the times and the picker's visibility are kept |
| TimePicker.PaddingHeight | components/modal/TimePickerModal.tsx:41 | the padding above and below one item fills the visible window of three items |
| TimePicker.TimeSlots | components/modal/TimePickerModal.tsx:118-122 | exactly 48 slots; slot i is hour ⌊i/2⌋ padded, then ':00' or ':30' |
| TimePicker.SlotIsFormatted | components/modal/TimePickerModal.tsx:118-122 | slot i is the `HH:MM` text of its half hour |
| TimePicker.TimeSlotsOrdered | components/modal/TimePickerModal.tsx:118-122 | every slot parses to a valid time; the slots strictly increase and are distinct, so they are usable as keys |
| TimePicker.FindIndex | components/modal/TimePickerModal.tsx:25 | `findIndex`: −1 exactly when the value is absent, otherwise its first position |
| TimePicker.ScrollTarget | components/modal/TimePickerModal.tsx:25-28 | scrolls only when the selected value is found |
| TimePicker.IndexAt | components/modal/TimePickerModal.tsx:35 | the rounded index of an offset: the item whose centre band contains it |
| TimePicker.SelectAt | components/modal/TimePickerModal.tsx:33-39 | a value is reported exactly when the rounded index is within the data, and it is the value at that index |
| TimePicker.ScrollRoundTrip | components/modal/TimePickerModal.tsx:25-39 | scrolling to a value and stopping within half an item of it selects that value again |
| TimePicker.Truncate | components/modal/TimePickerModal.tsx:110-113 | `substring(0, 5)`: the first five characters, or the whole text when shorter |
| TimePicker.WithSeconds | components/modal/TimePickerModal.tsx:126-131 | each of the four times with ':00' appended |
| TimePicker.ConfirmThenReopen | components/modal/TimePickerModal.tsx:108-131 | reopening on confirmed five-character times shows the same times; truncating twice is truncating once |
| TimePicker.ConfirmedSlotParses | components/modal/TimePickerModal.tsx:126-131 | a confirmed slot still parses to its time |
| TimePicker.TimePickerModal.constructor | components/modal/TimePickerModal.tsx:102-105 | the wheels start at 09:00, 17:00, 09:00 and 17:00 |
| TimePicker.TimePickerModal.Open | components/modal/TimePickerModal.tsx:108-115 | opening shows the first five characters of each initial value |
| TimePicker.TimePickerModal.ScrollEnd | components/modal/TimePickerModal.tsx:33-39 | stopping a wheel sets that wheel's time to the slot under it, and leaves everything unchanged when the index is out of range |
| TimePicker.TimePickerModal.Confirm | components/modal/TimePickerModal.tsx:124-133 | confirming passes on the four current times with seconds |
| FilterModal.ChangesKeepConsistent | components/modal/FilterModal.tsx:181-237 | from consistent filters (no brand without a type, no model without a brand, no district without a city), every enabled change and the reset stay consistent |
| FilterModal.SessionsStayConsistent | components/modal/FilterModal.tsx:181-237 | any sequence of enabled changes keeps the filters consistent |
| FilterModal.ParentChangesClearDependents | components/modal/FilterModal.tsx:190-228 | a type change clears brand and model, a brand change clears the model, a city change clears the district; every other field is kept |
| FilterModal.ResetFilters | components/modal/FilterModal.tsx:123-133 | specified by `ChangesKeepConsistent` (the defaults are consistent) and `ResetForgets` |
| FilterModal.BrandDisabled | components/modal/FilterModal.tsx:202 | specified by `ChangesKeepConsistent` and `SessionsStayConsistent` (no brand is picked while it is disabled) |
| FilterModal.ModelDisabled | components/modal/FilterModal.tsx:211 | specified by `ChangesKeepConsistent` and `SessionsStayConsistent` |
| FilterModal.DistrictDisabled | components/modal/FilterModal.tsx:237 | specified by `ChangesKeepConsistent` and `SessionsStayConsistent` |
| FilterModal.Apply | components/modal/FilterModal.tsx:181-237 | specified by `ChangesKeepConsistent`, `ParentChangesClearDependents` and `ResetForgets` |
| FilterModal.ResetForgets | components/modal/FilterModal.tsx:123-137 | whatever came before a reset has no effect on what follows |
| FilterModal.Upper | components/modal/FilterModal.tsx:140 | upper-cases a lower-case letter and leaves other characters |
| FilterModal.Capitalize | components/modal/FilterModal.tsx:140 | only the first character is upper-cased |
| FilterModal.CapitalizeIdempotent | components/modal/FilterModal.tsx:140 | capitalising twice is capitalising once |
| FilterModal.VehicleTypeData | components/modal/FilterModal.tsx:139-142 | one entry per vehicle type, valued by the type and captioned by its capitalised form |
| FilterModal.BrandDataFollowsType | components/modal/FilterModal.tsx:144-147 | the brand options are the car brands for 'car' and the motorcycle brands otherwise |
| FilterModal.BrandData | components/modal/FilterModal.tsx:144-147 | specified by `BrandDataFollowsType` |
| FilterModal.InitialTypeLabels | components/modal/FilterModal.tsx:25-30 | example only (the all-inputs contract is `VehicleTypeData`'s): before the constants load, the type options read 'Car' and 'Motorcycle' |
| FilterModal.FilterModalState.constructor | components/modal/FilterModal.tsx:31-34 | no models, no districts and no province code |
| FilterModal.FilterModalState.Reset | components/modal/FilterModal.tsx:123-137 | the filters return to their defaults and models, districts and province code are cleared |
| FilterModal.FilterModalState.PickCityPlace | components/modal/FilterModal.tsx:225-228 | picking a city clears the district and records its province code |
| FilterModal.FilterModalState.Change | components/modal/FilterModal.tsx:181-224 | an enabled dropdown or text change, other than picking a city (`PickCityPlace`) and the reset button (`Reset`), updates the filters by its transition and nothing else |
| FilterModal.FilterModalState.FetchModels | components/modal/FilterModal.tsx:47-64 | no type or no brand gives no models and no toast; otherwise the models of a good answer, or none, with a toast exactly when the request threw |
| FilterModal.FilterModalState.FetchDistricts | components/modal/FilterModal.tsx:85-108 | no province code gives no districts; otherwise the districts of a good answer, or none with the 'Could not load districts.' toast |
| Api.AppendIf | services/api/index.tsx:224 | a field is appended exactly when its value is truthy |
| Api.NumberField | services/api/index.tsx:228 | a number becomes a field exactly when it is truthy, as its decimal text |
| Api.PresentMembers | services/api/index.tsx:224-231 | a pair is present exactly when that field was given a non-empty value |
| Api.AppendAll | services/api/index.tsx:224-231 | appending never changes what was already there |
| Api.AppendAllPresent | services/api/index.tsx:224-231 | the conditional appends add exactly the truthy fields, in order |
| Api.FilteredVehiclesShape | services/api/index.tsx:197-233 | `page` then `limit` first (1 and 10 by default), then exactly the truthy optional fields in the fixed order |
| Api.FilteredVehiclesQuery | services/api/index.tsx:197-233 | specified by `FilteredVehiclesShape` and `FilteredVehiclesSendsTruthy` |
| Api.FilteredVehiclesSendsTruthy | services/api/index.tsx:224-231 | a brand, city or year is sent exactly when it is truthy, with its value |
| Api.RatingsQuery | services/api/index.tsx:279-284 | `vehicleId`, `page` and `limit` always; `rating` added exactly when truthy |
| Api.AvailabilityQuery | services/api/index.tsx:331-344 | `vehicleId` always, then `month` and `year` only when truthy |
| Api.MakeRatingBody | services/api/index.tsx:297-298 | the rating body carries the comment exactly when it is truthy |
| Api.UpdateUserForm | services/api/index.tsx:144-164 | nickname, avatar (as a JPEG file) and phone number each appear exactly when truthy, nothing else appears, no key appears twice, and they come in the order nickname, avatar, phone number |
| Api.Level2Form | services/api/index.tsx:88-130 | nine parts with a truthy middle name and eight without; first name first, middle name only second, then last name, ID card number and driver's licence, then the four ID pictures as JPEG files |
| Api.SendMessageRequest | services/api/index.tsx:436-452 | an image goes as multipart with session id, type and image; any other type goes as JSON with its content |
| Api.AuthHeader | services/api/index.tsx:19-28 | the `Authorization: Bearer` header is set exactly when a stored access token is truthy |
| Api.ApiClient.constructor | services/api/index.tsx:19-28 | the client starts with the stored tokens and nothing sent |
| Api.ApiClient.Request | services/api/index.tsx:31-62 | a non-401 answer settles as is. A 401 with no refresh token, a failed renewal or a thrown renewal ends in 'Session expired'. A 200 renewal stores the new token and retries once with it. At most two sends per request |
| PendingRequests.StatusColorListed | components/PendingRequests.tsx:92-112 | each of the thirteen listed statuses gets its group's colour, never the default |
| PendingRequests.StatusColor | components/PendingRequests.tsx:92-116 | specified by `StatusColorListed` and `StatusColorDefault` |
| PendingRequests.StatusColorDefault | components/PendingRequests.tsx:113-114 | any other status gets '#1F2937' |
| PendingRequests.GroupColorsDistinct | components/PendingRequests.tsx:92-116 | example only (the all-inputs facts are `StatusColorListed` and `StatusColorDefault`): the seven group colours and the default are all different |
| PendingRequests.VehicleOf | components/PendingRequests.tsx:49 | a 200 lookup gives the vehicle, anything else 'Unknown Vehicle' with the placeholder picture |
| PendingRequests.RenterOf | components/PendingRequests.tsx:50 | a 200 lookup gives the renter, anything else 'Unknown Renter' with the placeholder avatar |
| PendingRequests.Enrich | components/PendingRequests.tsx:43-53 | when every lookup answers, the rentals keep order and length and each gets its vehicle and renter; otherwise it fails with a lookup's error |
| PendingRequests.FetchOutcome | components/PendingRequests.tsx:36-65 | loaded exactly when the list answers 200 and enrichment succeeds, keeping the rentals' ids in order; a non-200 list fails with 'Failed to fetch pending rentals'; a thrown request fails with its message |
| PendingRequests.AfterDecision | components/PendingRequests.tsx:77-90 | after a 200 decision exactly the rentals with that id are removed; otherwise the list is unchanged |
| PendingRequests.DecisionToast | components/PendingRequests.tsx:79-88 | success exactly on a 200 reply, naming confirmation or rejection; otherwise an error with the server's reason or the fallback |
| PendingRequests.DecisionIdempotent | components/PendingRequests.tsx:83 | the same decision twice removes nothing more |
| PendingRequests.DecisionKeepsOrder | components/PendingRequests.tsx:83 | removal keeps the other rentals in order |
| PendingRequests.RenterName | components/PendingRequests.tsx:191 | the renter's nickname when set, else 'Unknown' |
| PendingRequests.PendingRequestsScreen.constructor | components/PendingRequests.tsx:31-34 | no rentals, loading, no error, not refreshing |
| PendingRequests.PendingRequestsScreen.Shown | components/PendingRequests.tsx:118-161 | the loading view exactly while loading; otherwise the error view exactly when there is an error; otherwise the empty view exactly when there are no rentals, else the list of them |
| PendingRequests.PendingRequestsScreen.StartRefresh | components/PendingRequests.tsx:71-75 | a pull-to-refresh sets refreshing and clears the error |
| PendingRequests.PendingRequestsScreen.Fetch | components/PendingRequests.tsx:36-65 | loading and refreshing are cleared on every path; the rentals are replaced on success, and the error and toast are set on failure |
| PendingRequests.PendingRequestsScreen.Decide | components/PendingRequests.tsx:77-90 | the list and toast follow the decision rule |
| VehicleList.CardOf | components/vehicle/VehicleList.tsx:85-139 | the delete control and rejected panel appear exactly for 'REJECTED', with a reason exactly when one is given; other statuses show price and status |
| VehicleList.AfterDelete | components/vehicle/VehicleList.tsx:73 | a successful delete drops exactly the vehicles with the selected id; a failed one changes nothing |
| VehicleList.CountUnique | components/vehicle/VehicleList.tsx:73 | with unique ids, each id occurs once |
| VehicleList.DeletesOnlyTheRejected | components/vehicle/VehicleList.tsx:100-119 | deleting through a card's control removes one vehicle, the rejected one |
| VehicleList.VehicleListScreen.constructor | components/vehicle/VehicleList.tsx:25-31 | no vehicles, loading, no error, dialog hidden, nothing selected |
| VehicleList.VehicleListScreen.Shown | components/vehicle/VehicleList.tsx:142-190 | the loading view exactly while loading; otherwise the error view exactly when there is an error; otherwise the empty view exactly when there are no vehicles, else the list of them |
| VehicleList.VehicleListScreen.Fetch | components/vehicle/VehicleList.tsx:33-51 | loading ends on every path; a 200 reply gives the vehicles; otherwise the error and toast say 'Failed to fetch vehicles' or the thrown message |
| VehicleList.VehicleListScreen.DeletePress | components/vehicle/VehicleList.tsx:61-64 | records the selected id and shows the dialog |
| VehicleList.VehicleListScreen.Dismiss | components/vehicle/VehicleList.tsx:212 | hides the dialog and keeps the selection |
| VehicleList.VehicleListScreen.ConfirmDelete | components/vehicle/VehicleList.tsx:67-83 | nothing happens without a selection; otherwise the list follows the delete rule, the toast reports the outcome, and the dialog is hidden with the selection cleared |
| OldNotification.MessageContent | utils/oldNotification.tsx:76 | the message, or 'No message content' when it is empty |
| OldNotification.Title | utils/oldNotification.tsx:78-86 | 'New Chat Message' for a chat notification, the message for a rental one |
| OldNotification.DetailsOpening | utils/oldNotification.tsx:78-94 | each details line opens with its form's words |
| OldNotification.Details | utils/oldNotification.tsx:80-94 | specified by `DetailsOpening`, `DetailsForm` and `ChatDetailsSender` |
| OldNotification.DetailsForm | utils/oldNotification.tsx:78-94 | the line opens 'From: ' exactly for chats, 'New booking by: ' exactly for rentals naming a renter, 'Status updated by: ' exactly for those naming only an owner, and 'Rental ID: ' otherwise |
| OldNotification.ChatDetailsSender | utils/oldNotification.tsx:82 | the chat form names the sender, or 'Unknown' |
| OldNotification.ReadLabel | utils/oldNotification.tsx:112 | 'Read' exactly when read, else 'Mark as Read' |
| OldNotification.CreatedAtText | utils/oldNotification.tsx:98 | 'N/A' without a date, else the locale text |
| OldNotification.Press | utils/oldNotification.tsx:107 | without an id nothing changes; with one exactly the entries with that id become read |
| OldNotification.PressShowsRead | utils/oldNotification.tsx:107-117 | after the press the row's badge reads 'Read' and its title, details and content are unchanged |
| OldNotification.Render | utils/oldNotification.tsx:69-122 | specified by `PressShowsRead`, `Title`, `ReadLabel` and `CreatedAtText` |
| OldNotification.Screen | utils/oldNotification.tsx:126-200 | loading first, then the error text, then the disabled view exactly when push is off and the list is empty, else one rendered row per notification with the placeholder exactly when empty |
| OldNotification.EnabledEmptyIsCaughtUp | utils/oldNotification.tsx:187-197 | with push on, an empty list shows the "all caught up" placeholder (the provider never supplies push on; see `ProviderSuppliedScreen`) |
| OldNotification.ProviderSuppliedScreen | components/AppContext.tsx:244-255 | with what the provider actually supplies (no loading flag, no error, push not enabled), the disabled view shows exactly when the list is empty, and otherwise the list without the placeholder |

## Left out

- Transport and storage: socket.io, axios networking and AsyncStorage are abstract values. Answers, stored tokens and renewals are parameters, and a socket is a record of handlers and emitted messages.
- The connect, disconnect and connect_error log handlers of both channels, and every `console` call: they only log.
- Asynchrony: promise interleaving, stale React state between renders, and the order in which `Promise.all` rejects. Each handler runs to completion on the state it is given.
- `AppContext.ApplyListUpdate`: the source changes the found session's fields in place (components/AppContext.tsx:205-206). The model builds an updated copy, so aliasing of that object is not captured. The contract covers only the unknown-id case; `ListUpdatePresent` states the known-id case.
- The socket handlers copy the chat-list update's `content` as is, with no preview text such as 'Sent an image.' for images. The model follows the code. That preview text exists only in the message-notification toast.
- `chatSessionsError` is part of the state, but no code path sets it.
- `activeChatSessionId` is declared in a type only and never checked, so no toast suppression is modelled.
- Date library semantics: time zones, daylight saving, `toISOString` (UTC keys for booked days), `toLocaleString` and `toDateString`. Dates are civil tuples and booked days are local day numbers.
- `CarDetails.NumberOf`: models `Number()` on decimal digits only. Signs, spaces, decimals, hex and exponents are treated as NaN.
- `CarDetails.GenerateTimeOptions`: requires that the start not have an hour below the end hour together with minutes that are not a number. The source returns nothing there. It throws on a start without ':', whose minutes are undefined. It loops forever on a start with non-numeric minutes such as '09:ab', because NaN minutes never reach 60.
- `CarDetails.OptionsPassValidation`: assumes both window times have minutes below 60. With a start such as '09:75', the next option, '10:00', is earlier in minutes than the start and fails validation.
- `CarDetails.DatePicker.DayPress`: requires a valid day of the shown month and a time that parses within 24 hours. JavaScript's date overflow for other inputs is not modelled.
- `CarDetails.FetchBookedDates`: the token and user checks and the stale `vehicle` read before the prefetch (utils/car-details.tsx:116-119) are not modelled. The prefetch is modelled on its own. When a month's request throws, it returns no update; the error message the screen's catch then shows (utils/car-details.tsx:151-156) is not modelled.
- The `'year-month'` string round trip in `getMonthsToCheck` is modelled as the pair itself.
- The `checkAvailability` catch is modelled as a false result. Its toast is not modelled.
- The vehicle and owner fetch, ratings and their pagination, the average rating, `handleDeleteVehicle` navigation, and the selected and in-range cell styling. These are display and navigation with no checkable rule.
- The "select dates" card text and the picker's confirm and cancel buttons, which are display only.
- `TimePicker.IndexAt`: takes a whole-pixel offset. `Math.round` of a fractional offset is not modelled.
- The `setTimeout` delay before scrolling.
- `FilterModal.Upper`: upper-cases ASCII letters only.
- `fetchConstants` and `fetchProvinces` in the filter modal: they are plain loads with nothing to check.
- uuid generation: a `freshId` function or a given client id stands for it.
- In the earlier notification screen: the scroll-to-end effect and the socket-connect effect, which are device and transport glue.
- The earlier notification screen reads `loadingNotifications`, `notificationError`, `isPushNotificationsEnabled`, `connectNotificationSocket`, `disconnectNotificationSocket`, `userId` and `accessToken` from the context (utils/oldNotification.tsx:18-30), but the provider supplies none of them (components/AppContext.tsx:244-255). `OldNotification.Screen` takes the first three as free parameters, so its loading, error and push-enabled views describe states the app cannot reach; `ProviderSuppliedScreen` states what the app actually shows. The unmount cleanup calls an undefined function, which is not modelled.
