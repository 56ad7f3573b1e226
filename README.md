# Hotel administration front end: booking, listing and account rules

This project models the logic of a hotel administration web application:

- **Booking form.** How the form coerces typed values and counts nights. How it prices a stay: 5% VAT, a 3% tourism fee, 10% commission and the rest to the owner. How it shows the grand total and the pending balance, and how it splits a guest name. It also covers the state transitions that replace the form record when the rate, room or dates change.
- **Mock data service.** The in-memory booking, room, cleaning-task and property tables: create, update with `||` fallbacks, delete, look-up with "not found" errors, the derived fields of a reported booking, and the "today" check-in and check-out filters.
- **Lists.** The booking list and expense list filters, status badges and the status menus of the staff and owner booking lists.
- **Route guard.** The protected-route decision: spinner, redirect or render.
- **Pages.** The owner bookings page's delete-confirmation dialog. The expense edit form and its required fields. The owner and staff creation pages: the password checks, the room-selection toggle, initials and the submission outcome.

## Form of the model

- Pure rules are functions over datatypes. Examples: price breakdowns, filters, badges and the guard decision.
- Anything the application updates in place is a class whose methods state their whole new state:
  - the booking form's `formData` and date range;
  - the mock service's module-level arrays, held as `seq` fields;
  - the dialog flags of the owner bookings page;
  - the form records and busy flags of the creation pages.
- React `setFormData(prev => …)` updaters are pure functions; the class methods apply them.
- Money is an exact `real`. Dates are integer milliseconds, and `Math.round(n / d)` is `RoundDiv(n, d)`.
- JavaScript's `||` fallback is written out per type. The value falls back when it is `0` (numbers), `""` (strings) or missing.
- Inputs from outside the page are parameters:
  - the clock (`now`, `today`, `year`);
  - the date parser;
  - the result of a sign-up call;
  - the owner-id look-up;
  - the signed-in user's id.

Modules: `Wrappers`, `Seqs` (order-preserving filter, index look-up), `JsStrings` and `JsNumbers` (the JavaScript built-ins used, as exact functions), `Ui`, `BookingTypes`, `BookingPricing`, `BookingFormState`, `MockRecords`, `MockApi`, `BookingList`, `RouteGuard`, `OwnerBookings`, `Expenses`, `ExpenseEdit`, `AccountForms`, `OwnerAdd`, `UserAdd`.

### Behaviour of the code worth knowing

Each point is stated as a lemma.

- **Room selection toggle.** Toggling a selected room twice does not always restore the selection. Removing the room and adding it back moves it to the end, so the list is restored only when the room was already last (`OwnerAdd.ToggleTwicePresent`). For a room that was not selected, the toggle-twice round trip is exact (`OwnerAdd.ToggleTwiceAbsent`).
- **Date picker versus displayed nights.**
  - The date-range handler counts signed nights, while the display counts absolute nights. A check-out before check-in therefore prices a negative total while a positive number of nights is shown (`BookingFormState.DateRangeBackwardNegative`).
  - Half a day backwards shows 1 night and prices 0 nights (`BookingPricing.RangeNightsBackwardExamples`).
- **Room details effect.** This effect copies a room's rate without re-pricing (`BookingFormState.SyncedCanBreakConsistency`).
- **Booking update and the mirror fields.**
  - `updateBooking` writes the new value to the application field, but the reported booking reads the legacy mirror field. The mirror keeps its old value when the new one is `0` or `""` (`MockRecords.MergeKeepsOldOnFalsy`).
  - A room summary in the application's shape blanks the reported property (`MockRecords.MergeRoomsBlanksProperty`).
- **Booking ids.** New ids are `"b" + (length + 1)`. When the last booking's id is `"b" + length` (as it is while ids have only been handed out this way), deleting any booking except the last and then creating one gives two bookings with the same id (`MockApi.DeleteThenCreateDuplicatesId`).
- **Updates can rename a booking.** `updateBooking` spreads every key it is sent over the stored record, `id` and `created_at` included. An update that sends a new id moves the booking to that id, and fetching it by the old id then fails (`MockRecords.MergeCanChangeId`, `MockApi.FindAfterUpdate`).
- **Owner status colours.** The owner list colours `checked_out` gray where the staff list uses purple. It has no colour for `no_show` (`OwnerBookings.StatusColourAgreesWithList`).
- **Expense category.** The filter ignores case but the colour lookup does not (`Expenses.CategoryBadgeCaseSensitive`).

## Model

| member | source | states |
|---|---|---|
| BookingTypes.ParseStatus | src/services/supabase-types.ts:68 | a string denotes a booking status exactly when it is one of the six stored names |
| BookingTypes.StatusNameRoundTrip | src/services/supabase-types.ts:68 | every status's stored name reads back as that status |
| BookingTypes.ParseStatusRoundTrip | src/services/supabase-types.ts:68 | a string that reads as a status is that status's stored name |
| BookingTypes.StatusNameInjective | src/services/supabase-types.ts:68 | distinct statuses have distinct stored names |
| BookingPricing.EnsureNumberNumeral | src/components/bookings/AddEditBookingForm.tsx:56-63 | a string starting with an integer numeral (then junk) is coerced to that integer, as `parseFloat` reads it |
| BookingPricing.EnsureNumberNoDigit | src/components/bookings/AddEditBookingForm.tsx:56-63 | text with no digit is NaN under `parseFloat` and is coerced to 0 |
| BookingPricing.EnsureNumberRoundTrip | src/components/bookings/AddEditBookingForm.tsx:56-63 | a number is returned unchanged; a whole number shown as text reads back unchanged |
| BookingPricing.EnsureNumber | src/components/bookings/AddEditBookingForm.tsx:56-63 | a number is kept, a string is its `parseFloat` value or 0 when that is NaN, anything else is 0 |
| BookingPricing.DisplayNights | src/components/bookings/AddEditBookingForm.tsx:308-312 | nights are 0 when a date is missing, otherwise the nearest whole number of days between the dates (half rounds up), never negative |
| BookingPricing.DisplayNightsSymmetric | src/components/bookings/AddEditBookingForm.tsx:308-312 | swapping check-in and check-out gives the same count |
| BookingPricing.DisplayNightsWholeDays | src/components/bookings/AddEditBookingForm.tsx:308-312 | dates k whole days apart show abs(k) nights; equal dates show 0 |
| BookingPricing.RangeNights | src/components/bookings/AddEditBookingForm.tsx:285-288 | the date picker's count is the signed difference in days, rounded to nearest with halves up |
| BookingPricing.RangeNightsForward | src/components/bookings/AddEditBookingForm.tsx:285-288 | for a forward range the picker's count equals the displayed count |
| BookingPricing.RangeNightsBackward | src/components/bookings/AddEditBookingForm.tsx:285-288 | for a backward range the picker's count is at most 0, and it is minus the displayed count except at exact half days, where it is one more |
| BookingPricing.RangeNightsBackwardExamples | src/components/bookings/AddEditBookingForm.tsx:285-291 | half a day backwards displays 1 night but prices 0; one day backwards displays 1 and prices -1 |
| BookingPricing.Price | src/components/bookings/AddEditBookingForm.tsx:254-260 | total is rate times nights; VAT is 5% and commission 10% of it; the four shares sum exactly to the total, and the owner gets 82% |
| BookingPricing.PriceNonNegative | src/components/bookings/AddEditBookingForm.tsx:254-260 | a non-negative rate and stay give no negative share |
| BookingPricing.PriceAdditive | src/components/bookings/AddEditBookingForm.tsx:254-260 | pricing two stays separately gives the same shares as pricing them together |
| BookingPricing.PriceExample | src/components/bookings/AddEditBookingForm.tsx:254-260 | three nights at 150 are 450 with 22.5 VAT, 13.5 tourism fee, 45 commission and 369 to the owner |
| BookingPricing.GrandTotal | src/components/bookings/AddEditBookingForm.tsx:560 | the grand total is the stay total plus the security deposit |
| BookingPricing.PendingAmount | src/components/bookings/AddEditBookingForm.tsx:805 | pending is the grand total minus the amount paid, and is negative exactly when more than the grand total was paid |
| BookingPricing.PendingAmountExamples | src/components/bookings/AddEditBookingForm.tsx:800-805 | pending is not clamped: overpayment shows as a negative amount |
| BookingPricing.SplitGuestName | src/components/bookings/AddEditBookingForm.tsx:137-146 | the first name never contains a space |
| BookingPricing.SplitGuestNameRejoins | src/components/bookings/AddEditBookingForm.tsx:137-146 | first name, a space and the last name rejoin to the stored name; a one-word name has an empty last name |
| BookingPricing.SplitGuestNameOfJoined | src/components/bookings/AddEditBookingForm.tsx:137-146 | splitting `first + " " + last` recovers both when the first name has no space |
| BookingFormState.WithText | src/components/bookings/AddEditBookingForm.tsx:198-204 | the named text field takes the value |
| BookingFormState.WithTextOnlyField | src/components/bookings/AddEditBookingForm.tsx:198-204 | every other field, text or number, keeps its value |
| BookingFormState.WithNumber | src/components/bookings/AddEditBookingForm.tsx:206-217 | the named number field takes the value |
| BookingFormState.WithNumberOnlyField | src/components/bookings/AddEditBookingForm.tsx:206-217 | every other field keeps its value |
| BookingFormState.Nights | src/components/bookings/AddEditBookingForm.tsx:308-312 | the form's night count is never negative |
| BookingFormState.Recalculated | src/components/bookings/AddEditBookingForm.tsx:254-271 | afterwards the money fields are the price of the form's stay at the new rate, and every non-money field is unchanged |
| BookingFormState.RoomChanged | src/components/bookings/AddEditBookingForm.tsx:235-252 | the room id is set; an unknown room changes nothing else; a known room sets its number, property and rate and re-prices at that rate, even a rate of 0, and leaves every other field as it was |
| BookingFormState.RoomChangedZeroRate | src/components/bookings/AddEditBookingForm.tsx:235-252 | choosing a room whose rate is 0 sets rate and total to 0, because re-pricing overrides the `\|\|` fallback |
| BookingFormState.Synced | src/components/bookings/AddEditBookingForm.tsx:184-196 | the room effect never touches the derived money; without rooms, a room id or a matching room it changes nothing |
| BookingFormState.SyncedCanBreakConsistency | src/components/bookings/AddEditBookingForm.tsx:184-196 | copying a room's rate without re-pricing leaves a total that no longer matches rate times nights |
| BookingFormState.DateRangeApplied | src/components/bookings/AddEditBookingForm.tsx:273-306 | check-in is set to `from` and check-out to `to`, or to `from` when there is no `to`; without `to` no money changes; with `to` the total is the rate times the signed range nights |
| BookingFormState.DateRangeForwardConsistent | src/components/bookings/AddEditBookingForm.tsx:273-306 | a forward range re-prices exactly as `recalculateAmounts` would for the new dates |
| BookingFormState.DateRangeBackwardNegative | src/components/bookings/AddEditBookingForm.tsx:285-291 | a range one day backwards gives a total of -100 at rate 100 while one night is displayed |
| BookingFormState.LoadedName | src/components/bookings/AddEditBookingForm.tsx:131-146 | a guest record's names are used when present; no record and no name give empty names |
| BookingFormState.PopulatedDefaults | src/components/bookings/AddEditBookingForm.tsx:147-175 | the edit effect falls back to 2 adults, a 100 deposit and the "confirmed" status when the loaded values are 0 or empty |
| BookingFormState.PopulatedNameRejoins | src/components/bookings/AddEditBookingForm.tsx:137-146 | without a guest record the split name rejoins to the stored guest name |
| BookingFormState.PopulatedReadsNumerals | src/components/bookings/AddEditBookingForm.tsx:159-173 | a rate loaded as a numeral string is read as that number |
| BookingFormState.Populated | src/components/bookings/AddEditBookingForm.tsx:147-175 | the loaded reference, room, notes and dates are taken (a missing date is now), the guest name as found, the guest's email and phone (empty without a guest record) and the room number (empty when missing); children, rate, total, paid, commission, tourism fee, VAT and net-to-owner through `ensureNumber`; status and payment status with their "confirmed" and "pending" fallbacks; the property is left empty |
| BookingFormState.InitialFormFacts | src/components/bookings/AddEditBookingForm.tsx:74-105 | the new-booking form is a consistently priced three-night stay with 100 pending and a `BK-` reference |
| BookingFormState.InitialForm | src/components/bookings/AddEditBookingForm.tsx:74-105 | a stay from now to three days later, 2 adults, a 100 deposit, "confirmed" and "pending", and a non-empty reference exactly when not in edit mode |
| BookingFormState.BookingForm.constructor | src/components/bookings/AddEditBookingForm.tsx:74-105 | the initial form and a three-day date range starting now |
| BookingFormState.BookingForm.LoadRooms | src/components/bookings/AddEditBookingForm.tsx:107-122 | fetched rooms replace the list; a failed fetch leaves it unchanged |
| BookingFormState.BookingForm.Populate | src/components/bookings/AddEditBookingForm.tsx:125-182 | only in edit mode with data, the form becomes the loaded booking and the range its dates; otherwise nothing changes |
| BookingFormState.BookingForm.RecalculateAmounts | src/components/bookings/AddEditBookingForm.tsx:254-271 | the form is re-priced at the rate, consistently, and only money fields change |
| BookingFormState.BookingForm.HandleInputChange | src/components/bookings/AddEditBookingForm.tsx:198-204 | only the named text field changes |
| BookingFormState.BookingForm.HandleNumberChange | src/components/bookings/AddEditBookingForm.tsx:206-217 | the field takes the coerced number; a rate change also re-prices the form |
| BookingFormState.BookingForm.HandleCheckboxChange | src/components/bookings/AddEditBookingForm.tsx:228-233 | only the confirmation flag changes |
| BookingFormState.BookingForm.SetStatus | src/components/bookings/AddEditBookingForm.tsx:426 | only the status changes |
| BookingFormState.BookingForm.SetPaymentStatus | src/components/bookings/AddEditBookingForm.tsx:565 | only the payment status changes |
| BookingFormState.BookingForm.HandleRoomChange | src/components/bookings/AddEditBookingForm.tsx:235-252 | the form becomes `RoomChanged` of the old form and the loaded rooms |
| BookingFormState.BookingForm.SyncRoomDetails | src/components/bookings/AddEditBookingForm.tsx:184-196 | the form becomes `Synced` of the old form and the loaded rooms |
| BookingFormState.BookingForm.HandleDateRangeChange | src/components/bookings/AddEditBookingForm.tsx:273-306 | no start date changes nothing; otherwise the range is stored and the form updated by `DateRangeApplied` |
| MockRecords.NumOr | src/services/mock-api.ts:173-180 | `new \|\| old` on numbers: the new value unless it is missing or 0 |
| MockRecords.StrOr | src/services/mock-api.ts:173-180 | `new \|\| old` on strings: the new value unless it is missing or empty |
| MockRecords.Enhance | src/services/mock-api.ts:14-42 | the reported booking keeps id, status and dates; total and paid come from the mirrors; pending is total minus paid, ignoring the deposit; the rate is the stored `baseRate`, or 150 when that is 0 or missing, so it is never 0; the property id is the property name |
| MockRecords.Merge | src/services/mock-api.ts:162-185 | an update takes the id and creation time it is sent and otherwise keeps them, always keeps the booking number, stamps the update time, sets the status only when one is sent, and sets each of the eight legacy mirrors (amount, amountPaid, baseRate, securityDeposit, tourismFee, netToOwner, check_in, check_out) to `new || old` |
| MockRecords.MergeCanChangeId | src/services/mock-api.ts:170-182 | an update that sends an id, guest id and creation time is reported with them, under the old booking number |
| MockRecords.MergeReportsNewMoney | src/services/mock-api.ts:173-180 | a non-zero amount sent in an update is what the booking then reports |
| MockRecords.MergeKeepsOldOnFalsy | src/services/mock-api.ts:173-180 | for each mirror on its own, an update to 0 or "" is not reported: the total, payment, rate, deposit, tourism fee, owner share, check-in and check-out each keep their old reported value (and the pending amount when total and payment are both 0), while the stored total does become 0 |
| MockRecords.MergeReportsNewDates | src/services/mock-api.ts:173-174 | a non-empty check-in or check-out date sent in an update is the date reported |
| MockRecords.MergeRoomsBlanksProperty | src/services/mock-api.ts:35-39 | a room summary sent in an update is reported with an empty property id and name |
| MockRecords.MergeReferenceHidden | src/services/mock-api.ts:14-42 | an update never changes the reported reference |
| MockRecords.BookingNumber | src/services/mock-api.ts:112 | the booking number starts with `BK-<year>-` |
| MockRecords.BookingNumberFormat | src/services/mock-api.ts:112 | after the prefix come at least four digits whose value is the new count |
| MockRecords.NewBookingRecord | src/services/mock-api.ts:110-159 | the new id is `b` + (length + 1); reference and booking number agree; the guest name is the trimmed "first last" |
| MockRecords.NewBookingDefaults | src/services/mock-api.ts:110-159 | an empty request gives status confirmed, payment paid, 2 adults, rate 150, both dates now, nothing pending |
| MockRecords.NewBookingKeepsValues | src/services/mock-api.ts:110-159 | a sent status, total and payment are stored and reported |
| MockRecords.NewBookingGuestName | src/services/mock-api.ts:119 | trimming leaves a proper "first last" name unchanged |
| MockRecords.DatePart | src/services/mock-api.ts:199-222 | the date part of an ISO timestamp has no `T` |
| MockRecords.DatePartOf | src/services/mock-api.ts:199-222 | the date part of `day + "T" + time` is the day |
| MockRecords.NotFoundError | src/services/mock-api.ts:99-106 | the error names the kind of record and ends in " not found" |
| MockRecords.NewProperty | src/services/mock-api.ts:300-312 | a new property gets id `p` + (length + 1) and keeps every other key it was sent, with both timestamps set to now |
| MockRecords.MergedProperty | src/services/mock-api.ts:314-328 | sent keys override, other keys are kept, and `updated_at` is set to now |
| MockRecords.MergedPropertyCanChangeId | src/services/mock-api.ts:314-328 | an update that sends an `id` changes the property's id |
| MockApi.EnhanceAll | src/services/mock-api.ts:94-97 | every stored booking is reported, in order |
| MockApi.FindBooking | src/services/mock-api.ts:99-106 | fails with "Booking … not found" exactly when no booking has the id; otherwise reports the first booking with that id |
| MockApi.TodayCheckins | src/services/mock-api.ts:199-209 | only confirmed bookings whose check-in date part is today |
| MockApi.TodayCheckouts | src/services/mock-api.ts:212-222 | only checked-in bookings whose check-out date part is today |
| MockApi.TodayCheckinsExact | src/services/mock-api.ts:199-209 | a booking is among today's arrivals exactly when it is the report of a stored confirmed booking whose check-in date part is today |
| MockApi.TodayCheckoutsExact | src/services/mock-api.ts:212-222 | a booking is among today's departures exactly when it is the report of a stored checked-in booking whose check-out date part is today |
| MockApi.TodayCheckinsDateOrTimestamp | src/services/mock-api.ts:199-209 | a confirmed booking stored with today's date alone, or with a time after it, is listed |
| MockApi.FindAfterUpdate | src/services/mock-api.ts:162-185 | after an update that keeps the id, fetching it returns the merged record; after one that sends a new id, the old id is not found (with unique ids) and the new id returns the merged record unless an earlier booking has it |
| MockApi.FindAfterDelete | src/services/mock-api.ts:188-196 | with unique ids, a deleted booking can no longer be fetched |
| MockApi.FindAfterCreate | src/services/mock-api.ts:110-159 | a booking created with an unused id is fetched back as created |
| MockApi.DeleteThenCreateDuplicatesId | src/services/mock-api.ts:111 | deleting a booking other than the last and then creating one duplicates the last id |
| MockApi.MockDatabase.constructor | src/services/mock-api.ts:12 | the tables start as the given seed data |
| MockApi.MockDatabase.FetchBookings | src/services/mock-api.ts:94-97 | every stored booking is reported, in order |
| MockApi.MockDatabase.FetchBookingById | src/services/mock-api.ts:99-106 | fails exactly when no booking has the id |
| MockApi.MockDatabase.FetchTodayCheckins | src/services/mock-api.ts:199-209 | only confirmed bookings checking in today |
| MockApi.MockDatabase.FetchTodayCheckouts | src/services/mock-api.ts:212-222 | only checked-in bookings checking out today |
| MockApi.MockDatabase.CreateBooking | src/services/mock-api.ts:110-159 | exactly one record is appended, earlier ones unchanged; the result is the new record reported, with id `b` + (old length + 1) |
| MockApi.MockDatabase.UpdateBooking | src/services/mock-api.ts:162-185 | an unknown id fails with nothing changed; otherwise only the first matching record is replaced by the merge of any patch (id and creation time included) and the length is kept |
| MockApi.MockDatabase.DeleteBooking | src/services/mock-api.ts:188-196 | an unknown id fails with nothing changed; otherwise exactly the first matching record is removed, the rest in order |
| MockApi.MockDatabase.UpdateBookingStatus | src/services/mock-api.ts:253-262 | only the status of the first matching booking changes; an unknown id fails with nothing changed |
| MockApi.MockDatabase.UpdateRoomStatus | src/services/mock-api.ts:264-273 | only the status of the first matching room changes; an unknown id fails with nothing changed |
| MockApi.MockDatabase.UpdateCleaningTaskStatus | src/services/mock-api.ts:275-284 | only the status of the first matching task changes; an unknown id fails with nothing changed |
| MockApi.MockDatabase.FetchPropertyById | src/services/mock-api.ts:290-298 | fails exactly when no property has the id; otherwise returns the first stored property with that id |
| MockApi.MockDatabase.CreateProperty | src/services/mock-api.ts:300-312 | exactly one property is appended and returned |
| MockApi.MockDatabase.UpdateProperty | src/services/mock-api.ts:314-328 | an unknown id fails with nothing changed; otherwise only the first matching property is merged and returned |
| MockApi.MockDatabase.DeleteProperty | src/services/mock-api.ts:330-338 | an unknown id fails with nothing changed; otherwise exactly the first matching property is removed |
| BookingList.FilteredBookings | src/components/bookings/BookingList.tsx:107-137 | no bookings give an empty list; every booking listed is a loaded one that passes the search, status and date tests |
| BookingList.FilteredBookingsExact | src/components/bookings/BookingList.tsx:107-137 | the result is an order-preserving subsequence, and a booking is in it exactly when it passes the tests |
| BookingList.FilteredBookingsDefaults | src/components/bookings/BookingList.tsx:116-136 | with no query, status "all" and no range every booking is listed |
| BookingList.SearchIgnoresQueryCase | src/components/bookings/BookingList.tsx:116-122 | the search ignores the case of the query |
| BookingList.SearchFindsGuestName | src/components/bookings/BookingList.tsx:116-122 | a booking whose guest name contains the query, ignoring case, is found |
| BookingList.DateMatchesOverlap | src/components/bookings/BookingList.tsx:126-136 | with a full range a booking passes exactly when both its dates can be read and it checks in by the end and checks out on or after the start |
| BookingList.DateMatchesFromOnly | src/components/bookings/BookingList.tsx:126-136 | with a start date only, a booking passes exactly when its check-in can be read and is on or before that date |
| BookingList.DateMatchesInvalidCheckIn | src/components/bookings/BookingList.tsx:126-136 | an unreadable check-in date (an Invalid Date) fails every range and passes only when no start is picked |
| BookingList.Remaining | src/components/bookings/BookingList.tsx:195 | the remaining amount plus what was paid is the total, excluding the deposit |
| BookingList.RemainingIsPending | src/components/bookings/BookingList.tsx:298 | the list's remaining amount is the service's pending amount, and it differs from the form's pending amount by the deposit |
| BookingList.StatusBadge | src/components/bookings/BookingList.tsx:30-47 | an unknown status is shown as its own text in gray |
| BookingList.StatusBadgeRawIffUnknown | src/components/bookings/BookingList.tsx:30-47 | the raw text is shown exactly for unknown statuses, and distinct known statuses get distinct labels |
| BookingList.Target | src/components/bookings/BookingList.tsx:247-266 | every menu item sets one of the known statuses |
| BookingList.StaffActions | src/components/bookings/BookingList.tsx:247-266 | "Set to Confirmed" unless confirmed; "Check In" iff confirmed; "Check Out" iff checked in; "Cancel" iff pending or confirmed |
| BookingList.StaffActionsChangeStatus | src/components/bookings/BookingList.tsx:247-266 | no item sets the status the booking already has, and the menu is never empty |
| BookingList.StaffActionsLifecycle | src/components/bookings/BookingList.tsx:247-266 | the menu leads a pending booking through confirmed, checked in and checked out, after which only re-confirming is offered |
| RouteGuard.HomeOf | src/components/auth/ProtectedRoute.tsx:39-43 | a refused user goes to the owner dashboard exactly when they are an owner |
| RouteGuard.Guard | src/components/auth/ProtectedRoute.tsx:21-53 | while loading the spinner is shown; a redirect that remembers the path goes to a login page |
| RouteGuard.GuardRendersIff | src/components/auth/ProtectedRoute.tsx:21-53 | the page renders exactly when not loading, signed in with a user, of the required type and permitted by role |
| RouteGuard.GuardLoginRedirect | src/components/auth/ProtectedRoute.tsx:30-36 | without a session, paths starting with `/owner` (including `/owners`) go to the owner login and the rest to `/login` |
| RouteGuard.GuardRefusalGoesHome | src/components/auth/ProtectedRoute.tsx:39-50 | a refused signed-in user is sent home without remembering the path |
| RouteGuard.GuardRoleless | src/components/auth/ProtectedRoute.tsx:46-53 | a user without a role passes any role list, and an empty list renders for any signed-in user |
| RouteGuard.GuardTypeBeforeRole | src/components/auth/ProtectedRoute.tsx:39-50 | the type check runs before the role check |
| OwnerBookings.StatusColour | src/pages/OwnerBookings.tsx:97-103 | exactly the five listed statuses have a colour |
| OwnerBookings.StatusColourAgreesWithList | src/pages/OwnerBookings.tsx:97-103 | `no_show` alone has no colour; the owner and staff colours agree except for `checked_out` |
| OwnerBookings.StatusLabel | src/pages/OwnerBookings.tsx:200 | the label is the status with its first character upper-cased and the rest unchanged |
| OwnerBookings.StatusLabelLowerRoundTrip | src/pages/OwnerBookings.tsx:200 | lower-casing the label of a lower-case status gives the status back |
| OwnerBookings.StatusLabelInjective | src/pages/OwnerBookings.tsx:200 | distinct statuses get distinct labels |
| OwnerBookings.OwnerActions | src/pages/OwnerBookings.tsx:221-257 | view and delete always; check in iff confirmed; check out iff checked in; payment and extend iff confirmed or pending |
| OwnerBookings.OwnerActionsMatchStaff | src/pages/OwnerBookings.tsx:221-257 | the owner's check-in, check-out and payment items follow the same status tests as the staff check-in, check-out and cancel items |
| OwnerBookings.OwnerActionsClosedStay | src/pages/OwnerBookings.tsx:221-257 | a closed stay offers only view and delete |
| OwnerBookings.ActionToast | src/pages/OwnerBookings.tsx:137-163 | each action handler's message names the booking `#id` |
| OwnerBookings.Opened | src/pages/OwnerBookings.tsx:111-115 | the dialog opens on the booking with the box unticked |
| OwnerBookings.Ticked | src/pages/OwnerBookings.tsx:279-283 | only the confirmation flag changes |
| OwnerBookings.Dismissed | src/pages/OwnerBookings.tsx:268 | closing the dialog keeps the target and the flag |
| OwnerBookings.ConfirmOutcome | src/pages/OwnerBookings.tsx:117-135 | unticked: an error and nothing changes; ticked: a success message and the dialog is reset |
| OwnerBookings.DeleteNeedsTick | src/pages/OwnerBookings.tsx:111-135 | confirming right after opening only asks for the tick; after ticking it deletes and names the booking |
| OwnerBookings.StaleTickCleared | src/pages/OwnerBookings.tsx:111-115 | a tick left from a dismissed dialog does not carry over to the next booking |
| OwnerBookings.DeletedNamesTarget | src/pages/OwnerBookings.tsx:127-134 | a confirmed delete names the target, and a second confirm only asks for the tick |
| OwnerBookings.OwnerBookingsPage.constructor | src/pages/OwnerBookings.tsx:105-109 | the sample bookings and a closed, empty dialog |
| OwnerBookings.OwnerBookingsPage.HandleDeleteBooking | src/pages/OwnerBookings.tsx:111-115 | the dialog state becomes `Opened` |
| OwnerBookings.OwnerBookingsPage.SetConfirmDelete | src/pages/OwnerBookings.tsx:279-283 | the dialog state becomes `Ticked` |
| OwnerBookings.OwnerBookingsPage.Dismiss | src/pages/OwnerBookings.tsx:268 | the dialog state becomes `Dismissed` |
| OwnerBookings.OwnerBookingsPage.ConfirmDeleteBooking | src/pages/OwnerBookings.tsx:117-135 | state and message are `ConfirmOutcome` of the old state; the bookings are never changed |
| Expenses.FilteredExpenses | src/pages/Expenses.tsx:26-41 | undefined exactly when the expenses are; every listed expense is a loaded one that matches |
| Expenses.FilteredExpensesExact | src/pages/Expenses.tsx:26-41 | the result is an order-preserving subsequence, and an expense is in it exactly when it matches |
| Expenses.FilteredExpensesDefaults | src/pages/Expenses.tsx:26-41 | with no query and "all" filters every expense is listed |
| Expenses.FilteredExpensesDateChoice | src/pages/Expenses.tsx:38 | any date choice other than "all" empties the list |
| Expenses.CategoryIgnoresCase | src/pages/Expenses.tsx:34 | the category test ignores case |
| Expenses.SearchIgnoresQueryCase | src/pages/Expenses.tsx:28-31 | the search ignores the case of the query |
| Expenses.SearchVendor | src/pages/Expenses.tsx:28-31 | without a vendor only description and property are searched; a matching vendor is always found |
| Expenses.CategoryBadge | src/pages/Expenses.tsx:47-61 | a colour other than gray exactly for the four mapped categories |
| Expenses.CategoryBadgeCaseSensitive | src/pages/Expenses.tsx:34-61 | "maintenance" passes the Maintenance filter but is shown in gray |
| ExpenseEdit.WithField | src/pages/ExpenseEdit.tsx:60-67 | only the named field changes |
| ExpenseEdit.LoadedForm | src/pages/ExpenseEdit.tsx:46-58 | the loaded expense fills the form; the amount as text, vendor and notes defaulting to "" |
| ExpenseEdit.LoadedAmountReadsBack | src/pages/ExpenseEdit.tsx:46-58 | a whole amount loaded as text reads back as the same amount |
| ExpenseEdit.IsValidIff | src/pages/ExpenseEdit.tsx:73 | valid exactly when the description is not all white space and the other four required fields are filled in; vendor and notes never matter |
| ExpenseEdit.IsValid | src/pages/ExpenseEdit.tsx:73 | the required-field test itself; what it accepts is stated by `IsValidIff` |
| ExpenseEdit.LoadedFormValid | src/pages/ExpenseEdit.tsx:46-73 | a loaded expense with its required fields can be saved at once; the empty form cannot |
| ExpenseEdit.ExpenseEditPage.constructor | src/pages/ExpenseEdit.tsx:36-44 | the empty form for the route's id |
| ExpenseEdit.ExpenseEditPage.LoadExpense | src/pages/ExpenseEdit.tsx:46-58 | the form becomes the loaded expense when one arrives |
| ExpenseEdit.ExpenseEditPage.HandleChange | src/pages/ExpenseEdit.tsx:60-67 | only the named field changes |
| ExpenseEdit.ExpenseEditPage.HandleSubmit | src/pages/ExpenseEdit.tsx:69-89 | rejected with an error exactly when the form is invalid; accepted forms lead to `/expenses/<id>`; the form is not changed |
| AccountForms.Initials | src/pages/OwnerAdd.tsx:106-113 | empty for an empty name; at most one letter per part; never a lower-case letter |
| AccountForms.InitialsOfWords | src/pages/UserAdd.tsx:60-67 | a name of words joined by single spaces gives the upper-cased first letter of each word |
| AccountForms.InitialsOfSpaces | src/pages/OwnerAdd.tsx:106-113 | two worked examples, not a general law: " " has no initials, and "a  b" and "a b" both give "AB" (the general property is InitialsOfWords) |
| AccountForms.CheckPasswords | src/pages/OwnerAdd.tsx:118-134 | accepted exactly when the two match and have at least 8 characters; a mismatch is reported before the length |
| AccountForms.MismatchReportedFirst | src/pages/UserAdd.tsx:73-91 | a short mistyped password is reported as the mismatch, then as too short once confirmed |
| AccountForms.PasswordToast | src/pages/OwnerAdd.tsx:118-134 | an error message exactly for a refused password |
| OwnerAdd.WithText | src/pages/OwnerAdd.tsx:77-83 | only the named input changes |
| OwnerAdd.ToggledRooms | src/pages/OwnerAdd.tsx:85-97 | the room is selected afterwards exactly when it was not before; every other room keeps its state |
| OwnerAdd.ToggledRoomsNoDup | src/pages/OwnerAdd.tsx:86-95 | a selection without duplicates stays without duplicates |
| OwnerAdd.ToggleTwiceAbsent | src/pages/OwnerAdd.tsx:86-95 | toggling an unselected room twice restores the selection |
| OwnerAdd.ToggleTwicePresent | src/pages/OwnerAdd.tsx:86-95 | toggling a selected room twice keeps the same rooms but moves it last, so the list is restored only when it was last |
| OwnerAdd.AssignmentRows | src/pages/OwnerAdd.tsx:154-165 | one assignment per selected room, in selection order |
| OwnerAdd.AssignmentRowsNoDup | src/pages/OwnerAdd.tsx:154-165 | distinct rooms give distinct assignments |
| OwnerAdd.AssignRooms | src/pages/OwnerAdd.tsx:154-165 | the loop inserts exactly `AssignmentRows` |
| OwnerAdd.AddedToast | src/pages/OwnerAdd.tsx:167-170 | the success message starts with the owner's name |
| OwnerAdd.SignupFailedToast | src/pages/OwnerAdd.tsx:173-181 | an error whose text is the thrown message when there is one |
| OwnerAdd.OwnerAddPage.constructor | src/pages/OwnerAdd.tsx:46-56 | the initial form with invitations on, no rooms, not submitting |
| OwnerAdd.OwnerAddPage.HandleInputChange | src/pages/OwnerAdd.tsx:77-83 | the form becomes `WithText`, the selection stays duplicate-free |
| OwnerAdd.OwnerAddPage.HandleRoomSelection | src/pages/OwnerAdd.tsx:85-97 | only the selection changes, by `ToggledRooms`, and it stays duplicate-free |
| OwnerAdd.OwnerAddPage.HandleCheckboxChange | src/pages/OwnerAdd.tsx:99-104 | only the invitation flag changes |
| OwnerAdd.OwnerAddPage.HandleSubmit | src/pages/OwnerAdd.tsx:115-182 | rejected, with no sign-up and no change, exactly when the password check fails; a failed sign-up clears the busy flag and writes nothing; on success the rooms are assigned in order and the page moves to `/owners` |
| UserAdd.WithText | src/pages/UserAdd.tsx:38-44 | only the named input changes |
| UserAdd.RoleBadge | src/pages/UserAdd.tsx:214-218 | no badge for an empty role; "Admin" exactly for `admin`; otherwise "Agent" |
| UserAdd.RoleBadgeDefaults | src/pages/UserAdd.tsx:31 | the default role shows "Agent", and so does a capitalised "Admin" |
| UserAdd.AddedMessage | src/pages/UserAdd.tsx:103 | the message starts with the user's name |
| UserAdd.AddedMessageInvitation | src/pages/UserAdd.tsx:103 | the message ends with the invitation sentence exactly when an invitation is sent |
| UserAdd.UserAddPage.constructor | src/pages/UserAdd.tsx:28-36 | role "agent", invitations on, not submitting |
| UserAdd.UserAddPage.HandleInputChange | src/pages/UserAdd.tsx:38-44 | only the named input changes |
| UserAdd.UserAddPage.HandleRoleChange | src/pages/UserAdd.tsx:46-51 | only the role changes |
| UserAdd.UserAddPage.HandleCheckboxChange | src/pages/UserAdd.tsx:53-58 | only the invitation flag changes |
| UserAdd.UserAddPage.HandleSubmit | src/pages/UserAdd.tsx:69-111 | rejected without a sign-up exactly when the password check fails; a failed sign-up clears the busy flag; success moves to `/users` |
| JsNumbers.RoundDiv | src/components/bookings/AddEditBookingForm.tsx:311 | `Math.round(n / d)`: the nearest integer, halves rounding up |
| JsNumbers.ParseNumberText | src/pages/ExpenseEdit.tsx:46-58 | an integer's `toString` text reads back under `parseFloat` as the integer |
| JsStrings.TrimEmptyIff | src/pages/ExpenseEdit.tsx:73 | a string trims to empty exactly when it is all white space |
| JsStrings.PadStart | src/services/mock-api.ts:112 | `padStart` fills on the left to the width and keeps the text at the end |
| JsStrings.SplitJoin | src/components/bookings/AddEditBookingForm.tsx:137-146 | splitting parts joined by a separator they lack gives the parts back |
| JsStrings.JoinSplit | src/components/bookings/AddEditBookingForm.tsx:137-146 | joining the split parts gives the string back |
| Seqs.FilterIsSubsequence | src/components/bookings/BookingList.tsx:107-137 | `Array.filter` keeps an order-preserving subsequence |
| Seqs.FilterNoDup | src/pages/OwnerAdd.tsx:86-95 | filtering a list without duplicates leaves none |

## Left out

- Unicode: `toLowerCase`/`toUpperCase` are modelled for ASCII letters only, and the white space `trim` removes for the six ASCII white-space characters only. String length counts characters, not UTF-16 code units.
- Floating point: money is exact; IEEE rounding, `toFixed(2)` and the `formatNumber` display are not modelled. `parseFloat` is modelled for leading white space, an optional sign and decimal digits with an optional fraction; exponents and `Infinity` are not modelled. NaN from any other source is not modelled.
- Clocks and dates: `new Date()`, `Date.now()`, `getFullYear()` and `toISOString()` are parameters (`now`, `today`, `year`); `parseISO` is applied before a booking reaches the form, and `new Date(string)` in the booking list is a given parser function that may answer Invalid Date (`None`). Adding three days to the default date is taken as exactly three days of milliseconds (no daylight-saving shift).
- BookingPricing.DisplayNights: the `!checkIn || !checkOut` guard of `getNumberOfNights` is modelled as a missing date; in the code the dates are `Date` objects, which are always truthy, so the guard only fires for a missing value.
- Booking form: `handleSubmit` (calls into the service and navigation), `handleFileChange` (file objects) and the rendering are not modelled.
- Mock service: `fetchRooms`, `fetchRoomById`, `fetchRoomByNumber`, the room-type functions and the pass-through fetches of users, owners, expenses, cleaning tasks, ownership and properties are not modelled. They copy or look up seed data with no rule beyond what `FindBooking` shows. Seed fields that no modelled rule reads are not modelled. `updateBooking`'s guest argument is ignored by the code and is not a parameter. The asynchronous delays are not modelled.
- MockRecords.Merge: of the optional keys a booking may carry, `created_by`, `updated_by` and `guests` are not patch fields, because the reported booking here has no such fields. A sent `check_in`, `check_out` or `updated_at` is overwritten by `updateBooking` itself, and a sent `guest_document` or `pending_amount` by `enhanceBooking`, so leaving these keys out changes no reported value.
- BookingFormState.Populated: a date text that `parseISO` cannot read gives an Invalid Date in the form in the code; here a loaded date is either read or missing, and form dates are always valid.
- Seed data of the mock service is any initial sequence, given to the constructor.
- Remote calls and sessions: sign-up, the owner-id look-up, the Supabase room fetch of the owner page and the signed-in user are parameters of the submit methods. Their own behaviour (the auth hook, the query hooks, `api.ts`) is not part of this model. A failing room assignment insert is not modelled; the code ignores its error.
- UI: toasts are values (title, description, destructive); badge colours are an enumeration; JSX, icons and the `console` calls are not modelled.
- OwnerBookings.StatusColour and Expenses.CategoryBadge: keys inherited from JavaScript's object prototype (such as `constructor`) are not modelled as colour-map entries.
- OwnerBookings.OwnerBookingsPage: the action handlers only show messages and change no state; they are modelled by `ActionToast`.
- OwnerAdd.OwnerAddPage.HandleSubmit and UserAdd.UserAddPage.HandleSubmit: after a successful submission the busy flag stays set, as in the code, and the page navigates away.
