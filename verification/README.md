# Laser-cutter booking: slot store and handler rules

This project models the core of a small booking site for a shared laser
cutter. Administrators schedule a machine operator and, optionally, an
environment checker for an evening. Users then book an evening that has
staff. The server keeps one scheduling record ("slot") per evening in a
document collection. The model covers four things:

- the record store, as a pure `map<ObjectId, Slot>` (`SlotStore`);
- the `/api/bookings` handlers: `GET` lookup and filter, and `PUT` with
  its schedule edit and generic merge (`BookingsRoute`);
- booking cancellation (`CancelRoute`);
- the batch write-back of confirmation flags (`BatchUpdateRoute`).

It also models the pure decision logic of three pages:

- the home table's toggle, login flags and row status (`HomePage`);
- the administrator's scheduling form (`SchedulePage`);
- the booking form (`BookingPage`).

`SeedData` holds the seeding script's six records as a fixture.

Each handler is a function from the store and the request to a
`Result`. A success carries the handler's reply, which includes the new
store for the three writing handlers, and every success answers 200. A failure carries an `Error`, and `SlotStore.StatusOf` gives its
HTTP status. A failure returns no store, so the store stays as it was.
Clock readings are a `now` parameter. Identifier parsing is abstracted
into `IdArg = Missing | Malformed | Valid(id)`.

Things the model makes visible about the system:

- **Two bookability rules.** The API's `available=true` filter requires
  an operator and no booking; it ignores the checker. The home page's
  status column shows "waiting for checker" whenever nobody has booked
  and `checkerName` is empty. It shows the booking link whenever nobody
  has booked and a checker is present, even with no operator. The model
  keeps both rules. `HomePage.BookabilityRulesDiverge` proves they
  disagree exactly on unbooked records with one role filled.
- **Date uniqueness.** Only the schedule-edit branch of `PUT` guards
  against duplicate dates (`BookingsRoute.EditKeepsDatesUnique`). The
  generic merge branch copies any `date` in the body without a check.
  `BookingsRoute.MergeCanDuplicateDates` gives a store where one merge
  leaves two records on the same date.
- **Behaviour worth noting:**
  - A non-schedule `PUT` has no check on which fields it carries. An
    empty merge body is the identity and answers 200.
  - Any schedule-edit `role` other than `'operator'`, not only
    `'checker'`, overwrites the checker's fields.
  - In a batch, an unparsable id makes the whole request fail with 500
    before anything is written.
  - An entry with no id gets a freshly generated identifier, matches
    nothing and changes nothing.

## Model

| member | source | states |
|---|---|---|
| `SlotStore.StatusOf` | src/app/api/bookings/route.js:55-70 | Not-found answers 404, an exception caught by the outer handler 500, every other refusal 400 |
| `SlotStore.Status` | src/app/api/bookings/cancel/route.js:9-36 | An answer is 200 exactly when the handler succeeded; a refusal answers its error's status |
| `Results.FindFirst` | src/app/booking/page.jsx:78 | `find` returns a matching element with no match before it, or nothing exactly when no element matches |
| `BookingsRoute.Get` | src/app/api/bookings/route.js:2-47 | An id returns exactly its record, or NotFound (404) when absent; an unparsable id gives InvalidId (400). Without an id, the list holds exactly the stored records with the requested date (if given) that are available (if `available=true`), with their stored contents |
| `BookingsRoute.Find` | src/app/api/bookings/route.js:30-41 | The records the filter document selects: a date equality when a date is given, and for `available=true` a non-empty operator and a null booking (its meaning is stated by `BookingsRoute.Get`) |
| `BookingsRoute.AvailableFilterIgnoresChecker` | src/app/api/bookings/route.js:36-39 | Changing a record's checker name, phone or flag never changes whether the availability filter lists it |
| `BookingsRoute.EditSchedule` | src/app/api/bookings/route.js:73-122 | MissingField exactly when role, name or date is empty. DateConflict exactly when the new date differs and another record holds it. Otherwise the edit succeeds: there is no "role already assigned" guard. On success: the record takes the new date, the named role's name and the phone or "" (any role but `operator` means checker), and fresh `updatedAt`. Notes change only when supplied. Booking, both flags, the other role and every other record are unchanged |
| `BookingsRoute.MergePatch` | src/app/api/bookings/route.js:128 | Every key present in the body takes the body's value; every absent key keeps the stored value |
| `BookingsRoute.MergeEmptyIsIdentity` | src/app/api/bookings/route.js:128-135 | An empty merge body leaves the record unchanged |
| `BookingsRoute.MergeIdempotent` | src/app/api/bookings/route.js:128-135 | Merging the same body twice equals merging it once |
| `BookingsRoute.MergeComposes` | src/app/api/bookings/route.js:128-135 | Two successive merges equal one merge of the combined body, later keys winning |
| `BookingsRoute.Put` | src/app/api/bookings/route.js:50-145 | Missing id gives 400, unparsable id 400, unknown id 404. Only the addressed record can change and the key set is kept. A schedule body answers as the edit does; any other body always succeeds, storing and echoing the merged record |
| `BookingsRoute.EditKeepsDatesUnique` | src/app/api/bookings/route.js:85-96 | If no two records shared a date before a schedule edit, none do after it |
| `BookingsRoute.MergeCanDuplicateDates` | src/app/api/bookings/route.js:123-136 | The merge branch has no date guard: a store with unique dates can end up with two records on one date |
| `CancelRoute.Cancel` | src/app/api/bookings/cancel/route.js:4-48 | The guards run in the order the handler checks them: missing id, unparsable id, unknown record (404), not booked (400). Success happens exactly when the record exists and is booked. Then its booking is cleared and `updatedAt` stamped, and nothing else in it or in any other record changes |
| `CancelRoute.CancelTwiceFails` | src/app/api/bookings/cancel/route.js:25-33 | A second cancel of the same record fails with NotBooked (400) |
| `CancelRoute.CancelRestoresAvailability` | src/app/api/bookings/cancel/route.js:30-33 | After a cancel, a record with an operator satisfies the availability filter |
| `CancelRoute.CancelKeepsDatesUnique` | src/app/api/bookings/cancel/route.js:30-33 | Cancelling preserves unique dates |
| `BatchUpdateRoute.ApplyAll` | src/app/api/bookings/batch-update/route.js:14-30 | The ordered bulk write keeps the key set and changes nothing but the two flags and `updatedAt` of any record |
| `BatchUpdateRoute.CountMatched` | src/app/api/bookings/batch-update/route.js:30-35 | The reported modified count is at most the number of entries, and is zero exactly when no entry names a stored record |
| `BatchUpdateRoute.BatchUpdate` | src/app/api/bookings/batch-update/route.js:4-44 | A non-array or empty payload gives 400. An unparsable id anywhere gives 500 with nothing written. Otherwise the batch succeeds: each record holds the flags of the last entry naming it, with a fresh `updatedAt`, and is untouched when none names it. Names, phones, date, notes and booking never change; the key set is kept; the count is the number of entries naming a stored record |
| `BatchUpdateRoute.ApplyAllUsesLastEntry` | src/app/api/bookings/batch-update/route.js:14-30 | Each record ends with the flags of the last entry naming it, whatever its roles or booking. A record no entry names is unchanged |
| `BatchUpdateRoute.NoMatchChangesNothing` | src/app/api/bookings/batch-update/route.js:14-35 | A batch whose entries name no stored record leaves the store as it was and reports 0 |
| `HomePage.ToggleConfirm` | src/app/page.jsx:71-83 | Not an administrator: the table is unchanged. `operator` flips only that row's operator flag; any other type flips only its checker flag. All other rows are unchanged |
| `HomePage.ToggleTwiceRestores` | src/app/page.jsx:74-80 | Toggling the same row and type twice restores the table |
| `HomePage.Login` | src/app/page.jsx:86-93 | An empty or dismissed prompt leaves the session unchanged. A non-empty name logs in as administrator under that name |
| `HomePage.Logout` | src/app/page.jsx:95-99 | Logout clears both flags and the manager name |
| `HomePage.LogoutUndoesLogin` | src/app/page.jsx:72-98 | Logout after any login gives the logged-out session, in which the toggle does nothing |
| `HomePage.StatusOf` | src/app/page.jsx:161-171 | A truthy booking means Booked. Otherwise an empty checker means WaitingChecker, else Bookable. Each status holds exactly in its case |
| `HomePage.BookabilityRulesDiverge` | src/app/page.jsx:162-170 | For every record: unbooked with an operator and no checker, it is available to the API but WaitingChecker on the page; unbooked with a checker and no operator, it is Bookable on the page but not available to the API. The two rules disagree on exactly those records |
| `HomePage.BookabilityRulesAgreeWhenStaffed` | src/app/page.jsx:162-170 | For every record with both roles staffed, booked or not, the page's Bookable and the API's availability coincide |
| `HomePage.InitialRowStatuses` | src/app/page.jsx:9-58 | The page's six initial rows show Bookable, WaitingChecker, Booked, Bookable, WaitingChecker, WaitingChecker |
| `SchedulePage.CurrentSchedule` | src/app/admin/schedule/page.jsx:37-52 | No date chosen: no schedule. Otherwise the first partial schedule with the chosen date, or none exactly when no partial schedule has it |
| `SchedulePage.OnDateChange` | src/app/admin/schedule/page.jsx:37-53 | Operator only: role becomes `checker`. Checker only: role becomes `operator`. Both or neither: role unchanged. Only the role field of the form can change |
| `SchedulePage.DateFullIffBothOptionsDisabled` | src/app/admin/schedule/page.jsx:134-145 | The role select and the submit button are disabled exactly when both the operator and the checker options are |
| `SchedulePage.PreselectedRoleIsEnabled` | src/app/admin/schedule/page.jsx:43-48 | A role the effect preselects is never a disabled option, and it is never preselected on a full date |
| `SchedulePage.OperatorOptionDisabled` | src/app/admin/schedule/page.jsx:139 | The operator option is disabled exactly when the chosen date has a schedule whose operator is filled; a definition, whose properties `SchedulePage.DateFullIffBothOptionsDisabled` and `SchedulePage.PreselectedRoleIsEnabled` state |
| `SchedulePage.CheckerOptionDisabled` | src/app/admin/schedule/page.jsx:145 | The checker option is disabled exactly when the chosen date has a schedule whose checker is filled; a definition, whose properties `SchedulePage.DateFullIffBothOptionsDisabled` and `SchedulePage.PreselectedRoleIsEnabled` state |
| `SchedulePage.DateFull` | src/app/admin/schedule/page.jsx:134 | The role select and the submit button (line 213) are disabled exactly when the chosen date has a schedule with both roles filled; a definition, related to the option rules by `SchedulePage.DateFullIffBothOptionsDisabled` |
| `SchedulePage.SubmitAccepted` | src/app/admin/schedule/page.jsx:67-70 | Submit goes ahead exactly when date, role and name are all non-empty |
| `SchedulePage.SubmitCheckMatchesEditGuard` | src/app/admin/schedule/page.jsx:67-70 | The form's check accepts exactly what the server's schedule edit accepts as having its required fields (route.js lines 77-79) |
| `SchedulePage.PreselectionLeavesDateAndName` | src/app/admin/schedule/page.jsx:43-70 | After a date with exactly one role taken preselects the other role, submit is accepted exactly when the date and the name are non-empty |
| `SchedulePage.InitialPartialsPreselect` | src/app/admin/schedule/page.jsx:29-47 | With the page's partial schedules, choosing 4/2 preselects the checker and 4/9 the operator |
| `BookingPage.SelectedSlot` | src/app/booking/page.jsx:76-83 | No date chosen: no slot. Otherwise the first fetched slot with that date, or none exactly when none has it |
| `BookingPage.SelectedSlotIsAvailable` | src/app/booking/page.jsx:55-83 | When the fetched list holds only available slots, the selected slot is available |
| `BookingPage.BuildRequest` | src/app/booking/page.jsx:97-118 | Refused exactly when date, name or phone is empty. Otherwise the body has type `booking` and copies every form field verbatim, so blank optional fields go out as "" |
| `BookingPage.BuildRequestRoundTrip` | src/app/booking/page.jsx:110-118 | Every booking body with the required fields is the one built from the form it reads back as |
| `SeedData.SeedDatesUnique` | scripts/init-data.js:12-82 | The six seeded records have pairwise distinct dates |
| `SeedData.SeedAvailableSlots` | scripts/init-data.js:12-82 | On the seeded store, the availability filter lists every record except the booked 3/14 |

## Left out

- The creation/assignment, booking and delete handlers: they are not in the modelled route file, so their "role already assigned", "not bookable" and "has booking" rules are not modelled.
- Database connection set-up and unparsable JSON bodies, which answer 500. Store calls that throw are also left out. Inside a handler's inner `try` such a failure answers 400 with the invalid-id message: GET by id, every PUT store call and cancel. GET's list query and the batch's bulk write answer 500. None depends on the store's contents.
- Body values of the wrong JSON type: requests and patches are typed. Merge-body keys outside the record's fields (`type`, `_id`, timestamps) are also left out.
- Batch entries missing a confirmation flag, which the driver would store as null: entries carry two booleans.
- `createdAt` (no modelled handler touches it). `bookedAt` is an opaque number.
- The two success messages of a schedule edit ("updated" and "unchanged"): both answer 200. The cancel handler's 500 when nothing was modified cannot arise here, since a booked record always changes.
- BatchUpdateRoute.CountMatched: counts every entry that names a stored record. The handler reads `new Date()` once per entry, and the model gives the whole batch one `now`. A repeated entry whose clock reading falls in the same millisecond changes nothing and is not counted, so the model's count can exceed `modifiedCount`.
- BatchUpdateRoute.BatchUpdate: stamps every record of one batch with the same `now`, while the handler reads the clock once per entry. Records named in one batch can therefore end with different `updatedAt` values in the system, but never in the model.
- The order of a `GET` list: the model returns the matching records as a map.
- The read-then-write race between lookup and update: each request is atomic.
- Rendering, `alert`/`prompt`, navigation, `fetch`, the booking page's date preselection from the URL, the admin-only unscheduled-date rows and `handleChange`: UI and network plumbing.
- The home page keeps its own local rows rather than rendering store records; the projection `HomePage.RowOf` exists only to compare the two bookability rules on one record.
