# Request-status workflow of the aerial-demonstration team's website

This project models the part of the website that handles requests. There
are two kinds:

- booking requests for a show ("presentations");
- recruitment applications ("alistamentos", called enlistments here).

Visitors submit booking requests from the home page or the demonstration
page. Each one is stored as `pending`. The administrator's dashboard can
change a request's status, edit a booking in full, create a booking, and
delete either kind. The public home page lists the approved shows to come
and the pilot roster.

Every operation is one step on a keyed table, followed by at most one
call of a chat webhook. The model has:

- `Records`: the record types, the status enums, the webhook payload and
  the `Store` class. `Store` models the remote document store (two maps
  from id to record) together with a log of webhook calls. Each `Store`
  method is one remote call (`getDoc`, `updateDoc`, `addDoc`, `deleteDoc`,
  or the webhook).
- `Dashboard`: the status labels and notification titles, and each
  dashboard handler in two forms:
  - a pure step function on a `Db` snapshot, which is the specification;
  - a `Handle…` method that makes the remote calls in the source's order
    and is proved equal to that step.
- `BookingForm`: the field validator and the submission handler. The home
  page (`src/pages/Home.tsx:60-66`) and the demonstration page
  (`src/pages/Demonstration.tsx:45-51`) declare the same schema, and their
  handlers take the same validation, store and webhook steps. The model
  defines each once; the two pages differ in the webhook title (and in
  console logging and UI cleanup, which are not modelled).
- `Home`: the home page's form handler, the "upcoming" filter and sort,
  and the pilot roster's order and labels.
- `Demonstration`: the demonstration page's form handler.
- `Sorting`: a stable insertion sort by an integer key. It models
  `Array.prototype.sort` with a numeric comparator, and is proved to give
  a sorted permutation of its input.

Conventions:

- Dates are integer day numbers. `today` and the clock value `now` are
  parameters.
- `writeOk` says whether a store write succeeds.
- `webhookOk` says whether the webhook delivered. It is kept in the log
  entry's `delivered` flag and affects nothing else.
- `newId` is the id the store assigns on `addDoc`. Firestore ids are
  fresh, so the create operations require `newId` not to be stored yet.
- Whether an email address is well formed is decided by the validation
  library. The model takes it as a parameter `isEmail`.

Behaviour of the code that is easy to misread:

- **Delete.** No existence check is made. Deleting an id that is not
  stored succeeds and changes nothing; it does not fail with NotFound.
- **Enlistment status change.** The record is not read first. The
  not-found error comes from Firestore's `updateDoc`, which refuses to
  update a missing document.
- **Full edit.** It demands only a selected record and a date. There is
  no non-empty check on city, time or description.
- **Admin create.** It demands non-empty city, date, time and description.
  There is no 10-character minimum on the description.
- **Titles.** The notification titles are the Portuguese strings of the
  code. The home page's submission sends no title at all.

## Model

| member | source | states |
|---|---|---|
| Records.BookingCodeRoundTrip | src/pages/Dashboard.tsx:49 | each booking status is stored as its own string and reads back as itself |
| Records.EnlistmentCodeRoundTrip | src/pages/Dashboard.tsx:66 | each enlistment status is stored as its own string and reads back as itself |
| Records.BookingPayloadRoundTrip | src/pages/Dashboard.tsx:206-212 | a booking notification payload carries the whole record (the record is recovered from it exactly) and its id |
| Records.Store.GetPresentation | src/pages/Dashboard.tsx:199-204 | the read finds a record exactly when the id is stored, and returns the stored record |
| Records.Store.UpdatePresentationStatus | src/pages/Dashboard.tsx:215-217 | the partial update rewrites only the status of that one record; it fails, with nothing changed, on a missing id or a rejected write |
| Records.Store.UpdatePresentationFields | src/pages/Dashboard.tsx:343-349 | the partial update rewrites city, date, time, description and status and keeps the other stored fields; it fails, with nothing changed, on a missing id or a rejected write |
| Records.Store.UpdateEnlistmentStatus | src/pages/Dashboard.tsx:270-272 | the partial update rewrites only the enlistment's status; a missing id gives NotFound, a rejected write StoreWriteError, and neither changes anything |
| Records.Store.AddPresentation | src/pages/Dashboard.tsx:398 | a successful add stores the record under the new id and touches nothing else |
| Records.Store.DeletePresentation | src/pages/Dashboard.tsx:431 | a successful delete removes exactly that id; deleting an id that is not stored changes nothing |
| Records.Store.DeleteEnlistment | src/pages/Dashboard.tsx:451 | a successful delete removes exactly that enlistment id |
| Records.Store.Notify | src/pages/Dashboard.tsx:239-251 | a webhook call appends one log entry with its title, payload and delivery flag; it never touches the collections |
| Dashboard.StatusText | src/pages/Dashboard.tsx:478-491 | the label is "Pendente" exactly for the strings other than the four listed statuses |
| Dashboard.EnlistmentStatusText | src/pages/Dashboard.tsx:506-517 | the label is "Pendente" exactly for the strings other than the three listed statuses |
| Dashboard.StatusTextsDistinct | src/pages/Dashboard.tsx:478-491 | two booking statuses have the same label only if they are the same status |
| Dashboard.EnlistmentStatusTextsDistinct | src/pages/Dashboard.tsx:506-517 | two enlistment statuses have the same label only if they are the same status |
| Dashboard.BookingStatusTitle | src/pages/Dashboard.tsx:222-237 | pending, and only pending, gets the default "status updated" title |
| Dashboard.EnlistmentStatusTitle | src/pages/Dashboard.tsx:277-289 | pending, and only pending, gets the default "status updated" title |
| Dashboard.StatusTitlesDistinct | src/pages/Dashboard.tsx:222-237 | the title is a one-to-one function of the new status (for both record kinds) and never equals the edit or create title |
| Dashboard.Join | src/pages/Dashboard.tsx:299 | the joined shifts begin with the first shift and hold every shift's characters plus one separator between each two consecutive shifts; no shifts give the empty string |
| Dashboard.JoinSnoc | src/pages/Dashboard.tsx:299 | appending a shift appends the separator and that shift |
| Dashboard.EnlistmentSummary | src/pages/Dashboard.tsx:299 | the enlistment notification body opens with the applicant's name and closes with the line naming the new status |
| Dashboard.EnlistmentSummaryNamesStatus | src/pages/Dashboard.tsx:299 | the bodies for one applicant under two statuses are equal exactly when the statuses are |
| Dashboard.FindListed | src/pages/Dashboard.tsx:291 | the lookup succeeds exactly when some entry of the local list has the id, and returns the first such entry |
| Dashboard.EnlistmentPayload | src/pages/Dashboard.tsx:293-303 | the enlistment notification has no id, carries the applicant's email and Discord nick, and its status reads back as the new status |
| Dashboard.StatusUpdate | src/pages/Dashboard.tsx:195-261 | a missing id gives NotFound with no write and no notification; a rejected write gives StoreWriteError with nothing changed; on success only that record's status changes (the other fields and records are kept) and one notification is logged, titled by the new status and carrying the pre-read record with the new status; webhook failure still gives Ok |
| Dashboard.EnlistmentStatusUpdate | src/pages/Dashboard.tsx:264-323 | a missing id gives NotFound and a rejected write StoreWriteError, with nothing changed; on success only the status changes, and a notification is logged exactly when the id is in the local list, built from that list's entry |
| Dashboard.UpdatePresentation | src/pages/Dashboard.tsx:326-374 | no selection or no date gives ValidationError before any store call; a missing record gives NotFound with no write; a rejected write, and only that, gives StoreWriteError with nothing changed; on success city, date, time, description and status take the given values, email, discordId and createdAt are kept, other records are kept, and one "updated" notification is logged |
| Dashboard.CreatePresentation | src/pages/Dashboard.tsx:377-421 | an empty city, time or description, or no date, gives ValidationError with no write; on success exactly one record is added, with the chosen status, the admin sentinel email and Discord id and the current time, and one "created" notification is logged |
| Dashboard.DeletePresentation | src/pages/Dashboard.tsx:424-441 | no selection does nothing; a rejected write, and only that, gives StoreWriteError with nothing changed; a successful delete removes exactly the selected id and keeps every other record; no delete emits a notification |
| Dashboard.DeleteEnlistment | src/pages/Dashboard.tsx:444-461 | no selection does nothing; a rejected write, and only that, gives StoreWriteError with nothing changed; a successful delete removes exactly the selected enlistment and keeps every other record; no delete emits a notification |
| Dashboard.StatusUpdateWebhookIrrelevant | src/pages/Dashboard.tsx:249-251 | a failed webhook gives the same outcome and the same collections as a delivered one |
| Dashboard.EnlistmentStatusUpdateWebhookIrrelevant | src/pages/Dashboard.tsx:311-313 | a failed webhook gives the same outcome and the same collections as a delivered one |
| Dashboard.StatusUpdateIdempotent | src/pages/Dashboard.tsx:215-217 | applying the same status twice stores the same collection as applying it once; the second call adds only one more notification |
| Dashboard.StatusUpdateAfterDelete | src/pages/Dashboard.tsx:202-204 | after a delete, a status change of the deleted id gives NotFound and changes nothing, not even the log |
| Dashboard.CreatedAtImmutable | src/pages/Dashboard.tsx:343-349 | no status change, edit, create or delete alters the createdAt of a record that stays stored |
| Dashboard.HandleStatusUpdate | src/pages/Dashboard.tsx:195-261 | the handler's read, write and webhook call leave exactly the state and outcome of StatusUpdate |
| Dashboard.HandleEnlistmentStatusUpdate | src/pages/Dashboard.tsx:264-323 | the handler's write, list lookup and webhook call leave exactly the state and outcome of EnlistmentStatusUpdate |
| Dashboard.HandleUpdatePresentation | src/pages/Dashboard.tsx:326-374 | the handler's guard, read, write and webhook call leave exactly the state and outcome of UpdatePresentation |
| Dashboard.HandleCreatePresentation | src/pages/Dashboard.tsx:377-421 | the handler's guard, add and webhook call leave exactly the state and outcome of CreatePresentation |
| Dashboard.HandleDeletePresentation | src/pages/Dashboard.tsx:424-441 | the handler leaves exactly the state and outcome of DeletePresentation |
| Dashboard.HandleDeleteEnlistment | src/pages/Dashboard.tsx:444-461 | the handler leaves exactly the state and outcome of DeleteEnlistment |
| BookingForm.SchemaErrors | src/pages/Home.tsx:60-66 | the validator reports no error exactly when city, time and discordId are non-empty, the email is well formed and the description has at least 10 characters; each field's error is reported exactly when that field's constraint fails |
| BookingForm.ErrorMessage | src/pages/Home.tsx:61-65 | each validator error has a message of its own, from which its field is recovered |
| BookingForm.SchemaMessages | src/pages/Home.tsx:61-65 | the validator reports no message exactly when the form is accepted, and a field's message exactly when that field's constraint fails |
| BookingForm.Submission | src/pages/Home.tsx:186-243 | a rejected form or a missing date gives ValidationError with no write and no notification; a rejected write gives StoreWriteError with no notification; on success exactly one record is added, pending, holding exactly the submitted city, email, date, time, discordId and description, and one notification with the new id is logged; the outcome never depends on the webhook |
| BookingForm.SubmissionWebhookIrrelevant | src/pages/Home.tsx:217-233 | a failed webhook gives the same outcome and the same stored bookings as a delivered one |
| BookingForm.Submit | src/pages/Home.tsx:186-243 | the form handler's validation, date guard, add and webhook call leave exactly the state and outcome of Submission |
| Home.OnSubmit | src/pages/Home.tsx:186-243 | the home page's submission is Submission with no webhook title |
| Demonstration.OnSubmit | src/pages/Demonstration.tsx:70-113 | the demonstration page's submission is Submission with the fixed "new demonstration request" title |
| Home.KeepUpcoming | src/pages/Home.tsx:110-133 | every kept entry is approved and dated today or later, and each such entry of the snapshot is kept as often as it occurs |
| Home.Upcoming | src/pages/Home.tsx:132-134 | the list holds exactly the approved snapshot entries dated today or later, in non-decreasing date order, and is a permutation of the filtered snapshot |
| Sorting.SortByPermutes | src/pages/Home.tsx:134 | the sort returns a permutation of its input |
| Sorting.SortBySorted | src/pages/Home.tsx:134 | the sort returns its input in non-decreasing key order |
| Sorting.SortByMembers | src/pages/Home.tsx:134 | an element is in the sorted list exactly when it is in the input |
| Home.NumeralValue | src/pages/Home.tsx:518 | a position written as the decimal numeral of n is ranked n |
| Home.LeadingZeroValue | src/pages/Home.tsx:518 | a leading zero does not change the value of a decimal numeral |
| Home.LeadingZeroRank | src/pages/Home.tsx:518 | a position with a leading zero ranks as the position without it ("07" as 7) |
| Home.SortPilots | src/pages/Home.tsx:518 | the roster is a permutation of the pilots in non-decreasing numeric position |
| Home.PositionLabel | src/pages/Home.tsx:537-546 | positions "1" to "7", and only they, get a fixed name; any other position is shown unchanged, and every label begins with its position |
| Home.PositionNumbersOfLabels | src/pages/Home.tsx:537-546 | the seven named positions are ranked 1 to 7, in label order |

## Left out

- Live subscriptions and unsubscribing (`onSnapshot`). A snapshot is modelled as the sequence it delivers; only the transform applied to it is modelled.
- The document store's internals, its read failures, `Timestamp` conversion, and the webhook client `src/lib/discord`. src/lib/discord is not part of this model. The store is the `Store` class; write and webhook failure are the parameters `writeOk` and `webhookOk`. A failing `getDoc` is not modelled; its effect would be the same as a rejected write (an error, no write, no notification).
- React state and rendering: loading flags, dialogs, toasts, form reset, and the badge components. The disabling of the current status's button (src/pages/Dashboard.tsx:730-762) is UI only; the engine accepts any transition.
- Concurrency between two administrators (last writer wins at the store).
- `date-fns` and clock reads. Dates are day numbers: "dated today or later" is `date >= today`, and the time of day is not modelled.
- Dashboard.EnlistmentPayload: the source reads the clock twice (src/pages/Dashboard.tsx:296, 301) for the payload's date and createdAt. The model uses one clock value `now` for both, so this payload's date holds a clock value rather than a day number.
- Console logging, and the check of the webhook's result, which only chooses a log message (src/pages/Home.tsx:187-229, src/pages/Dashboard.tsx:244-248, src/pages/Dashboard.tsx:305-309). The result is kept as the log entry's `delivered` flag.
- Dashboard.CreatePresentation: the notification's createdAt is a second clock reading in the source. The model uses the same `now` as the stored record.
- BookingForm.SchemaErrors: the email check is the parameter `isEmail`, not the library's pattern. Lengths count Unicode scalar values, while JavaScript counts UTF-16 code units, so a description with characters outside the Basic Multilingual Plane can differ.
- Home.PositionNumber: the model ranks decimal numerals by their value and every other position as 0. JavaScript's `Number` also reads surrounding blanks, a sign, decimals, exponents, `0x`/`0o`/`0b` prefixes and "Infinity" (`Number(" 7")` and `Number("7e0")` are 7, `Number("0x10")` is 16), and the source ranks such positions by that number. A position that is not a number makes the comparator yield NaN, where the engine's order is implementation-defined; the model ranks it 0 too. Numerals above 2^53 are rounded by `Number`, so two different numerals can compare equal in the source; the model keeps them exact.
- Home.SortPilots: the source sorts the array in place. The model returns the sorted sequence.
- The carousel listing is not modelled. The recruitment page (src/pages/JoinUs.tsx), the navigation bar and the footer are presentational. The code that creates an enlistment is not part of this model, so enlistments appear only as already stored records.
