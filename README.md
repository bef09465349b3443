# Appointment controller of a dental-clinic booking backend

This project models the appointment service of a small clinic backend in
Dafny and proves properties of that model. Clients and doctors create, list,
update and soft-delete appointments. Every call carries a token `{id, role}`.
The service answers with a result or with one of four errors: `MISSING_DATA`,
`NOT_AUTHORIZED`, `NOT_FOUND` or `DUPLICATED_DATE`.

How the model is built:

- `AppointmentTypes` holds the values. A stored `Appointment` has `start`,
  `end`, `doctor`, `client` and `active`. A `Request` payload has optional
  fields. A `Token` may lack its `id` or its `role`. Errors come back as a
  `Result`. Timestamps are integers, because the controller only compares
  them.
- `AppointmentQueries` holds the read side.
  - `ListFilter` builds the store filter one `$and` clause at a time, as the
    controller does. `Find` runs it against the stored documents.
  - `Visible` is an independent definition of what a caller may see.
    `ListFilter`'s contract proves that the built filter matches exactly the
    `Visible` records.
  - A listing bound is three-valued: `undefined`, the empty string, or a
    timestamp. The listing code treats the first two differently.
  - The same module holds the guard predicates (`HasRequiredData`,
    `MayCreate`, `MayUpdate`, `MayDelete`) and the record transformations
    (`NewRecord`, `Patch`, `Deactivate`).
- `AppointmentStore` holds the appointment collection. It is a class with a
  map from store-assigned ids to records. Create, update and delete are
  methods that change that map in place. Each method states the order of its
  guards and its error cases, the exact new map, and the soft-delete
  invariant `OnlyForward`: no record ever disappears, and an inactive record
  never becomes active again.
- `AppointmentProperties` relates the operations to each other. It covers
  overlap after create, self-overlap and one-sided bounds on update, listings
  after a soft delete, and how the written update guard compares with the
  intended one.
- `AppointmentScenarios` describes concrete call sequences on a fresh
  collection. Each outcome is proved from the operations' contracts alone.

The model follows what the code does, including where the code departs
from its own comments or from its evident intent:

- The overlap check in create and update calls
  `listAppointments(start, end, doctor)`. The doctor id lands in the token
  slot, so it adds no caller filter. The comment at controller.ts:14 speaks
  of that doctor's appointments. Yet the check finds any active appointment
  of any doctor that meets the interval (`DoctorAsToken`,
  `OtherDoctorBlocks`).
- The bounds are inclusive. An existing `[10, 11]` blocks a new `[11, 12]`
  (`TouchingIntervalsConflict`, `TouchingBookingsScenario`).
- The update guard as written lets a non-admin through only when the caller
  is both the client and the doctor (`MayUpdate`). The intended rule, "client,
  doctor or admin", is kept as the separately named `MayUpdateIntended`.
  Nothing else uses it. `UpdateAsWrittenStricterThanIntended` compares the
  two rules.
- The update's overlap check does not skip the appointment being updated
  (`SelfOverlapBlocksUpdate`, `SelfOverlapUpdateScenario`).
- An update payload that gives only one of `start` and `end` passes
  `undefined` for the other. So no bound is pushed, and any active record
  blocks the update (`OneBoundUpdateMeetsAnyActive`, `OneBoundUpdateScenario`).
- An update payload without `doctor` passes `undefined` as the listing's
  token. Reading `token.role` then throws. The model reports this as a
  separate `TypeError` result, not one of the four errors, and leaves the
  store unchanged (`UndefinedDoctorUpdateScenario`).

## Model

| member | source | states |
|---|---|---|
| `AppointmentStore.AppointmentCollection.CreateAppointment` | entities/appointments/controller.ts:4-18 | Missing data fails first with MissingData. An unauthorised caller then fails with NotAuthorized. Then the call fails with DuplicatedDate exactly when some active record of any doctor meets the interval. Success inserts exactly one new record, under an unused id, built from the payload. Every failure leaves the store unchanged. |
| `AppointmentStore.AppointmentCollection.UpdateAppointment` | entities/appointments/controller.ts:41-58 | An unknown id fails with NotFound. The literal guard then gives NotAuthorized. A payload without a doctor then fails with TypeError, because the listing reads `role` of `undefined`. Otherwise the call fails with DuplicatedDate exactly when an active record meets the payload's bounds, the target itself included. An absent start or end is passed on as `undefined`. Success replaces only the target by its patch and returns it. Every failure leaves the store unchanged. |
| `AppointmentStore.AppointmentCollection.DeleteAppointment` | entities/appointments/controller.ts:61-68 | An unknown id fails with NotFound. A caller who is neither the client nor an admin fails with NotAuthorized. Success sets `active` to false on that record only. It keeps every key and reports 1 modified document, or 0 if the record was already inactive. |
| `AppointmentQueries.ListFilter` | entities/appointments/controller.ts:26-35 | The filter built push by push matches a record exactly when it is `Visible`. An admin gets the empty filter. Anyone else is restricted to active records, and to records they take part in when their id is truthy. The bounds are applied as lines 32-35 choose between `undefined`, `""` and a timestamp. |
| `AppointmentQueries.ListAppointments` | entities/appointments/controller.ts:21-38 | An admin gets the whole store, inactive records included. Anyone else gets exactly the stored records that are `Visible`, with their stored values. |
| `AppointmentQueries.MatchesPush` | entities/appointments/controller.ts:31-35 | Pushing a clause onto the `$and` list adds it as one more condition that a match must meet. |
| `AppointmentQueries.DoctorAsToken` | entities/appointments/controller.ts:15 | The doctor id passed in the token slot gives a token that is not admin and has no truthy id. An undefined doctor gives no token, and the listing throws. |
| `AppointmentQueries.Visible` | entities/appointments/controller.ts:26-35 | Reference definition of a listing. An admin sees every record. A non-admin sees only active records, only records whose client or doctor they are (for a truthy id), and, when both bounds are timestamps, only records with end at or after the start bound and start at or before the end bound. |
| `AppointmentQueries.AnyActiveWithin` | entities/appointments/controller.ts:15-16 | An overlap exists exactly when some stored record would be listed for a token with neither id nor role. |
| `AppointmentQueries.HasRequiredData` | entities/appointments/controller.ts:6-7 | A payload passes exactly when it exists, has a start and an end, and has a non-empty doctor and a non-empty client. |
| `AppointmentQueries.MayCreate` | entities/appointments/controller.ts:8-13 | For a complete payload, create admits exactly the request's doctor, its client or an admin. |
| `AppointmentQueries.MayUpdate` | entities/appointments/controller.ts:45-49 | The update guard as written admits exactly an admin, or a caller whose id equals both the client and the doctor. |
| `AppointmentQueries.MayDelete` | entities/appointments/controller.ts:65-66 | Delete admits exactly the client or an admin. A doctor who is not the client is refused. |
| `AppointmentQueries.OverlapCheckMeaning` | entities/appointments/controller.ts:15-16 | The overlap query returns something exactly when some active record, of any doctor, meets the interval. |
| `AppointmentQueries.NewRecord` | entities/appointments/controller.ts:17 | The inserted record is active and carries the payload's start, end, doctor and client. |
| `AppointmentQueries.Patch` | entities/appointments/controller.ts:50-52 | Start, end and doctor come from the payload, and an absent start or end keeps its stored value. Client and active never change. |
| `AppointmentQueries.Deactivate` | entities/appointments/controller.ts:67 | The soft delete clears `active` and keeps start, end, doctor and client. |
| `AppointmentProperties.TouchingIntervalsConflict` | entities/appointments/controller.ts:34-35 | An active record ending exactly where the new interval starts counts as overlapping. |
| `AppointmentProperties.OtherDoctorBlocks` | entities/appointments/controller.ts:30-31 | An active record of a different doctor that meets the interval is found by the overlap query. |
| `AppointmentProperties.CreatedBlocksItsInterval` | entities/appointments/controller.ts:15-17 | After a successful create with start no later than end, repeating the same request meets an active record, so a repeat is refused. |
| `AppointmentProperties.CreatedVisibleToParticipants` | entities/appointments/controller.ts:29-31 | A newly created record appears, unchanged, in the unbounded listing of its client and of its doctor. |
| `AppointmentProperties.SelfOverlapBlocksUpdate` | entities/appointments/controller.ts:53-54 | An update that moves an active record to an interval meeting its own current interval meets an active record, so it fails with DuplicatedDate. |
| `AppointmentProperties.PatchChangesOnlyTarget` | entities/appointments/controller.ts:55-57 | A successful update keeps the key set and every other record. The target differs only in start, end and doctor. |
| `AppointmentProperties.DeletedStillListedForAdmin` | entities/appointments/controller.ts:26-27 | After a soft delete, an admin listing still holds the record, now inactive, with the same client. |
| `AppointmentProperties.DeletedHiddenFromOthers` | entities/appointments/controller.ts:29 | After a soft delete, no non-admin listing holds the record. |
| `AppointmentProperties.DeletedNoLongerBlocks` | entities/appointments/controller.ts:67 | After a soft delete, an interval is blocked exactly when another active record meets it. |
| `AppointmentProperties.BlankIdListsAllActive` | entities/appointments/controller.ts:30-31 | A non-admin token whose id is the empty string adds no caller filter, so it lists every active record. |
| `AppointmentProperties.OneBoundUpdateMeetsAnyActive` | entities/appointments/controller.ts:32-34 | When an update payload gives exactly one of start and end, the overlap check meets something exactly when the store holds any active record. |
| `AppointmentProperties.UpdateAsWrittenStricterThanIntended` | entities/appointments/controller.ts:45-49 | Everyone the written guard admits, the intended rule admits too. When client and doctor differ, a non-admin client or doctor is admitted by the intended rule and refused by the written one. |
| `AppointmentScenarios.TouchingBookingsScenario` | entities/appointments/controller.ts:14-16 | Booking [10, 11] with one doctor succeeds, and then booking [11, 12] with another doctor fails with DuplicatedDate. |
| `AppointmentScenarios.MissingDataScenario` | entities/appointments/controller.ts:6-7 | A payload without a client fails with MissingData. |
| `AppointmentScenarios.ClientUpdateScenario` | entities/appointments/controller.ts:45-49 | The client of an appointment whose doctor is someone else is refused the update with NotAuthorized. |
| `AppointmentScenarios.DeleteScenario` | entities/appointments/controller.ts:63-67 | The doctor is refused the delete. The client's delete then succeeds with 1 modified document, and an admin listing still shows the record as inactive. |
| `AppointmentScenarios.SelfOverlapUpdateScenario` | entities/appointments/controller.ts:53-54 | An admin moving an active [10, 11] to [11, 12] fails with DuplicatedDate, because the record meets its own new interval. |
| `AppointmentScenarios.OneBoundUpdateScenario` | entities/appointments/controller.ts:53-54 | An admin moving an active [10, 11] to start 20 with no end fails with DuplicatedDate, because no bound is pushed. |
| `AppointmentScenarios.UndefinedDoctorUpdateScenario` | entities/appointments/controller.ts:53 | An admin's update without a doctor fails with TypeError and leaves the store as it was. |

## Left out

- Populating `client` and `doctor` in listing results is identity expansion only, so it is not modelled. Results are maps from id to record, so the store's result order is not modelled either.
- Asynchrony and concurrency are not modelled. The gap between the overlap check and the write, where two concurrent requests can both pass, lies outside a sequential model.
- ListFilter: the end-only filter at line 33 is written with an array literal (`{ start: [{ $lte: end }] }`). Its store semantics are not modelled. The model uses the evidently intended `start <= end`.
- ListFilter: a bound clause compared with `undefined` or `""` (line 32 with an undefined start, line 33 with an undefined end) is taken to match no record. This assumes the store reads both as a missing value, and every stored record has both timestamps.
- DeleteAppointment: the code looks the record up with the filter `{ id: appID }` and updates it with `updateOne(appID, …)`. Both are modelled as lookup and update by the appointment's id.
- UpdateAppointment: an absent `start` or `end` leaves the stored field unchanged. This assumes the store drops `undefined` keys from an update. An absent payload (`data` undefined) also throws a type error, and that case is not modelled. Nor is an empty-string timestamp in a payload.
- Ids are compared by value. Whether a stored reference compares strictly equal to the token's string id depends on the store schema, and `model.js` is not part of this model.
- Timestamps are integers, and any given timestamp counts as truthy. The store's conversion of timestamp strings to dates is not modelled, and neither is the falsiness of a zero timestamp.
- CreateAppointment: the inserted record has exactly the five modelled fields, with `active` true by the schema default. Extra payload fields passed through to the store, for example an explicit `active`, are not modelled.
- Token issuance and verification, the user service (`entities/users/userRouter.ts` and the controller it forwards to), password hashing and the mapping of errors to HTTP responses lie outside the appointment controller.
