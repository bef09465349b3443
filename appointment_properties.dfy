/**
 Properties that relate the controller's operations to each other: what a
 successful create, update or delete means for later overlap checks and
 listings, and what the authorisation guards admit.
 */
module AppointmentProperties {
  import opened AppointmentTypes
  import opened AppointmentQueries

  /** Bounds are inclusive: a booking that starts exactly when an active one ends still conflicts. */
  lemma TouchingIntervalsConflict(store: map<AppId, Appointment>, k: AppId, newEnd: Time)
    requires k in store && store[k].active
    requires store[k].start <= store[k].end <= newEnd
    ensures AnyActiveWithin(store, At(store[k].end), At(newEnd))
  {
  }

  /** The overlap check ignores the doctor: an active booking of any other doctor that meets the interval blocks it. */
  lemma OtherDoctorBlocks(store: map<AppId, Appointment>, k: AppId, doctor: UserId, start: Time, end: Time)
    requires k in store && store[k].active && store[k].doctor != doctor
    requires store[k].end >= start && store[k].start <= end
    ensures k in ListAppointments(store, At(start), At(end), DoctorAsToken(Some(doctor)).value)
  {
  }

  /** After a successful create of a well-ordered interval, the same request conflicts with the new record. */
  lemma {:induction false} CreatedBlocksItsInterval(store: map<AppId, Appointment>, id: AppId, data: Request)
    requires HasRequiredData(Some(data)) && id !in store
    requires data.start.value <= data.end.value
    ensures AnyActiveWithin(store[id := NewRecord(data)], At(data.start.value), At(data.end.value))
  {
    var after := store[id := NewRecord(data)];
    assert id in after && after[id].active && WithinBounds(after[id], At(data.start.value), At(data.end.value));
  }

  /** A created appointment shows up, unfiltered, in the listing of its client and of its doctor. */
  lemma CreatedVisibleToParticipants(store: map<AppId, Appointment>, id: AppId, data: Request, token: Token)
    requires HasRequiredData(Some(data)) && id !in store
    requires token.id == data.client || token.id == data.doctor
    ensures var after := store[id := NewRecord(data)];
            var found := ListAppointments(after, Undefined, Undefined, token);
            id in found && found[id] == NewRecord(data)
  {
  }

  /**
   The update's overlap check does not exclude the record being updated:
   moving an active appointment to an interval that meets its own current
   interval is reported as a conflict.
   */
  lemma SelfOverlapBlocksUpdate(store: map<AppId, Appointment>, id: AppId, data: Request)
    requires id in store && store[id].active
    requires WithinBounds(store[id], ToBound(data.start), ToBound(data.end))
    ensures AnyActiveWithin(store, ToBound(data.start), ToBound(data.end))
  {
  }

  /** A successful update patches one record: only its start, end and doctor can differ. */
  lemma PatchChangesOnlyTarget(store: map<AppId, Appointment>, id: AppId, data: Request)
    requires id in store && data.doctor.Some?
    ensures var after := store[id := Patch(store[id], data)];
            && after.Keys == store.Keys
            && (forall k :: k in store && k != id ==> after[k] == store[k])
            && after[id] == store[id].(start := after[id].start, end := after[id].end, doctor := after[id].doctor)
  {
  }

  /** A soft-deleted record is still listed for an admin, now inactive. */
  lemma DeletedStillListedForAdmin(store: map<AppId, Appointment>, id: AppId, start: Bound, end: Bound, token: Token)
    requires id in store && IsAdmin(token)
    ensures var found := ListAppointments(store[id := Deactivate(store[id])], start, end, token);
            id in found && !found[id].active && found[id].client == store[id].client
  {
  }

  /** A soft-deleted record disappears from every non-admin listing. */
  lemma DeletedHiddenFromOthers(store: map<AppId, Appointment>, id: AppId, start: Bound, end: Bound, token: Token)
    requires id in store && !IsAdmin(token)
    ensures id !in ListAppointments(store[id := Deactivate(store[id])], start, end, token)
  {
  }

  /** After a soft delete, exactly the other active records still take part in overlap checks. */
  lemma {:induction false} DeletedNoLongerBlocks(store: map<AppId, Appointment>, id: AppId, start: Bound, end: Bound)
    requires id in store
    ensures AnyActiveWithin(store[id := Deactivate(store[id])], start, end)
            <==> exists k :: k in store && k != id && store[k].active && WithinBounds(store[k], start, end)
  {
    var after := store[id := Deactivate(store[id])];
    if AnyActiveWithin(after, start, end) {
      var k :| k in after && after[k].active && WithinBounds(after[k], start, end);
      assert k != id && store[k] == after[k];
    }
    if exists k :: k in store && k != id && store[k].active && WithinBounds(store[k], start, end) {
      var k :| k in store && k != id && store[k].active && WithinBounds(store[k], start, end);
      assert after[k] == store[k];
    }
  }

  /** A non-admin token whose id is "" carries no caller filter, so it lists every active record. */
  lemma BlankIdListsAllActive(store: map<AppId, Appointment>, token: Token)
    requires token.id == Some("") && !IsAdmin(token)
    ensures forall k :: k in store && store[k].active ==> k in ListAppointments(store, Undefined, Undefined, token)
  {
  }

  /**
   The written update guard admits nobody the intended rule would refuse,
   and refuses a client (or a doctor) of an appointment with distinct client
   and doctor whom the intended rule admits.
   */
  lemma UpdateAsWrittenStricterThanIntended(a: Appointment, token: Token)
    ensures MayUpdate(a, token) ==> MayUpdateIntended(a, token)
    ensures a.client != a.doctor && !IsAdmin(token) && (token.id == Some(a.client) || token.id == Some(a.doctor))
            ==> MayUpdateIntended(a, token) && !MayUpdate(a, token)
  {
  }

  /**
   An update that gives only one of start and end passes `undefined` for the
   other, so no bound is pushed: any active record at all, the target
   included, makes it fail.
   */
  lemma {:induction false} OneBoundUpdateMeetsAnyActive(store: map<AppId, Appointment>, data: Request)
    requires data.start.Some? != data.end.Some?
    ensures AnyActiveWithin(store, ToBound(data.start), ToBound(data.end))
            <==> exists k :: k in store && store[k].active
  {
    if exists k :: k in store && store[k].active {
      var k :| k in store && store[k].active;
      assert WithinBounds(store[k], ToBound(data.start), ToBound(data.end));
    }
  }
}
