/**
 The writing half of the appointment controller: createAppointment,
 updateAppointment and deleteAppointment over the appointment collection,
 which they change in place.
 */
module AppointmentStore {
  import opened AppointmentTypes
  import opened AppointmentQueries

  /** Inactive records stay inactive and no record disappears: the soft-delete state machine. */
  ghost predicate OnlyForward(before: map<AppId, Appointment>, after: map<AppId, Appointment>) {
    && before.Keys <= after.Keys
    && forall k :: k in before && !before[k].active ==> !after[k].active
  }

  /** The appointment collection: stored documents by id, and the next id the store hands out. */
  class AppointmentCollection {
    var records: map<AppId, Appointment>
    var nextId: AppId

    ghost predicate Valid()
      reads this
    {
      forall k :: k in records ==> k < nextId
    }

    constructor ()
      ensures Valid() && records == map[]
    {
      records := map[];
      nextId := 0;
    }

    /** createAppointment(data, token) */
    method CreateAppointment(data: Option<Request>, token: Token) returns (r: Result<Entry>)
      requires Valid()
      modifies this
      ensures Valid()
      ensures !HasRequiredData(data) ==> r == Err(MissingData)
      ensures HasRequiredData(data) && !MayCreate(data.value, token) ==> r == Err(NotAuthorized)
      ensures HasRequiredData(data) && MayCreate(data.value, token) ==>
                (r == Err(DuplicatedDate) <==>
                   AnyActiveWithin(old(records), At(data.value.start.value), At(data.value.end.value)))
      ensures r.Ok? <==> HasRequiredData(data) && MayCreate(data.value, token)
                         && !AnyActiveWithin(old(records), At(data.value.start.value), At(data.value.end.value))
      ensures r.Err? ==> records == old(records)
      ensures r.Ok? ==> && r.value.id !in old(records)
                        && r.value.appointment == NewRecord(data.value)
                        && records == old(records)[r.value.id := r.value.appointment]
      ensures OnlyForward(old(records), records)
    {
      if !HasRequiredData(data) {
        return Err(MissingData);
      }
      var req := data.value;
      if req.doctor != token.id && req.client != token.id && !IsAdmin(token) {
        return Err(NotAuthorized);
      }
      var slot := DoctorAsToken(req.doctor);
      var overlap := ListAppointments(records, At(req.start.value), At(req.end.value), slot.value);
      OverlapCheckMeaning(records, At(req.start.value), At(req.end.value), req.doctor.value);
      if overlap != map[] {
        return Err(DuplicatedDate);
      }
      var id := nextId;
      var created := NewRecord(req);
      records := records[id := created];
      nextId := nextId + 1;
      r := Ok(Entry(id, created));
    }

    /**
     updateAppointment(appID, data, token). An undefined `data.doctor` lands in
     listAppointments' token slot and its `token.role` throws: TypeError.
     */
    method UpdateAppointment(id: AppId, data: Request, token: Token) returns (r: Result<Appointment>)
      requires Valid()
      modifies this
      ensures Valid() && nextId == old(nextId)
      ensures id !in old(records) ==> r == Err(NotFound)
      ensures id in old(records) && !MayUpdate(old(records)[id], token) ==> r == Err(NotAuthorized)
      ensures id in old(records) && MayUpdate(old(records)[id], token) && data.doctor.None? ==> r == Err(TypeError)
      ensures id in old(records) && MayUpdate(old(records)[id], token) && data.doctor.Some? ==>
                (r == Err(DuplicatedDate) <==> AnyActiveWithin(old(records), ToBound(data.start), ToBound(data.end)))
      ensures r.Ok? <==> id in old(records) && MayUpdate(old(records)[id], token) && data.doctor.Some?
                         && !AnyActiveWithin(old(records), ToBound(data.start), ToBound(data.end))
      ensures r.Err? ==> records == old(records)
      ensures r.Ok? ==> && data.doctor.Some?
                        && records == old(records)[id := Patch(old(records)[id], data)]
                        && r.value == records[id]
      ensures OnlyForward(old(records), records)
    {
      if id !in records {
        return Err(NotFound);
      }
      var appointment := records[id];
      if (token.id != Some(appointment.client) || token.id != Some(appointment.doctor)) && !IsAdmin(token) {
        return Err(NotAuthorized);
      }
      var slot := DoctorAsToken(data.doctor);
      if slot.None? {
        return Err(TypeError);
      }
      var overlap := ListAppointments(records, ToBound(data.start), ToBound(data.end), slot.value);
      OverlapCheckMeaning(records, ToBound(data.start), ToBound(data.end), data.doctor.value);
      if overlap != map[] {
        return Err(DuplicatedDate);
      }
      var updated := Patch(appointment, data);
      records := records[id := updated];
      r := Ok(updated);
    }

    /**
     deleteAppointment(appID, token); the result is the store's count of
     modified documents, 0 when the record was already inactive.
     */
    method DeleteAppointment(id: AppId, token: Token) returns (r: Result<nat>)
      requires Valid()
      modifies this
      ensures Valid() && nextId == old(nextId)
      ensures id !in old(records) ==> r == Err(NotFound)
      ensures id in old(records) && !MayDelete(old(records)[id], token) ==> r == Err(NotAuthorized)
      ensures r.Ok? <==> id in old(records) && MayDelete(old(records)[id], token)
      ensures r.Err? ==> records == old(records)
      ensures r.Ok? ==> && records == old(records)[id := Deactivate(old(records)[id])]
                        && r.value == (if old(records)[id].active then 1 else 0)
      ensures records.Keys == old(records).Keys
      ensures OnlyForward(old(records), records)
    {
      if id !in records {
        return Err(NotFound);
      }
      var appointment := records[id];
      if token.id != Some(appointment.client) && !IsAdmin(token) {
        return Err(NotAuthorized);
      }
      records := records[id := Deactivate(appointment)];
      r := Ok(if appointment.active then 1 else 0);
    }
  }
}
