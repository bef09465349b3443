/**
 Concrete call sequences against a fresh appointment collection, and what
 callers can conclude about their outcomes from the operations' contracts
 alone.
 */
module AppointmentScenarios {
  import opened AppointmentTypes
  import opened AppointmentQueries
  import opened AppointmentStore
  import opened AppointmentProperties

  function Caller(id: UserId, role: string): Token {
    Token(Some(id), Some(role))
  }

  function Booking(start: Time, end: Time, doctor: UserId, client: UserId): Option<Request> {
    Some(Request(Some(start), Some(end), Some(doctor), Some(client)))
  }

  /**
   A booking [10, 11] with one doctor blocks a booking [11, 12] with another
   doctor: the intervals only touch, and the check looks at every doctor.
   */
  method TouchingBookingsScenario() returns (first: Result<Entry>, second: Result<Entry>)
    ensures first.Ok?
    ensures second == Err(DuplicatedDate)
  {
    var store := new AppointmentCollection();
    first := store.CreateAppointment(Booking(10, 11, "d1", "c1"), Caller("c1", "CLIENT"));
    assert first.Ok? by {
      assert !AnyActiveWithin(map[], At(10), At(11));
    }
    TouchingIntervalsConflict(store.records, first.value.id, 12);
    second := store.CreateAppointment(Booking(11, 12, "d2", "c2"), Caller("c2", "CLIENT"));
  }

  /** A payload without a client is refused before authorisation and before the overlap check. */
  method MissingDataScenario() returns (r: Result<Entry>)
    ensures r == Err(MissingData)
  {
    var store := new AppointmentCollection();
    r := store.CreateAppointment(Some(Request(Some(10), Some(11), Some("d1"), None)), Caller("x", "CLIENT"));
  }

  /** The client of an appointment whose doctor is someone else may not update it. */
  method ClientUpdateScenario() returns (r: Result<Appointment>)
    ensures r == Err(NotAuthorized)
  {
    var store := new AppointmentCollection();
    var created := store.CreateAppointment(Booking(10, 11, "d1", "c1"), Caller("c1", "CLIENT"));
    assert created.Ok? by {
      assert !AnyActiveWithin(map[], At(10), At(11));
    }
    r := store.UpdateAppointment(created.value.id, Request(Some(20), Some(21), None, None), Caller("c1", "CLIENT"));
  }

  /**
   The doctor of an appointment may not delete it; its client may, and an
   admin still lists the record afterwards, inactive.
   */
  method DeleteScenario() returns (byDoctor: Result<nat>, byClient: Result<nat>, listed: map<AppId, Appointment>, id: AppId)
    ensures byDoctor == Err(NotAuthorized)
    ensures byClient == Ok(1)
    ensures id in listed && !listed[id].active
  {
    var store := new AppointmentCollection();
    var created := store.CreateAppointment(Booking(10, 11, "d1", "c1"), Caller("c1", "CLIENT"));
    assert created.Ok? by {
      assert !AnyActiveWithin(map[], At(10), At(11));
    }
    id := created.value.id;
    byDoctor := store.DeleteAppointment(id, Caller("d1", "DOCTOR"));
    byClient := store.DeleteAppointment(id, Caller("c1", "CLIENT"));
    listed := ListAppointments(store.records, Undefined, Undefined, Caller("root", ADMIN));
  }

  /**
   Moving an active appointment from [10, 11] to [11, 12] meets its own
   current interval, so even an admin's update fails.
   */
  method SelfOverlapUpdateScenario() returns (r: Result<Appointment>)
    ensures r == Err(DuplicatedDate)
  {
    var store := new AppointmentCollection();
    var created := store.CreateAppointment(Booking(10, 11, "d1", "c1"), Caller("c1", "CLIENT"));
    assert created.Ok? by {
      assert !AnyActiveWithin(map[], At(10), At(11));
    }
    var request := Request(Some(11), Some(12), Some("d1"), None);
    SelfOverlapBlocksUpdate(store.records, created.value.id, request);
    r := store.UpdateAppointment(created.value.id, request, Caller("root", ADMIN));
  }

  /**
   An update that gives a new start but no end pushes no bound at all, so
   the far-away [20, ...] is refused because the record itself is active.
   */
  method OneBoundUpdateScenario() returns (r: Result<Appointment>)
    ensures r == Err(DuplicatedDate)
  {
    var store := new AppointmentCollection();
    var created := store.CreateAppointment(Booking(10, 11, "d1", "c1"), Caller("c1", "CLIENT"));
    assert created.Ok? by {
      assert !AnyActiveWithin(map[], At(10), At(11));
    }
    var request := Request(Some(20), None, Some("d1"), None);
    OneBoundUpdateMeetsAnyActive(store.records, request);
    r := store.UpdateAppointment(created.value.id, request, Caller("root", ADMIN));
  }

  /** An authorised update without a doctor throws before the overlap check and changes nothing. */
  method UndefinedDoctorUpdateScenario() returns (r: Result<Appointment>, before: map<AppId, Appointment>, after: map<AppId, Appointment>)
    ensures r == Err(TypeError)
    ensures after == before
  {
    var store := new AppointmentCollection();
    var created := store.CreateAppointment(Booking(10, 11, "d1", "c1"), Caller("c1", "CLIENT"));
    assert created.Ok? by {
      assert !AnyActiveWithin(map[], At(10), At(11));
    }
    before := store.records;
    r := store.UpdateAppointment(created.value.id, Request(Some(20), Some(21), None, None), Caller("root", ADMIN));
    after := store.records;
  }
}
