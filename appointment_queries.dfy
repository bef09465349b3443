/**
 The read-only part of the appointment controller: the filter that
 listAppointments builds, the query it runs, the overlap check that create
 and update derive from it, and the guard predicates of the three writes.
 */
module AppointmentQueries {
  import opened AppointmentTypes

  /** One conjunct of the `$and` filter that listAppointments pushes. */
  datatype Clause =
    | ActiveOnly                    // { active: true }
    | ClientOrDoctor(user: UserId)  // { $or: [{ client: user }, { doctor: user }] }
    | EndFrom(bound: Bound)         // { end: { $gte: bound } }
    | StartUntil(bound: Bound)      // { start: { $lte: bound } }

  /**
   A stored timestamp compared with `undefined` or "" matches nothing: the
   store reads either as a missing value, and every stored record carries
   both timestamps.
   */
  predicate Satisfies(a: Appointment, c: Clause) {
    match c
    case ActiveOnly => a.active
    case ClientOrDoctor(u) => a.client == u || a.doctor == u
    case EndFrom(b) => b.At? && a.end >= b.t
    case StartUntil(b) => b.At? && a.start <= b.t
  }

  /** A document matches a conjunction when it satisfies every clause; `{}` matches everything. */
  predicate Matches(a: Appointment, filter: seq<Clause>) {
    forall i :: 0 <= i < |filter| ==> Satisfies(a, filter[i])
  }

  /** Pushing one clause onto a conjunction adds that clause as a further condition. */
  lemma MatchesPush(f: seq<Clause>, c: Clause)
    ensures forall a :: Matches(a, f + [c]) <==> Matches(a, f) && Satisfies(a, c)
  {
    forall a ensures Matches(a, f + [c]) <==> Matches(a, f) && Satisfies(a, c) {
      if Matches(a, f + [c]) {
        assert (f + [c])[|f|] == c;
        forall i | 0 <= i < |f| ensures Satisfies(a, f[i]) {
          assert (f + [c])[i] == f[i];
        }
      }
    }
  }

  /** The store's `find`: every stored document that matches the filter. */
  function Find(store: map<AppId, Appointment>, filter: seq<Clause>): map<AppId, Appointment> {
    map k | k in store && Matches(store[k], filter) :: store[k]
  }

  /**
   The record meets the listing's bounds, case by case: both timestamps give
   the inclusive interval test; one timestamp beside an empty string gives a
   one-sided test; an `undefined` bound beside an empty string compares with
   a missing value and admits nothing; every other pair sets no bound.
   */
  predicate WithinBounds(a: Appointment, start: Bound, end: Bound) {
    match (start, end)
    case (At(s), At(e)) => a.end >= s && a.start <= e
    case (At(s), Blank) => a.end >= s
    case (Blank, At(e)) => a.start <= e
    case (Undefined, Blank) => false
    case (Blank, Undefined) => false
    case _ => true
  }

  /**
   Reference definition of what a caller may see: an admin sees everything;
   anybody else sees active records they take part in (when their token has
   a truthy id) that meet the bounds.
   */
  predicate Visible(a: Appointment, start: Bound, end: Bound, token: Token): (seen: bool)
    ensures IsAdmin(token) ==> seen
    ensures seen && !IsAdmin(token) ==> a.active
    ensures seen && !IsAdmin(token) && Truthy(token.id) ==> a.client == token.id.value || a.doctor == token.id.value
    ensures seen && !IsAdmin(token) && start.At? && end.At? ==> a.end >= start.t && a.start <= end.t
  {
    || IsAdmin(token)
    || (&& a.active
        && (Truthy(token.id) ==> a.client == token.id.value || a.doctor == token.id.value)
        && WithinBounds(a, start, end))
  }

  /** The filter of listAppointments, built one push at a time as the controller does. */
  function ListFilter(start: Bound, end: Bound, token: Token): (filter: seq<Clause>)
    ensures forall a :: Matches(a, filter) <==> Visible(a, start, end, token)
  {
    if IsAdmin(token) then []
    else
      var base := [ActiveOnly];
      assert forall a :: Matches(a, base) <==> a.active by {
        MatchesPush([], ActiveOnly);
        assert [] + [ActiveOnly] == base;
      }
      MatchesPush(base, ClientOrDoctor(token.id.GetOr("")));
      var withCaller := if Truthy(token.id) then base + [ClientOrDoctor(token.id.value)] else base;
      MatchesPush(withCaller, EndFrom(start));
      var withStart := if start != Blank && end == Blank then withCaller + [EndFrom(start)] else withCaller;
      MatchesPush(withStart, StartUntil(end));
      var withEnd := if end != Blank && start == Blank then withStart + [StartUntil(end)] else withStart;
      MatchesPush(withEnd, EndFrom(start));
      MatchesPush(withEnd + [EndFrom(start)], StartUntil(end));
      assert withEnd + [EndFrom(start)] + [StartUntil(end)] == withEnd + [EndFrom(start), StartUntil(end)];
      if start.At? && end.At? then withEnd + [EndFrom(start), StartUntil(end)] else withEnd
  }

  /** listAppointments over the given store contents. */
  function ListAppointments(store: map<AppId, Appointment>, start: Bound, end: Bound, token: Token)
    : (found: map<AppId, Appointment>)
    ensures IsAdmin(token) ==> found == store
    ensures forall k :: k in found ==> k in store && found[k] == store[k]
    ensures forall k :: k in store ==> (k in found <==> Visible(store[k], start, end, token))
  {
    Find(store, ListFilter(start, end, token))
  }

  /**
   What create and update pass in listAppointments' token slot: the doctor
   id itself. A string has neither an `id` nor a `role` property, so the
   query runs as an anonymous non-admin. An undefined doctor makes the
   listing's first read of `token.role` throw, shown here as None.
   */
  function DoctorAsToken(doctor: Option<UserId>): (token: Option<Token>)
    ensures token.Some? <==> doctor.Some?
    ensures token.Some? ==> !IsAdmin(token.value) && !Truthy(token.value.id)
  {
    if doctor.None? then None else Some(Token(None, None))
  }

  /** Some active record, of any doctor and any client, meets the bounds. */
  ghost predicate AnyActiveWithin(store: map<AppId, Appointment>, start: Bound, end: Bound): (clash: bool)
    ensures clash <==> exists k :: k in store && Visible(store[k], start, end, Token(None, None))
  {
    exists k :: k in store && store[k].active && WithinBounds(store[k], start, end)
  }

  /** The overlap check of create and update finds something exactly when an active record meets the bounds. */
  lemma OverlapCheckMeaning(store: map<AppId, Appointment>, start: Bound, end: Bound, doctor: UserId)
    ensures ListAppointments(store, start, end, DoctorAsToken(Some(doctor)).value) != map[]
            <==> AnyActiveWithin(store, start, end)
  {
    var found := ListAppointments(store, start, end, DoctorAsToken(Some(doctor)).value);
    if AnyActiveWithin(store, start, end) {
      var k :| k in store && store[k].active && WithinBounds(store[k], start, end);
      assert k in found;
    }
  }

  /** createAppointment's required-data check: the negation of its MISSING_DATA guard. */
  predicate HasRequiredData(data: Option<Request>): (complete: bool)
    ensures complete <==> && data.Some?
                          && data.value.start.Some? && data.value.end.Some?
                          && data.value.doctor.Some? && data.value.doctor.value != ""
                          && data.value.client.Some? && data.value.client.value != ""
  {
    !(data.None? || data.value.start.None? || data.value.end.None?
      || !Truthy(data.value.doctor) || !Truthy(data.value.client))
  }

  /** createAppointment's authorisation: the negation of its NOT_AUTHORIZED guard. */
  predicate MayCreate(data: Request, token: Token): (allowed: bool)
    ensures HasRequiredData(Some(data)) ==>
              (allowed <==> token.id == data.doctor || token.id == data.client || IsAdmin(token))
  {
    !(data.doctor != token.id && data.client != token.id && !IsAdmin(token))
  }

  /**
   updateAppointment's authorisation, as written: the negation of its
   NOT_AUTHORIZED guard, which admits a non-admin only as both the client
   and the doctor.
   */
  predicate MayUpdate(a: Appointment, token: Token): (allowed: bool)
    ensures allowed <==> IsAdmin(token) || (token.id == Some(a.client) && token.id == Some(a.doctor))
  {
    !((token.id != Some(a.client) || token.id != Some(a.doctor)) && !IsAdmin(token))
  }

  /**
   NOT the controller's rule: the evidently intended update authorisation
   (client, doctor or admin), kept only to compare against MayUpdate.
   */
  predicate MayUpdateIntended(a: Appointment, token: Token) {
    token.id == Some(a.client) || token.id == Some(a.doctor) || IsAdmin(token)
  }

  /** deleteAppointment's authorisation: the negation of its NOT_AUTHORIZED guard. */
  predicate MayDelete(a: Appointment, token: Token): (allowed: bool)
    ensures allowed <==> token.id == Some(a.client) || IsAdmin(token)
    ensures token.id == Some(a.doctor) && a.doctor != a.client && !IsAdmin(token) ==> !allowed
  {
    !(token.id != Some(a.client) && !IsAdmin(token))
  }

  /** The document that create inserts for a payload that passed validation. */
  function NewRecord(data: Request): (a: Appointment)
    requires HasRequiredData(Some(data))
    ensures a.active
    ensures Some(a.start) == data.start && Some(a.end) == data.end
    ensures Some(a.doctor) == data.doctor && Some(a.client) == data.client
  {
    Appointment(data.start.value, data.end.value, data.doctor.value, data.client.value, true)
  }

  /**
   The patch of update: only `start`, `end` and `doctor`. The doctor is
   always given (an undefined doctor has already thrown); an absent start or
   end leaves the stored one.
   */
  function Patch(a: Appointment, data: Request): (b: Appointment)
    requires data.doctor.Some?
    ensures b.client == a.client && b.active == a.active
    ensures b.start == (if data.start.Some? then data.start.value else a.start)
    ensures b.end == (if data.end.Some? then data.end.value else a.end)
    ensures b.doctor == data.doctor.value
  {
    a.(start := data.start.GetOr(a.start), end := data.end.GetOr(a.end), doctor := data.doctor.value)
  }

  /** The soft delete: `active` becomes false, nothing else changes. */
  function Deactivate(a: Appointment): (b: Appointment)
    ensures !b.active
    ensures b.start == a.start && b.end == a.end && b.doctor == a.doctor && b.client == a.client
  {
    a.(active := false)
  }
}
