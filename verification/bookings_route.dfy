/** The `/api/bookings` route: `GET` looks one record up by id or filters the
    collection by date and availability; `PUT` either edits a schedule (date,
    one role's name and phone, notes) or shallow-merges the body into the
    record. */
module BookingsRoute {
  import opened Results
  import opened SlotStore

  // ---------------------------------------------------------------------------
  // GET
  // ---------------------------------------------------------------------------

  /** The query parameters of a `GET`; an absent `date` or `available` is "". */
  datatype GetRequest = GetRequest(id: IdArg, date: string, available: string)

  /** A single record (lookup by id) or the matching records (filter). */
  datatype GetBody = OneSlot(slot: Slot) | SlotList(slots: map<ObjectId, Slot>)

  /** The filter document the handler builds: an optional date equality, and
      for `available=true` the conditions `operatorName != ""` and
      `userBooked == null`. */
  datatype Query = Query(date: Option<string>, operatorNameNot: Option<string>, userBookedNull: bool)

  function BuildQuery(date: string, available: string): Query
  {
    var onlyAvailable := available == "true";
    Query(
      if date != "" then Some(date) else None,
      if onlyAvailable then Some("") else None,
      onlyAvailable)
  }

  /** Whether a stored document satisfies the filter document. */
  predicate Matches(q: Query, s: Slot)
  {
    && (q.date.Some? ==> s.date == q.date.value)
    && (q.operatorNameNot.Some? ==> s.operatorName != q.operatorNameNot.value)
    && (q.userBookedNull ==> s.userBooked.None?)
  }

  /** Every stored record that satisfies the filter. */
  function Find(store: Store, q: Query): map<ObjectId, Slot>
  {
    map k | k in store && Matches(q, store[k]) :: store[k]
  }

  /** The `GET` handler. An id takes precedence over the filters; a filter
      result holds exactly the records with the requested date (when one is
      given) that are available (when `available=true`). */
  function Get(store: Store, req: GetRequest): (r: Result<GetBody, Error>)
    ensures req.id.Malformed? ==> r == Failure(InvalidId)
    ensures req.id.Valid? ==> (r.Success? <==> req.id.id in store)
    ensures req.id.Valid? && req.id.id !in store ==> r == Failure(NotFound)
    ensures req.id.Valid? && req.id.id in store ==> r.value == OneSlot(store[req.id.id])
    ensures req.id.Missing? ==> r.Success? && r.value.SlotList?
    ensures req.id.Missing? ==> forall k :: k in r.value.slots <==>
      && k in store
      && (req.date != "" ==> store[k].date == req.date)
      && (req.available == "true" ==> Available(store[k]))
    ensures req.id.Missing? ==> forall k :: k in r.value.slots ==> r.value.slots[k] == store[k]
  {
    match req.id
    case Valid(id) => if id in store then Success(OneSlot(store[id])) else Failure(NotFound)
    case Malformed => Failure(InvalidId)
    case Missing => Success(SlotList(Find(store, BuildQuery(req.date, req.available))))
  }

  /** The availability filter does not look at the checker: reassigning or
      clearing the checker of one record never changes whether it is listed. */
  lemma AvailableFilterIgnoresChecker(store: Store, k: ObjectId, name: string, phone: string, confirmed: bool, date: string)
    requires k in store
    ensures
      var store' := store[k := store[k].(checkerName := name, checkerPhone := phone, checkerConfirmed := confirmed)];
      var before := Get(store, GetRequest(Missing, date, "true"));
      var after := Get(store', GetRequest(Missing, date, "true"));
      k in before.value.slots <==> k in after.value.slots
  {
  }

  // ---------------------------------------------------------------------------
  // PUT
  // ---------------------------------------------------------------------------

  /** The body of a schedule edit. `phone` and `notes` may be absent. */
  datatype ScheduleEdit = ScheduleEdit(role: string, name: string, phone: Option<string>, date: string, notes: Option<string>)

  /** The fields a non-schedule `PUT` body supplies; `None` is an absent key. */
  datatype SlotPatch = SlotPatch(
    date: Option<string>,
    operatorName: Option<string>,
    operatorPhone: Option<string>,
    operatorConfirmed: Option<bool>,
    checkerName: Option<string>,
    checkerPhone: Option<string>,
    checkerConfirmed: Option<bool>,
    userBooked: Option<Option<Booking>>,
    notes: Option<string>)

  const EmptyPatch := SlotPatch(None, None, None, None, None, None, None, None, None)

  /** A `PUT` body: `type: 'schedule'`, or anything else. */
  datatype PutBody = Schedule(edit: ScheduleEdit) | Merge(patch: SlotPatch)

  /** A successful `PUT`: the new store, and the merged record that the
      generic branch echoes back (the schedule branch answers with a message). */
  datatype PutReply = PutReply(store: Store, echo: Option<Slot>)

  /** `phone || ''` */
  function PhoneOrEmpty(phone: Option<string>): string
  {
    if phone.Some? then phone.value else ""
  }

  /** The three fields a schedule edit cannot do without. */
  predicate HasRequiredFields(e: ScheduleEdit)
  {
    e.role != "" && e.name != "" && e.date != ""
  }

  /** The record after a schedule edit: the new date, the named role's name
      and phone, the notes if supplied, and a fresh `updatedAt`. */
  function ApplyEdit(s: Slot, e: ScheduleEdit, now: Timestamp): Slot
  {
    var s1 := s.(date := e.date, updatedAt := Some(now));
    var s2 := if e.role == OperatorRole
              then s1.(operatorName := e.name, operatorPhone := PhoneOrEmpty(e.phone))
              else s1.(checkerName := e.name, checkerPhone := PhoneOrEmpty(e.phone));
    if e.notes.Some? then s2.(notes := e.notes.value) else s2
  }

  /** The schedule branch of `PUT` on an existing record. */
  function EditSchedule(store: Store, id: ObjectId, e: ScheduleEdit, now: Timestamp): (r: Result<Store, Error>)
    requires id in store
    ensures r == Failure(MissingField) <==> !HasRequiredFields(e)
    ensures r == Failure(DateConflict) <==>
      HasRequiredFields(e) && e.date != store[id].date && DateHeldByOther(store, id, e.date)
    ensures r.Success? <==>
      HasRequiredFields(e) && !(e.date != store[id].date && DateHeldByOther(store, id, e.date))
    ensures r.Success? ==> r.value.Keys == store.Keys
    ensures r.Success? ==> forall k :: k in store && k != id ==> r.value[k] == store[k]
    ensures r.Success? ==>
      var before, after := store[id], r.value[id];
      && after.date == e.date
      && after.userBooked == before.userBooked
      && after.operatorConfirmed == before.operatorConfirmed
      && after.checkerConfirmed == before.checkerConfirmed
      && after.notes == (if e.notes.Some? then e.notes.value else before.notes)
      && after.updatedAt == Some(now)
    ensures r.Success? && e.role == OperatorRole ==>
      var before, after := store[id], r.value[id];
      && after.operatorName == e.name && after.operatorPhone == PhoneOrEmpty(e.phone)
      && after.checkerName == before.checkerName && after.checkerPhone == before.checkerPhone
    ensures r.Success? && e.role != OperatorRole ==>
      var before, after := store[id], r.value[id];
      && after.checkerName == e.name && after.checkerPhone == PhoneOrEmpty(e.phone)
      && after.operatorName == before.operatorName && after.operatorPhone == before.operatorPhone
  {
    if !HasRequiredFields(e) then Failure(MissingField)
    else if e.date != store[id].date && DateHeldByOther(store, id, e.date) then Failure(DateConflict)
    else Success(store[id := ApplyEdit(store[id], e, now)])
  }

  /** Every key the body supplies carries the body's value in `s`. */
  ghost predicate Agrees(p: SlotPatch, s: Slot)
  {
    && (p.date.Some? ==> s.date == p.date.value)
    && (p.operatorName.Some? ==> s.operatorName == p.operatorName.value)
    && (p.operatorPhone.Some? ==> s.operatorPhone == p.operatorPhone.value)
    && (p.operatorConfirmed.Some? ==> s.operatorConfirmed == p.operatorConfirmed.value)
    && (p.checkerName.Some? ==> s.checkerName == p.checkerName.value)
    && (p.checkerPhone.Some? ==> s.checkerPhone == p.checkerPhone.value)
    && (p.checkerConfirmed.Some? ==> s.checkerConfirmed == p.checkerConfirmed.value)
    && (p.userBooked.Some? ==> s.userBooked == p.userBooked.value)
    && (p.notes.Some? ==> s.notes == p.notes.value)
  }

  /** Every key the body leaves out has the same value in `before` and `after`. */
  ghost predicate KeepsAbsent(p: SlotPatch, before: Slot, after: Slot)
  {
    && (p.date.None? ==> after.date == before.date)
    && (p.operatorName.None? ==> after.operatorName == before.operatorName)
    && (p.operatorPhone.None? ==> after.operatorPhone == before.operatorPhone)
    && (p.operatorConfirmed.None? ==> after.operatorConfirmed == before.operatorConfirmed)
    && (p.checkerName.None? ==> after.checkerName == before.checkerName)
    && (p.checkerPhone.None? ==> after.checkerPhone == before.checkerPhone)
    && (p.checkerConfirmed.None? ==> after.checkerConfirmed == before.checkerConfirmed)
    && (p.userBooked.None? ==> after.userBooked == before.userBooked)
    && (p.notes.None? ==> after.notes == before.notes)
  }

  function Pick<T>(o: Option<T>, current: T): T
  {
    if o.Some? then o.value else current
  }

  /** `{ ...s, ...body }` */
  function MergePatch(s: Slot, p: SlotPatch): (r: Slot)
    ensures Agrees(p, r)
    ensures KeepsAbsent(p, s, r)
    ensures r.updatedAt == s.updatedAt
  {
    Slot(
      Pick(p.date, s.date),
      Pick(p.operatorName, s.operatorName),
      Pick(p.operatorPhone, s.operatorPhone),
      Pick(p.operatorConfirmed, s.operatorConfirmed),
      Pick(p.checkerName, s.checkerName),
      Pick(p.checkerPhone, s.checkerPhone),
      Pick(p.checkerConfirmed, s.checkerConfirmed),
      Pick(p.userBooked, s.userBooked),
      Pick(p.notes, s.notes),
      s.updatedAt)
  }

  /** `{ ...p, ...q }`: keys of `q` win. */
  function CombinePatches(p: SlotPatch, q: SlotPatch): SlotPatch
  {
    SlotPatch(
      if q.date.Some? then q.date else p.date,
      if q.operatorName.Some? then q.operatorName else p.operatorName,
      if q.operatorPhone.Some? then q.operatorPhone else p.operatorPhone,
      if q.operatorConfirmed.Some? then q.operatorConfirmed else p.operatorConfirmed,
      if q.checkerName.Some? then q.checkerName else p.checkerName,
      if q.checkerPhone.Some? then q.checkerPhone else p.checkerPhone,
      if q.checkerConfirmed.Some? then q.checkerConfirmed else p.checkerConfirmed,
      if q.userBooked.Some? then q.userBooked else p.userBooked,
      if q.notes.Some? then q.notes else p.notes)
  }

  /** An empty body leaves the record as it was. */
  lemma MergeEmptyIsIdentity(s: Slot)
    ensures MergePatch(s, EmptyPatch) == s
  {
  }

  /** Sending the same body twice has the effect of sending it once. */
  lemma MergeIdempotent(s: Slot, p: SlotPatch)
    ensures MergePatch(MergePatch(s, p), p) == MergePatch(s, p)
  {
  }

  /** Two successive merges are one merge of the combined bodies. */
  lemma MergeComposes(s: Slot, p: SlotPatch, q: SlotPatch)
    ensures MergePatch(MergePatch(s, p), q) == MergePatch(s, CombinePatches(p, q))
  {
  }

  /** The `PUT` handler. */
  function Put(store: Store, id: IdArg, body: PutBody, now: Timestamp): (r: Result<PutReply, Error>)
    ensures id.Missing? ==> r == Failure(MissingId)
    ensures id.Malformed? ==> r == Failure(InvalidId)
    ensures id.Valid? && id.id !in store ==> r == Failure(NotFound)
    ensures r.Success? ==> id.Valid? && id.id in store
    ensures r.Success? ==> r.value.store.Keys == store.Keys
    ensures r.Success? ==> forall k :: k in store && k != id.id ==> r.value.store[k] == store[k]
    ensures body.Merge? && id.Valid? && id.id in store ==>
      && r.Success?
      && r.value.store[id.id] == MergePatch(store[id.id], body.patch)
      && r.value.echo == Some(r.value.store[id.id])
    ensures body.Schedule? && id.Valid? && id.id in store ==>
      && (r.Success? <==> EditSchedule(store, id.id, body.edit, now).Success?)
      && (r.Success? ==> r.value == PutReply(EditSchedule(store, id.id, body.edit, now).value, None))
      && (r.Failure? ==> r.error == EditSchedule(store, id.id, body.edit, now).error)
  {
    match id
    case Missing => Failure(MissingId)
    case Malformed => Failure(InvalidId)
    case Valid(k) =>
      if k !in store then Failure(NotFound)
      else match body
        case Schedule(e) =>
          var edited := EditSchedule(store, k, e, now);
          if edited.Failure? then Failure(edited.error) else Success(PutReply(edited.value, None))
        case Merge(p) =>
          var merged := MergePatch(store[k], p);
          Success(PutReply(store[k := merged], Some(merged)))
  }

  /** A schedule edit never creates two records with the same date. */
  lemma EditKeepsDatesUnique(store: Store, id: IdArg, e: ScheduleEdit, now: Timestamp)
    requires DatesUnique(store)
    ensures var r := Put(store, id, Schedule(e), now);
      r.Success? ==> DatesUnique(r.value.store)
  {
  }

  /** The generic branch has no date guard: one body can give a record the
      date another record already holds. */
  lemma MergeCanDuplicateDates()
    ensures
      var a, b := ObjectId(1), ObjectId(2);
      var s := Slot("4/2", "A", "", false, "", "", false, None, "", None);
      var t := s.(date := "4/7");
      var store := map[a := s, b := t];
      var r := Put(store, Valid(b), Merge(EmptyPatch.(date := Some("4/2"))), 0);
      DatesUnique(store) && r.Success? && !DatesUnique(r.value.store)
  {
    var a, b := ObjectId(1), ObjectId(2);
    var s := Slot("4/2", "A", "", false, "", "", false, None, "", None);
    var store := map[a := s, b := s.(date := "4/7")];
    var r := Put(store, Valid(b), Merge(EmptyPatch.(date := Some("4/2"))), 0);
    assert r.value.store[a].date == r.value.store[b].date;
  }
}
