/** The `schedules` collection: one document per scheduled evening, keyed by
    the store's generated identifier, plus the error kinds and status codes
    the request handlers answer with. */
module SlotStore {
  import opened Results

  /** A clock reading. Handlers that stamp `updatedAt` receive it as `now`. */
  type Timestamp = nat

  /** The store's generated record identifier; only its identity matters. */
  datatype ObjectId = ObjectId(value: nat)

  /** An `id` argument as a handler sees it: absent, not parsable as an
      identifier, or valid. A query parameter that is empty also counts as
      absent, since the handlers test it with `!id`. */
  datatype IdArg = Missing | Malformed | Valid(id: ObjectId)

  /** The `userBooked` sub-document written by the booking operation. */
  datatype Booking = Booking(
    name: string,
    phone: string,
    email: string,
    purpose: string,
    notes: string,
    bookedAt: Timestamp)

  /** One scheduling record. An empty name means the role is unassigned;
      `userBooked == None` means nobody has booked the evening. */
  datatype Slot = Slot(
    date: string,
    operatorName: string,
    operatorPhone: string,
    operatorConfirmed: bool,
    checkerName: string,
    checkerPhone: string,
    checkerConfirmed: bool,
    userBooked: Option<Booking>,
    notes: string,
    updatedAt: Option<Timestamp>)

  type Store = map<ObjectId, Slot>

  /** The distinguishable ways a handler refuses a request. */
  datatype Error =
    | MissingId        // no `id` query parameter
    | InvalidId        // `id` not parsable, or the update threw
    | NotFound         // no record with that id
    | MissingField     // a required body field is empty
    | DateConflict     // the new date belongs to another record
    | NotBooked        // cancelling a slot nobody booked
    | InvalidBatch     // batch payload not an array, or empty
    | ServerError      // an exception caught by the outermost handler

  /** The HTTP status a handler answers an error with. */
  function StatusOf(e: Error): (code: int)
    ensures code == 404 <==> e == NotFound
    ensures code == 500 <==> e == ServerError
    ensures code == 400 <==> e != NotFound && e != ServerError
  {
    match e
    case NotFound => 404
    case ServerError => 500
    case _ => 400
  }

  /** The HTTP status of a handler's answer: every success is a 200. */
  function Status<T>(r: Result<T, Error>): (code: int)
    ensures code == 200 <==> r.Success?
    ensures r.Failure? ==> code == StatusOf(r.error)
  {
    match r
    case Success(_) => 200
    case Failure(e) => StatusOf(e)
  }

  /** The role value that names the machine operator. The schedule edit and
      the home page's toggle treat every other value as the checker. */
  const OperatorRole := "operator"

  predicate HasOperator(s: Slot) { s.operatorName != "" }

  predicate HasChecker(s: Slot) { s.checkerName != "" }

  predicate IsBooked(s: Slot) { s.userBooked.Some? }

  /** What the bookings API calls available: an operator is on duty and
      nobody has booked the evening yet. The checker plays no part. */
  predicate Available(s: Slot) { HasOperator(s) && !IsBooked(s) }

  /** No two records share a date. */
  ghost predicate DatesUnique(store: Store)
  {
    forall a, b :: a in store && b in store && store[a].date == store[b].date ==> a == b
  }

  /** Some record other than `id` holds `date`. */
  predicate DateHeldByOther(store: Store, id: ObjectId, date: string)
  {
    exists other :: other in store && other != id && store[other].date == date
  }

  /** `after` is `before` with at most its booking and `updatedAt` changed. */
  ghost predicate OnlyBookingChanged(before: Slot, after: Slot)
  {
    before.(userBooked := after.userBooked, updatedAt := after.updatedAt) == after
  }

  /** `after` is `before` with at most its two confirmation flags and `updatedAt` changed. */
  ghost predicate OnlyFlagsChanged(before: Slot, after: Slot)
  {
    before.(operatorConfirmed := after.operatorConfirmed,
            checkerConfirmed := after.checkerConfirmed,
            updatedAt := after.updatedAt) == after
  }
}
