/** The `/api/bookings/cancel` route: clears the booking of one record. */
module CancelRoute {
  import opened Results
  import opened SlotStore

  /** The `POST` handler. The guards run in the order the handler checks them: missing
      id, unparsable id, unknown record, record not booked. */
  function Cancel(store: Store, id: IdArg, now: Timestamp): (r: Result<Store, Error>)
    ensures id.Missing? ==> r == Failure(MissingId)
    ensures id.Malformed? ==> r == Failure(InvalidId)
    ensures id.Valid? && id.id !in store ==> r == Failure(NotFound)
    ensures id.Valid? && id.id in store && !IsBooked(store[id.id]) ==> r == Failure(NotBooked)
    ensures r.Success? <==> id.Valid? && id.id in store && IsBooked(store[id.id])
    ensures r.Success? ==> r.value.Keys == store.Keys
    ensures r.Success? ==> forall k :: k in store && k != id.id ==> r.value[k] == store[k]
    ensures r.Success? ==>
      && !IsBooked(r.value[id.id])
      && r.value[id.id].updatedAt == Some(now)
      && OnlyBookingChanged(store[id.id], r.value[id.id])
  {
    match id
    case Missing => Failure(MissingId)
    case Malformed => Failure(InvalidId)
    case Valid(k) =>
      if k !in store then Failure(NotFound)
      else if store[k].userBooked.None? then Failure(NotBooked)
      else Success(store[k := store[k].(userBooked := None, updatedAt := Some(now))])
  }

  /** A second cancellation of the same record is refused as not booked. */
  lemma CancelTwiceFails(store: Store, id: IdArg, now: Timestamp, later: Timestamp)
    requires Cancel(store, id, now).Success?
    ensures Cancel(Cancel(store, id, now).value, id, later) == Failure(NotBooked)
    ensures Status(Cancel(Cancel(store, id, now).value, id, later)) == 400
  {
  }

  /** A cancelled record with an operator is listed as available again. */
  lemma CancelRestoresAvailability(store: Store, id: IdArg, now: Timestamp)
    requires Cancel(store, id, now).Success?
    ensures HasOperator(store[id.id]) ==> Available(Cancel(store, id, now).value[id.id])
  {
  }

  /** Cancelling never touches a date, so unique dates stay unique. */
  lemma CancelKeepsDatesUnique(store: Store, id: IdArg, now: Timestamp)
    requires DatesUnique(store)
    requires Cancel(store, id, now).Success?
    ensures DatesUnique(Cancel(store, id, now).value)
  {
  }
}
