/** The `/api/bookings/batch-update` route: writes a list of confirmation-flag
    pairs back to the store in one ordered bulk write. */
module BatchUpdateRoute {
  import opened Results
  import opened SlotStore

  /** One element of the payload. An absent or null id is `Missing`: the
      driver generates a fresh identifier for it, which matches no record.
      An empty or otherwise unparsable string is `Malformed`: building the
      identifier throws. */
  datatype ConfirmEntry = ConfirmEntry(id: IdArg, operatorConfirmed: bool, checkerConfirmed: bool)

  /** The request body: something other than an array, or an array of entries. */
  datatype BatchPayload = NotAnArray | Entries(entries: seq<ConfirmEntry>)

  /** A successful batch: the new store and the reported `modifiedCount`. */
  datatype BatchReply = BatchReply(store: Store, modifiedCount: nat)

  /** The entry names the record `k`. */
  predicate Targets(e: ConfirmEntry, k: ObjectId)
  {
    e.id == Valid(k)
  }

  /** One `updateOne`: set both flags and `updatedAt` on the named record, if any. */
  function ApplyEntry(store: Store, e: ConfirmEntry, now: Timestamp): Store
  {
    if e.id.Valid? && e.id.id in store
    then store[e.id.id := store[e.id.id].(operatorConfirmed := e.operatorConfirmed,
                                          checkerConfirmed := e.checkerConfirmed,
                                          updatedAt := Some(now))]
    else store
  }

  /** The ordered bulk write: the entries applied front to back. Whatever the
      entries say, only the confirmation flags and `updatedAt` change. */
  function ApplyAll(store: Store, entries: seq<ConfirmEntry>, now: Timestamp): (r: Store)
    ensures r.Keys == store.Keys
    ensures forall k :: k in store ==> OnlyFlagsChanged(store[k], r[k])
    decreases |entries|
  {
    if |entries| == 0 then store
    else ApplyAll(ApplyEntry(store, entries[0], now), entries[1..], now)
  }

  /** The last entry naming `k`: the one an ordered bulk write leaves in force. */
  function LastEntryFor(entries: seq<ConfirmEntry>, k: ObjectId): Option<ConfirmEntry>
    decreases |entries|
  {
    if |entries| == 0 then None
    else
      var later := LastEntryFor(entries[1..], k);
      if later.Some? then later
      else if Targets(entries[0], k) then Some(entries[0])
      else None
  }

  /** The number of entries that name a stored record. This can exceed the
      store's `modifiedCount`: an entry that repeats the previous one for the
      same record, with a clock reading in the same millisecond, changes
      nothing and is not counted. */
  function CountMatched(store: Store, entries: seq<ConfirmEntry>): (n: nat)
    ensures n <= |entries|
    ensures n == 0 <==> forall i :: 0 <= i < |entries| ==> !(entries[i].id.Valid? && entries[i].id.id in store)
    decreases |entries|
  {
    if |entries| == 0 then 0
    else
      (if entries[0].id.Valid? && entries[0].id.id in store then 1 else 0)
      + CountMatched(store, entries[1..])
  }

  /** The `POST` handler. A non-array or empty payload is refused with 400; an
      unparsable id anywhere aborts the batch with 500 before anything is
      written; otherwise every entry is applied. */
  function BatchUpdate(store: Store, payload: BatchPayload, now: Timestamp): (r: Result<BatchReply, Error>)
    ensures payload.NotAnArray? ==> r == Failure(InvalidBatch)
    ensures payload.Entries? && |payload.entries| == 0 ==> r == Failure(InvalidBatch)
    ensures r.Failure? ==> r.error == InvalidBatch || r.error == ServerError
    ensures r.Success? <==>
      payload.Entries? && |payload.entries| > 0 &&
      forall i :: 0 <= i < |payload.entries| ==> !payload.entries[i].id.Malformed?
    ensures r == Failure(ServerError) <==>
      payload.Entries? && |payload.entries| > 0 &&
      exists i :: 0 <= i < |payload.entries| && payload.entries[i].id.Malformed?
    ensures r.Success? ==> r.value.modifiedCount <= |payload.entries|
    ensures r.Success? ==> r.value.store.Keys == store.Keys
    ensures r.Success? ==> forall k :: k in store ==> OnlyFlagsChanged(store[k], r.value.store[k])
    ensures r.Success? ==> FlagsFromLastEntry(store, payload.entries, now, r.value.store)
    ensures r.Success? ==> r.value.modifiedCount == CountMatched(store, payload.entries)
  {
    match payload
    case NotAnArray => Failure(InvalidBatch)
    case Entries(es) =>
      if |es| == 0 then Failure(InvalidBatch)
      else if exists i :: 0 <= i < |es| && es[i].id.Malformed? then Failure(ServerError)
      else
        var written := ApplyAll(store, es, now);
        ApplyAllFollowsLastEntries(store, es, now);
        Success(BatchReply(written, CountMatched(store, es)))
  }

  /** A record once the bulk write is done: the flags of `last`, the last
      entry naming it, with a fresh `updatedAt`; untouched when there is none. */
  function AfterLastEntry(s: Slot, last: Option<ConfirmEntry>, now: Timestamp): Slot
  {
    if last.None? then s
    else s.(operatorConfirmed := last.value.operatorConfirmed,
            checkerConfirmed := last.value.checkerConfirmed,
            updatedAt := Some(now))
  }

  /** `after` holds the same records as `before`, each as the last entry
      naming it leaves it. */
  ghost predicate FlagsFromLastEntry(before: Store, entries: seq<ConfirmEntry>, now: Timestamp, after: Store)
  {
    && after.Keys == before.Keys
    && forall k :: k in before ==> after[k] == AfterLastEntry(before[k], LastEntryFor(entries, k), now)
  }

  /** The whole bulk write agrees with the last-entry description. */
  lemma ApplyAllFollowsLastEntries(store: Store, entries: seq<ConfirmEntry>, now: Timestamp)
    ensures FlagsFromLastEntry(store, entries, now, ApplyAll(store, entries, now))
  {
    forall k | k in store
      ensures ApplyAll(store, entries, now)[k] == AfterLastEntry(store[k], LastEntryFor(entries, k), now)
    {
      ApplyAllUsesLastEntry(store, entries, now, k);
    }
  }

  /** The bulk write leaves each record with the flags of the last entry that
      names it, and untouched when no entry names it. */
  lemma {:induction false} ApplyAllUsesLastEntry(store: Store, entries: seq<ConfirmEntry>, now: Timestamp, k: ObjectId)
    requires k in store
    ensures LastEntryFor(entries, k).None? ==> ApplyAll(store, entries, now)[k] == store[k]
    ensures LastEntryFor(entries, k).Some? ==>
      var e := LastEntryFor(entries, k).value;
      ApplyAll(store, entries, now)[k] ==
        store[k].(operatorConfirmed := e.operatorConfirmed,
                  checkerConfirmed := e.checkerConfirmed,
                  updatedAt := Some(now))
    decreases |entries|
  {
    if |entries| > 0 {
      var store' := ApplyEntry(store, entries[0], now);
      ApplyAllUsesLastEntry(store', entries[1..], now, k);
    }
  }

  /** A batch none of whose entries names a stored record changes nothing and
      reports zero modifications. */
  lemma NoMatchChangesNothing(store: Store, entries: seq<ConfirmEntry>, now: Timestamp)
    requires |entries| > 0
    requires forall i :: 0 <= i < |entries| ==> entries[i].id.Missing? || (entries[i].id.Valid? && entries[i].id.id !in store)
    ensures BatchUpdate(store, Entries(entries), now) == Success(BatchReply(store, 0))
  {
    forall k | k in store
      ensures ApplyAll(store, entries, now)[k] == store[k]
    {
      NoEntryTargets(entries, k, store);
      ApplyAllUsesLastEntry(store, entries, now, k);
    }
    assert ApplyAll(store, entries, now) == store;
    assert CountMatched(store, entries) == 0;
    assert !exists i :: 0 <= i < |entries| && entries[i].id.Malformed?;
  }

  /** When no entry names the stored key `k`, none is the last to name it. */
  lemma {:induction false} NoEntryTargets(entries: seq<ConfirmEntry>, k: ObjectId, store: Store)
    requires k in store
    requires forall i :: 0 <= i < |entries| ==> entries[i].id.Missing? || (entries[i].id.Valid? && entries[i].id.id !in store)
    ensures LastEntryFor(entries, k).None?
    decreases |entries|
  {
    if |entries| > 0 {
      NoEntryTargets(entries[1..], k, store);
    }
  }
}
