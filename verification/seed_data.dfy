/** The six records the seeding script inserts, as a concrete store. The
    generated identifiers are stood in for by fixed ones; absent fields are "". */
module SeedData {
  import opened Results
  import opened SlotStore
  import BookingsRoute

  function SeedId(n: nat): ObjectId
  {
    ObjectId(n)
  }

  function Record(date: string, op: string, opPhone: string, ch: string, chPhone: string, booked: Option<Booking>): Slot
  {
    Slot(date, op, opPhone, false, ch, chPhone, false, booked, "", None)
  }

  const SeedStore: Store := map[
    SeedId(0) := Record("3/10", "陳苡瑄", "0912345678", "林甄彙", "0923456789", None),
    SeedId(1) := Record("3/12", "陳佳儀", "0934567890", "張珮玲", "0945678901", None),
    SeedId(2) := Record("3/14", "林俊遑", "0956789012", "", "",
                        Some(Booking("王小明", "0912345678", "wang@example.com", "", "", 0))),
    SeedId(3) := Record("3/17", "戴婕茵", "0967890123", "趙翊伶", "0978901234", None),
    SeedId(4) := Record("3/19", "張珉甄", "0989012345", "", "", None),
    SeedId(5) := Record("3/21", "蔡承嶧", "0901234567", "", "", None)
  ]

  /** The seeded store satisfies the one-record-per-date invariant. */
  lemma SeedDatesUnique()
    ensures DatesUnique(SeedStore)
  {
  }

  /** Asking for available slots lists every seeded record except the booked 3/14. */
  lemma SeedAvailableSlots()
    ensures
      var r := BookingsRoute.Get(SeedStore, BookingsRoute.GetRequest(Missing, "", "true"));
      r.Success? && r.value.SlotList? && r.value.slots.Keys == SeedStore.Keys - {SeedId(2)}
  {
  }
}
