/** The booking form: the slot shown for the chosen date, the check applied on
    submit, and the request body sent to the bookings API. */
module BookingPage {
  import opened Results
  import opened SlotStore

  /** The form's fields, all strings, "" when left blank. */
  datatype BookingForm = BookingForm(date: string, userName: string, phone: string, email: string, purpose: string, notes: string)

  /** The JSON body of the booking `POST`. */
  datatype BookingRequest = BookingRequest(kind: string, date: string, userName: string, phone: string, email: string, purpose: string, notes: string)

  const BookingKind := "booking"

  /** The test `find` applies: the slot is for `date`. The scheduling page
      has its own `IsOn`, over partial schedules. */
  function IsOn(date: string): Slot -> bool
  {
    (s: Slot) => s.date == date
  }

  /** The slot whose staff the page shows: the first fetched slot for the
      form's date, or none when no date is chosen. */
  function SelectedSlot(availableSlots: seq<Slot>, date: string): (r: Option<Slot>)
    ensures date == "" ==> r.None?
    ensures date != "" && r.None? ==> forall i :: 0 <= i < |availableSlots| ==> availableSlots[i].date != date
    ensures r.Some? ==> r.value.date == date
    ensures r.Some? ==> exists i :: FirstMatchAt(availableSlots, IsOn(date), i) && availableSlots[i] == r.value
  {
    if date == "" then None
    else FindFirst(availableSlots, IsOn(date))
  }

  /** When the page's list came from the availability filter, the selected
      slot is one the API considers available. */
  lemma SelectedSlotIsAvailable(availableSlots: seq<Slot>, date: string)
    requires forall i :: 0 <= i < |availableSlots| ==> Available(availableSlots[i])
    ensures SelectedSlot(availableSlots, date).Some? ==> Available(SelectedSlot(availableSlots, date).value)
  {
  }

  /** `handleSubmit`: refuses (`None`) when date, name or phone is blank;
      otherwise the request body, which copies every field of the form. */
  function BuildRequest(form: BookingForm): (r: Option<BookingRequest>)
    ensures r.None? <==> form.date == "" || form.userName == "" || form.phone == ""
    ensures r.Some? ==> r.value.kind == BookingKind
    ensures r.Some? ==> FormOf(r.value) == form
  {
    if form.date == "" || form.userName == "" || form.phone == "" then None
    else Some(BookingRequest(BookingKind, form.date, form.userName, form.phone,
                             OrEmpty(form.email), OrEmpty(form.purpose), OrEmpty(form.notes)))
  }

  /** `value || ''` on a string. */
  function OrEmpty(value: string): string
  {
    if value != "" then value else ""
  }

  /** The form a request body was built from. */
  function FormOf(req: BookingRequest): BookingForm
  {
    BookingForm(req.date, req.userName, req.phone, req.email, req.purpose, req.notes)
  }

  /** Every accepted request reads back as the form it came from, and every
      request the page can send is the one built from its own fields. */
  lemma BuildRequestRoundTrip(req: BookingRequest)
    requires req.kind == BookingKind
    requires req.date != "" && req.userName != "" && req.phone != ""
    ensures BuildRequest(FormOf(req)) == Some(req)
  {
  }
}
