/** The home page's client-side logic: the administrator flags, the
    confirmation toggle on the schedule table, and the status shown in each
    row's last column. The page keeps its rows in local state. */
module HomePage {
  import opened Results
  import SlotStore

  /** The value of a row's `userBooked`: `null`, the booker's name (as the
      page's own rows hold it), or a booking sub-document. */
  datatype BookedValue = Null | Name(name: string) | Document(booking: SlotStore.Booking)

  /** A row of the page's schedule table. */
  datatype Row = Row(
    date: string,
    operatorName: string,
    operatorConfirmed: bool,
    checkerName: string,
    checkerConfirmed: bool,
    userBooked: BookedValue)

  /** The page's login flags and the name of the administrator shown. */
  datatype Session = Session(isAdmin: bool, isLoggedIn: bool, currentManager: string)

  const LoggedOut := Session(false, false, "")

  /** JavaScript truthiness of `userBooked`: a non-empty name or any document. */
  predicate BookedTruthy(row: Row)
  {
    match row.userBooked
    case Null => false
    case Name(n) => n != ""
    case Document(_) => true
  }

  /** `toggleConfirm(index, type)`: flips one confirmation flag of one row,
      and does nothing unless an administrator is logged in. */
  function ToggleConfirm(rows: seq<Row>, session: Session, index: nat, kind: string): (r: seq<Row>)
    requires session.isAdmin ==> index < |rows|
    ensures !session.isAdmin ==> r == rows
    ensures |r| == |rows|
    ensures forall j :: 0 <= j < |rows| && j != index ==> r[j] == rows[j]
    ensures session.isAdmin && kind == SlotStore.OperatorRole ==>
      && r[index].operatorConfirmed == !rows[index].operatorConfirmed
      && r[index].(operatorConfirmed := rows[index].operatorConfirmed) == rows[index]
    ensures session.isAdmin && kind != SlotStore.OperatorRole ==>
      && r[index].checkerConfirmed == !rows[index].checkerConfirmed
      && r[index].(checkerConfirmed := rows[index].checkerConfirmed) == rows[index]
  {
    if !session.isAdmin then rows
    else
      var row := rows[index];
      var row' := if kind == SlotStore.OperatorRole
                  then row.(operatorConfirmed := !row.operatorConfirmed)
                  else row.(checkerConfirmed := !row.checkerConfirmed);
      rows[index := row']
  }

  /** Toggling the same flag twice restores the table. */
  lemma ToggleTwiceRestores(rows: seq<Row>, session: Session, index: nat, kind: string)
    requires session.isAdmin ==> index < |rows|
    ensures ToggleConfirm(ToggleConfirm(rows, session, index, kind), session, index, kind) == rows
  {
  }

  /** `handleAdminLogin`: `name` is what the prompt returned (`None` when it
      was dismissed). An empty answer changes nothing. */
  function Login(session: Session, name: Option<string>): (r: Session)
    ensures name.None? || name.value == "" ==> r == session
    ensures name.Some? && name.value != "" ==> r.isLoggedIn && r.isAdmin && r.currentManager == name.value
  {
    if name.Some? && name.value != "" then Session(true, true, name.value) else session
  }

  /** `handleLogout`: clears both flags and the administrator's name. */
  function Logout(session: Session): (r: Session)
    ensures !r.isAdmin && !r.isLoggedIn && r.currentManager == ""
  {
    LoggedOut
  }

  /** Logging out undoes any login, and afterwards the toggle is inert. */
  lemma LogoutUndoesLogin(session: Session, name: Option<string>, rows: seq<Row>, index: nat, kind: string)
    ensures Logout(Login(session, name)) == LoggedOut
    ensures ToggleConfirm(rows, Logout(Login(session, name)), index, kind) == rows
  {
  }

  /** The three values of the status column. */
  datatype RowStatus = Booked | WaitingChecker | Bookable

  /** The status column: booked if somebody booked the row; otherwise waiting
      for a checker while the checker is unassigned; otherwise bookable. */
  function StatusOf(row: Row): (st: RowStatus)
    ensures st == Booked <==> BookedTruthy(row)
    ensures st == WaitingChecker <==> !BookedTruthy(row) && row.checkerName == ""
    ensures st == Bookable <==> !BookedTruthy(row) && row.checkerName != ""
  {
    if BookedTruthy(row) then Booked
    else if row.checkerName == "" then WaitingChecker
    else Bookable
  }

  /** The row for a stored record, as the page would show it. */
  function RowOf(s: SlotStore.Slot): (row: Row)
    ensures BookedTruthy(row) <==> SlotStore.IsBooked(s)
  {
    Row(s.date, s.operatorName, s.operatorConfirmed, s.checkerName, s.checkerConfirmed,
        if s.userBooked.Some? then Document(s.userBooked.value) else Null)
  }

  /** The page's notion of bookable and the API's availability filter
      disagree exactly on unbooked records with one role filled: with an
      operator and no checker the record is available to the API but waits
      for a checker here; with a checker and no operator the page shows the
      booking link but the API does not list the record. */
  lemma BookabilityRulesDiverge(s: SlotStore.Slot)
    ensures SlotStore.HasOperator(s) && !SlotStore.HasChecker(s) && !SlotStore.IsBooked(s) ==>
      SlotStore.Available(s) && StatusOf(RowOf(s)) == WaitingChecker
    ensures !SlotStore.HasOperator(s) && SlotStore.HasChecker(s) && !SlotStore.IsBooked(s) ==>
      !SlotStore.Available(s) && StatusOf(RowOf(s)) == Bookable
    ensures (SlotStore.Available(s) != (StatusOf(RowOf(s)) == Bookable)) <==>
      !SlotStore.IsBooked(s) && SlotStore.HasOperator(s) != SlotStore.HasChecker(s)
  {
  }

  /** Where a record has both roles filled, the two rules agree. */
  lemma BookabilityRulesAgreeWhenStaffed(s: SlotStore.Slot)
    requires SlotStore.HasOperator(s) && SlotStore.HasChecker(s)
    ensures SlotStore.Available(s) <==> StatusOf(RowOf(s)) == Bookable
  {
  }

  /** The page's initial rows. */
  const InitialRows := [
    Row("3/10", "陳苡瑄", false, "林甄彙", false, Null),
    Row("3/12", "陳佳儀", false, "", false, Null),
    Row("3/14", "林俊遑", false, "", false, Name("王小明")),
    Row("3/17", "戴婕茵", false, "趙翊伶", false, Null),
    Row("3/19", "張珉甄", false, "", false, Null),
    Row("3/21", "蔡承嶧", false, "", false, Null)
  ]

  /** The statuses the initial rows display. */
  lemma InitialRowStatuses()
    ensures StatusOf(InitialRows[0]) == Bookable
    ensures StatusOf(InitialRows[1]) == WaitingChecker
    ensures StatusOf(InitialRows[2]) == Booked
    ensures StatusOf(InitialRows[3]) == Bookable
    ensures StatusOf(InitialRows[4]) == WaitingChecker
    ensures StatusOf(InitialRows[5]) == WaitingChecker
  {
  }
}
