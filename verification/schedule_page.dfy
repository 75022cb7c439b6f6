/** The administrator's scheduling form: which roles of the chosen date are
    already taken, the role it preselects, which options it disables, and the
    check it applies on submit. */
module SchedulePage {
  import opened Results
  import BookingsRoute
  import SlotStore

  /** What the page knows about a date that already has one role filled. */
  datatype PartialSchedule = PartialSchedule(date: string, operatorName: string, checkerName: string)

  /** The form's fields; an unselected role is "". */
  datatype ScheduleForm = ScheduleForm(date: string, role: string, name: string, phone: string, notes: string)

  /** The outcome of the date-change effect: the schedule shown and the form. */
  datatype DateEffect = DateEffect(current: Option<PartialSchedule>, form: ScheduleForm)

  const CheckerRole := "checker"

  /** The test `find` applies: the partial schedule is for `date`. The
      booking page has its own `IsOn`, over fetched slots. */
  function IsOn(date: string): PartialSchedule -> bool
  {
    (s: PartialSchedule) => s.date == date
  }

  /** The first partial schedule for `date`, or none when no date is chosen. */
  function CurrentSchedule(partials: seq<PartialSchedule>, date: string): (r: Option<PartialSchedule>)
    ensures date == "" ==> r.None?
    ensures r.None? && date != "" ==> forall i :: 0 <= i < |partials| ==> partials[i].date != date
    ensures r.Some? ==> r.value.date == date
    ensures r.Some? ==> exists i :: FirstMatchAt(partials, IsOn(date), i) && partials[i] == r.value
  {
    if date == "" then None
    else FindFirst(partials, IsOn(date))
  }

  /** The effect run when the date changes: show the date's schedule, and when
      exactly one role is taken, preselect the other one. */
  function OnDateChange(form: ScheduleForm, partials: seq<PartialSchedule>): (r: DateEffect)
    ensures r.current == CurrentSchedule(partials, form.date)
    ensures r.form.(role := form.role) == form
    ensures r.form.role != form.role ==> r.current.Some?
    ensures r.current.Some? && r.current.value.operatorName != "" && r.current.value.checkerName == "" ==>
      r.form.role == CheckerRole
    ensures r.current.Some? && r.current.value.operatorName == "" && r.current.value.checkerName != "" ==>
      r.form.role == SlotStore.OperatorRole
    ensures r.current.Some? && (r.current.value.operatorName == "" <==> r.current.value.checkerName == "") ==>
      r.form.role == form.role
  {
    var current := CurrentSchedule(partials, form.date);
    if current.None? then DateEffect(current, form)
    else
      var s := current.value;
      if s.operatorName != "" && s.checkerName == "" then DateEffect(current, form.(role := CheckerRole))
      else if s.operatorName == "" && s.checkerName != "" then DateEffect(current, form.(role := SlotStore.OperatorRole))
      else DateEffect(current, form)
  }

  /** The operator option is disabled when the date already has an operator. */
  predicate OperatorOptionDisabled(current: Option<PartialSchedule>)
  {
    current.Some? && current.value.operatorName != ""
  }

  /** The checker option is disabled when the date already has a checker. */
  predicate CheckerOptionDisabled(current: Option<PartialSchedule>)
  {
    current.Some? && current.value.checkerName != ""
  }

  /** The role select and the submit button are disabled when the date is full. */
  predicate DateFull(current: Option<PartialSchedule>)
  {
    current.Some? && current.value.operatorName != "" && current.value.checkerName != ""
  }

  /** The select and the submit button are disabled exactly when both options are. */
  lemma DateFullIffBothOptionsDisabled(current: Option<PartialSchedule>)
    ensures DateFull(current) <==> OperatorOptionDisabled(current) && CheckerOptionDisabled(current)
  {
  }

  /** A role the effect preselects is never a disabled option. */
  lemma PreselectedRoleIsEnabled(form: ScheduleForm, partials: seq<PartialSchedule>)
    ensures
      var r := OnDateChange(form, partials);
      && (r.form.role != form.role && r.form.role == SlotStore.OperatorRole ==> !OperatorOptionDisabled(r.current))
      && (r.form.role != form.role && r.form.role == CheckerRole ==> !CheckerOptionDisabled(r.current))
      && (r.form.role != form.role ==> !DateFull(r.current))
  {
  }

  /** `handleSubmit`'s check: date, role and name must all be filled. */
  function SubmitAccepted(form: ScheduleForm): (ok: bool)
    ensures ok <==> form.date != "" && form.role != "" && form.name != ""
  {
    !(form.date == "" || form.role == "" || form.name == "")
  }

  /** The form refuses exactly what the schedule edit on the server refuses
      as missing fields: both test date, role and name. */
  lemma SubmitCheckMatchesEditGuard(form: ScheduleForm)
    ensures SubmitAccepted(form) <==>
      BookingsRoute.HasRequiredFields(
        BookingsRoute.ScheduleEdit(form.role, form.name, Some(form.phone), form.date, Some(form.notes)))
  {
  }

  /** Once a date with exactly one role taken has preselected the other
      role, submit depends only on the date and the name. */
  lemma PreselectionLeavesDateAndName(form: ScheduleForm, partials: seq<PartialSchedule>)
    requires
      var current := CurrentSchedule(partials, form.date);
      current.Some? && (current.value.operatorName == "" <==> current.value.checkerName != "")
    ensures SubmitAccepted(OnDateChange(form, partials).form) <==> form.date != "" && form.name != ""
  {
  }

  /** The page's partial schedules. */
  const InitialPartials := [
    PartialSchedule("4/2", "陳苡瑄", ""),
    PartialSchedule("4/9", "", "林甄彙")
  ]

  /** Choosing 4/2 preselects the checker role, choosing 4/9 the operator role. */
  lemma InitialPartialsPreselect(form: ScheduleForm)
    ensures OnDateChange(form.(date := "4/2"), InitialPartials).form.role == CheckerRole
    ensures OnDateChange(form.(date := "4/9"), InitialPartials).form.role == SlotStore.OperatorRole
  {
  }
}
