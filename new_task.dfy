/** The "new task" screen (app/todo/new.tsx:16-71): the recurrence choices, which pet
    starts out selected, and the record `handleSave` hands to `createTask`. */
module NewTask {
  import opened Wrappers
  import opened Domain
  import opened Text
  import opened Forms

  /** The recurrences the screen offers; yearly is not among them. */
  const RecurringOptions: seq<Recurrence> := [Daily, Weekly, Monthly, NoRecurrence]

  const DefaultRecurrence: Recurrence := NoRecurrence

  /** The recurrence choices: the default is offered and yearly is not. */
  lemma OffersNoYearly()
    ensures DefaultRecurrence in RecurringOptions
    ensures Yearly !in RecurringOptions
  {
    assert RecurringOptions[3] == DefaultRecurrence;
  }

  /** The pet selected once the pet list has loaded: the route's `petId` when it is a
      non-empty string, otherwise the first loaded pet, otherwise none. */
  function InitialSelection(petIdParam: Option<string>, loaded: seq<string>): (r: Option<string>)
    ensures petIdParam.Some? && petIdParam.value != [] ==> r == petIdParam
    ensures (petIdParam.None? || petIdParam.value == []) && loaded != [] ==> r == Some(loaded[0])
    ensures r.None? <==> (petIdParam.None? || petIdParam.value == []) && loaded == []
  {
    var fromRoute: Option<string> := if petIdParam.Some? && petIdParam.value != [] then petIdParam else None;
    if |loaded| > 0 && fromRoute.None? then Some(loaded[0]) else fromRoute
  }

  /** What the user has entered. A chosen due date is held as its `toISOString()`
      text. */
  datatype TaskForm = TaskForm(
    title: string,
    description: string,
    dueIso: Option<string>,
    recurring: Recurrence,
    selectedPet: Option<string>)

  /** The form the screen opens with, once the pets have loaded. */
  function InitialForm(petIdParam: Option<string>, loaded: seq<string>): (f: TaskForm)
    ensures f.title == [] && f.description == [] && f.dueIso.None?
    ensures f.recurring == DefaultRecurrence
    ensures f.selectedPet == InitialSelection(petIdParam, loaded)
  {
    TaskForm("", "", None, DefaultRecurrence, InitialSelection(petIdParam, loaded))
  }

  /** The record passed to `createTask`; `dueDate` is the full ISO text. */
  datatype TaskPayload = TaskPayload(
    title: string,
    description: Option<string>,
    completed: bool,
    dueDate: Option<string>,
    petId: string,
    recurringType: Recurrence,
    userId: string)

  /** The two alerts raised instead of saving. */
  datatype SaveError = MissingTitle | MissingPet {
    function Message(): string {
      match this
      case MissingTitle => "Lütfen görev başlığını girin."
      case MissingPet => "Lütfen bir evcil hayvan seçin."
    }
  }

  /** A pet is selected: `selectedPetId` is a non-empty string. */
  predicate HasPet(form: TaskForm) {
    form.selectedPet.Some? && form.selectedPet.value != []
  }

  /** `handleSave`: the title check comes first, then the pet check; otherwise the
      task to create, not completed, with the title trimmed, a blank description left
      out and any other trimmed, the due date when one was chosen, the selected pet
      and recurrence, and the current user. */
  function HandleSave(form: TaskForm, user: Option<string>): (r: Result<TaskPayload, SaveError>)
    ensures r == Failure(MissingTitle) <==> IsBlank(form.title)
    ensures r == Failure(MissingPet) <==> !IsBlank(form.title) && !HasPet(form)
    ensures r.Success? ==>
      && r.value.title == Trim(form.title) && r.value.title != []
      && r.value.description == TrimmedOrAbsent(form.description)
      && !r.value.completed
      && r.value.dueDate == form.dueIso
      && form.selectedPet == Some(r.value.petId) && r.value.petId != []
      && r.value.recurringType == form.recurring
      && r.value.userId == CurrentUserId(user)
  {
    if Trim(form.title) == [] then Failure(MissingTitle)
    else if !HasPet(form) then Failure(MissingPet)
    else
      Success(TaskPayload(
        Trim(form.title),
        TrimmedOrAbsent(form.description),
        false,
        form.dueIso,
        form.selectedPet.value,
        form.recurring,
        CurrentUserId(user)))
  }

  /** With no `petId` in the route and no pets loaded, nothing can be saved, whatever
      the user types. */
  lemma NoPetsNothingSaved(form: TaskForm, user: Option<string>)
    requires form.selectedPet == InitialSelection(None, [])
    ensures HandleSave(form, user).Failure?
  {
  }

  /** The record a save that passes both checks produces, field by field. This only
      unfolds `HandleSave` for the proof below. */
  lemma SavedRecord(form: TaskForm, user: Option<string>)
    requires Trim(form.title) != [] && HasPet(form)
    ensures HandleSave(form, user) == Success(TaskPayload(
      Trim(form.title), TrimmedOrAbsent(form.description), false, form.dueIso,
      form.selectedPet.value, form.recurring, CurrentUserId(user)))
  {
  }

  /** Saving is idempotent: a form refilled from the saved record saves the same
      record. */
  lemma SaveIsIdempotent(form: TaskForm, user: Option<string>)
    requires HandleSave(form, user).Success?
    ensures var p := HandleSave(form, user).value;
            HandleSave(TaskForm(p.title, p.description.GetOr(""), p.dueDate, p.recurringType, Some(p.petId)), user)
              == HandleSave(form, user)
  {
    SavedRecord(form, user);
    var p := HandleSave(form, user).value;
    TrimIdempotent(form.title);
    TrimmedOrAbsentIdempotent(form.description);
    SavedRecord(TaskForm(p.title, p.description.GetOr(""), p.dueDate, p.recurringType, Some(p.petId)), user);
  }
}
