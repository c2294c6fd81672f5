/** The "new pet" screen (app/pet/new.tsx:16-54): the pet types and genders it
    offers, the form it starts from, and the record `handleSave` hands to `createPet`. */
module NewPet {
  import opened Wrappers
  import opened Domain
  import opened Text
  import opened Forms

  datatype PetType = PetType(id: int, name: string)

  /** The pet types the screen offers, in the order it shows them. */
  const PetTypes: seq<PetType> := [
    PetType(1, "dog"), PetType(2, "cat"), PetType(3, "bird"), PetType(4, "fish"),
    PetType(5, "rabbit"), PetType(6, "hamster"), PetType(7, "other")
  ]

  const GenderOptions: seq<Gender> := [Male, Female, Unknown]

  /** What the user has entered. A picked birth date is held as its `toISOString()`
      text, which the clock-and-time-zone code computes outside this model. */
  datatype PetForm = PetForm(name: string, typeId: int, breed: string, birthIso: Option<string>, gender: Gender)

  /** The record passed to `createPet`; `birthDate` is the `YYYY-MM-DD` text. */
  datatype PetPayload = PetPayload(
    name: string,
    typeId: int,
    breed: Option<string>,
    birthDate: Option<string>,
    gender: Gender,
    userId: string)

  /** The alert raised instead of saving. */
  datatype SaveError = MissingName {
    function Message(): string {
      "Lütfen evcil hayvanınızın adını girin."
    }
  }

  /** The form the screen opens with: empty text, no date, a dog of unknown gender. */
  function InitialForm(): (f: PetForm)
    ensures f.name == [] && f.breed == [] && f.birthIso.None?
    ensures f.typeId == PetTypes[0].id && PetTypes[0].name == "dog"
    ensures f.gender == Unknown && f.gender in GenderOptions
  {
    PetForm("", 1, "", None, Unknown)
  }

  /** `handleSave`: refused when the name is blank; otherwise the pet to create, with
      the name trimmed, a blank breed left out and any other breed trimmed, the date
      part of the birth date, the chosen type and gender, and the current user. */
  function HandleSave(form: PetForm, user: Option<string>): (r: Result<PetPayload, SaveError>)
    ensures r.Failure? <==> IsBlank(form.name)
    ensures r.Success? ==>
      && r.value.name == Trim(form.name) && r.value.name != []
      && r.value.typeId == form.typeId && r.value.gender == form.gender
      && r.value.breed == TrimmedOrAbsent(form.breed)
      && (r.value.breed.None? <==> IsBlank(form.breed))
      && (form.birthIso.None? ==> r.value.birthDate.None?)
      && (form.birthIso.Some? ==> r.value.birthDate == Some(BeforeFirst(form.birthIso.value, 'T')))
      && r.value.userId == CurrentUserId(user)
  {
    if Trim(form.name) == [] then Failure(MissingName)
    else
      Success(PetPayload(
        Trim(form.name),
        form.typeId,
        TrimmedOrAbsent(form.breed),
        match form.birthIso
        case Some(iso) => Some(BeforeFirst(iso, 'T'))
        case None => None,
        form.gender,
        CurrentUserId(user)))
  }

  /** The untouched form cannot be saved. */
  lemma InitialFormRefused(user: Option<string>)
    ensures HandleSave(InitialForm(), user) == Failure(MissingName)
  {
  }

  /** The record a save with a non-blank name produces, field by field. This only
      unfolds `HandleSave` for the proof below. */
  lemma SavedRecord(form: PetForm, user: Option<string>)
    requires Trim(form.name) != []
    ensures HandleSave(form, user) == Success(PetPayload(
      Trim(form.name), form.typeId, TrimmedOrAbsent(form.breed),
      match form.birthIso
      case Some(iso) => Some(BeforeFirst(iso, 'T'))
      case None => None,
      form.gender, CurrentUserId(user)))
  {
  }

  /** Saving is idempotent: a form refilled from the saved record saves the same
      record. */
  lemma SaveIsIdempotent(form: PetForm, user: Option<string>)
    requires HandleSave(form, user).Success?
    ensures var p := HandleSave(form, user).value;
            HandleSave(PetForm(p.name, p.typeId, p.breed.GetOr(""), p.birthDate, p.gender), user)
              == HandleSave(form, user)
  {
    SavedRecord(form, user);
    var p := HandleSave(form, user).value;
    TrimIdempotent(form.name);
    TrimmedOrAbsentIdempotent(form.breed);
    if form.birthIso.Some? {
      BeforeFirstIdempotent(form.birthIso.value, 'T');
    }
    SavedRecord(PetForm(p.name, p.typeId, p.breed.GetOr(""), p.birthDate, p.gender), user);
  }
}
