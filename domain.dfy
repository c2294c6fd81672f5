/** The record shapes of lib/models.ts that the model uses. Optional TypeScript fields
    (`field?: T`) are `Option`s; record identifiers handed out by the store are `Id`s;
    the `created_at`/`updated_at` timestamps are not modelled. */
module Domain {
  import opened Wrappers

  /** A row identifier assigned by the remote store. */
  type Id = nat

  datatype Priority = Low | Medium | High

  /** `recurring_type`: 'daily' | 'weekly' | 'monthly' | 'yearly' | 'none'. */
  datatype Recurrence = Daily | Weekly | Monthly | Yearly | NoRecurrence

  datatype Gender = Male | Female | Unknown

  /** A calendar day, as in the `YYYY-MM-DD` strings the store keeps; `month` is 1-based. */
  datatype CalendarDate = CalendarDate(year: int, month: int, day: int)

  datatype Pet = Pet(
    name: string,
    typeId: int,
    breed: Option<string>,
    birthDate: Option<CalendarDate>,
    gender: Option<Gender>,
    userId: string)

  datatype TaskCategory = TaskCategory(id: int, name: string)

  /** A stored task. `isDefault` is false where the inserting code leaves `is_default` out. */
  datatype Task = Task(
    title: string,
    description: Option<string>,
    categoryId: Option<int>,
    completed: bool,
    dueDate: Option<CalendarDate>,
    petId: Id,
    recurringType: Option<Recurrence>,
    recurringInterval: Option<int>,
    priority: Option<Priority>,
    userId: string,
    isDefault: bool)

  datatype VaccineType = VaccineType(name: string)

  datatype VaccineSchedule = VaccineSchedule(
    vaccineTypeId: int,
    petTypeId: int,
    ageInMonths: int,
    isRecurring: bool,
    recurringMonths: Option<int>,
    notes: Option<string>)

  datatype PetVaccine = PetVaccine(
    petId: Id,
    vaccineTypeId: int,
    scheduledDate: CalendarDate,
    administeredDate: Option<CalendarDate>,
    administered: bool,
    notes: Option<string>,
    taskId: Option<Id>)

  /** `Partial<PetVaccine>`: a field that is `None` is absent from the patch. */
  datatype VaccinePatch = VaccinePatch(
    petId: Option<Id>,
    vaccineTypeId: Option<int>,
    scheduledDate: Option<CalendarDate>,
    administeredDate: Option<CalendarDate>,
    administered: Option<bool>,
    notes: Option<string>,
    taskId: Option<Id>)

  /** A default-task template; `category` is filled in only by the category merge. */
  datatype DefaultTask = DefaultTask(
    title: string,
    description: Option<string>,
    categoryId: Option<int>,
    petTypeId: int,
    recurringType: Option<Recurrence>,
    recurringInterval: Option<int>,
    priority: Option<Priority>,
    category: Option<TaskCategory>)

  /** A JavaScript number used as a condition: `0` is falsy, every other value truthy. */
  predicate Truthy(n: int) { n != 0 }

  /** An optional number used as a condition: absent or `0` is falsy. */
  predicate TruthyOpt(n: Option<int>) { n.Some? && n.value != 0 }
}
