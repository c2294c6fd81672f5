# pet_todo — a verified model of the data-generation and form logic

pet_todo is a mobile app for pet care. Owners register, add pets and keep a to-do
list of care tasks per pet. When a pet is created the app fills in default care tasks
for its species. It also fills in a vaccination plan: one vaccine record per
vaccine schedule of the species, dated from the pet's birth date. Each record is
linked, when its task insert succeeds, to a task due on the vaccination day.

This project models that core in Dafny and proves what it promises:

- `Dates`, `VaccinePlan`: how a vaccination date is projected. The nominal date is
  birth plus `age_in_months`. A past date moves forward in whole `recurring_months`
  steps, or becomes "now" for a schedule that does not recur. A worked example for a
  pet born on 2024-01-15 is in `VaccinePlanExamples`.
- `Queries`, `DefaultTasks`: the pet-type filter of the reference-table queries, the
  category merge of `getDefaultTasks`, and the copying of templates into tasks.
- `ApiSpec`: the remote store as a value (`Db`). Each write path it models
  (`createPet`, `createPetVaccine`, `updatePetVaccine`, `deletePetVaccine`,
  `deleteTask`, `createDefaultTasksForPet`) is a function from the old store to the
  new one, and the lemmas state what each promises.
  An `Env` value holds the reference tables. It also holds the set of write-request
  numbers the store rejects, so every write failure is covered.
- `Api`: the same write paths run step by step, as the source runs them, on a
  `Backend` object whose maps are the tables. This includes the two loops of
  `createDefaultTasksForPet`. Each method is proved to end in exactly the state the
  `ApiSpec` function gives and to keep ids fresh.
- `AuthGuard`: the redirect decision of the root layout.
- `Register`, `NewPet`, `NewTask`: the checks and payloads of the register, new-pet
  and new-task screens. `Text` models JavaScript's `trim` and `split('T')[0]`, and
  `Forms` holds what the screens share.

Three behaviours of the code that a reader may not expect:

- Vaccine tasks are not marked `is_default`. The object inserted at
  `lib/api.ts:356-370` has no such field (`ApiSpec.VaccineTask`).
- A generated vaccine can lack a `task_id`. This happens when the vaccine type or the
  pet is not found, or when the task insert fails (`lib/api.ts:354-375`). See
  `ApiSpec.CreatePetVaccineLinksTask`.
- Marking a vaccine administered completes a task only when the patch itself carries
  the `task_id`. The stored link is not consulted (`lib/api.ts:408-413`). See
  `ApiSpec.AdministeredWithoutTaskIdLeavesTaskOpen`.

A negative `recurring_months` on a schedule whose nominal date is past makes the
advance loop walk away from "now": every step stays past
(`VaccinePlan.NegativeStepNeverCatchesUp`). In JavaScript the loop ends only when the
date leaves the representable range and becomes invalid, because the comparison with
"now" is then false. `toISOString` then throws.
The outer `catch` swallows the error, so no vaccine is written for that pet. The model
has `VaccinePlan.Project` return `None` in that case, and the generator stops after
the default tasks.

## Model

The `ApiSpec` functions that describe the write paths (`InsertPet`, `InsertTask`,
`InsertVaccine`, `InsertTasks`, `VaccineTask`, `CreatePetVaccine`, `ApplyPatch`,
`UpdatePetVaccine`, `DeleteTask`, `DeletePetVaccine`, `CreateAll`, `VaccineStep`,
`CreateDefaultTasksForPet`, `CreatePet`) carry no contract of their own. Each is the
specification an `Api.Backend` method is proved against, and that method's row
covers it. The `ApiSpec` lemmas below state their properties.

The same holds for a few definitions the generator is built from, which are stated by
the members named here:
- `DefaultTasks.GetDefaultTasks` (lib/api.ts:464-511): `Queries.SelectByPetType`,
  `Queries.SelectKeepsTableOrder`, `DefaultTasks.MergeIsJoin` and
  `DefaultTasks.MergeAttachesMatchingCategory`.
- `VaccinePlan.Nominal` (lib/api.ts:567-568) and `VaccinePlan.RecurringStep`
  (lib/api.ts:573): `VaccinePlan.Project` and the lemmas that follow it.
- `VaccinePlan.VaccineDraft` (lib/api.ts:584-592): `VaccinePlan.DraftAll`.
- `Dates.FromDate` (lib/api.ts:562) and `Dates.DatePart` (lib/api.ts:587):
  `Dates.DatePartFromDate`.

| member | source | states |
|---|---|---|
| Text.Trim | app/pet/new.tsx:40 | `trim` gives an empty string exactly for all-white-space input; a non-empty result neither starts nor ends with white space; it is a prefix of the left-trimmed input, and everything that prefix leaves off is white space |
| Text.TrimIdempotent | app/pet/new.tsx:48 | trimming twice is trimming once |
| Text.BeforeFirst | app/pet/new.tsx:51 | `split('T')[0]` is a prefix without `T` that stops exactly at the first `T`, or is the whole string |
| Text.BeforeFirstIdempotent | app/pet/new.tsx:51 | splitting the result again changes nothing |
| Forms.CurrentUserId | app/pet/new.tsx:53 | the signed-in user's id unless it is absent or empty, then the fixed fallback id; never empty |
| Forms.TrimmedOrAbsent | app/pet/new.tsx:50 | `s.trim() \|\| undefined` is absent exactly for blank input, and otherwise the non-empty trimmed text |
| Forms.TrimmedOrAbsentIdempotent | app/todo/new.tsx:65 | feeding the kept text back in keeps it |
| AuthGuard.Route.Path | app/_layout.tsx:21-24 | each redirect target's path is a slash followed by the one segment the router reports there |
| AuthGuard.Redirect | app/_layout.tsx:13-26 | no redirect while loading; onboarding exactly for a signed-out user outside `auth`/`onboarding`; the tabs exactly for a signed-in user inside them |
| AuthGuard.OnlyFirstSegmentMatters | app/_layout.tsx:16-17 | locations with the same first segment get the same decision |
| AuthGuard.RedirectIsStable | app/_layout.tsx:19-25 | re-evaluating at the redirect target with the same session asks for no further redirect |
| AuthGuard.GuardedLocationMatchesSession | app/_layout.tsx:19-25 | after the guard acts, the user is signed in exactly when not on an `auth`/`onboarding` screen |
| Register.HandleRegister | app/auth/register.tsx:20-47 | sign-up happens exactly when no field is empty, the passwords match and the password has at least 6 characters, with email, password and full name passed unchanged; each error exactly when its check is the first to fail |
| Register.FirstFailureReported | app/auth/register.tsx:21-34 | against the list of all failing checks in screen order: success exactly when the list is empty, otherwise its first element is the error |
| NewPet.InitialForm | app/pet/new.tsx:16-36 | the form opens empty, with pet type 1 (the first offered, "dog") and gender "unknown", an offered gender |
| NewPet.HandleSave | app/pet/new.tsx:39-54 | refused exactly for a blank name; otherwise trimmed non-empty name, type and gender kept, breed absent exactly when blank and trimmed otherwise, birth date, when picked, exactly the text before its first `T`, current or fallback user |
| NewPet.InitialFormRefused | app/pet/new.tsx:31-43 | the untouched form is refused with the missing-name error |
| NewPet.SaveIsIdempotent | app/pet/new.tsx:47-54 | a form refilled from the saved record saves the same record |
| NewTask.OffersNoYearly | app/todo/new.tsx:16-26 | the default recurrence "none" is offered and "yearly" is not |
| NewTask.InitialSelection | app/todo/new.tsx:27-39 | a non-empty route `petId` wins; otherwise the first loaded pet; nothing exactly when neither exists |
| NewTask.InitialForm | app/todo/new.tsx:22-39 | the form opens empty, with recurrence "none" and the initial pet selection |
| NewTask.HandleSave | app/todo/new.tsx:50-71 | title error exactly for a blank title; pet error exactly for a non-blank title and no selected pet; otherwise trimmed title, description absent when blank and trimmed otherwise, not completed, due date as chosen, selected pet and recurrence, current or fallback user |
| NewTask.NoPetsNothingSaved | app/todo/new.tsx:37-59 | with no route `petId` and no pets loaded, no save succeeds |
| NewTask.SaveIsIdempotent | app/todo/new.tsx:63-71 | a form refilled from the saved record saves the same record |
| Queries.SelectByPetType | lib/api.ts:472-474 | with a zero pet type every row is returned; otherwise exactly the rows of that type |
| Queries.SelectKeepsTableOrder | lib/api.ts:472-476 | the selection is the subsequence of the table made of the rows of that type (all rows for a zero type): each selected row sits at a listed table position, the positions increase, and every position of a row of that type is listed |
| Dates.AddMonths | lib/api.ts:568 | a month move by a positive count lands strictly later, by a negative one strictly earlier, and only a zero move leaves the instant unchanged |
| Dates.AddMonthsComposes | lib/api.ts:576 | two month moves in a row are one move by their sum |
| Dates.BeforeIsStrictTotalOrder | lib/api.ts:571-576 | date comparison is a strict total order, so "not before now" means "now or later" |
| Dates.DatePartFromDate | lib/api.ts:560-586 | reading a calendar day as a date and taking its ISO day back gives that day |
| VaccinePlan.Advance | lib/api.ts:575-577 | the advance loop ends on a date not before now, on the same day and time, never earlier than where it started |
| VaccinePlan.Project | lib/api.ts:565-581 | a projected date is never before now; there is none exactly for a past date with a negative recurring step |
| VaccinePlan.ProjectScheduledDate | lib/api.ts:565-581 | the in-place projection loop computes `Project` |
| VaccinePlan.AdvanceIsFirstStepNotBefore | lib/api.ts:575-577 | the loop stops at the first whole step not before now; every earlier step is before now |
| VaccinePlan.RecurringPastDate | lib/api.ts:572-577 | a past recurring date moves k >= 1 steps forward, to a step not before now whose predecessor is before now |
| VaccinePlan.FutureNominalKept | lib/api.ts:565-571 | a nominal date that is not past is kept |
| VaccinePlan.NonRecurringPastIsNow | lib/api.ts:571-581 | a past date of a non-recurring schedule, or one with no or zero step, becomes now |
| VaccinePlan.NegativeStepNeverCatchesUp | lib/api.ts:575-577 | with a negative step every step from a past date is still past, so the loop runs until the date becomes invalid |
| VaccinePlan.DraftAll | lib/api.ts:563-593 | one draft per schedule in order, each dated on its projected day, or none when some projection aborts |
| VaccinePlanExamples.FutureNominalDateUnchanged | lib/api.ts:565-571 | born 2024-01-15, due at 2 months, on 2024-03-01: scheduled 2024-03-15 |
| VaccinePlanExamples.PastOneOffDateBecomesToday | lib/api.ts:571-581 | the same pet, a one-off due at 1 month: scheduled today, 2024-03-01 |
| VaccinePlanExamples.PastRecurringDateAdvancesInSteps | lib/api.ts:572-577 | the same pet, due at 1 month, every 3 months, on 2024-09-01: scheduled 2024-11-15 |
| DefaultTasks.FindCategory | lib/api.ts:499 | `find` returns the first category of the list with that id, and nothing exactly when none has it |
| DefaultTasks.CategoryIds | lib/api.ts:485-487 | the list holds exactly the truthy category ids of the templates: every template that has one contributes it, and every listed id comes from such a template; it is empty exactly when no template has one |
| DefaultTasks.CategoriesWithIds | lib/api.ts:490-493 | the `.in('id', ...)` query returns exactly the table rows whose id is listed |
| DefaultTasks.MergeCategories | lib/api.ts:482-507 | the merge keeps the number of templates |
| DefaultTasks.FindInFetched | lib/api.ts:489-496 | looking a listed id up in the fetched rows finds what the whole table would |
| DefaultTasks.MergeIsJoin | lib/api.ts:482-510 | the merge, with its early exits and prefilter, is a left join of each template with the category table |
| DefaultTasks.MergeAttachesMatchingCategory | lib/api.ts:497-505 | only `category` changes; a template whose category exists gets it, every other template is unchanged |
| DefaultTasks.DefaultTaskRows | lib/api.ts:523-536 | one task per template in order, copying title, description, category, recurrence and priority, not completed, default, for the pet and user |
| ApiSpec.NewRows | lib/api.ts:539-541 | bulk-inserted rows take consecutive ids from the first fresh one, in order |
| ApiSpec.InsertTaskExtends | lib/api.ts:356-370 | a task insert sends one request, keeps ids fresh, overwrites nothing and touches no vaccine |
| ApiSpec.InsertVaccineExtends | lib/api.ts:380-392 | a vaccine insert sends one request, keeps ids fresh, and adds the vaccine under a fresh id or, when rejected, no vaccine |
| ApiSpec.CreatePetVaccineExtends | lib/api.ts:335-404 | `createPetVaccine` sends one or two requests, overwrites nothing, and adds at most one vaccine, under a fresh id |
| ApiSpec.CreatePetVaccineNewTask | lib/api.ts:341-392 | the vaccine added is the draft, with a task id exactly when type and pet are found and the task insert succeeds, and that task is new and linked to it |
| ApiSpec.CreatePetVaccineLinksTask | lib/api.ts:335-404 | without a task id the vaccine is stored under a fresh id, linked to a new task with the vaccine's pet, owner, due day, health category, high priority and no recurrence; the link exists exactly when type and pet are found and the task insert succeeds |
| ApiSpec.CreatePetVaccineKeepsGivenTask | lib/api.ts:341-385 | a vaccine that names its task creates no task and keeps that id |
| ApiSpec.UpdatePetVaccineCascade | lib/api.ts:406-432 | only the task named by an administering patch changes, and it becomes completed; the vaccine becomes its patched version, or nothing changes on failure or an unknown id |
| ApiSpec.AdministeredWithoutTaskIdLeavesTaskOpen | lib/api.ts:408-413 | a patch without `task_id` marks the vaccine administered but leaves its linked task open |
| ApiSpec.DeletePetVaccineCascade | lib/api.ts:434-461 | the stored vaccine's linked task is deleted, then the vaccine; nothing else is touched |
| ApiSpec.DeleteTaskLeavesVaccines | lib/api.ts:262-274 | deleting a task removes only that task and touches no vaccine |
| ApiSpec.CreateAllLinks | lib/api.ts:595-600 | creating drafts one by one only adds rows, and each new vaccine comes from a draft and is linked to a task it added |
| ApiSpec.CreateAllExtends | lib/api.ts:595-600 | creating the drafts one by one keeps ids fresh and overwrites nothing |
| ApiSpec.CreatePetVaccineAddsNoDefaultTask | lib/api.ts:356-370 | the only task `createPetVaccine` adds is not marked as a default task |
| ApiSpec.CreateAllAddsNoDefaultTask | lib/api.ts:595-600 | creating the drafts one by one adds no default task |
| ApiSpec.CreateAllStoresEveryDraft | lib/api.ts:595-600 | when no write is rejected, each draft is stored under its own fresh id, in increasing order, as given except for the task id, which is set exactly when type and pet are found |
| ApiSpec.NoTemplatesNoWrites | lib/api.ts:517-519 | with no default-task template the generator writes nothing |
| ApiSpec.InsertTasksPlacesRows | lib/api.ts:539-546 | an accepted bulk insert places every row under a fresh id; a rejected one writes no task; no task appears outside the ids it hands out |
| ApiSpec.TemplateRowsKept | lib/api.ts:523-546 | after an accepted bulk insert of the copied templates, a later store that only adds rows still holds template `i`'s task under id `nextId + i` |
| ApiSpec.DefaultTasksCreated | lib/api.ts:514-546 | the generator's tasks are there at the end, one per template under consecutive fresh ids, and nothing stored before is changed |
| ApiSpec.OnlyTemplateRowsAreDefault | lib/api.ts:514-600 | a task the generator adds is a default task exactly when the bulk insert was accepted and its id is one that insert handed out: the template rows are the only new default tasks |
| ApiSpec.NoBirthDateNoVaccines | lib/api.ts:550-559 | with no schedule, or a pet that is missing or has no birth date, no vaccine is created and only the default tasks are written |
| ApiSpec.VaccineStepExtends | lib/api.ts:548-600 | the vaccine part of the generator keeps ids fresh, overwrites nothing and adds no default task |
| ApiSpec.VaccineStepLinks | lib/api.ts:548-600 | the vaccine part of the generator overwrites nothing, and every vaccine it adds is the draft of one of the pet's schedules, dated on that schedule's projection, and linked (when it has a task id) to a fresh task for it |
| ApiSpec.GeneratedVaccinesLinked | lib/api.ts:514-604 | every generated vaccine is for a pet with a birth date, not administered, the draft of one of its schedules dated on that schedule's projection, and linked (when it has a task id) to a fresh task for it due on its day |
| ApiSpec.GeneratorStoresEveryVaccine | lib/api.ts:514-604 | when no write is rejected and every projection succeeds, schedule `k` yields its own stored vaccine, made from that schedule and dated on its projection, under ids increasing in schedule order, with a task exactly when its vaccine type is found |
| ApiSpec.CreatePetStoresPet | lib/api.ts:98-124 | the pet is stored under a fresh id; when that insert fails nothing else is written |
| Api.Backend.InsertPet | lib/api.ts:100-111 | the pet insert ends in the state `ApiSpec.InsertPet` gives |
| Api.Backend.InsertTask | lib/api.ts:356-370 | the task insert ends in the state `ApiSpec.InsertTask` gives |
| Api.Backend.InsertVaccine | lib/api.ts:380-392 | the vaccine insert ends in the state `ApiSpec.InsertVaccine` gives |
| Api.Backend.InsertTasks | lib/api.ts:539-541 | the bulk insert ends in the state `ApiSpec.InsertTasks` gives |
| Api.Backend.CreatePetVaccine | lib/api.ts:335-404 | ends in the state and result `ApiSpec.CreatePetVaccine` gives, keeping ids fresh |
| Api.Backend.UpdatePetVaccine | lib/api.ts:406-432 | ends in the state and result `ApiSpec.UpdatePetVaccine` gives |
| Api.Backend.DeleteTask | lib/api.ts:262-274 | ends in the state and result `ApiSpec.DeleteTask` gives |
| Api.Backend.DeletePetVaccine | lib/api.ts:434-461 | ends in the state and result `ApiSpec.DeletePetVaccine` gives |
| Api.Backend.CreateDefaultTasksForPet | lib/api.ts:514-604 | the bulk insert, the projection loop and the creation loop end in the state `ApiSpec.CreateDefaultTasksForPet` gives |
| Api.Backend.CreatePet | lib/api.ts:98-124 | ends in the state and result `ApiSpec.CreatePet` gives |

## Left out

- Remote-store reads always succeed. The `error` branches of the selects, which
  return an empty list or `null`, are not modelled. Writes can fail.
- `.order(...)` on the queries is not modelled. The tables are taken in the order in
  which the queries return them.
- `created_at`/`updated_at` timestamps and the `console.error` logging are not
  modelled.
- The clock is an input. One `now` is used for a whole generator run, where the
  source reads the clock again for each schedule.
- Dates.AddMonths: does not model JavaScript's day-of-month overflow (Jan 31 plus one
  month is Mar 2 or 3), the local time zone against UTC, or the Date range limit. A
  month step keeps the day and time of day.
- VaccinePlan.Project: a negative step with a past date is an abort (`None`). The
  walk to the end of the Date range that precedes the exception is not modelled.
- NewPet.HandleSave and NewTask.HandleSave: a picked date enters as its
  `toISOString()` text, which the device clock and time-zone code compute.
- Register.HandleRegister: `password.length` counts UTF-16 code units. The model
  counts characters, which differs only for characters outside the Basic
  Multilingual Plane.
- The `signUp` call, the alerts, navigation, loading flags and the rest of the UI are
  not modelled. lib/auth.tsx is not part of this model.
- The remaining passthroughs of lib/api.ts are not part of this model: profile, pet,
  task, category and vaccine-type reads, `updateProfile`, `updatePet`, `deletePet`,
  `createTask`, `updateTask` and `getPetVaccines`. Each is a single store call with no logic.
- Ids are natural numbers handed out in order. The store's UUIDs and the JavaScript
  falsiness of an empty id string are not modelled for stored rows.
