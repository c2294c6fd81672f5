/** The write paths of lib/api.ts as the source runs them: one request after another
    against the remote store, here a `Backend` object whose maps are the tables. Each
    method is proved to end in exactly the state the matching `ApiSpec` function
    describes, and to keep the ids fresh. */
module Api {
  import opened Wrappers
  import opened Domain
  import opened Dates
  import Queries
  import DefaultTasks
  import VaccinePlan
  import ApiSpec

  class Backend {
    var pets: map<Id, Pet>
    var tasks: map<Id, Task>
    var vaccines: map<Id, PetVaccine>
    var nextId: Id
    var requests: nat
    const env: ApiSpec.Env

    /** The tables and counters as one value. */
    function State(): ApiSpec.Db
      reads this
    {
      ApiSpec.Db(pets, tasks, vaccines, nextId, requests)
    }

    ghost predicate Valid()
      reads this
    {
      ApiSpec.Fresh(State())
    }

    /** An empty store with the given reference tables and failing requests. */
    constructor (env: ApiSpec.Env)
      ensures Valid() && this.env == env
      ensures State() == ApiSpec.Db(map[], map[], map[], 0, 0)
    {
      this.env := env;
      pets, tasks, vaccines := map[], map[], map[];
      nextId, requests := 0, 0;
    }

    /** Sends one write request and reports whether the store accepts it. */
    method Send() returns (ok: bool)
      modifies this`requests
      ensures ok == ApiSpec.Accepts(env, old(State()))
      ensures requests == old(requests) + 1
    {
      ok := requests !in env.rejected;
      requests := requests + 1;
    }

    method InsertPet(p: Pet) returns (id: Option<Id>)
      requires Valid()
      modifies this
      ensures Valid()
      ensures (State(), id) == ApiSpec.InsertPet(env, old(State()), p)
    {
      var ok := Send();
      if ok {
        pets := pets[nextId := p];
        id := Some(nextId);
        nextId := nextId + 1;
      } else {
        id := None;
      }
    }

    method InsertTask(t: Task) returns (id: Option<Id>)
      requires Valid()
      modifies this
      ensures Valid()
      ensures (State(), id) == ApiSpec.InsertTask(env, old(State()), t)
    {
      var ok := Send();
      if ok {
        tasks := tasks[nextId := t];
        id := Some(nextId);
        nextId := nextId + 1;
      } else {
        id := None;
      }
    }

    method InsertVaccine(v: PetVaccine) returns (id: Option<Id>)
      requires Valid()
      modifies this
      ensures Valid()
      ensures (State(), id) == ApiSpec.InsertVaccine(env, old(State()), v)
    {
      var ok := Send();
      if ok {
        vaccines := vaccines[nextId := v];
        id := Some(nextId);
        nextId := nextId + 1;
      } else {
        id := None;
      }
    }

    /** The bulk insert of lib/api.ts:539-541. */
    method InsertTasks(rows: seq<Task>)
      requires Valid()
      modifies this
      ensures Valid()
      ensures State() == ApiSpec.InsertTasks(env, old(State()), rows)
    {
      ghost var db := State();
      ApiSpec.InsertTasksPlacesRows(env, db, rows);
      var ok := Send();
      if ok {
        tasks := tasks + ApiSpec.NewRows(nextId, rows);
        nextId := nextId + |rows|;
      }
    }

    /** `createPetVaccine` (lib/api.ts:335-404). */
    method CreatePetVaccine(draft: PetVaccine) returns (id: Option<Id>)
      requires Valid()
      modifies this
      ensures Valid()
      ensures (State(), id) == ApiSpec.CreatePetVaccine(env, old(State()), draft)
    {
      var taskId: Option<Id> := None;
      if draft.taskId.None? && draft.vaccineTypeId in env.vaccineTypes && draft.petId in pets {
        var task := ApiSpec.VaccineTask(env.vaccineTypes[draft.vaccineTypeId].name, pets[draft.petId], draft);
        taskId := InsertTask(task);
      }
      id := InsertVaccine(draft.(taskId := if draft.taskId.Some? then draft.taskId else taskId));
    }

    /** `updatePetVaccine` (lib/api.ts:406-432). */
    method UpdatePetVaccine(id: Id, patch: VaccinePatch) returns (r: Option<PetVaccine>)
      requires Valid()
      modifies this
      ensures Valid()
      ensures (State(), r) == ApiSpec.UpdatePetVaccine(env, old(State()), id, patch)
    {
      if patch.administered == Some(true) && patch.taskId.Some? {
        var t := patch.taskId.value;
        var done := Send();
        if done && t in tasks {
          tasks := tasks[t := tasks[t].(completed := true)];
        }
      }
      var ok := Send();
      if ok && id in vaccines {
        var v := ApiSpec.ApplyPatch(vaccines[id], patch);
        vaccines := vaccines[id := v];
        r := Some(v);
      } else {
        r := None;
      }
    }

    /** `deleteTask` (lib/api.ts:262-274). */
    method DeleteTask(id: Id) returns (ok: bool)
      requires Valid()
      modifies this
      ensures Valid()
      ensures (State(), ok) == ApiSpec.DeleteTask(env, old(State()), id)
    {
      ok := Send();
      if ok {
        tasks := tasks - {id};
      }
    }

    /** `deletePetVaccine` (lib/api.ts:434-461). */
    method DeletePetVaccine(id: Id) returns (ok: bool)
      requires Valid()
      modifies this
      ensures Valid()
      ensures (State(), ok) == ApiSpec.DeletePetVaccine(env, old(State()), id)
    {
      if id in vaccines && vaccines[id].taskId.Some? {
        var _ := DeleteTask(vaccines[id].taskId.value);
      }
      ok := Send();
      if ok {
        vaccines := vaccines - {id};
      }
    }

    /** `createDefaultTasksForPet` (lib/api.ts:514-604): the bulk insert of the copied
        templates, then the projection loop that builds the vaccine drafts, then the
        loop that creates them one at a time. */
    method CreateDefaultTasksForPet(petId: Id, petTypeId: int, userId: string, now: Instant)
      requires Valid()
      modifies this
      ensures Valid()
      ensures State() == ApiSpec.CreateDefaultTasksForPet(env, old(State()), petId, petTypeId, userId, now)
    {
      var templates := ApiSpec.TemplatesFor(env, petTypeId);
      if |templates| == 0 {
        return;
      }
      InsertTasks(DefaultTasks.DefaultTaskRows(templates, petId, userId));
      var schedules := ApiSpec.SchedulesFor(env, petTypeId);
      if |schedules| == 0 || petId !in pets || pets[petId].birthDate.None? {
        return;
      }
      var birth := FromDate(pets[petId].birthDate.value);
      var drafts: seq<PetVaccine> := [];
      for i := 0 to |schedules|
        modifies {}
        invariant |drafts| == i
        invariant forall j :: 0 <= j < i ==>
          && VaccinePlan.Project(birth, schedules[j], now).Some?
          && drafts[j] == VaccinePlan.VaccineDraft(petId, schedules[j], VaccinePlan.Project(birth, schedules[j], now).value)
      {
        var date := VaccinePlan.ProjectScheduledDate(birth, schedules[i], now);
        if date.None? {
          assert VaccinePlan.Project(birth, schedules[i], now).None?;
          return;
        }
        drafts := drafts + [VaccinePlan.VaccineDraft(petId, schedules[i], date.value)];
      }
      var planned := VaccinePlan.DraftAll(petId, birth, schedules, now);
      assert planned.Some? && planned.value == drafts by {
        assert forall j :: 0 <= j < |schedules| ==> VaccinePlan.Project(birth, schedules[j], now).Some?;
        assert planned.Some?;
        assert forall j :: 0 <= j < |drafts| ==> planned.value[j] == drafts[j];
      }
      ghost var start := State();
      for i := 0 to |drafts|
        invariant Valid()
        invariant ApiSpec.CreateAll(env, State(), drafts[i..]) == ApiSpec.CreateAll(env, start, drafts)
      {
        assert drafts[i..][1..] == drafts[i + 1..];
        var _ := CreatePetVaccine(drafts[i]);
      }
    }

    /** `createPet` (lib/api.ts:98-124). */
    method CreatePet(p: Pet, now: Instant) returns (id: Option<Id>)
      requires Valid()
      modifies this
      ensures Valid()
      ensures (State(), id) == ApiSpec.CreatePet(env, old(State()), p, now)
    {
      id := InsertPet(p);
      if id.Some? {
        CreateDefaultTasksForPet(id.value, p.typeId, p.userId, now);
      }
    }
  }
}
