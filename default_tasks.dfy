/** Default-task templates: the category merge of `getDefaultTasks`
    (lib/api.ts:483-510) and the template-to-task mapping of `createDefaultTasksForPet`
    (lib/api.ts:523-536). */
module DefaultTasks {
  import opened Wrappers
  import opened Domain
  import Queries

  /** The template names a category (`if (task.category_id)`: present and non-zero). */
  predicate HasCategory(t: DefaultTask) {
    TruthyOpt(t.categoryId)
  }

  /** `categories.find(c => c.id === id)`: the first category with that id, or none
      when no category has it. */
  function FindCategory(cats: seq<TaskCategory>, id: int): (r: Option<TaskCategory>)
    ensures r.Some? ==> r.value in cats && r.value.id == id
    ensures r.Some? ==> exists k :: 0 <= k < |cats| && cats[k] == r.value && forall j :: 0 <= j < k ==> cats[j].id != id
    ensures r.None? <==> forall c :: c in cats ==> c.id != id
  {
    if cats == [] then None
    else if cats[0].id == id then Some(cats[0])
    else
      var r := FindCategory(cats[1..], id);
      if r.Some? then
        var k :| 0 <= k < |cats[1..]| && cats[1..][k] == r.value && forall j :: 0 <= j < k ==> cats[1..][j].id != id;
        assert cats[k + 1] == r.value;
        r
      else r
  }

  /** `data.filter(task => task.category_id).map(task => task.category_id)`: exactly the
      truthy category ids of the templates. */
  function CategoryIds(data: seq<DefaultTask>): (ids: seq<int>)
    ensures forall i :: 0 <= i < |data| && HasCategory(data[i]) ==> data[i].categoryId.value in ids
    ensures forall x :: x in ids ==> exists i :: 0 <= i < |data| && HasCategory(data[i]) && data[i].categoryId.value == x
    ensures ids == [] <==> forall i :: 0 <= i < |data| ==> !HasCategory(data[i])
  {
    if data == [] then []
    else if HasCategory(data[0]) then [data[0].categoryId.value] + CategoryIds(data[1..])
    else CategoryIds(data[1..])
  }

  /** `.in('id', categoryIds)`: the rows of the category table whose id is listed. */
  function CategoriesWithIds(table: seq<TaskCategory>, ids: seq<int>): (r: seq<TaskCategory>)
    ensures forall c :: c in r <==> c in table && c.id in ids
  {
    if table == [] then []
    else if table[0].id in ids then [table[0]] + CategoriesWithIds(table[1..], ids)
    else CategoriesWithIds(table[1..], ids)
  }

  /** One template after the merge: with its category attached when one is found. */
  function Attach(t: DefaultTask, cats: seq<TaskCategory>): DefaultTask {
    if HasCategory(t) then
      match FindCategory(cats, t.categoryId.value)
      case Some(c) => t.(category := Some(c))
      case None => t
    else t
  }

  /** The merge of lib/api.ts:484-510: nothing happens for an empty list or when no
      template names a category; otherwise the named categories are fetched and each
      template is joined with its own. */
  function MergeCategories(data: seq<DefaultTask>, table: seq<TaskCategory>): (r: seq<DefaultTask>)
    ensures |r| == |data|
  {
    if |data| == 0 then data
    else
      var ids := CategoryIds(data);
      if |ids| == 0 then data
      else
        var fetched := CategoriesWithIds(table, ids);
        seq(|data|, i requires 0 <= i < |data| => Attach(data[i], fetched))
  }

  /** Looking a listed id up in the fetched rows finds what looking it up in the whole
      table finds. */
  lemma {:induction false} FindInFetched(table: seq<TaskCategory>, ids: seq<int>, id: int)
    requires id in ids
    ensures FindCategory(CategoriesWithIds(table, ids), id) == FindCategory(table, id)
  {
    if table != [] {
      FindInFetched(table[1..], ids, id);
    }
  }

  /** The merge is a plain left join of each template with the category table: the
      early exits and the `.in(...)` prefilter change nothing. */
  lemma MergeIsJoin(data: seq<DefaultTask>, table: seq<TaskCategory>)
    ensures MergeCategories(data, table) == seq(|data|, i requires 0 <= i < |data| => Attach(data[i], table))
  {
    var r := MergeCategories(data, table);
    var ids := CategoryIds(data);
    forall i | 0 <= i < |data| ensures r[i] == Attach(data[i], table) {
      if HasCategory(data[i]) {
        FindInFetched(table, ids, data[i].categoryId.value);
      }
    }
  }

  /** The promise of the merge, template by template: count and order are kept, only
      `category` may change, a template whose category id matches a category of the
      table gets that category, and every other template comes back unchanged. */
  lemma MergeAttachesMatchingCategory(data: seq<DefaultTask>, table: seq<TaskCategory>, i: int)
    requires 0 <= i < |data|
    ensures |MergeCategories(data, table)| == |data|
    ensures MergeCategories(data, table)[i].(category := data[i].category) == data[i]
    ensures HasCategory(data[i]) && FindCategory(table, data[i].categoryId.value).Some? ==>
      && MergeCategories(data, table)[i].category.Some?
      && MergeCategories(data, table)[i].category.value in table
      && MergeCategories(data, table)[i].category.value.id == data[i].categoryId.value
    ensures !(HasCategory(data[i]) && FindCategory(table, data[i].categoryId.value).Some?) ==>
      MergeCategories(data, table)[i] == data[i]
  {
    MergeIsJoin(data, table);
  }

  /** `getDefaultTasks(petTypeId)`: the templates of the pet type, merged with their
      categories. */
  function GetDefaultTasks(templates: seq<DefaultTask>, categories: seq<TaskCategory>, petTypeId: int)
    : seq<DefaultTask>
  {
    MergeCategories(Queries.SelectByPetType(templates, (t: DefaultTask) => t.petTypeId, petTypeId), categories)
  }

  /** The task copied from one template (lib/api.ts:523-536). */
  function TaskFromTemplate(t: DefaultTask, petId: Id, userId: string): Task {
    Task(t.title, t.description, t.categoryId, false, None, petId,
         t.recurringType, t.recurringInterval, t.priority, userId, true)
  }

  /** `defaultTasks.map(...)`: exactly one new task per template, in template order,
      each copying the template's title, description, category id, recurrence and
      priority, not completed, marked as a default task and owned by the pet and the
      user. */
  function DefaultTaskRows(templates: seq<DefaultTask>, petId: Id, userId: string): (r: seq<Task>)
    ensures |r| == |templates|
    ensures forall i :: 0 <= i < |r| ==>
      && r[i].title == templates[i].title
      && r[i].description == templates[i].description
      && r[i].categoryId == templates[i].categoryId
      && r[i].recurringType == templates[i].recurringType
      && r[i].recurringInterval == templates[i].recurringInterval
      && r[i].priority == templates[i].priority
      && !r[i].completed && r[i].isDefault && r[i].dueDate.None?
      && r[i].petId == petId && r[i].userId == userId
  {
    seq(|templates|, i requires 0 <= i < |templates| => TaskFromTemplate(templates[i], petId, userId))
  }
}
