/** makelinks.js: for every closed task on the ClickUp list, look up the
    task whose Jira key is the value of its "Epic Key" field and link the
    two through the relationship field. */
module EpicLinks {
  import opened Js
  import opened Schema
  import opened Paging

  /** One entry of a ClickUp task's `custom_fields`. */
  datatype TaskField = TaskField(name: string, value: JsVal)

  /** A ClickUp task as returned by the task search. */
  datatype ClickUpTask = ClickUpTask(id: string, customFields: seq<TaskField>)

  /** A posted link: `linked` is added to the relationship field of `task`. */
  datatype Link = Link(task: string, linked: string)

  /** The search for the task whose Jira-key field equals a value: the ids
      of the tasks found, or `None` when the request fails. The `.catch`
      handler then reads an undeclared name and throws, so the awaited
      search rejects and no response is read. */
  type Search = JsVal -> Option<seq<string>>

  const EpicKeyField: string := "Epic Key"

  /** Field `i` is the first one named "Epic Key". */
  predicate FirstEpicKeyField(fields: seq<TaskField>, i: int) {
    0 <= i < |fields| && fields[i].name == EpicKeyField &&
    forall j :: 0 <= j < i ==> fields[j].name != EpicKeyField
  }

  /** The value of the first custom field named "Epic Key"; without one,
      reading `.value` of `undefined` throws. */
  function EpicKey(task: ClickUpTask): Completion<JsVal> {
    match FirstIndex(task.customFields, (f: TaskField) => f.name == EpicKeyField)
    case None => Thrown
    case Some(i) => Normal(task.customFields[i].value)
  }

  /** `EpicKey` throws exactly when no field is named "Epic Key", and
      otherwise yields the value of the first such field. */
  lemma EpicKeyFirst(task: ClickUpTask)
    ensures EpicKey(task).Thrown? <==> forall i :: 0 <= i < |task.customFields| ==> task.customFields[i].name != EpicKeyField
    ensures forall i :: FirstEpicKeyField(task.customFields, i) ==> EpicKey(task) == Normal(task.customFields[i].value)
  {
    var r := FirstIndex(task.customFields, (f: TaskField) => f.name == EpicKeyField);
    forall i | FirstEpicKeyField(task.customFields, i)
      ensures r == Some(i)
    {
    }
  }

  /** The links posted by the `ids` loop of `createLinks`: one per id whose
      search finds a task, to the first task found. A failed search rejects
      (its `.catch` handler throws in turn), which ends the loop. */
  function LinksForIds(taskId: string, ids: seq<JsVal>, search: Search): seq<Link> {
    if ids == [] then []
    else match search(ids[0])
      case None => []
      case Some(found) =>
        (if |found| < 1 then [] else [Link(taskId, found[0])]) + LinksForIds(taskId, ids[1..], search)
  }

  /** `createLinks(task)`: the id list is the single Epic Key value. */
  function PostedLinks(task: ClickUpTask, search: Search): seq<Link> {
    match EpicKey(task)
    case Thrown => []
    case Normal(epic) => LinksForIds(task.id, [epic], search)
  }

  /** A task gets at most one link, and gets one exactly when it has an
      Epic Key field whose value the search finds; the link goes from the
      task to the first task found. */
  lemma PostedLinksIff(task: ClickUpTask, search: Search)
    ensures |PostedLinks(task, search)| <= 1
    ensures PostedLinks(task, search) != [] <==>
      EpicKey(task).Normal? && search(EpicKey(task).value).Some? && |search(EpicKey(task).value).value| > 0
    ensures PostedLinks(task, search) != [] ==>
      PostedLinks(task, search) == [Link(task.id, search(EpicKey(task).value).value[0])]
  {
    if EpicKey(task).Normal? {
      var epic := EpicKey(task).value;
      assert [epic][1..] == [];
      assert LinksForIds(task.id, [epic][1..], search) == [];
    }
  }

  /** `createLinks(task)`: the links it posts. */
  method CreateLinks(task: ClickUpTask, search: Search) returns (links: seq<Link>)
    ensures links == PostedLinks(task, search)
  {
    links := [];
    var epic := EpicKey(task);
    if epic.Thrown? {
      return;
    }
    var ids := [epic.value];
    var i := 0;
    while i < |ids|
      invariant 0 <= i <= |ids|
      invariant links + LinksForIds(task.id, ids[i..], search) == LinksForIds(task.id, ids, search)
    {
      var res := search(ids[i]);
      if res.None? {
        assert LinksForIds(task.id, ids[i..], search) == [];
        i := i + 1;
        break;
      }
      assert ids[i..][1..] == ids[i + 1..];
      if |res.value| >= 1 {
        links := links + [Link(task.id, res.value[0])];
      }
      i := i + 1;
    }
  }

  /** The tasks handed to `createLinks`, in order. */
  function LinkBatch(tasks: seq<ClickUpTask>, search: Search): seq<Link> {
    if tasks == [] then []
    else LinkBatch(tasks[..|tasks| - 1], search) + PostedLinks(tasks[|tasks| - 1], search)
  }

  /** Every posted link starts at one of the tasks handed over. */
  lemma {:induction false} LinkBatchFromTasks(tasks: seq<ClickUpTask>, search: Search)
    ensures forall l :: l in LinkBatch(tasks, search) ==> exists t :: t in tasks && l.task == t.id
  {
    if tasks != [] {
      var init := tasks[..|tasks| - 1];
      var last := tasks[|tasks| - 1];
      LinkBatchFromTasks(init, search);
      PostedLinksIff(last, search);
      forall l | l in LinkBatch(tasks, search)
        ensures exists t :: t in tasks && l.task == t.id
      {
        if l in LinkBatch(init, search) {
          var t :| t in init && l.task == t.id;
          assert t in tasks;
        } else {
          assert l.task == last.id;
        }
      }
    }
  }

  /** `main` of makelinks.js: request pages 0, 1, 2, ... until one comes
      back empty, calling `createLinks` on every task. */
  method RunLinkJob(pages: seq<seq<ClickUpTask>>, search: Search) returns (requested: seq<nat>, links: seq<Link>)
    requires HasEmptyPage(pages)
    ensures requested == Offsets(FirstEmpty(pages) + 1, 1)
    ensures links == LinkBatch(Flatten(pages[..FirstEmpty(pages)]), search)
  {
    ghost var last := FirstEmpty(pages);
    ghost var handed: seq<ClickUpTask> := [];
    var page := 0;
    var done := false;
    requested := [];
    links := [];
    while !done
      invariant page <= last
      invariant |requested| == (if done then last + 1 else page)
      invariant requested == Offsets(|requested|, 1)
      invariant handed == Flatten(pages[..page])
      invariant links == LinkBatch(handed, search)
      invariant done ==> page == last
      decreases last + 1 - |requested|
    {
      requested := requested + [page];
      var tasks := pages[page];
      if |tasks| < 1 {
        done := true;
        continue;
      }
      FlattenStep(pages, page);
      links := LinkPage(handed, tasks, search, links);
      handed := handed + tasks;
      page := page + 1;
    }
  }

  /** The `for` loop over one page: `createLinks(tasks[i])` for each task. */
  method LinkPage(ghost handed: seq<ClickUpTask>, tasks: seq<ClickUpTask>, search: Search, links0: seq<Link>)
    returns (links: seq<Link>)
    requires links0 == LinkBatch(handed, search)
    ensures links == LinkBatch(handed + tasks, search)
  {
    links := links0;
    var i := 0;
    assert handed + tasks[..0] == handed;
    while i < |tasks|
      invariant 0 <= i <= |tasks|
      invariant links == LinkBatch(handed + tasks[..i], search)
    {
      var posted := CreateLinks(tasks[i], search);
      LinkBatchStep(handed, tasks, i, search);
      links := links + posted;
      i := i + 1;
    }
    assert handed + tasks[..i] == handed + tasks;
  }

  lemma LinkBatchStep(handed: seq<ClickUpTask>, tasks: seq<ClickUpTask>, i: nat, search: Search)
    requires i < |tasks|
    ensures LinkBatch(handed + tasks[..i + 1], search) ==
      LinkBatch(handed + tasks[..i], search) + PostedLinks(tasks[i], search)
  {
    var sofar := handed + tasks[..i];
    assert handed + tasks[..i + 1] == sofar + [tasks[i]];
    assert (sofar + [tasks[i]])[..|sofar|] == sofar;
  }
}
