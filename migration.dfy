/** The migration driver of index.js: `createTask` as a walk over the issue
    tree that assigns every created task its parent, and `main`'s
    offset-paginated loop over the Jira search results. */
module Migration {
  import opened Js
  import opened ClickUp
  import opened Jira
  import opened Comments
  import opened Payload
  import opened Paging

  /** `maxResults`: the page size, which is also the offset step. */
  const MaxResults: nat := 100

  /** One created ClickUp task: the Jira key it came from, the id the
      model gives it (see `NumberedFrom`), the request body, and the comment posted to it, if any. */
  datatype Created = Created(key: string, id: TaskId, body: TaskBody, comment: Option<string>)

  /** How `createTask` builds the request body of an issue for a given
      parent. A run uses `BodyBuilder`; the tree walk below is stated for any
      builder, so that reasoning about it does not unfold the 26 fields. */
  type Builder = (Issue, Option<TaskId>) -> Completion<TaskBody>

  /** The builder of a run: `Payload.TaskBodyOf` over the list's catalog. */
  function BodyBuilder(catalog: Catalog): Builder {
    (issue: Issue, parent: Option<TaskId>) => TaskBodyOf(catalog, issue, parent)
  }

  /** A built body carries the parent it was built for. */
  ghost predicate SetsParent(build: Builder) {
    forall issue, parent :: build(issue, parent).Normal? ==> build(issue, parent).value.parent == parent
  }

  /** Whether a body builds does not depend on the parent. */
  ghost predicate ParentBlind(build: Builder) {
    forall issue, parent :: build(issue, parent).Normal? == build(issue, None).Normal?
  }

  /** The builder of a run sets the parent, and whether it builds depends on
      the issue alone. */
  lemma BodyBuilderSound(catalog: Catalog)
    ensures SetsParent(BodyBuilder(catalog))
    ensures ParentBlind(BodyBuilder(catalog))
  {
    var build := BodyBuilder(catalog);
    forall issue, parent
      ensures build(issue, parent).Normal? ==> build(issue, parent).value.parent == parent
      ensures build(issue, parent).Normal? == build(issue, None).Normal?
    {
      PayloadThrowsIff(catalog, issue, parent);
      PayloadThrowsIff(catalog, issue, None);
    }
  }

  /** In a run, an issue's body builds exactly when the issue is well formed
      and every option lookup it needs can read its options. */
  lemma BodyBuilderBuilds(catalog: Catalog, issue: Issue, parent: Option<TaskId>)
    ensures BodyBuilder(catalog)(issue, parent).Normal? <==> !Malformed(issue) && !UnreadableOptions(catalog, issue)
  {
    PayloadThrowsIff(catalog, issue, parent);
  }

  /** Parent linkage inside a creation log: every record's parent is `parent`
      or a record created before it. */
  predicate ParentsEarlier(log: seq<Created>, parent: Option<TaskId>) {
    forall k :: 0 <= k < |log| ==>
      log[k].body.parent == parent || exists j :: 0 <= j < k && log[k].body.parent == Some(log[j].id)
  }

  /** The model numbers the tasks of a log `next`, `next + 1`, ... in the order of the log. */
  predicate NumberedFrom(log: seq<Created>, next: nat) {
    forall k :: 0 <= k < |log| ==> log[k].id == TaskId(next + k)
  }

  lemma NumberedAppend(a: seq<Created>, b: seq<Created>, next: nat)
    requires NumberedFrom(a, next) && NumberedFrom(b, next + |a|)
    ensures NumberedFrom(a + b, next)
  {
    forall k | |a| <= k < |a + b|
      ensures (a + b)[k].id == TaskId(next + k)
    {
      assert (a + b)[k] == b[k - |a|];
    }
  }

  lemma ParentsEarlierAppend(a: seq<Created>, b: seq<Created>, parent: Option<TaskId>)
    requires ParentsEarlier(a, parent) && ParentsEarlier(b, parent)
    ensures ParentsEarlier(a + b, parent)
  {
    var log := a + b;
    forall k | 0 <= k < |a|
      ensures log[k].body.parent == parent || exists j :: 0 <= j < k && log[k].body.parent == Some(log[j].id)
    {
      assert log[k] == a[k];
      if a[k].body.parent != parent {
        var j :| 0 <= j < k && a[k].body.parent == Some(a[j].id);
        assert log[k].body.parent == Some(log[j].id);
      }
    }
    forall k | |a| <= k < |log|
      ensures log[k].body.parent == parent || exists j :: 0 <= j < k && log[k].body.parent == Some(log[j].id)
    {
      var m := k - |a|;
      assert log[k] == b[m];
      if b[m].body.parent != parent {
        var j :| 0 <= j < m && b[m].body.parent == Some(b[j].id);
        assert log[k].body.parent == Some(log[j + |a|].id);
      }
    }
  }

  /** `createTask(issue, parent)`: the tasks created for `issue` and its
      sub-tasks, in depth-first pre-order; the model numbers them `next`, `next + 1`, ...
      A throw while building the body creates nothing, sub-tasks included. */
  function Migrate(build: Builder, issue: Issue, parent: Option<TaskId>, next: nat): (log: seq<Created>)
    decreases issue, 1
    ensures log == [] <==> build(issue, parent).Thrown?
    ensures log != [] ==> (log[0].key == issue.key && log[0].id == TaskId(next) &&
      log[0].body == build(issue, parent).value && log[0].comment == PostedComment(issue.comment))
  {
    match build(issue, parent)
    case Thrown => []
    case Normal(body) =>
      var id := TaskId(next);
      [Created(issue.key, id, body, PostedComment(issue.comment))] + MigrateSubtasks(build, issue, 0, id, next + 1)
  }

  /** The sub-task loop of `createTask`: sub-tasks `i..` of `issue`, each
      created with the new task's id as its parent. */
  function MigrateSubtasks(build: Builder, issue: Issue, i: nat, parent: TaskId, next: nat): seq<Created>
    requires i <= |issue.subtasks|
    decreases issue, 0, |issue.subtasks| - i
  {
    if i == |issue.subtasks| then []
    else
      var first := Migrate(build, issue.subtasks[i], Some(parent), next);
      first + MigrateSubtasks(build, issue, i + 1, parent, next + |first|)
  }

  /** Every record of `createTask(issue, parent)` has a fresh consecutive
      id; the issue's own task has parent `parent`, and every other record's
      parent is a task created before it. */
  lemma {:induction false} MigrateLinksParents(build: Builder, issue: Issue, parent: Option<TaskId>, next: nat)
    requires SetsParent(build)
    ensures NumberedFrom(Migrate(build, issue, parent, next), next)
    ensures ParentsEarlier(Migrate(build, issue, parent, next), parent)
    ensures var log := Migrate(build, issue, parent, next);
      log != [] ==> log[0].body.parent == parent && ParentsEarlier(log[1..], Some(log[0].id))
    decreases issue, 1
  {
    var log := Migrate(build, issue, parent, next);
    if log != [] {
      var id := TaskId(next);
      var subs := MigrateSubtasks(build, issue, 0, id, next + 1);
      MigrateSubtasksLinksParents(build, issue, 0, id, next + 1);
      assert log == [log[0]] + subs;
      assert log[1..] == subs;
      NumberedAppend([log[0]], subs, next);
      forall k | 1 <= k < |log|
        ensures log[k].body.parent == parent || exists j :: 0 <= j < k && log[k].body.parent == Some(log[j].id)
      {
        assert log[k] == subs[k - 1];
        if subs[k - 1].body.parent == Some(id) {
          assert log[k].body.parent == Some(log[0].id);
        } else {
          var j :| 0 <= j < k - 1 && subs[k - 1].body.parent == Some(subs[j].id);
          assert log[k].body.parent == Some(log[j + 1].id);
        }
      }
    }
  }

  lemma {:induction false} MigrateSubtasksLinksParents(build: Builder, issue: Issue, i: nat, parent: TaskId, next: nat)
    requires SetsParent(build)
    requires i <= |issue.subtasks|
    ensures NumberedFrom(MigrateSubtasks(build, issue, i, parent, next), next)
    ensures ParentsEarlier(MigrateSubtasks(build, issue, i, parent, next), Some(parent))
    decreases issue, 0, |issue.subtasks| - i
  {
    if i < |issue.subtasks| {
      var first := Migrate(build, issue.subtasks[i], Some(parent), next);
      var rest := MigrateSubtasks(build, issue, i + 1, parent, next + |first|);
      MigrateLinksParents(build, issue.subtasks[i], Some(parent), next);
      MigrateSubtasksLinksParents(build, issue, i + 1, parent, next + |first|);
      NumberedAppend(first, rest, next);
      ParentsEarlierAppend(first, rest, Some(parent));
    }
  }

  /** The top-level issues handed to `createTask` without a parent, in order. */
  function MigrateBatch(build: Builder, issues: seq<Issue>, next: nat): seq<Created> {
    if issues == [] then []
    else
      var init := MigrateBatch(build, issues[..|issues| - 1], next);
      init + Migrate(build, issues[|issues| - 1], None, next + |init|)
  }

  /** The model numbers the tasks of a batch consecutively, and every parent is a task
      created earlier in the run (top-level tasks have none). */
  lemma {:induction false} MigrateBatchLinksParents(build: Builder, issues: seq<Issue>, next: nat)
    requires SetsParent(build)
    ensures NumberedFrom(MigrateBatch(build, issues, next), next)
    ensures ParentsEarlier(MigrateBatch(build, issues, next), None)
  {
    if issues != [] {
      var init := MigrateBatch(build, issues[..|issues| - 1], next);
      var last := Migrate(build, issues[|issues| - 1], None, next + |init|);
      MigrateBatchLinksParents(build, issues[..|issues| - 1], next);
      MigrateLinksParents(build, issues[|issues| - 1], None, next + |init|);
      NumberedAppend(init, last, next);
      ParentsEarlierAppend(init, last, None);
    }
  }

  /** One more issue of a page handed to `createTask`. */
  lemma MigrateBatchStep(build: Builder, handed: seq<Issue>, issues: seq<Issue>, i: nat)
    requires i < |issues|
    ensures MigrateBatch(build, handed + issues[..i + 1], 0) ==
      MigrateBatch(build, handed + issues[..i], 0) +
      Migrate(build, issues[i], None, |MigrateBatch(build, handed + issues[..i], 0)|)
  {
    var sofar := handed + issues[..i];
    assert handed + issues[..i + 1] == sofar + [issues[i]];
    assert (sofar + [issues[i]])[..|sofar|] == sofar;
  }

  /** `main` of index.js: fetch pages at `startAt` offsets 0, 100, 200, ...
      until a page comes back empty, handing each issue to `createTask`.
      `pages[k]` is the response at offset `k * 100`; the reported `total`
      is never consulted. */
  method RunMigration(catalog: Catalog, pages: seq<seq<Issue>>) returns (startAts: seq<nat>, log: seq<Created>)
    requires HasEmptyPage(pages)
    ensures startAts == Offsets(FirstEmpty(pages) + 1, MaxResults)
    ensures log == MigrateBatch(BodyBuilder(catalog), Flatten(pages[..FirstEmpty(pages)]), 0)
  {
    ghost var last := FirstEmpty(pages);
    var build := BodyBuilder(catalog);
    var offset := 0;
    var done := false;
    var page := 0;
    startAts := [];
    log := [];
    while !done
      invariant page <= last
      invariant |startAts| == (if done then last + 1 else page)
      invariant startAts == Offsets(|startAts|, MaxResults)
      invariant offset == page * MaxResults
      invariant log == MigrateBatch(build, Flatten(pages[..page]), 0)
      invariant done ==> page == last
      decreases last + 1 - |startAts|
    {
      startAts := startAts + [offset];
      var issues := pages[page];
      if |issues| < 1 {
        done := true;
        continue;
      }
      offset := offset + MaxResults;
      FlattenStep(pages, page);
      log := CreateTasks(build, Flatten(pages[..page]), issues, log);
      page := page + 1;
    }
  }

  /** Over a whole run, the model numbers the tasks consecutively and every
      parent is a task created earlier in the run. */
  lemma RunLinksParents(catalog: Catalog, issues: seq<Issue>)
    ensures NumberedFrom(MigrateBatch(BodyBuilder(catalog), issues, 0), 0)
    ensures ParentsEarlier(MigrateBatch(BodyBuilder(catalog), issues, 0), None)
  {
    BodyBuilderSound(catalog);
    MigrateBatchLinksParents(BodyBuilder(catalog), issues, 0);
  }

  /** The `for` loop over one page: `createTask(issues[i])`, no parent, with
      the model numbering on from the tasks created so far. */
  method CreateTasks(build: Builder, ghost handed: seq<Issue>, issues: seq<Issue>, log0: seq<Created>)
    returns (log: seq<Created>)
    requires log0 == MigrateBatch(build, handed, 0)
    ensures log == MigrateBatch(build, handed + issues, 0)
  {
    log := log0;
    var i := 0;
    assert handed + issues[..0] == handed;
    while i < |issues|
      invariant 0 <= i <= |issues|
      invariant log == MigrateBatch(build, handed + issues[..i], 0)
    {
      MigrateBatchStep(build, handed, issues, i);
      log := log + Migrate(build, issues[i], None, |log|);
      i := i + 1;
    }
    assert handed + issues[..i] == handed + issues;
  }

  /** The number of issues in the tree rooted at `issue`. */
  function TreeSize(issue: Issue): nat
    decreases issue, 1
  {
    1 + SubtreesSize(issue, 0)
  }

  function SubtreesSize(issue: Issue, i: nat): nat
    requires i <= |issue.subtasks|
    decreases issue, 0, |issue.subtasks| - i
  {
    if i == |issue.subtasks| then 0 else TreeSize(issue.subtasks[i]) + SubtreesSize(issue, i + 1)
  }

  /** Every issue of the tree has a request body that builds. */
  predicate AllBuild(build: Builder, issue: Issue)
    decreases issue, 1
  {
    build(issue, None).Normal? && SubtreesBuild(build, issue, 0)
  }

  predicate SubtreesBuild(build: Builder, issue: Issue, i: nat)
    requires i <= |issue.subtasks|
    decreases issue, 0, |issue.subtasks| - i
  {
    i == |issue.subtasks| || (AllBuild(build, issue.subtasks[i]) && SubtreesBuild(build, issue, i + 1))
  }

  /** An issue at its position in a pre-order listing, with the position of
      the issue whose sub-task it is; -1 when it has no parent in the listing. */
  datatype Node = Node(issue: Issue, parentAt: int)

  /** A listing moved `at` places down, its root re-parented to `rootParent`. */
  function Shift(nodes: seq<Node>, at: nat, rootParent: int): seq<Node> {
    seq(|nodes|, k requires 0 <= k < |nodes| =>
      Node(nodes[k].issue, if nodes[k].parentAt < 0 then rootParent else nodes[k].parentAt + at))
  }

  /** The issues of the tree rooted at `issue` in depth-first pre-order,
      each with the position of its Jira parent. An issue that `keep`
      rejects is left out together with its whole sub-tree. */
  function PreOrder(issue: Issue, keep: Issue -> bool): seq<Node>
    decreases issue, 1
  {
    if !keep(issue) then [] else [Node(issue, -1)] + SubOrder(issue, 0, 1, keep)
  }

  /** The listings of sub-tasks `i..` of `issue`, placed from position `at`
      of a listing whose position 0 holds `issue`. */
  function SubOrder(issue: Issue, i: nat, at: nat, keep: Issue -> bool): seq<Node>
    requires i <= |issue.subtasks|
    decreases issue, 0, |issue.subtasks| - i
  {
    if i == |issue.subtasks| then []
    else
      var first := Shift(PreOrder(issue.subtasks[i], keep), at, 0);
      first + SubOrder(issue, i + 1, at + |first|, keep)
  }

  /** The listings of top-level issues, one after the other; their roots
      have no parent. */
  function BatchOrder(issues: seq<Issue>, keep: Issue -> bool): seq<Node> {
    if issues == [] then []
    else
      var init := BatchOrder(issues[..|issues| - 1], keep);
      init + Shift(PreOrder(issues[|issues| - 1], keep), |init|, -1)
  }

  /** Keeps every issue. */
  function KeepAll(issue: Issue): bool { true }

  /** Keeps the issues whose body builds. */
  function Builds(build: Builder): Issue -> bool {
    issue => build(issue, None).Normal?
  }

  /** `pre` lists the tree rooted at `root`: nothing when `keep` rejects the
      root, and otherwise the root first, without a parent, followed by kept
      issues only, each after its Jira parent. */
  predicate ListsTree(pre: seq<Node>, root: Issue, keep: Issue -> bool) {
    (pre == [] <==> !keep(root)) && (pre != [] ==> pre[0] == Node(root, -1)) &&
    forall k :: 0 < k < |pre| ==>
      (keep(pre[k].issue) && 0 <= pre[k].parentAt < k && pre[k].issue in pre[pre[k].parentAt].issue.subtasks)
  }

  /** `order` sits from position `at` of a listing whose position 0 holds
      `root`: kept issues only, each after its Jira parent. */
  predicate ListsBelow(order: seq<Node>, root: Issue, at: nat, keep: Issue -> bool) {
    forall m :: 0 <= m < |order| ==>
      (keep(order[m].issue) && 0 <= order[m].parentAt < at + m &&
       (order[m].parentAt == 0 || at <= order[m].parentAt) &&
       (order[m].parentAt == 0 ==> order[m].issue in root.subtasks) &&
       (order[m].parentAt != 0 ==> order[m].issue in order[order[m].parentAt - at].issue.subtasks))
  }

  /** `order` lists the trees of `issues`: kept issues only; one without a
      parent is a top-level issue, and every other comes after its Jira parent. */
  predicate ListsBatch(order: seq<Node>, issues: seq<Issue>, keep: Issue -> bool) {
    forall k :: 0 <= k < |order| ==>
      (keep(order[k].issue) && order[k].parentAt < k &&
       (order[k].parentAt < 0 ==> order[k].issue in issues) &&
       (order[k].parentAt >= 0 ==> order[k].issue in order[order[k].parentAt].issue.subtasks))
  }

  /** The pre-order listing of a tree lists that tree. */
  lemma {:induction false} PreOrderShape(issue: Issue, keep: Issue -> bool)
    ensures ListsTree(PreOrder(issue, keep), issue, keep)
    decreases issue, 1
  {
    if keep(issue) {
      var pre := PreOrder(issue, keep);
      var so := SubOrder(issue, 0, 1, keep);
      SubOrderShape(issue, 0, 1, keep);
      assert ListsBelow(so, issue, 1, keep);
      assert pre == [Node(issue, -1)] + so;
      forall k | 0 < k < |pre|
        ensures keep(pre[k].issue) && 0 <= pre[k].parentAt < k && pre[k].issue in pre[pre[k].parentAt].issue.subtasks
      {
        assert pre[k] == so[k - 1];
        if pre[k].parentAt != 0 {
          assert pre[pre[k].parentAt] == so[pre[k].parentAt - 1];
        }
      }
    }
  }

  lemma {:induction false} SubOrderShape(issue: Issue, i: nat, at: nat, keep: Issue -> bool)
    requires i <= |issue.subtasks| && 1 <= at
    ensures ListsBelow(SubOrder(issue, i, at, keep), issue, at, keep)
    decreases issue, 0, |issue.subtasks| - i
  {
    if i < |issue.subtasks| {
      var sub := PreOrder(issue.subtasks[i], keep);
      var first := Shift(sub, at, 0);
      var rest := SubOrder(issue, i + 1, at + |first|, keep);
      assert SubOrder(issue, i, at, keep) == first + rest;
      PreOrderShape(issue.subtasks[i], keep);
      ShiftBelow(sub, issue, i, at, keep);
      SubOrderShape(issue, i + 1, at + |first|, keep);
      BelowAppend(first, rest, issue, at, keep);
    }
  }

  /** The listing of sub-task `i`, placed from position `at`, sits below `issue`. */
  lemma ShiftBelow(pre: seq<Node>, issue: Issue, i: nat, at: nat, keep: Issue -> bool)
    requires i < |issue.subtasks| && 1 <= at && ListsTree(pre, issue.subtasks[i], keep)
    ensures ListsBelow(Shift(pre, at, 0), issue, at, keep)
  {
    var shifted := Shift(pre, at, 0);
    forall m | 0 <= m < |shifted|
      ensures keep(shifted[m].issue) && 0 <= shifted[m].parentAt < at + m &&
        (shifted[m].parentAt == 0 || at <= shifted[m].parentAt) &&
        (shifted[m].parentAt == 0 ==> shifted[m].issue in issue.subtasks) &&
        (shifted[m].parentAt != 0 ==> shifted[m].issue in shifted[shifted[m].parentAt - at].issue.subtasks)
    {
      if m > 0 {
        var p := pre[m].parentAt;
        assert shifted[p].issue == pre[p].issue;
      }
    }
  }

  /** Two listings placed one after the other below `issue` sit below it together. */
  lemma BelowAppend(a: seq<Node>, b: seq<Node>, issue: Issue, at: nat, keep: Issue -> bool)
    requires ListsBelow(a, issue, at, keep) && ListsBelow(b, issue, at + |a|, keep)
    ensures ListsBelow(a + b, issue, at, keep)
  {
    var ab := a + b;
    forall m | 0 <= m < |a|
      ensures keep(ab[m].issue) && 0 <= ab[m].parentAt < at + m &&
        (ab[m].parentAt == 0 || at <= ab[m].parentAt) &&
        (ab[m].parentAt == 0 ==> ab[m].issue in issue.subtasks) &&
        (ab[m].parentAt != 0 ==> ab[m].issue in ab[ab[m].parentAt - at].issue.subtasks)
    {
      assert ab[m] == a[m];
      if a[m].parentAt != 0 {
        assert ab[a[m].parentAt - at] == a[a[m].parentAt - at];
      }
    }
    forall m | |a| <= m < |ab|
      ensures keep(ab[m].issue) && 0 <= ab[m].parentAt < at + m &&
        (ab[m].parentAt == 0 || at <= ab[m].parentAt) &&
        (ab[m].parentAt == 0 ==> ab[m].issue in issue.subtasks) &&
        (ab[m].parentAt != 0 ==> ab[m].issue in ab[ab[m].parentAt - at].issue.subtasks)
    {
      assert ab[m] == b[m - |a|];
      var q := b[m - |a|].parentAt;
      if q != 0 {
        assert ab[q - at] == b[q - at - |a|];
      }
    }
  }

  /** The listing of a batch lists the trees of its issues. */
  lemma {:induction false} BatchOrderShape(issues: seq<Issue>, keep: Issue -> bool)
    ensures ListsBatch(BatchOrder(issues, keep), issues, keep)
  {
    if issues != [] {
      var init := issues[..|issues| - 1];
      var last := issues[|issues| - 1];
      BatchOrderShape(init, keep);
      PreOrderShape(last, keep);
      assert issues == init + [last];
      BatchAppend(BatchOrder(init, keep), PreOrder(last, keep), init, last, keep);
    }
  }

  /** One more tree after the listing of a batch. */
  lemma BatchAppend(order: seq<Node>, pre: seq<Node>, issues: seq<Issue>, last: Issue, keep: Issue -> bool)
    requires ListsBatch(order, issues, keep) && ListsTree(pre, last, keep)
    ensures ListsBatch(order + Shift(pre, |order|, -1), issues + [last], keep)
  {
    var tree := Shift(pre, |order|, -1);
    var all := order + tree;
    forall k | 0 <= k < |all|
      ensures keep(all[k].issue) && all[k].parentAt < k &&
        (all[k].parentAt < 0 ==> all[k].issue in issues + [last]) &&
        (all[k].parentAt >= 0 ==> all[k].issue in all[all[k].parentAt].issue.subtasks)
    {
      if k < |order| {
        assert all[k] == order[k];
        if order[k].parentAt >= 0 {
          assert all[order[k].parentAt] == order[order[k].parentAt];
        }
      } else {
        var j := k - |order|;
        assert all[k] == tree[j];
        if j > 0 {
          var p := pre[j].parentAt;
          assert all[p + |order|] == tree[p];
        }
      }
    }
  }

  /** Record `rec` is the task of `issue`: its key, the id `id`, the body
      `issue` builds to for `parent`, and its rolled-up comment. */
  predicate Records(build: Builder, rec: Created, issue: Issue, id: TaskId, parent: Option<TaskId>) {
    rec.key == issue.key && rec.id == id && build(issue, parent) == Normal(rec.body) &&
    rec.comment == PostedComment(issue.comment)
  }

  /** `log` holds, in order, the tasks of the issues `order` lists: the
      `k`-th record is the task of the `k`-th issue, with id `first + k`; an
      issue without a parent position is built for `parent`, and one whose
      parent sits at position `p` for the task with id `origin + p`. */
  predicate Follows(build: Builder, log: seq<Created>, order: seq<Node>, first: nat, origin: nat, parent: Option<TaskId>) {
    |log| == |order| &&
    forall k :: 0 <= k < |log| ==>
      Records(build, log[k], order[k].issue, TaskId(first + k),
        if order[k].parentAt < 0 then parent else Some(TaskId(origin + order[k].parentAt)))
  }

  /** `createTask(issue, parent)` creates the tasks of the pre-order listing
      of the tree that keeps the issues whose body builds: ids follow the
      positions from `next`, the root is built for `parent`, and every other
      issue for the task of its Jira parent. */
  lemma {:induction false} MigratePreOrder(build: Builder, issue: Issue, parent: Option<TaskId>, next: nat)
    requires ParentBlind(build)
    ensures Follows(build, Migrate(build, issue, parent, next), PreOrder(issue, Builds(build)), next, next, parent)
    decreases issue, 1
  {
    var keep := Builds(build);
    assert keep(issue) == build(issue, parent).Normal?;
    if build(issue, parent).Normal? {
      var body := build(issue, parent).value;
      var own := [Created(issue.key, TaskId(next), body, PostedComment(issue.comment))];
      var subs := MigrateSubtasks(build, issue, 0, TaskId(next), next + 1);
      var so := SubOrder(issue, 0, 1, keep);
      assert Migrate(build, issue, parent, next) == own + subs;
      assert PreOrder(issue, keep) == [Node(issue, -1)] + so;
      assert Records(build, own[0], issue, TaskId(next), parent);
      assert Follows(build, own, [Node(issue, -1)], next, next, parent);
      MigrateSubtasksPreOrder(build, issue, 0, next, 1, next + 1, parent);
      FollowsAppend(build, own, [Node(issue, -1)], subs, so, next, next + 1, next, parent);
    }
  }

  lemma {:induction false} MigrateSubtasksPreOrder(build: Builder, issue: Issue, i: nat, root: nat, at: nat, next: nat,
                                                   outer: Option<TaskId>)
    requires ParentBlind(build)
    requires i <= |issue.subtasks| && next == root + at
    ensures Follows(build, MigrateSubtasks(build, issue, i, TaskId(root), next),
      SubOrder(issue, i, at, Builds(build)), next, root, outer)
    decreases issue, 0, |issue.subtasks| - i
  {
    if i < |issue.subtasks| {
      var keep := Builds(build);
      var sub := issue.subtasks[i];
      var first := Migrate(build, sub, Some(TaskId(root)), next);
      var rest := MigrateSubtasks(build, issue, i + 1, TaskId(root), next + |first|);
      var pre := PreOrder(sub, keep);
      var shifted := Shift(pre, at, 0);
      var restOrder := SubOrder(issue, i + 1, at + |shifted|, keep);
      MigratePreOrder(build, sub, Some(TaskId(root)), next);
      FollowsShift(build, first, pre, next, at, root, 0, Some(TaskId(root)), outer);
      MigrateSubtasksPreOrder(build, issue, i + 1, root, at + |shifted|, next + |first|, outer);
      FollowsAppend(build, first, shifted, rest, restOrder, next, next + |first|, root, outer);
    }
  }

  /** The top-level issues handed over create the tasks of the batch listing
      that keeps the issues whose body builds: ids follow the positions from
      `next`, a top-level issue is built without a parent, and every other
      issue for the task of its Jira parent. */
  lemma {:induction false} MigrateBatchPreOrder(build: Builder, issues: seq<Issue>, next: nat)
    requires ParentBlind(build)
    ensures Follows(build, MigrateBatch(build, issues, next), BatchOrder(issues, Builds(build)), next, next, None)
  {
    if issues != [] {
      var keep := Builds(build);
      var last := issues[|issues| - 1];
      var init := MigrateBatch(build, issues[..|issues| - 1], next);
      var initOrder := BatchOrder(issues[..|issues| - 1], keep);
      var tail := Migrate(build, last, None, next + |init|);
      var pre := PreOrder(last, keep);
      MigrateBatchPreOrder(build, issues[..|issues| - 1], next);
      MigratePreOrder(build, last, None, next + |init|);
      FollowsShift(build, tail, pre, next + |init|, |initOrder|, next, -1, None, None);
      FollowsAppend(build, init, initOrder, tail, Shift(pre, |initOrder|, -1), next, next + |init|, next, None);
    }
  }

  /** Records following two listings, one after the other, follow the two
      listings together. */
  lemma FollowsAppend(build: Builder, a: seq<Created>, aOrder: seq<Node>, b: seq<Created>, bOrder: seq<Node>,
                      first: nat, second: nat, origin: nat, parent: Option<TaskId>)
    requires second == first + |a|
    requires Follows(build, a, aOrder, first, origin, parent)
    requires Follows(build, b, bOrder, second, origin, parent)
    ensures Follows(build, a + b, aOrder + bOrder, first, origin, parent)
  {
    var log := a + b;
    var order := aOrder + bOrder;
    forall k | 0 <= k < |log|
      ensures Records(build, log[k], order[k].issue, TaskId(first + k),
        if order[k].parentAt < 0 then parent else Some(TaskId(origin + order[k].parentAt)))
    {
      if k < |a| {
        assert log[k] == a[k] && order[k] == aOrder[k];
      } else {
        assert log[k] == b[k - |a|] && order[k] == bOrder[k - |a|];
      }
    }
  }

  /** Moving a listing `at` places down keeps the records following it, with
      parent positions counted from `origin`, `at` places before the first
      record; its root then stands for the task it was built for. */
  lemma FollowsShift(build: Builder, log: seq<Created>, pre: seq<Node>, first: nat, at: nat, origin: nat,
                     rootParent: int, parent: Option<TaskId>, newParent: Option<TaskId>)
    requires origin + at == first
    requires Follows(build, log, pre, first, first, parent)
    requires if rootParent < 0 then newParent == parent else parent == Some(TaskId(origin + rootParent))
    ensures Follows(build, log, Shift(pre, at, rootParent), first, origin, newParent)
  {
    var shifted := Shift(pre, at, rootParent);
    forall k | 0 <= k < |log|
      ensures Records(build, log[k], shifted[k].issue, TaskId(first + k),
        if shifted[k].parentAt < 0 then newParent else Some(TaskId(origin + shifted[k].parentAt)))
    {
      assert shifted[k].issue == pre[k].issue;
    }
  }

  /** `createTask(issue, parent)` mirrors the Jira tree: one task per issue
      whose body builds (an issue whose body throws is skipped with its
      sub-tree), in depth-first pre-order; the issue's own task has parent
      `parent`, and every sub-task's task has as parent the task created for
      its Jira parent. */
  lemma MigrateMirrorsTree(build: Builder, issue: Issue, parent: Option<TaskId>, next: nat)
    requires SetsParent(build) && ParentBlind(build)
    ensures var log := Migrate(build, issue, parent, next);
      var pre := PreOrder(issue, Builds(build));
      |log| == |pre| &&
      (forall k :: 0 <= k < |log| ==> log[k].key == pre[k].issue.key) &&
      (log != [] ==> log[0].body.parent == parent) &&
      (forall k :: 0 < k < |log| ==>
        (0 <= pre[k].parentAt < k && pre[k].issue in pre[pre[k].parentAt].issue.subtasks &&
         log[k].body.parent == Some(log[pre[k].parentAt].id)))
  {
    var log := Migrate(build, issue, parent, next);
    var pre := PreOrder(issue, Builds(build));
    MigratePreOrder(build, issue, parent, next);
    PreOrderShape(issue, Builds(build));
    assert Follows(build, log, pre, next, next, parent);
    assert ListsTree(pre, issue, Builds(build));
    forall k | 0 <= k < |log|
      ensures log[k].key == pre[k].issue.key
      ensures log[k].body.parent == if k == 0 then parent else Some(log[pre[k].parentAt].id)
    {
      FollowsAt(build, log, pre, next, next, parent, k);
      if k > 0 {
        FollowsAt(build, log, pre, next, next, parent, pre[k].parentAt);
      }
    }
  }

  /** The `k`-th record of a log following a listing, built by a builder
      that sets the parent: the `k`-th issue's key, id `first + k`, and the
      parent it was built for. */
  lemma FollowsAt(build: Builder, log: seq<Created>, order: seq<Node>, first: nat, origin: nat,
                  parent: Option<TaskId>, k: int)
    requires SetsParent(build) && Follows(build, log, order, first, origin, parent) && 0 <= k < |log|
    ensures log[k].key == order[k].issue.key && log[k].id == TaskId(first + k)
    ensures log[k].body.parent == if order[k].parentAt < 0 then parent else Some(TaskId(origin + order[k].parentAt))
  {
    assert Records(build, log[k], order[k].issue, TaskId(first + k),
      if order[k].parentAt < 0 then parent else Some(TaskId(origin + order[k].parentAt)));
  }

  /** The top-level issues handed over mirror their Jira trees: one task per
      issue whose body builds, tree after tree in pre-order; a top-level
      issue's task has no parent, and every sub-task's task has as parent the
      task created for its Jira parent. */
  lemma MigrateBatchMirrorsTrees(build: Builder, issues: seq<Issue>, next: nat)
    requires SetsParent(build) && ParentBlind(build)
    ensures var log := MigrateBatch(build, issues, next);
      var order := BatchOrder(issues, Builds(build));
      |log| == |order| &&
      forall k :: 0 <= k < |log| ==>
        (log[k].key == order[k].issue.key &&
         (order[k].parentAt < 0 ==> order[k].issue in issues && log[k].body.parent == None) &&
         (order[k].parentAt >= 0 ==>
            order[k].parentAt < k && order[k].issue in order[order[k].parentAt].issue.subtasks &&
            log[k].body.parent == Some(log[order[k].parentAt].id)))
  {
    var log := MigrateBatch(build, issues, next);
    var order := BatchOrder(issues, Builds(build));
    MigrateBatchPreOrder(build, issues, next);
    BatchOrderShape(issues, Builds(build));
    assert Follows(build, log, order, next, next, None);
    assert ListsBatch(order, issues, Builds(build));
    forall k | 0 <= k < |log|
      ensures log[k].key == order[k].issue.key
      ensures log[k].body.parent == if order[k].parentAt < 0 then None else Some(log[order[k].parentAt].id)
    {
      FollowsAt(build, log, order, next, next, None, k);
      if order[k].parentAt >= 0 {
        FollowsAt(build, log, order, next, next, None, order[k].parentAt);
      }
    }
  }

  /** Over a whole run, the tasks mirror the Jira trees of the issues handed
      over: a top-level issue's task has no parent, and every sub-task's task
      has as parent the task of its Jira parent. */
  lemma RunMirrorsTrees(catalog: Catalog, issues: seq<Issue>)
    ensures var log := MigrateBatch(BodyBuilder(catalog), issues, 0);
      var order := BatchOrder(issues, Builds(BodyBuilder(catalog)));
      |log| == |order| &&
      forall k :: 0 <= k < |log| ==>
        (log[k].key == order[k].issue.key &&
         (order[k].parentAt < 0 ==> order[k].issue in issues && log[k].body.parent == None) &&
         (order[k].parentAt >= 0 ==>
            order[k].parentAt < k && order[k].issue in order[order[k].parentAt].issue.subtasks &&
            log[k].body.parent == Some(log[order[k].parentAt].id)))
  {
    BodyBuilderSound(catalog);
    MigrateBatchMirrorsTrees(BodyBuilder(catalog), issues, 0);
  }

  /** When every body of the tree builds, keeping the issues that build
      keeps them all. */
  lemma {:induction false} PreOrderAllBuild(build: Builder, issue: Issue)
    requires AllBuild(build, issue)
    ensures PreOrder(issue, Builds(build)) == PreOrder(issue, KeepAll)
    decreases issue, 1
  {
    SubOrderAllBuild(build, issue, 0, 1);
  }

  lemma {:induction false} SubOrderAllBuild(build: Builder, issue: Issue, i: nat, at: nat)
    requires i <= |issue.subtasks| && SubtreesBuild(build, issue, i)
    ensures SubOrder(issue, i, at, Builds(build)) == SubOrder(issue, i, at, KeepAll)
    decreases issue, 0, |issue.subtasks| - i
  {
    if i < |issue.subtasks| {
      PreOrderAllBuild(build, issue.subtasks[i]);
      SubOrderAllBuild(build, issue, i + 1, at + |PreOrder(issue.subtasks[i], KeepAll)|);
    }
  }

  /** When every body builds, one task is created per issue of the tree, in
      the order of its full pre-order listing: none is dropped and none is
      created twice. */
  lemma {:induction false} MigrateCreatesAll(build: Builder, issue: Issue, parent: Option<TaskId>, next: nat)
    requires ParentBlind(build) && AllBuild(build, issue)
    ensures |Migrate(build, issue, parent, next)| == TreeSize(issue)
    ensures var log := Migrate(build, issue, parent, next);
      var pre := PreOrder(issue, KeepAll);
      |log| == |pre| && forall k :: 0 <= k < |log| ==> log[k].key == pre[k].issue.key
    decreases issue, 1
  {
    assert build(issue, parent).Normal?;
    MigrateSubtasksCreatesAll(build, issue, 0, TaskId(next), next + 1);
    MigratePreOrder(build, issue, parent, next);
    PreOrderAllBuild(build, issue);
  }

  lemma {:induction false} MigrateSubtasksCreatesAll(build: Builder, issue: Issue, i: nat, parent: TaskId, next: nat)
    requires ParentBlind(build)
    requires i <= |issue.subtasks|
    requires SubtreesBuild(build, issue, i)
    ensures |MigrateSubtasks(build, issue, i, parent, next)| == SubtreesSize(issue, i)
    decreases issue, 0, |issue.subtasks| - i
  {
    if i < |issue.subtasks| {
      var first := Migrate(build, issue.subtasks[i], Some(parent), next);
      MigrateCreatesAll(build, issue.subtasks[i], Some(parent), next);
      MigrateSubtasksCreatesAll(build, issue, i + 1, parent, next + |first|);
    }
  }

  /** There is no de-duplication: handing the same issue over twice creates
      a second task for its key, with a different id. */
  lemma RemigrationDuplicates(build: Builder, issue: Issue, next: nat)
    requires build(issue, None).Normal?
    ensures var once := Migrate(build, issue, None, next);
      var log := MigrateBatch(build, [issue, issue], next);
      0 < |once| < |log| && log[0].key == issue.key && log[|once|].key == issue.key &&
      log[0].id != log[|once|].id
  {
    var once := Migrate(build, issue, None, next);
    assert [issue, issue][..1] == [issue];
    assert [issue][..0] == [];
    assert MigrateBatch(build, [issue], next) == once;
    var second := Migrate(build, issue, None, next + |once|);
    var log := MigrateBatch(build, [issue, issue], next);
    assert log == once + second;
    assert log[|once|] == second[0];
  }
}
