# Jira to ClickUp migration, modelled in Dafny

The repository holds two Node.js scripts:

- `index.js` moves Jira issues into a ClickUp list. It pages through a Jira search 100 issues at a time. For each issue it
  builds a ClickUp create-task request: 26 custom fields whose option values are resolved against the list's field catalog.
  It rolls every Jira comment up into one ClickUp comment, and creates the sub-tasks recursively with the new task as their parent.
- `makelinks.js` pages through the closed ClickUp tasks. It searches for the task whose Jira key equals a task's "Epic Key"
  value and links the two.

This project models those parts as values and proves what they do:

| file | module | models |
|---|---|---|
| `js.dfy` | `Js` | JavaScript values, truthiness, and thrown exceptions (`Completion`) |
| `clickup.dfy` | `ClickUp` | the field catalog and the create-task request body |
| `jira.dfy` | `Jira` | a Jira issue: fields, links, comments, sub-tasks |
| `schema.dfy` | `Schema` | `findCFID`, `findCFOptionID` |
| `labels.dfy` | `Labels` | `createLabelArray` |
| `links.dfy` | `IssueLinks` | `getIssueLinks` |
| `comments.dfy` | `Comments` | the comment roll-up of `createTask` |
| `payload.dfy` | `Payload` | the request body built by `createTask` |
| `paging.dfy` | `Paging` | what both page loops share |
| `migration.dfy` | `Migration` | `createTask` over the issue tree, and `main` of `index.js` |
| `epiclinks.dfy` | `EpicLinks` | `createLinks` and `main` of `makelinks.js` |

How the model works:

- **Catalog.** The ClickUp field catalog (the global `customFields`) is set once, before any use. The model passes it explicitly.
- **Exceptions.** A JavaScript exception is the `Thrown` completion.
- **Task ids.** The ids ClickUp assigns are modelled as serial numbers handed out in depth-first pre-order of the issue trees: an issue, then the trees of its sub-tasks, then the next top-level issue. This is not the order in which ClickUp receives the requests. `main` starts `createTask` for the next top-level issue 3 s after the previous one and never awaits it (`index.js:70-73`), while the sub-tasks of an issue are created only after its own POST resolves, 3 s apart (`index.js:234`, `index.js:324-327`). So creations of different trees interleave. The one ordering the model shares with the real run is that a task is created before the tasks of its sub-tasks.
- **Tree listing.** `Migration.PreOrder` lists the issues of a Jira tree in depth-first pre-order, each with the position of its Jira parent, leaving out an issue (with its sub-tree) that a given test rejects. It is defined on the Jira tree alone, and the lemmas below prove that the tasks created follow it.
- **Body builder.** The walk over the issue tree (`Migration.Migrate`) takes the request-body builder as a parameter. A run passes `Migration.BodyBuilder`, which is `Payload.TaskBodyOf` over the catalog. Lemmas connect the two, so the tree walk can be reasoned about without unfolding the 26 fields.
- **Duplicate helpers.** `makelinks.js:125-166` holds copies of `findCFID` and `findCFOptionID` that `makelinks.js` never calls.
  They are the same code as `index.js:364-407`, so `Schema` models both.

## Model

| member | source | states |
|---|---|---|
| Schema.FirstIndex | index.js:365-367 | `filter(...)[0]`: `None` exactly when no element matches; otherwise the index of the first element that matches |
| Schema.FindFieldId | index.js:364-374 | `undefined` exactly when no catalog field has the name; otherwise the id of the first field with that name, always a string |
| Schema.OptionsOf | index.js:383-385 | the option list read for a field name is absent exactly when no catalog field has that name (which list is read is stated by `Schema.OptionsOfNamedField`) |
| Schema.OptionsOfNamedField | index.js:383-385 | with unique field ids, the options read are those of the first field with the name |
| Schema.FindOptionId | index.js:377-407 | a falsy value gives `null`; a truthy value throws exactly when the options cannot be read (no such field, or an empty option list); otherwise the result is `undefined` exactly when no option matches, and else the id of the first matching option; options are matched by `label` when the first option's label is truthy, and by `name` otherwise |
| Labels.ResolveEach | index.js:413-415 | mapping `findCFOptionID` over a list completes exactly when every lookup does, keeps the length, and keeps each position's result |
| Labels.LabelArray | index.js:409-418 | missing data gives `null`; otherwise it throws exactly when some element is truthy and the field's options cannot be read; otherwise one option id per element, in order |
| Labels.CreateLabelArray | index.js:409-418 | the `forEach` loop returns exactly `LabelArray` |
| IssueLinks.LinkTargets | index.js:353-358 | definition: the ids one link contributes, outward first, then inward, each when present |
| IssueLinks.LinkIds | index.js:350-361 | definition: the ids of all links, link by link in order |
| IssueLinks.GetIssueLinks | index.js:350-361 | the loop returns `LinkIds(links)`: per link, the outward id and then the inward id, each when present |
| IssueLinks.LinkIdsAppend | index.js:352-359 | the ids of concatenated link lists are the concatenated ids |
| IssueLinks.LinkIdsLength | index.js:350-361 | the number of ids is the number of outward issues plus the number of inward issues |
| IssueLinks.LinkIdsMembership | index.js:350-361 | an id is returned exactly when some link has it as its outward or inward issue |
| Comments.InlineStep | index.js:294-296 | definition: an inline item appends its text and a line break when the text is truthy, and never throws |
| Comments.BlockStep | index.js:293-297 | definition: a block appends its inline items in order; a block without `content` throws before appending anything |
| Comments.DisplayName | index.js:291 | definition: the author's display name, rendered as "undefined" when it is missing |
| Comments.Header | index.js:291 | definition: the display name ("undefined" when missing) followed by " commented: \n" |
| Comments.CommentStep | index.js:290-299 | definition: a comment without an author throws at once; otherwise the header is appended, then the blocks, and a missing body throws after the header |
| Comments.RollUp | index.js:289-302 | definition: the comments in order, each through `CommentStep`, stopping at the first throw |
| Comments.CommentText | index.js:287-302 | definition: the text left after the `try`/`catch`; a missing `comments` list leaves it empty |
| Comments.PostedComment | index.js:288-320 | definition: the comment posted to the new task: only with a comment field and a non-empty text |
| Comments.ThenAssociative | index.js:289-302 | sequencing two steps of the roll-up is associative |
| Comments.ChainAppend | index.js:290-299 | walking a concatenation is walking the first part and then, if that did not throw, the second |
| Comments.ChainStopsAt | index.js:289-302 | the first throw after a clean prefix keeps the text built so far, adds that element's partial text, and ignores the rest |
| Comments.RollUpComments | index.js:287-302 | the nested `forEach` loops leave exactly the text and completion of `RollUp` |
| Comments.AppendBlocks | index.js:292-298 | the loop over a comment's blocks extends the text exactly as `Chain` over the blocks says, stopping at a block without `content` |
| Comments.AppendInlines | index.js:293-297 | the loop over a block's items never throws, and appends every truthy text followed by a line break |
| Comments.RollUpAbandonsRest | index.js:289-302 | once a comment cannot be parsed, no later comment contributes anything |
| Comments.RollUpEmptyIff | index.js:287-304 | the roll-up is empty exactly when there are no comments, or the first comment has no author |
| Comments.PostedCommentIff | index.js:288-320 | a comment is posted exactly when the issue has a comment field holding a non-empty `comments` list whose first comment has an author |
| Payload.FirstOrNull | index.js:160-163 | definition: a missing list gives `null`; an empty list throws on `[0]`; otherwise the first element |
| Payload.PropOrNull | index.js:140-143 | definition: a missing object gives `null`, otherwise the property read |
| Payload.OptionOrNull | index.js:112-115 | definition: a missing value gives `null`, otherwise `findCFOptionID` of it |
| Payload.FirstOptionOrNull | index.js:106-111 | definition: a missing list gives `null`; an empty list throws on `[0]`; otherwise `findCFOptionID` of the first element |
| Payload.IssueLinksValue | index.js:223-229 | definition: the JSON of `getIssueLinks` when the issue has at least one link, `null` otherwise |
| Payload.Assemble | index.js:105-230 | the 26 `custom_fields` values once every lookup has completed: "QA Assignee" is `null`, "Resolution (New)" defaults to "Unresolved", "Issue Links" is `IssueLinksValue` |
| Payload.FieldValues | index.js:105-229 | 26 custom-field values in the source's order; "QA Assignee" is always `null`; "Resolution (New)" is the resolution name or "Unresolved"; "Issue Links" is `null` exactly when the issue has no links, and otherwise the JSON list of `getIssueLinks` |
| Payload.TaskBodyOf | index.js:97-231 | the create-task body builds exactly when the status is present and the field values build; it carries the summary as name, the status name, the description, the parent as given, `null` assignees, both flags `false`, and 26 entries pairing `findCFID` of each field name with that field's value, in order |
| Payload.SingleLookupThrows | index.js:107-120 | a single-value option lookup throws exactly when a truthy value meets unreadable options |
| Payload.LabelLookupThrows | index.js:173-203 | a label-array lookup throws exactly when one of its truthy values meets unreadable options |
| Payload.FieldValuesThrows | index.js:105-229 | the field values throw on a missing issue type or reporter, on an empty sprint or root-cause list, or when one of the seven option lookups throws |
| Payload.UnreadableOptionsCases | index.js:105-229 | some lookup meets unreadable options exactly when one of the seven option fields does |
| Payload.PayloadThrowsIff | index.js:97-231 | building the body throws exactly when the issue is malformed (missing status, issue type or reporter; empty development-team, sprint or root-cause list) or a truthy value must be looked up in unreadable options; an unresolved option never throws |
| Migration.BodyBuilderSound | index.js:97-231 | the body builder of a run (`TaskBodyOf` over the catalog) puts the requested parent into the body, and whether it builds does not depend on the parent |
| Migration.BodyBuilderBuilds | index.js:97-231 | in a run an issue's body builds exactly when the issue is well formed and none of its lookups meets unreadable options |
| Migration.NumberedAppend | index.js:82-333 | a log numbered from `n`, followed by a log numbered on from its end, is numbered from `n` |
| Migration.ParentsEarlierAppend | index.js:324-330 | two logs whose parents are earlier records or `parent` concatenate into one with that property |
| Migration.MigrateSubtasks | index.js:323-333 | definition: the sub-tasks in order, each through `Migrate` with the new task as parent, numbered on from the records so far |
| Migration.MigrateBatch | index.js:68-76 | definition: the top-level issues in order, each through `Migrate` without a parent, numbered on from the records so far |
| Migration.Migrate | index.js:82-333 | `createTask(issue, parent)` creates nothing exactly when building the body throws; otherwise it first creates the issue's own task: its key, the next id, the built body, and the rolled-up comment |
| Migration.MigrateLinksParents | index.js:82-333 | for any builder that sets the parent (even one whose success depends on it): the records of `createTask(issue, parent)` have consecutive ids, the issue's own task has parent `parent`, and every other record's parent is a task created before it; which task exactly is stated by `Migration.MigrateMirrorsTree` |
| Migration.MigrateSubtasksLinksParents | index.js:323-331 | the sub-task loop gives every record the new task or an earlier record as its parent, with consecutive ids (the weaker invariant; the exact parent is in `Migration.MigrateSubtasksPreOrder`) |
| Migration.MigrateBatchLinksParents | index.js:68-76 | the top-level issues create records whose parents are `null` or earlier records, with consecutive ids (the weaker invariant; the exact parent is in `Migration.MigrateBatchMirrorsTrees`) |
| Migration.RunLinksParents | index.js:46-79 | over a whole run, task ids are consecutive from the first, and every parent is a task created earlier in the run (the exact parent is in `Migration.RunMirrorsTrees`) |
| Migration.MigrateBatchStep | index.js:68-76 | handing one more issue over appends exactly that issue's records, numbered after the records so far |
| Migration.RunMigration | index.js:37-79 | `main` requests pages at `startAt` 0, 100, 200, ... up to and including the first empty page, and creates the tasks of every issue on the pages before it, in order, with the run's body builder |
| Migration.CreateTasks | index.js:68-76 | the `for` loop over one page extends the log exactly as `MigrateBatch` over the issues handed over so far |
| Migration.MigrateCreatesAll | index.js:82-333 | when every body in the tree builds (and building does not depend on the parent, as in a run), there are as many tasks as issues in the tree, and the `k`-th task has the key of the `k`-th issue of the tree's full pre-order listing: none dropped, none created twice |
| Migration.MigrateSubtasksCreatesAll | index.js:323-331 | when every sub-tree builds, the sub-task loop creates as many tasks as the sub-trees hold issues |
| Migration.PreOrderShape | index.js:323-328 | the pre-order listing of a tree is empty exactly when its root is rejected; otherwise it starts with the root, without a parent, and every later entry is a kept issue listed after its Jira parent, of which it is a sub-task |
| Migration.SubOrderShape | index.js:323-328 | the listings of the sub-trees, placed after the root, hold kept issues only, each after its Jira parent; an entry whose parent is the root is one of the root's sub-tasks |
| Migration.BatchOrderShape | index.js:68-76 | the listing of a batch holds kept issues only; an entry without a parent is one of the top-level issues, and every other entry comes after its Jira parent, of which it is a sub-task |
| Migration.MigratePreOrder | index.js:82-333 | `createTask(issue, parent)` creates exactly one task per entry of the pre-order listing that keeps the issues whose body builds, in that order: the entry's key, id `next + k`, the body built for `parent` (root) or for the task of the entry's Jira parent, and the entry's rolled-up comment |
| Migration.MigrateSubtasksPreOrder | index.js:323-331 | the sub-task loop creates one task per entry of the sub-tree listings, in order; each sub-task is built with the task of its Jira parent as parent, the new task for a direct sub-task |
| Migration.MigrateBatchPreOrder | index.js:68-76 | the top-level loop creates one task per entry of the batch listing, in order; a top-level issue is built without a parent, every other issue for the task of its Jira parent |
| Migration.MigrateMirrorsTree | index.js:82-333 | with the run's kind of builder, `createTask(issue, parent)` creates one task per listed issue with its key; the issue's own task has parent `parent`, and the task of every other issue has as parent the task created for its Jira parent, created before it |
| Migration.MigrateBatchMirrorsTrees | index.js:68-76 | for the top-level issues handed over: one task per listed issue with its key; a task without a Jira parent is a top-level issue's and has parent `null`; every other task has as parent the task created for its Jira parent, created before it |
| Migration.RunMirrorsTrees | index.js:46-79 | the same over a whole run with the run's body builder |
| Migration.PreOrderAllBuild | index.js:82-333 | when every body of the tree builds, the listing that keeps the issues whose body builds is the full pre-order listing |
| Migration.SubOrderAllBuild | index.js:323-331 | the same for the sub-tree listings |
| Migration.RemigrationDuplicates | index.js:68-76 | there is no de-duplication: handing the same issue over twice creates a second task for its key, under a different id |
| Paging.Offsets | index.js:46-66 | the `n` offsets a loop requests when it advances by `step`: the `j`-th is `j` times the step |
| Paging.FirstEmpty | index.js:58-63 | the first empty page: it is empty, and every earlier page is not |
| Paging.Flatten | index.js:50-78 | definition: the items of all pages, page by page in order |
| Paging.FlattenLength | index.js:68 | the issues handed over number the sum of the page sizes |
| Paging.TotalItemsSnoc | index.js:68 | adding a page adds its size to the total |
| EpicLinks.EpicKey | makelinks.js:81-83 | definition: the value of the first custom field named "Epic Key"; without one, reading `.value` throws |
| EpicLinks.LinksForIds | makelinks.js:89-122 | definition: one link per id whose search finds a task, to the first task found; a failed search ends the loop |
| EpicLinks.PostedLinks | makelinks.js:79-123 | definition: nothing when reading the Epic Key throws, otherwise the links for the id list `[epicKey]` |
| EpicLinks.EpicKeyFirst | makelinks.js:81-83 | reading the Epic Key throws exactly when the task has no field named "Epic Key"; otherwise it is the value of the first such field |
| EpicLinks.PostedLinksIff | makelinks.js:79-123 | a task gets at most one link; it gets one exactly when it has an Epic Key whose search succeeds with at least one task, and the link goes to the first task found |
| EpicLinks.CreateLinks | makelinks.js:79-123 | the loop over the id list `[epicKey]` posts exactly `PostedLinks`: nothing when the field is missing or the search fails or finds nothing, and otherwise one link to the first task found |
| EpicLinks.LinkBatch | makelinks.js:67-75 | definition: the links of the tasks handed over, task by task in order |
| EpicLinks.LinkBatchFromTasks | makelinks.js:67-75 | every posted link starts at a task that was handed over |
| EpicLinks.RunLinkJob | makelinks.js:31-76 | `main` requests pages 0, 1, 2, ... up to and including the first empty page, and yields the links of every task on the pages before it, listed in task order |
| EpicLinks.LinkPage | makelinks.js:67-75 | the `for` loop over one page extends the links exactly as `LinkBatch` over the tasks handed over so far |
| EpicLinks.LinkBatchStep | makelinks.js:67-75 | handing one more task over appends exactly its links |

## Left out

- HTTP calls are inputs, not effects. Left out: the catalog request; the Jira search and issue re-fetch; the ClickUp task, comment and link POSTs; the attachment download and upload at `index.js:237-284`. A create-task POST is modelled as always succeeding, and the tree of issues is taken as already fetched.
- Timing is left out: `delay`, the rate-limit pauses, and the concurrency of the `createTask` calls that are never awaited. The log lists records in depth-first pre-order of the issue trees. In a real run the creations of different trees interleave, and the only ordering the log shares with them is that a parent's task is created before its sub-tasks' tasks.
- The `createLinks` calls of `makelinks.js` are not awaited either (`makelinks.js:67-70`), and each one awaits its search before it posts (`makelinks.js:91-105`). The model lists the links in task order. In a real run the posts of different tasks interleave, and a post may come after the request for the next page.
- An exception inside `createTask` or `createLinks` happens in async code that nobody awaits. The surrounding `try`/`catch` never sees it, and it surfaces as an unhandled rejection. The model treats it as that issue (with its sub-tree), or that task, producing nothing while the run goes on. A runtime that exits on unhandled rejections would instead stop the whole run.
- `NodeHtmlMarkdown.translate` is left out. The description is taken as the already-translated markdown string.
- Date conversion (`formatDate`, `Date.parse`) is left out. Dates are taken as already-converted timestamps.
- Logging, colours, credentials and URLs are left out.
- Option matching uses strict string equality. The coercions of JavaScript's loose `==` (number against numeric string, array against string) are not modelled. Numbers are reals without NaN.
- Schema.FindOptionId: when a field name is missing from the catalog but some field has `undefined` as its id, the source's second lookup would find that field. Catalog ids are always strings in the model, so that case does not arise.
- Migration.RunMigration: the source loops forever when no page is empty. The model requires an empty page, and the reported `total` is never an input because the source only logs it.
- EpicLinks.RunLinkJob: the same requirement of an empty page.
- EpicLinks.CreateLinks: a failed search is modelled as ending that task's loop without a link. A failed link POST is swallowed by the source, so a posted link is recorded whether ClickUp accepted it or not.
- Migration.Migrate: a missing `subtasks` list is modelled as an empty one. The parent slot `parent ? parent : null` is modelled as passing the optional parent through, because task ids are never empty strings.
- A catalog field without `type_config.options` is modelled as one with an empty option list. Both make `findCFOptionID` throw on a truthy value.
