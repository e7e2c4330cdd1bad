/** The create-task request body that `createTask` builds from an expanded
    Jira issue: name, description, status, parent and the fixed, ordered
    `custom_fields` list. */
module Payload {
  import opened Js
  import opened ClickUp
  import opened Jira
  import opened Schema
  import opened Labels
  import opened IssueLinks

  /** The ClickUp field names of `custom_fields`, in request order. */
  const FieldNames: seq<string> := [
    "Development Team", "Priority", "Issue Type", "Created", "Incident End",
    "Incident Start", "Updated", "Jira Issue Key", "Jira Assignee", "PM Assignee",
    "QA Assignee", "Jira Reporter", "Resolution (New)", "Sprint", "Story Points",
    "Summary", "Client", "Components", "Product", "Required Documentation",
    "Invoiceable Amount", "Root Cause", "Uptime Impact", "Epic Key", "Jira ID",
    "Issue Links"]

  /** The fields whose values go through `findCFOptionID`. */
  const OptionFields: seq<string> := [
    "Development Team", "Priority", "Issue Type", "Client", "Components",
    "Product", "Required Documentation"]

  /** `x ? x[0].prop : null`: an empty array throws. */
  function FirstOrNull(xs: Option<seq<JsVal>>): Completion<JsVal> {
    match xs
    case None => Normal(Null)
    case Some(s) => if s == [] then Thrown else Normal(s[0])
  }

  /** `x ? x.prop : null` for an object-valued field. */
  function PropOrNull(x: Option<JsVal>): JsVal {
    match x
    case None => Null
    case Some(v) => v
  }

  /** `x.prop` for an object-valued field the code never checks: throws when
      the field is missing. */
  function Required<T>(x: Option<T>): Completion<T> {
    match x
    case None => Thrown
    case Some(v) => Normal(v)
  }

  function Timestamp(t: int): JsVal {
    Num(t as real)
  }

  function TimestampOrNull(t: Option<int>): JsVal {
    match t
    case None => Null
    case Some(ms) => Timestamp(ms)
  }

  /** `x ? findCFOptionID(x.prop, name) : null`. */
  function OptionOrNull(catalog: Catalog, x: Option<JsVal>, fieldName: string): Completion<JsVal> {
    match x
    case None => Normal(Null)
    case Some(v) => FindOptionId(catalog, v, fieldName)
  }

  /** `x ? findCFOptionID(x[0].prop, name) : null`: an empty array throws. */
  function FirstOptionOrNull(catalog: Catalog, xs: Option<seq<JsVal>>, fieldName: string): Completion<JsVal> {
    match xs
    case None => Normal(Null)
    case Some(s) => if s == [] then Thrown else FindOptionId(catalog, s[0], fieldName)
  }

  /** The "Issue Links" value: JSON of the link ids, only for a non-empty list. */
  function IssueLinksValue(links: Option<seq<IssueLink>>): FieldValue {
    if links.Some? && |links.value| > 0 then LinkIdsJson(LinkIds(links.value)) else Plain(Null)
  }

  /** The values of `custom_fields`, in request order; a throw while
      evaluating any of them aborts the whole request body. */
  function FieldValues(catalog: Catalog, issue: Issue): (r: Completion<seq<FieldValue>>)
    ensures r.Normal? ==> |r.value| == |FieldNames|
    // "QA Assignee" is always null; "Resolution (New)" defaults to "Unresolved"
    ensures r.Normal? ==> r.value[10] == Plain(Null)
    ensures r.Normal? ==>
      r.value[12] == Plain(if issue.resolution.None? then Str("Unresolved") else issue.resolution.value)
    // "Issue Links" is null unless there is at least one link
    ensures r.Normal? ==> (r.value[25] == Plain(Null) <==> issue.issueLinks.None? || issue.issueLinks.value == [])
    ensures r.Normal? && issue.issueLinks.Some? && issue.issueLinks.value != [] ==>
      r.value[25] == LinkIdsJson(LinkIds(issue.issueLinks.value))
  {
    var devTeam :- FirstOptionOrNull(catalog, issue.developmentTeam, "Development Team");
    var priority :- OptionOrNull(catalog, issue.priority, "Priority");
    var issueTypeName :- Required(issue.issueType);
    var issueType :- FindOptionId(catalog, issueTypeName, "Issue Type");
    var reporter :- Required(issue.reporter);
    var sprint :- FirstOrNull(issue.sprint);
    var client :- LabelArray(catalog, issue.client, "Client");
    var components :- LabelArray(catalog, issue.components, "Components");
    var product :- LabelArray(catalog, issue.product, "Product");
    var requiredDocs :- LabelArray(catalog, issue.requiredDocs, "Required Documentation");
    var rootCause :- FirstOrNull(issue.rootCause);
    Normal(Assemble(issue, devTeam, priority, issueType, reporter, sprint,
                    client, components, product, requiredDocs, rootCause))
  }

  /** The `custom_fields` values once every lookup has completed. */
  function Assemble(issue: Issue, devTeam: JsVal, priority: JsVal, issueType: JsVal,
                    reporter: JsVal, sprint: JsVal, client: FieldValue, components: FieldValue,
                    product: FieldValue, requiredDocs: FieldValue, rootCause: JsVal): (r: seq<FieldValue>)
    ensures |r| == |FieldNames|
    ensures r[10] == Plain(Null)
    ensures r[12] == Plain(if issue.resolution.None? then Str("Unresolved") else issue.resolution.value)
    ensures r[25] == IssueLinksValue(issue.issueLinks)
  {
    [
      Plain(devTeam),                                    // Development Team
      Plain(priority),                                   // Priority
      Plain(issueType),                                  // Issue Type
      Plain(Timestamp(issue.created)),                   // Created
      Plain(TimestampOrNull(issue.incidentEnd)),         // Incident End
      Plain(TimestampOrNull(issue.incidentStart)),       // Incident Start
      Plain(Timestamp(issue.updated)),                   // Updated
      Plain(Str(issue.key)),                             // Jira Issue Key
      Plain(PropOrNull(issue.assignee)),                 // Jira Assignee
      Plain(PropOrNull(issue.pmAssignee)),               // PM Assignee
      Plain(Null),                                       // QA Assignee
      Plain(reporter),                                   // Jira Reporter
      Plain(if issue.resolution.Some? then issue.resolution.value else Str("Unresolved")),
      Plain(sprint),                                     // Sprint
      Plain(issue.storyPoints),                          // Story Points
      Plain(issue.summary),                              // Summary
      client,                                            // Client
      components,                                        // Components
      product,                                           // Product
      requiredDocs,                                      // Required Documentation
      Plain(issue.invoiceableAmount),                    // Invoiceable Amount
      Plain(rootCause),                                  // Root Cause
      Plain(issue.uptimeImpact),                         // Uptime Impact
      Plain(if Truthy(issue.epicKey) then issue.epicKey else Null), // Epic Key
      Plain(Str(issue.id)),                              // Jira ID
      IssueLinksValue(issue.issueLinks)                  // Issue Links
    ]
  }

  /** The request body for `issue` with parent `parent`: each value paired
      with `findCFID` of its field's literal name. */
  function TaskBodyOf(catalog: Catalog, issue: Issue, parent: Option<TaskId>): (r: Completion<TaskBody>)
    // never drops an entry: one per field name, in order
    ensures r.Normal? ==> |r.value.customFields| == |FieldNames| == 26
    ensures r.Normal? ==> forall k :: 0 <= k < |FieldNames| ==> r.value.customFields[k].id == FindFieldId(catalog, FieldNames[k])
    // `parent ? parent : null`
    ensures r.Normal? ==> r.value.parent == parent
    ensures r.Normal? ==> issue.status.Some? && r.value.name == issue.summary && r.value.status == issue.status.value
    // the values are the field values, in the same order
    ensures r.Normal? <==> issue.status.Some? && FieldValues(catalog, issue).Normal?
    ensures r.Normal? ==> forall k :: 0 <= k < |FieldNames| ==>
      r.value.customFields[k].value == FieldValues(catalog, issue).value[k]
    ensures r.Normal? ==> (r.value.markdownDescription == issue.description && r.value.assignees == Null &&
      !r.value.notifyAll && !r.value.checkRequiredCustomFields)
  {
    var status :- Required(issue.status);
    var values :- FieldValues(catalog, issue);
    Normal(TaskBody(
      name := issue.summary,
      markdownDescription := issue.description,
      status := status,
      assignees := Null,
      parent := parent,
      notifyAll := false,
      checkRequiredCustomFields := false,
      customFields := seq(|FieldNames|, k requires 0 <= k < |FieldNames| =>
        CustomField(FindFieldId(catalog, FieldNames[k]), values[k]))))
  }

  /** The shape errors of the payload: reading a property of a missing
      object, or of element 0 of an empty array. */
  predicate Malformed(issue: Issue) {
    || issue.status.None? || issue.issueType.None? || issue.reporter.None?
    || issue.developmentTeam == Some([]) || issue.sprint == Some([]) || issue.rootCause == Some([])
  }

  function ListOrEmpty(xs: Option<seq<JsVal>>): seq<JsVal> {
    if xs.Some? then xs.value else []
  }

  /** The values the payload hands to `findCFOptionID` for option field
      `OptionFields[k]`. */
  function LookedUp(issue: Issue, k: nat): seq<JsVal> {
    match k
    case 0 => if issue.developmentTeam.Some? && issue.developmentTeam.value != [] then [issue.developmentTeam.value[0]] else []
    case 1 => if issue.priority.Some? then [issue.priority.value] else []
    case 2 => if issue.issueType.Some? then [issue.issueType.value] else []
    case 3 => ListOrEmpty(issue.client)
    case 4 => ListOrEmpty(issue.components)
    case 5 => ListOrEmpty(issue.product)
    case 6 => ListOrEmpty(issue.requiredDocs)
    case _ => []
  }

  /** Some truthy value is looked up in option field `OptionFields[k]`. */
  predicate NeedsOptions(issue: Issue, k: nat) {
    exists i :: 0 <= i < |LookedUp(issue, k)| && Truthy(LookedUp(issue, k)[i])
  }

  /** Some option field needs a lookup of a truthy value, but its option list
      cannot be read. */
  predicate UnreadableOptions(catalog: Catalog, issue: Issue) {
    exists k :: 0 <= k < |OptionFields| && Blocked(catalog, issue, k)
  }

  /** Option field `OptionFields[k]` needs a lookup its options cannot serve. */
  predicate Blocked(catalog: Catalog, issue: Issue, k: nat)
    requires k < |OptionFields|
  {
    NeedsOptions(issue, k) && !HasOptions(catalog, OptionFields[k])
  }

  lemma UnreadableOptionsCases(catalog: Catalog, issue: Issue)
    ensures UnreadableOptions(catalog, issue) <==>
      || Blocked(catalog, issue, 0) || Blocked(catalog, issue, 1) || Blocked(catalog, issue, 2)
      || Blocked(catalog, issue, 3) || Blocked(catalog, issue, 4) || Blocked(catalog, issue, 5)
      || Blocked(catalog, issue, 6)
  {
    if UnreadableOptions(catalog, issue) {
      var k :| 0 <= k < |OptionFields| && Blocked(catalog, issue, k);
      assert k == 0 || k == 1 || k == 2 || k == 3 || k == 4 || k == 5 || k == 6;
    }
  }

  lemma SingleLookupThrows(catalog: Catalog, issue: Issue, k: nat, c: Completion<JsVal>)
    requires k < 3 && |LookedUp(issue, k)| <= 1
    requires LookedUp(issue, k) == [] ==> c == Normal(Null)
    requires LookedUp(issue, k) != [] ==> c == FindOptionId(catalog, LookedUp(issue, k)[0], OptionFields[k])
    ensures c.Thrown? <==> Blocked(catalog, issue, k)
  {
    if LookedUp(issue, k) != [] {
      var v := LookedUp(issue, k)[0];
      assert NeedsOptions(issue, k) <==> Truthy(v);
    }
  }

  lemma LabelLookupThrows(catalog: Catalog, issue: Issue, k: nat, xs: Option<seq<JsVal>>)
    requires 3 <= k < 7 && LookedUp(issue, k) == ListOrEmpty(xs)
    ensures LabelArray(catalog, xs, OptionFields[k]).Thrown? <==> Blocked(catalog, issue, k)
  {
  }

  /** `FieldValues` throws on a shape error or when one of the seven lookups throws. */
  lemma FieldValuesThrows(catalog: Catalog, issue: Issue)
    ensures FieldValues(catalog, issue).Thrown? <==>
      || issue.issueType.None? || issue.reporter.None? || issue.sprint == Some([]) || issue.rootCause == Some([])
      || FirstOptionOrNull(catalog, issue.developmentTeam, "Development Team").Thrown?
      || OptionOrNull(catalog, issue.priority, "Priority").Thrown?
      || (issue.issueType.Some? && FindOptionId(catalog, issue.issueType.value, "Issue Type").Thrown?)
      || LabelArray(catalog, issue.client, "Client").Thrown?
      || LabelArray(catalog, issue.components, "Components").Thrown?
      || LabelArray(catalog, issue.product, "Product").Thrown?
      || LabelArray(catalog, issue.requiredDocs, "Required Documentation").Thrown?
  {
  }

  /** Building the request body throws exactly on a shape error, or when a
      truthy value must be looked up in a field that is missing from the
      catalog or has no options; an unresolved option never makes it throw. */
  lemma PayloadThrowsIff(catalog: Catalog, issue: Issue, parent: Option<TaskId>)
    ensures TaskBodyOf(catalog, issue, parent).Thrown? <==> Malformed(issue) || UnreadableOptions(catalog, issue)
  {
    FieldValuesThrows(catalog, issue);
    if !Malformed(issue) {
      var names := OptionFields;
      assert names[0] == "Development Team" && names[1] == "Priority" && names[2] == "Issue Type";
      assert names[3] == "Client" && names[4] == "Components" && names[5] == "Product";
      assert names[6] == "Required Documentation";
      SingleLookupThrows(catalog, issue, 0, FirstOptionOrNull(catalog, issue.developmentTeam, names[0]));
      SingleLookupThrows(catalog, issue, 1, OptionOrNull(catalog, issue.priority, names[1]));
      SingleLookupThrows(catalog, issue, 2, FindOptionId(catalog, issue.issueType.value, names[2]));
      LabelLookupThrows(catalog, issue, 3, issue.client);
      LabelLookupThrows(catalog, issue, 4, issue.components);
      LabelLookupThrows(catalog, issue, 5, issue.product);
      LabelLookupThrows(catalog, issue, 6, issue.requiredDocs);
      UnreadableOptionsCases(catalog, issue);
    }
  }
}
