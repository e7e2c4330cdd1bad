/** The source side: the parts of an expanded Jira issue that the migration reads. */
module Jira {
  import opened Js

  /** One entry of `issuelinks`: the id of the outward and of the inward
      issue, each present or not. */
  datatype IssueLink = IssueLink(outward: Option<string>, inward: Option<string>)

  /** An inline node of a comment body paragraph; `text` may be absent. */
  datatype Inline = Inline(text: Option<string>)

  /** A content block of a comment body; `content` absent makes the parse throw. */
  datatype Block = Block(content: Option<seq<Inline>>)

  datatype Author = Author(displayName: Option<string>)

  /** One comment. `body` stands for `body.content`: absent when either the
      body or its content is missing. */
  datatype Comment = Comment(author: Option<Author>, body: Option<seq<Block>>)

  /** The `comment` field of an issue; its `comments` list may be missing. */
  datatype CommentField = CommentField(comments: Option<seq<Comment>>)

  /** An expanded Jira issue. Object-valued fields are `None` when falsy and
      carry the one property the migration reads. Dates are already-converted
      millisecond timestamps; `description` is the already-translated markdown. */
  datatype Issue = Issue(
    id: string,
    key: string,
    summary: JsVal,
    description: string,
    status: Option<string>,              // status.name
    developmentTeam: Option<seq<JsVal>>, // customfield_13200[*].value
    priority: Option<JsVal>,             // priority.name
    issueType: Option<JsVal>,            // issuetype.name
    created: int,
    incidentEnd: Option<int>,            // customfield_13403
    incidentStart: Option<int>,          // customfield_13402
    updated: int,
    assignee: Option<JsVal>,             // assignee.displayName
    pmAssignee: Option<JsVal>,           // customfield_10900.displayName
    reporter: Option<JsVal>,             // reporter.displayName
    resolution: Option<JsVal>,           // resolution.name
    sprint: Option<seq<JsVal>>,          // customfield_10007[*].name
    storyPoints: JsVal,                  // customfield_10004
    client: Option<seq<JsVal>>,          // customfield_10300
    components: Option<seq<JsVal>>,      // components[*].name
    product: Option<seq<JsVal>>,         // customfield_13300[*].value
    requiredDocs: Option<seq<JsVal>>,    // customfield_13500[*].value
    invoiceableAmount: JsVal,            // customfield_13670
    rootCause: Option<seq<JsVal>>,       // customfield_13400.content[*].text
    uptimeImpact: JsVal,                 // customfield_13401
    epicKey: JsVal,                      // customfield_10008
    issueLinks: Option<seq<IssueLink>>,
    comment: Option<CommentField>,
    subtasks: seq<Issue>)                // a missing list is an empty one
}
