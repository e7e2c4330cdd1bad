/** The destination side: ClickUp's custom-field catalog and the task payload. */
module ClickUp {
  import opened Js

  /** One option of a drop-down or labels field; `label` and `name` are
      optional properties (`label`, `name`), and which one is populated depends on the field. */
  datatype FieldOption = FieldOption(id: string, labelText: Option<string>, nameText: Option<string>)

  /** One entry of the list's field catalog (`customFields.fields`).
      `options` is `type_config.options`; a field without options has none. */
  datatype Field = Field(name: string, id: string, options: seq<FieldOption>)

  type Catalog = seq<Field>

  /** The identifier ClickUp assigns to a created task (an opaque, non-empty
      string in the API; here a serial number). */
  datatype TaskId = TaskId(serial: nat)

  /** The value of one `custom_fields` entry: a plain value, an array of
      option ids built by `createLabelArray`, or the JSON text of a list of
      Jira issue ids (represented by the list it encodes). */
  datatype FieldValue =
    | Plain(v: JsVal)
    | OptionIds(ids: seq<JsVal>)
    | LinkIdsJson(issueIds: seq<string>)

  datatype CustomField = CustomField(id: JsVal, value: FieldValue)

  /** The body of the create-task request. */
  datatype TaskBody = TaskBody(
    name: JsVal,
    markdownDescription: string,
    status: string,
    assignees: JsVal,
    parent: Option<TaskId>,
    notifyAll: bool,
    checkRequiredCustomFields: bool,
    customFields: seq<CustomField>)
}
