/** Schema resolution against the cached field catalog: `findCFID` and
    `findCFOptionID` (identical in index.js and makelinks.js). */
module Schema {
  import opened Js
  import opened ClickUp

  /** The index of the first element satisfying `p`: what `filter(p)[0]`
      picks, `None` standing for `undefined`. */
  function FirstIndex<T>(s: seq<T>, p: T -> bool): (r: Option<nat>)
    ensures r.None? <==> forall i :: 0 <= i < |s| ==> !p(s[i])
    ensures r.Some? ==> r.value < |s| && p(s[r.value])
    ensures r.Some? ==> forall j :: 0 <= j < r.value ==> !p(s[j])
  {
    if s == [] then None
    else if p(s[0]) then Some(0)
    else match FirstIndex(s[1..], p)
      case None => None
      case Some(k) => Some(k + 1)
  }

  /** Field `i` is the first one named `name`. */
  predicate FirstNamed(catalog: Catalog, name: string, i: int) {
    0 <= i < |catalog| && catalog[i].name == name &&
    forall j :: 0 <= j < i ==> catalog[j].name != name
  }

  /** `findCFID`: the id of the first field named `name`, or `undefined`
      (the error is only logged). */
  function FindFieldId(catalog: Catalog, name: string): (r: JsVal)
    ensures r == Undefined <==> forall i :: 0 <= i < |catalog| ==> catalog[i].name != name
    ensures r.Undefined? || r.Str?
    ensures forall i :: FirstNamed(catalog, name, i) ==> r == Str(catalog[i].id)
  {
    match FirstIndex(catalog, (f: Field) => f.name == name)
    case None => Undefined
    case Some(i) => Str(catalog[i].id)
  }

  /** The option list `findCFOptionID` reads for `fieldName`: the
      `type_config.options` of the first field whose id equals
      `findCFID(fieldName)`; `None` where that read throws. */
  function OptionsOf(catalog: Catalog, fieldName: string): (r: Option<seq<FieldOption>>)
    ensures r.None? <==> forall i :: 0 <= i < |catalog| ==> catalog[i].name != fieldName
  {
    var fieldId := FindFieldId(catalog, fieldName);
    match FirstIndex(catalog, (f: Field) => Str(f.id) == fieldId)
    case None => None
    case Some(i) => Some(catalog[i].options)
  }

  /** `findCFOptionID` can read an option list: the field exists and has at
      least one option. */
  predicate HasOptions(catalog: Catalog, fieldName: string) {
    OptionsOf(catalog, fieldName).Some? && OptionsOf(catalog, fieldName).value != []
  }

  /** The first option decides the key: `label` when its label is truthy,
      `name` otherwise. */
  predicate KeyedByLabel(first: FieldOption) {
    TruthyText(first.labelText)
  }

  /** Option `o` matches `value` on the chosen key (`item.label == CFValue`
      or `item.name == CFValue`). */
  predicate Matches(o: FieldOption, byLabel: bool, value: JsVal) {
    var key := if byLabel then o.labelText else o.nameText;
    key.Some? && value == Str(key.value)
  }

  /** Option `k` is the first one matching `value`. */
  predicate FirstMatch(opts: seq<FieldOption>, byLabel: bool, value: JsVal, k: int) {
    0 <= k < |opts| && Matches(opts[k], byLabel, value) &&
    forall j :: 0 <= j < k ==> !Matches(opts[j], byLabel, value)
  }

  /** `findCFOptionID(value, fieldName)`. */
  function FindOptionId(catalog: Catalog, value: JsVal, fieldName: string): (r: Completion<JsVal>)
    // a falsy value yields null before the catalog is touched
    ensures !Truthy(value) ==> r == Normal(Null)
    // a truthy value throws exactly when there is no option list to read
    ensures Truthy(value) ==> (r.Thrown? <==> !HasOptions(catalog, fieldName))
    // otherwise: the first match's id on the key the first option selects, or undefined
    ensures Truthy(value) && HasOptions(catalog, fieldName) ==>
      var opts := OptionsOf(catalog, fieldName).value;
      var byLabel := KeyedByLabel(opts[0]);
      && r.Normal?
      && (r.value == Undefined <==> forall k :: 0 <= k < |opts| ==> !Matches(opts[k], byLabel, value))
      && (forall k :: FirstMatch(opts, byLabel, value, k) ==> r.value == Str(opts[k].id))
  {
    if !Truthy(value) then Normal(Null)
    else
      match OptionsOf(catalog, fieldName)
      case None => Thrown
      case Some(opts) =>
        if opts == [] then Thrown
        else
          var byLabel := KeyedByLabel(opts[0]);
          match FirstIndex(opts, (o: FieldOption) => Matches(o, byLabel, value))
          case None => Normal(Undefined)
          case Some(k) =>
            assert FirstMatch(opts, byLabel, value, k);
            Normal(Str(opts[k].id))
  }

  /** Field ids are pairwise distinct, as ClickUp assigns them. */
  predicate UniqueIds(catalog: Catalog) {
    forall i, j :: 0 <= i < j < |catalog| ==> catalog[i].id != catalog[j].id
  }

  /** With distinct ids the option list `findCFOptionID` reads is that of the
      first field carrying the requested name. */
  lemma OptionsOfNamedField(catalog: Catalog, fieldName: string, i: nat)
    requires UniqueIds(catalog)
    requires FirstNamed(catalog, fieldName, i)
    ensures OptionsOf(catalog, fieldName) == Some(catalog[i].options)
  {
    var fieldId := FindFieldId(catalog, fieldName);
    var p := (f: Field) => Str(f.id) == fieldId;
    assert p(catalog[i]);
    var k := FirstIndex(catalog, p).value;
    assert p(catalog[k]);
    assert k == i;
  }
}
