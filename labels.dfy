/** `createLabelArray`: resolving a multi-value Jira field to ClickUp option ids. */
module Labels {
  import opened Js
  import opened ClickUp
  import opened Schema

  /** `findCFOptionID` applied to every value in order; the first throw
      aborts the whole array, as it does inside `forEach`. */
  function ResolveEach(catalog: Catalog, values: seq<JsVal>, fieldName: string): (r: Completion<seq<JsVal>>)
    ensures r.Normal? <==> forall i :: 0 <= i < |values| ==> FindOptionId(catalog, values[i], fieldName).Normal?
    ensures r.Normal? ==> |r.value| == |values|
    ensures r.Normal? ==> forall i :: 0 <= i < |values| ==> FindOptionId(catalog, values[i], fieldName) == Normal(r.value[i])
  {
    if values == [] then Normal([])
    else
      var head :- FindOptionId(catalog, values[0], fieldName);
      var tail :- ResolveEach(catalog, values[1..], fieldName);
      Normal([head] + tail)
  }

  /** What `createLabelArray(data, fieldName)` evaluates to. */
  function LabelArray(catalog: Catalog, data: Option<seq<JsVal>>, fieldName: string): (r: Completion<FieldValue>)
    // falsy input: null
    ensures data.None? ==> r == Normal(Plain(Null))
    // it throws exactly when some truthy entry needs an option list that cannot be read
    ensures data.Some? ==>
      (r.Thrown? <==> (exists i :: 0 <= i < |data.value| && Truthy(data.value[i])) && !HasOptions(catalog, fieldName))
    // otherwise an array of the same length; entry i is the lookup of value i,
    // so unresolved entries stay in place as undefined (and falsy ones as null)
    ensures data.Some? && r.Normal? ==>
      && r.value.OptionIds?
      && |r.value.ids| == |data.value|
      && forall i :: 0 <= i < |data.value| ==> FindOptionId(catalog, data.value[i], fieldName) == Normal(r.value.ids[i])
  {
    match data
    case None => Normal(Plain(Null))
    case Some(values) =>
      var ids :- ResolveEach(catalog, values, fieldName);
      Normal(OptionIds(ids))
  }

  /** `createLabelArray` as written: a `forEach` loop pushing into `idArray`. */
  method CreateLabelArray(catalog: Catalog, data: Option<seq<JsVal>>, fieldName: string) returns (r: Completion<FieldValue>)
    ensures r == LabelArray(catalog, data, fieldName)
  {
    if data.None? {
      return Normal(Plain(Null));
    }
    var values := data.value;
    var idArray: seq<JsVal> := [];
    var i := 0;
    while i < |values|
      invariant 0 <= i <= |values|
      invariant |idArray| == i
      invariant forall k :: 0 <= k < i ==> FindOptionId(catalog, values[k], fieldName) == Normal(idArray[k])
    {
      var item := FindOptionId(catalog, values[i], fieldName);
      if item.Thrown? {
        assert !FindOptionId(catalog, values[i], fieldName).Normal?;
        return Thrown;
      }
      idArray := idArray + [item.value];
      i := i + 1;
    }
    r := Normal(OptionIds(idArray));
    var all := ResolveEach(catalog, values, fieldName);
    assert all.Normal?;
    assert all.value == idArray by {
      assert forall k :: 0 <= k < |values| ==> Normal(all.value[k]) == Normal(idArray[k]);
    }
  }
}
