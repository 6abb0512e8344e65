/** Locating the result rows in an upstream payload (normalize_rows). */
module Rows {
  import opened Basics
  import opened Json

  /** `isinstance(fields.get(key), list)`: a missing key reads as None, which is no list. */
  predicate IsListAt(fields: map<string, Value>, key: string)
  {
    key in fields && fields[key].List?
  }

  /** The first of `keys` that holds a list, searched in order. */
  function FirstList(fields: map<string, Value>, keys: seq<string>): Option<seq<Value>>
  {
    if keys == [] then None
    else if IsListAt(fields, keys[0]) then Some(fields[keys[0]].items)
    else FirstList(fields, keys[1..])
  }

  /** The search finds nothing exactly when no key holds a list, and otherwise the first key that does. */
  lemma {:induction false} FirstListFinds(fields: map<string, Value>, keys: seq<string>)
    ensures FirstList(fields, keys).None? <==> forall i :: 0 <= i < |keys| ==> !IsListAt(fields, keys[i])
    ensures FirstList(fields, keys).Some? ==>
              exists i :: 0 <= i < |keys| && IsListAt(fields, keys[i])
                          && FirstList(fields, keys).value == fields[keys[i]].items
                          && forall j :: 0 <= j < i ==> !IsListAt(fields, keys[j])
  {
    if keys != [] && !IsListAt(fields, keys[0]) {
      FirstListFinds(fields, keys[1..]);
      assert forall i :: 1 <= i < |keys| ==> keys[i] == keys[1..][i - 1];
      if FirstList(fields, keys).Some? {
        var i :| 0 <= i < |keys[1..]| && IsListAt(fields, keys[1..][i])
                 && FirstList(fields, keys[1..]).value == fields[keys[1..][i]].items
                 && forall j :: 0 <= j < i ==> !IsListAt(fields, keys[1..][j]);
        assert IsListAt(fields, keys[i + 1]);
      }
    }
  }

  /** The keys tried after "data", in the order the loop tries them. */
  const FallbackKeys: seq<string> := ["rows", "result", "results"]

  /** `normalize_rows`: a payload that is not an object has no `.get`, so the call fails. */
  function NormalizeRows(payload: Value): (r: Result<seq<Row>>)
    ensures !payload.Object? <==> r == Err(NotAnObject)
  {
    if !payload.Object? then Err(NotAnObject)
    else
      var fields := payload.fields;
      if IsListAt(fields, "data") then Ok(Objects(fields["data"].items))
      else
        match FirstList(fields, FallbackKeys)
        case Some(v) => Ok(Objects(v))
        case None => Ok([])
  }

  /**
   * The object rows of an object payload: "data" wins whenever it holds a list; otherwise
   * "rows", "result", "results" are tried in that order; no list anywhere is no rows.
   */
  lemma NormalizeRowsPriority(fields: map<string, Value>)
    ensures IsListAt(fields, "data") ==>
              NormalizeRows(Object(fields)) == Ok(Objects(fields["data"].items))
    ensures !IsListAt(fields, "data") && IsListAt(fields, "rows") ==>
              NormalizeRows(Object(fields)) == Ok(Objects(fields["rows"].items))
    ensures !IsListAt(fields, "data") && !IsListAt(fields, "rows") && IsListAt(fields, "result") ==>
              NormalizeRows(Object(fields)) == Ok(Objects(fields["result"].items))
    ensures !IsListAt(fields, "data") && !IsListAt(fields, "rows") && !IsListAt(fields, "result")
              && IsListAt(fields, "results") ==>
              NormalizeRows(Object(fields)) == Ok(Objects(fields["results"].items))
    ensures !IsListAt(fields, "data") && !IsListAt(fields, "rows") && !IsListAt(fields, "result")
              && !IsListAt(fields, "results") ==>
              NormalizeRows(Object(fields)) == Ok([])
  {
    assert FallbackKeys[0] == "rows" && FallbackKeys[1] == "result" && FallbackKeys[2] == "results";
    FirstListFinds(fields, FallbackKeys);
  }

  /** Once "data" holds a list, nothing stored under any other key changes the rows. */
  lemma DataShadowsOtherKeys(data: seq<Value>, other: map<string, Value>)
    ensures NormalizeRows(Object(other["data" := List(data)])) == Ok(Objects(data))
  {
    NormalizeRowsPriority(other["data" := List(data)]);
  }

  /** A payload holding only non-object entries yields no rows, whichever key holds them. */
  lemma ScalarsAreDropped(payload: Value)
    requires payload.Object?
    requires forall k :: k in payload.fields && payload.fields[k].List? ==>
               forall i :: 0 <= i < |payload.fields[k].items| ==> !payload.fields[k].items[i].Object?
    ensures NormalizeRows(payload) == Ok([])
  {
    NormalizeRowsPriority(payload.fields);
    forall k | k in payload.fields && payload.fields[k].List? {
      ObjectsFilter(payload.fields[k].items);
    }
  }
}
