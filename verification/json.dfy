/** Decoded JSON values, as Python's json module hands them to the script. */
module Json {

  datatype Value =
    | Null
    | Bool(b: bool)
    | Int(i: int)
    | Float(x: real)
    | Str(s: string)
    | List(items: seq<Value>)
    | Object(fields: map<string, Value>)

  /** A raw result row: a JSON object whose keys the upstream chooses. */
  type Row = map<string, Value>

  /** The object entries of a JSON list, in order: `[r for r in xs if isinstance(r, dict)]`. */
  function Objects(xs: seq<Value>): (r: seq<Row>)
    ensures |r| <= |xs|
  {
    if xs == [] then []
    else if xs[0].Object? then [xs[0].fields] + Objects(xs[1..])
    else Objects(xs[1..])
  }

  /**
   * The filter keeps objects only and drops nothing else: every kept row is an entry of the
   * list, a list without objects gives no rows, and a list of objects only is kept whole.
   */
  lemma {:induction false} ObjectsFilter(xs: seq<Value>)
    ensures forall j :: 0 <= j < |Objects(xs)| ==> Object(Objects(xs)[j]) in xs
    ensures (forall i :: 0 <= i < |xs| ==> !xs[i].Object?) ==> Objects(xs) == []
    ensures (forall i :: 0 <= i < |xs| ==> xs[i].Object?) ==>
              |Objects(xs)| == |xs| && forall i :: 0 <= i < |xs| ==> Objects(xs)[i] == xs[i].fields
  {
    if xs != [] {
      ObjectsFilter(xs[1..]);
      assert forall i :: 1 <= i < |xs| ==> xs[i] == xs[1..][i - 1];
    }
  }

  /** Filtering distributes over concatenation: entries keep their relative order. */
  lemma {:induction false} ObjectsAppend(a: seq<Value>, b: seq<Value>)
    ensures Objects(a + b) == Objects(a) + Objects(b)
  {
    if a == [] {
      assert a + b == b;
    } else {
      assert (a + b)[1..] == a[1..] + b;
      ObjectsAppend(a[1..], b);
    }
  }

  /** The keys of an ordered list of pairs, in order. */
  function Keys<V>(ps: seq<(string, V)>): (ks: seq<string>)
    ensures |ks| == |ps| && forall i :: 0 <= i < |ps| ==> ks[i] == ps[i].0
  {
    seq(|ps|, i requires 0 <= i < |ps| => ps[i].0)
  }

  predicate DistinctKeys<V>(ps: seq<(string, V)>)
  {
    forall i, j :: 0 <= i < j < |ps| ==> ps[i].0 != ps[j].0
  }

  /** A dict filled by assigning the pairs one after another: a later key overwrites an earlier one. */
  function FromPairs<V>(ps: seq<(string, V)>): (m: map<string, V>)
    ensures m.Keys == set i | 0 <= i < |ps| :: ps[i].0
  {
    if ps == [] then map[]
    else FromPairs(ps[..|ps| - 1])[ps[|ps| - 1].0 := ps[|ps| - 1].1]
  }

  /** With distinct keys, every pair can be read back from the dict. */
  lemma {:induction false} FromPairsAt<V>(ps: seq<(string, V)>, i: nat)
    requires DistinctKeys(ps) && i < |ps|
    ensures ps[i].0 in FromPairs(ps) && FromPairs(ps)[ps[i].0] == ps[i].1
  {
    if i < |ps| - 1 {
      var init := ps[..|ps| - 1];
      assert init[i] == ps[i];
      FromPairsAt(init, i);
    }
  }
}
