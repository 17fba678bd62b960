/**
 * Id-keyed lookups over record sequences, as the engine writes them:
 * `xs.find(x => x.id === id)` (the FIRST match), `new Map(xs.map(x => [x.id, x])).get(id)`
 * (the LAST match, since later entries overwrite earlier ones), and the
 * load-time merge that keeps the defaults' order and takes a saved record
 * wherever one with the same id exists.
 */
module ById {
  import opened Numbers

  /** `xs.find(x => key(x) === id)`. */
  function FindById<T>(xs: seq<T>, key: T -> string, id: string): (r: Option<T>)
    ensures r.Some? ==> exists i :: 0 <= i < |xs| && xs[i] == r.value && (forall j :: 0 <= j < i ==> key(xs[j]) != id)
    ensures r.Some? ==> key(r.value) == id
    ensures r.None? <==> forall i :: 0 <= i < |xs| ==> key(xs[i]) != id
  {
    if xs == [] then None
    else if key(xs[0]) == id then Some(xs[0])
    else
      var r := FindById(xs[1..], key, id);
      assert r.Some? ==> exists i :: 1 <= i < |xs| && xs[i] == r.value && (forall j :: 0 <= j < i ==> key(xs[j]) != id) by {
        if r.Some? {
          var k :| 0 <= k < |xs| - 1 && xs[1..][k] == r.value && (forall j :: 0 <= j < k ==> key(xs[1..][j]) != id);
          assert xs[k + 1] == r.value;
          assert forall j :: 1 <= j < k + 1 ==> key(xs[j]) == key(xs[1..][j - 1]);
        }
      }
      r
  }

  /** The position of the first record with that id, when there is one. */
  function IndexById<T>(xs: seq<T>, key: T -> string, id: string): (r: Option<nat>)
    ensures r.Some? ==> r.value < |xs| && key(xs[r.value]) == id && (forall j :: 0 <= j < r.value ==> key(xs[j]) != id)
    ensures r.None? <==> forall i :: 0 <= i < |xs| ==> key(xs[i]) != id
    ensures r.Some? <==> FindById(xs, key, id).Some?
    ensures r.Some? ==> FindById(xs, key, id).value == xs[r.value]
  {
    if xs == [] then None
    else if key(xs[0]) == id then Some(0)
    else
      var r := IndexById(xs[1..], key, id);
      if r.Some? then Some(r.value + 1) else None
  }

  /** `new Map(xs.map(x => [key(x), x])).get(id)`: a later record with the same id wins. */
  function LastById<T>(xs: seq<T>, key: T -> string, id: string): (r: Option<T>)
    ensures r.Some? ==> exists i :: 0 <= i < |xs| && xs[i] == r.value && (forall j :: i < j < |xs| ==> key(xs[j]) != id)
    ensures r.Some? ==> key(r.value) == id
    ensures r.None? <==> forall i :: 0 <= i < |xs| ==> key(xs[i]) != id
  {
    if xs == [] then None
    else if key(xs[|xs| - 1]) == id then Some(xs[|xs| - 1])
    else
      var r := LastById(xs[..|xs| - 1], key, id);
      assert r.Some? ==> exists i :: 0 <= i < |xs| - 1 && xs[i] == r.value && (forall j :: i < j < |xs| ==> key(xs[j]) != id) by {
        if r.Some? {
          var init := xs[..|xs| - 1];
          var k :| 0 <= k < |init| && init[k] == r.value && (forall j :: k < j < |init| ==> key(init[j]) != id);
          assert xs[k] == r.value;
          assert forall j :: k < j < |init| ==> key(xs[j]) == key(init[j]);
        }
      }
      r
  }

  /** No two records share an id. */
  predicate DistinctIds<T>(xs: seq<T>, key: T -> string) {
    forall i, j :: 0 <= i < j < |xs| ==> key(xs[i]) != key(xs[j])
  }

  /** The ids of a sequence of records, in order. */
  function Ids<T>(xs: seq<T>, key: T -> string): (r: seq<string>)
    ensures |r| == |xs| && forall i :: 0 <= i < |xs| ==> r[i] == key(xs[i])
  {
    seq(|xs|, i requires 0 <= i < |xs| => key(xs[i]))
  }

  /**
   * `defaults.map(d => savedMap.get(d.id) || d)`: the defaults' order and
   * length, each entry replaced by the saved record with the same id when
   * there is one. Saved records whose id is not among the defaults are dropped.
   */
  function MergeById<T>(saved: seq<T>, defaults: seq<T>, key: T -> string): (r: seq<T>)
    ensures |r| == |defaults|
    ensures Ids(r, key) == Ids(defaults, key)
    ensures forall i :: 0 <= i < |r| ==>
      r[i] == (if LastById(saved, key, key(defaults[i])).Some? then LastById(saved, key, key(defaults[i])).value else defaults[i])
    ensures forall i :: 0 <= i < |r| ==> r[i] == defaults[i] || r[i] in saved
  {
    var r := seq(|defaults|, i requires 0 <= i < |defaults| => LastById(saved, key, key(defaults[i])).GetOr(defaults[i]));
    assert forall i :: 0 <= i < |r| ==> key(r[i]) == key(defaults[i]);
    assert forall i :: 0 <= i < |r| ==> r[i] == defaults[i] || r[i] in saved by {
      forall i | 0 <= i < |r| && LastById(saved, key, key(defaults[i])).Some?
        ensures r[i] in saved
      {
        var k :| 0 <= k < |saved| && saved[k] == LastById(saved, key, key(defaults[i])).value && (forall j :: k < j < |saved| ==> key(saved[j]) != key(defaults[i]));
      }
    }
    r
  }

  /** Merging an empty save yields the defaults. */
  lemma {:induction false} MergeEmpty<T>(defaults: seq<T>, key: T -> string)
    ensures MergeById([], defaults, key) == defaults
  {
  }

  /**
   * A save whose ids are exactly the defaults' ids, in the same order and
   * without repetition, comes back unchanged from the merge.
   */
  lemma MergeRoundTrip<T>(saved: seq<T>, defaults: seq<T>, key: T -> string)
    requires Ids(saved, key) == Ids(defaults, key)
    requires DistinctIds(saved, key)
    ensures MergeById(saved, defaults, key) == saved
  {
    var r := MergeById(saved, defaults, key);
    assert |saved| == |Ids(saved, key)| == |defaults|;
    forall i | 0 <= i < |r|
      ensures r[i] == saved[i]
    {
      var id := key(defaults[i]);
      assert key(saved[i]) == Ids(saved, key)[i] == Ids(defaults, key)[i] == id;
      var found := LastById(saved, key, id);
      assert found.Some?;
      var k :| 0 <= k < |saved| && saved[k] == found.value && (forall j :: k < j < |saved| ==> key(saved[j]) != id);
      assert key(saved[k]) == id;
      assert k == i;
    }
  }

  /**
   * Two sequences whose records carry the same ids, position by position,
   * have their first record with a given id at the same position.
   */
  lemma {:induction false} IndexSameKeys<T, U>(xs: seq<T>, ys: seq<U>, kx: T -> string, ky: U -> string, id: string)
    requires |xs| == |ys|
    requires forall i :: 0 <= i < |xs| ==> kx(xs[i]) == ky(ys[i])
    ensures IndexById(xs, kx, id) == IndexById(ys, ky, id)
    decreases |xs|
  {
    if xs != [] {
      IndexSameKeys(xs[1..], ys[1..], kx, ky, id);
    }
  }

  /** With distinct ids, the first record carrying the id of record i is record i. */
  lemma FirstOfDistinct<T>(xs: seq<T>, key: T -> string, i: nat)
    requires i < |xs| && DistinctIds(xs, key)
    ensures IndexById(xs, key, key(xs[i])) == Some(i)
    ensures FindById(xs, key, key(xs[i])) == Some(xs[i])
  {
    var k := IndexById(xs, key, key(xs[i]));
    if k.value < i {
      assert false;
    }
  }
}
