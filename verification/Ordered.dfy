/** The values of an ordered map, by ascending key. */
module Ordered {
  function Least(keys: set<nat>): (least: nat)
    requires keys != {}
    ensures least in keys && forall k :: k in keys ==> least <= k
  {
    HasLeast(keys);
    var least :| least in keys && forall k :: k in keys ==> least <= k;
    least
  }

  lemma HasLeast(keys: set<nat>)
    requires keys != {}
    ensures exists least :: least in keys && forall k :: k in keys ==> least <= k
  {
    var k :| k in keys;
    HasLeastUpTo(keys, k);
  }

  lemma {:induction false} HasLeastUpTo(keys: set<nat>, k: nat)
    requires k in keys
    ensures exists least :: least in keys && forall j :: j in keys ==> least <= j
    decreases k
  {
    if j :| j in keys && j < k {
      HasLeastUpTo(keys, j);
    }
  }

  function Values<T>(m: map<nat, T>): (values: seq<T>)
    ensures |values| == |m|
    ensures forall k :: 0 <= k < |values| ==> exists i :: i in m && m[i] == values[k]
    decreases |m|
  {
    if m == map[] then []
    else
      var least := Least(m.Keys);
      Shrinks(m, least);
      [m[least]] + Values(m - {least})
  }

  /** The keys that `Values` goes through. */
  function Keys<T>(m: map<nat, T>): (keys: seq<nat>)
    decreases |m|
  {
    if m == map[] then []
    else
      var least := Least(m.Keys);
      Shrinks(m, least);
      [least] + Keys(m - {least})
  }

  ghost predicate Ascending(indices: seq<nat>) {
    forall j, k :: 0 <= j < k < |indices| ==> indices[j] < indices[k]
  }

  /** They are all the keys, each once and by ascending order, and `Values` is what they map to. */
  lemma {:induction false} KeysAscend<T>(m: map<nat, T>)
    ensures |Keys(m)| == |Values(m)| && Ascending(Keys(m))
    ensures forall i :: i in Keys(m) <==> i in m
    ensures forall k :: 0 <= k < |Keys(m)| ==> Keys(m)[k] in m && Values(m)[k] == m[Keys(m)[k]]
    decreases |m|
  {
    if m != map[] {
      var least := Least(m.Keys);
      var rest := m - {least};
      Shrinks(m, least);
      KeysAscend(rest);
      KeysAfter(m, least);
      assert Keys(m) == [least] + Keys(rest) && Values(m) == [m[least]] + Values(rest);
      hide Keys;
      hide Values;
      hide Ascending;
      hide Least;
      ValuesFollow(m, least, Keys(rest), Values(rest));
    }
  }

  lemma ValuesFollow<T>(m: map<nat, T>, least: nat, keys: seq<nat>, values: seq<T>)
    requires least in m && |keys| == |values|
    requires forall k :: 0 <= k < |keys| ==> keys[k] in m - {least} && values[k] == (m - {least})[keys[k]]
    ensures forall k :: 0 <= k <= |keys| ==>
              ([least] + keys)[k] in m && ([m[least]] + values)[k] == m[([least] + keys)[k]]
  {
  }

  lemma KeysAfter<T>(m: map<nat, T>, least: nat)
    requires m != map[] && least == Least(m.Keys)
    requires Ascending(Keys(m - {least})) && forall i :: i in Keys(m - {least}) <==> i in m - {least}
    ensures Ascending(Keys(m)) && forall i :: i in Keys(m) <==> i in m
  {
    var rest := Keys(m - {least});
    assert Keys(m) == [least] + rest;
    forall k | 0 <= k < |rest| ensures least < rest[k] {
      assert rest[k] in rest;
      assert rest[k] in m - {least};
      assert rest[k] in m.Keys;
    }
  }

  lemma Shrinks<T>(m: map<nat, T>, k: nat)
    requires k in m
    ensures |m - {k}| == |m| - 1
  {
    assert (m - {k}).Keys == m.Keys - {k};
  }

  lemma {:induction false} BelowBound(keys: set<nat>, bound: nat)
    requires forall k :: k in keys ==> k < bound
    ensures |keys| <= bound
  {
    if bound == 0 {
      assert keys == {};
    } else {
      BelowBound(keys - {bound - 1}, bound - 1);
    }
  }
}
