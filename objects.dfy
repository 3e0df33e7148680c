/**
 * Plain JavaScript objects with string keys, kept as their own properties in
 * enumeration order, and the object spread `{...base, ...over}` that the
 * services use to fill in defaults and let the caller's fields win.
 */
module Objects {
  import opened Wrappers

  /** An object literal: its properties in enumeration order. */
  type Obj<V> = seq<(string, V)>

  /** A JavaScript object never has two properties with the same key. */
  ghost predicate DistinctKeys<V>(o: Obj<V>)
  {
    forall i, j :: 0 <= i < j < |o| ==> o[i].0 != o[j].0
  }

  /** `o[k]`, with `None` for a missing property. */
  function Get<V>(o: Obj<V>, k: string): (r: Option<V>)
    ensures r.Some? <==> exists i :: 0 <= i < |o| && o[i].0 == k
  {
    if o == [] then None
    else if o[0].0 == k then Some(o[0].1)
    else
      assert forall i :: 1 <= i < |o| ==> o[i] == o[1..][i - 1];
      Get(o[1..], k)
  }

  /** `o[k] = v`: an existing key keeps its position, a new key is appended. */
  function Put<V>(o: Obj<V>, k: string, v: V): (r: Obj<V>)
    ensures Get(r, k) == Some(v)
    ensures forall k' :: k' != k ==> Get(r, k') == Get(o, k')
    ensures |r| >= |o| && forall i :: 0 <= i < |o| ==> r[i].0 == o[i].0
  {
    if o == [] then [(k, v)]
    else if o[0].0 == k then [(k, v)] + o[1..]
    else [o[0]] + Put(o[1..], k, v)
  }

  /** `{...base, ...over}`: the properties of `over` assigned one by one onto `base`. */
  function Spread<V>(base: Obj<V>, over: Obj<V>): (r: Obj<V>)
    ensures |r| >= |base| && forall i :: 0 <= i < |base| ==> r[i].0 == base[i].0
    decreases |over|
  {
    if over == [] then base else Spread(Put(base, over[0].0, over[0].1), over[1..])
  }

  lemma GetAbsent<V>(o: Obj<V>, k: string)
    requires forall i :: 0 <= i < |o| ==> o[i].0 != k
    ensures Get(o, k) == None
  {
  }

  /** A key is looked up in the first object, then in the second. */
  lemma {:induction false} GetConcat<V>(a: Obj<V>, b: Obj<V>, k: string)
    ensures Get(a + b, k) == if Get(a, k).Some? then Get(a, k) else Get(b, k)
    decreases |a|
  {
    if a == [] {
      assert a + b == b;
    } else {
      assert (a + b)[1..] == a[1..] + b;
      GetConcat(a[1..], b, k);
    }
  }

  /** A property is found under its key when no earlier property has that key. */
  lemma {:induction false} GetFirst<V>(o: Obj<V>, i: int)
    requires 0 <= i < |o| && forall j :: 0 <= j < i ==> o[j].0 != o[i].0
    ensures Get(o, o[i].0) == Some(o[i].1)
    decreases i
  {
    if i > 0 {
      assert o[1..][i - 1] == o[i];
      assert forall j :: 0 <= j < i - 1 ==> o[1..][j] == o[j + 1];
      GetFirst(o[1..], i - 1);
    }
  }

  /** In an object with distinct keys, each property is found under its own key. */
  lemma {:induction false} GetAt<V>(o: Obj<V>, i: int)
    requires DistinctKeys(o) && 0 <= i < |o|
    ensures Get(o, o[i].0) == Some(o[i].1)
  {
    if i > 0 {
      assert DistinctKeys(o[1..]) by {
        forall a, b | 0 <= a < b < |o[1..]|
          ensures o[1..][a].0 != o[1..][b].0
        {
          assert o[1..][a] == o[a + 1] && o[1..][b] == o[b + 1];
        }
      }
      GetAt(o[1..], i - 1);
    }
  }

  /**
   * Every property of `over` overrides the default of the same name; every
   * other default survives.
   */
  lemma {:induction false} SpreadGet<V>(base: Obj<V>, over: Obj<V>, k: string)
    requires DistinctKeys(over)
    ensures Get(Spread(base, over), k) == if Get(over, k).Some? then Get(over, k) else Get(base, k)
    decreases |over|
  {
    if over != [] {
      var rest := over[1..];
      assert DistinctKeys(rest) by {
        forall i, j | 0 <= i < j < |rest|
          ensures rest[i].0 != rest[j].0
        {
          assert rest[i] == over[i + 1] && rest[j] == over[j + 1];
        }
      }
      SpreadGet(Put(base, over[0].0, over[0].1), rest, k);
      if k == over[0].0 {
        GetAbsent(rest, k);
      }
    }
  }
}
