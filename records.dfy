/** JavaScript `Record<string, V>` objects as ordered key/value lists: reading
    `obj[k]` and assigning `obj[k] = v` (which keeps the key's original
    position, or appends a new key). */
module Records {
  import opened Wrappers

  type Record<V> = seq<(string, V)>

  function Keys<V>(r: Record<V>): set<string> {
    if r == [] then {} else {r[0].0} + Keys(r[1..])
  }

  lemma KeysIndex<V>(r: Record<V>, k: string)
    ensures k in Keys(r) <==> exists i :: 0 <= i < |r| && r[i].0 == k
  {
    if r != [] {
      KeysIndex(r[1..], k);
      if k in Keys(r[1..]) {
        var i :| 0 <= i < |r[1..]| && r[1..][i].0 == k;
        assert r[i + 1].0 == k;
      }
    }
  }

  /** `obj[k]`: the value of the first entry with key `k`, or `undefined`. */
  function Lookup<V>(r: Record<V>, k: string): (v: Option<V>)
    ensures v.None? <==> k !in Keys(r)
    ensures v.Some? ==> exists i :: 0 <= i < |r| && r[i] == (k, v.value)
  {
    if r == [] then None
    else if r[0].0 == k then Some(r[0].1)
    else
      var v := Lookup(r[1..], k);
      assert v.Some? ==> exists i :: 0 <= i < |r| && r[i] == (k, v.value) by {
        if v.Some? {
          var i :| 0 <= i < |r[1..]| && r[1..][i] == (k, v.value);
          assert r[i + 1] == (k, v.value);
        }
      }
      v
  }

  /** No key occurs twice. */
  predicate DistinctKeys<V>(r: Record<V>) {
    forall i, j :: 0 <= i < j < |r| ==> r[i].0 != r[j].0
  }

  /** `obj[k] = v`. */
  function Assign<V>(r: Record<V>, k: string, v: V): (r': Record<V>)
    ensures Lookup(r', k) == Some(v)
    ensures forall j :: j != k ==> Lookup(r', j) == Lookup(r, j)
    ensures Keys(r') == Keys(r) + {k}
    ensures |r'| == |r| || (|r'| == |r| + 1 && k !in Keys(r))
    ensures forall i :: 0 <= i < |r| ==> r'[i].0 == r[i].0
  {
    if r == [] then [(k, v)]
    else if r[0].0 == k then
      assert ([(k, v)] + r[1..])[1..] == r[1..];
      [(k, v)] + r[1..]
    else
      var rest := Assign(r[1..], k, v);
      assert ([r[0]] + rest)[1..] == rest;
      [r[0]] + rest
  }

  /** Assignment never introduces a duplicate key. */
  lemma {:induction false} AssignDistinct<V>(r: Record<V>, k: string, v: V)
    requires DistinctKeys(r)
    ensures DistinctKeys(Assign(r, k, v))
  {
    if r != [] && r[0].0 != k {
      var rest := Assign(r[1..], k, v);
      AssignDistinct(r[1..], k, v);
      forall j | 0 <= j < |rest| ensures rest[j].0 != r[0].0 {
        KeysIndex(rest, rest[j].0);
        KeysIndex(r[1..], r[0].0);
      }
    }
  }

  /** Assignment overwrites the first entry with key `k`, or appends one;
      every other entry stays where it was. */
  lemma {:induction false} AssignAt<V>(r: Record<V>, k: string, v: V, i: nat)
    requires i < |Assign(r, k, v)|
    ensures i < |r| ==>
      (Assign(r, k, v)[i] == r[i]
       || (r[i].0 == k && Assign(r, k, v)[i] == (k, v) && forall j :: 0 <= j < i ==> r[j].0 != k))
    ensures i >= |r| ==> Assign(r, k, v)[i] == (k, v)
  {
    if r != [] && r[0].0 != k && i > 0 {
      AssignAt(r[1..], k, v, i - 1);
      assert Assign(r, k, v)[i] == Assign(r[1..], k, v)[i - 1];
    }
  }

  /** The position of the entry `obj[k]` reads. */
  function FirstIndex<V>(r: Record<V>, k: string): (i: nat)
    requires k in Keys(r)
    ensures i < |r| && r[i].0 == k && Lookup(r, k) == Some(r[i].1)
    ensures forall j :: 0 <= j < i ==> r[j].0 != k
  {
    if r[0].0 == k then 0 else 1 + FirstIndex(r[1..], k)
  }

  /** Assigning the value a key already has changes nothing. */
  lemma {:induction false} AssignSame<V>(r: Record<V>, k: string, v: V)
    requires Lookup(r, k) == Some(v)
    ensures Assign(r, k, v) == r
  {
    if r[0].0 != k {
      AssignSame(r[1..], k, v);
      assert [r[0]] + r[1..] == r;
    }
  }

  /** `obj[k]` reads the first entry with key `k`. */
  lemma {:induction false} LookupAt<V>(r: Record<V>, k: string, i: nat)
    requires i < |r| && r[i].0 == k && forall j :: 0 <= j < i ==> r[j].0 != k
    ensures Lookup(r, k) == Some(r[i].1)
  {
    if i > 0 {
      LookupAt(r[1..], k, i - 1);
    }
  }

  /** A second assignment to the same key replaces the first. */
  lemma {:induction false} AssignOverwrite<V>(r: Record<V>, k: string, v1: V, v2: V)
    ensures Assign(Assign(r, k, v1), k, v2) == Assign(r, k, v2)
  {
    if r != [] && r[0].0 != k {
      AssignOverwrite(r[1..], k, v1, v2);
      assert Assign(r, k, v1)[1..] == Assign(r[1..], k, v1);
    }
  }
  /** The multiset union of `f(k, v)` over the entries `(k, v)` of `r`. */
  function SumRec<V, P>(r: Record<V>, f: (string, V) -> multiset<P>): multiset<P> {
    if r == [] then multiset{} else f(r[0].0, r[0].1) + SumRec(r[1..], f)
  }

  /** Appending `items` to the list under `k` (`obj[k].push(...items)`,
      creating the list when missing) adds `f(k, items)` to the sum, when `f`
      splits over that concatenation. */
  lemma {:induction false} SumAppendAt<X, P>(r: Record<seq<X>>, k: string, items: seq<X>, f: (string, seq<X>) -> multiset<P>)
    requires Lookup(r, k).Some? ==> f(k, Lookup(r, k).value + items) == f(k, Lookup(r, k).value) + f(k, items)
    ensures var e := Lookup(r, k);
      SumRec(Assign(r, k, (if e.Some? then e.value else []) + items), f) == SumRec(r, f) + f(k, items)
  {
    var e := Lookup(r, k);
    var v := (if e.Some? then e.value else []) + items;
    if r == [] {
      assert v == items;
      assert Assign(r, k, v) == [(k, v)];
      assert SumRec([(k, v)], f) == f(k, v) + SumRec([(k, v)][1..], f);
    } else if r[0].0 == k {
      var a := [(k, v)] + r[1..];
      assert Assign(r, k, v) == a && a[0] == (k, v) && a[1..] == r[1..];
    } else {
      SumAppendAt(r[1..], k, items, f);
      var a := [r[0]] + Assign(r[1..], k, v);
      assert Assign(r, k, v) == a && a[0] == r[0] && a[1..] == Assign(r[1..], k, v);
    }
  }
}
