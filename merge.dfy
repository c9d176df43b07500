/**
 * The deep merge `assign(*x)` of msgraph2: a fresh dictionary is built by folding the
 * inputs in order; a mapping value merges key by key into what is already there, any
 * other value replaces it.
 */
module Merge {
  import opened Json

  type Dict = map<string, Value>

  /** `o.get(k, {})` where it is a mapping. */
  function Prev(o: Dict, k: string): Dict
  {
    if k in o && o[k].Obj? then o[k].fields else map[]
  }

  /** What folding `u` into `o` leaves under a key `k` of `u`. */
  function MergeKey(o: Dict, u: Dict, k: string): (v: Value)
    requires k in u
    decreases Obj(u), 0
    ensures !u[k].Obj? ==> v == u[k]
    ensures u[k].Obj? ==> v.Obj? && v.fields.Keys == Prev(o, k).Keys + u[k].fields.Keys
  {
    if u[k].Obj? then Obj(MergeInto(Prev(o, k), u[k].fields)) else u[k]
  }

  /** Folding `u` into `o`, which is what one pass of the outer loop of `assign` does. */
  function MergeInto(o: Dict, u: Dict): (r: Dict)
    decreases Obj(u), 1
    ensures r.Keys == o.Keys + u.Keys
    ensures forall k :: k in o && k !in u ==> r[k] == o[k]
  {
    map k | k in o.Keys + u.Keys :: if k in u then MergeKey(o, u, k) else o[k]
  }

  /** What `assign(xs[0], ..., xs[n-1])` returns: the inputs folded from the left into `{}`. */
  function MergeAll(xs: seq<Dict>): (r: Dict)
    ensures xs == [] ==> r == map[]
    ensures xs != [] ==> xs[|xs| - 1].Keys <= r.Keys
  {
    if xs == [] then map[] else MergeInto(MergeAll(xs[..|xs| - 1]), xs[|xs| - 1])
  }

  /**
   * Folding `u` into `o` does not crash: wherever `u` holds a mapping, `o` holds nothing or a
   * mapping (`o.get(k, {})` of a scalar has no `items()`), recursively.
   */
  predicate Compatible(o: Dict, u: Dict)
    decreases Obj(u)
  {
    forall k :: k in u && u[k].Obj? && k in o ==> o[k].Obj? && Compatible(o[k].fields, u[k].fields)
  }

  /** `assign(*xs)` runs to completion: every step folds into a compatible prefix. */
  predicate Safe(xs: seq<Dict>)
  {
    forall i :: 0 <= i < |xs| ==> Compatible(MergeAll(xs[..i]), xs[i])
  }

  /** Every key that occurs in some input. */
  function KeysOf(xs: seq<Dict>): set<string>
  {
    set i, k | 0 <= i < |xs| && k in xs[i] :: k
  }

  /** The mappings the inputs hold under `k`, in input order. */
  function Subs(xs: seq<Dict>, k: string): seq<Dict>
  {
    if xs == [] then []
    else Subs(xs[..|xs| - 1], k) + (if k in xs[|xs| - 1] && xs[|xs| - 1][k].Obj? then [xs[|xs| - 1][k].fields] else [])
  }

  /** Merging into `{}` copies: the recursive `assign(o.get(k, {}), v)` starts from an empty copy. */
  lemma {:induction false} MergeIntoEmpty(u: Dict)
    ensures MergeInto(map[], u) == u
    decreases Obj(u)
  {
    forall k | k in u && u[k].Obj?
      ensures MergeInto(map[], u)[k] == u[k]
    {
      MergeIntoEmpty(u[k].fields);
    }
  }

  /** `assign` with two arguments is one fold of the second into a copy of the first. */
  lemma MergeTwo(a: Dict, b: Dict)
    ensures MergeAll([a, b]) == MergeInto(a, b)
  {
    assert [a, b][..1] == [a];
    assert [a][..0] == [];
    assert MergeAll([a]) == MergeInto(map[], a);
    MergeIntoEmpty(a);
  }

  /** The result's key set is the union of all inputs' key sets. */
  lemma {:induction false} MergeAllKeys(xs: seq<Dict>)
    ensures MergeAll(xs).Keys == KeysOf(xs)
  {
    if xs != [] {
      var n := |xs| - 1;
      MergeAllKeys(xs[..n]);
      forall k | k in KeysOf(xs)
        ensures k in KeysOf(xs[..n]) + xs[n].Keys
      {
        var i :| 0 <= i < |xs| && k in xs[i];
        if i < n { assert xs[..n][i] == xs[i]; }
      }
      forall k | k in KeysOf(xs[..n])
        ensures k in KeysOf(xs)
      {
        var i :| 0 <= i < n && k in xs[..n][i];
        assert xs[i] == xs[..n][i];
      }
    }
  }

  /** A scalar in the last input that holds `k` is what the result holds under `k`. */
  lemma {:induction false} LastScalarWins(xs: seq<Dict>, i: nat, k: string)
    requires i < |xs| && k in xs[i] && !xs[i][k].Obj?
    requires forall j :: i < j < |xs| ==> k !in xs[j]
    ensures k in MergeAll(xs) && MergeAll(xs)[k] == xs[i][k]
  {
    var n := |xs| - 1;
    var o := MergeAll(xs[..n]);
    if i < n {
      forall j | i < j < n ensures k !in xs[..n][j] { assert xs[..n][j] == xs[j]; }
      LastScalarWins(xs[..n], i, k);
      assert MergeAll(xs)[k] == o[k];
    } else {
      assert MergeAll(xs)[k] == MergeKey(o, xs[n], k);
    }
  }

  /** Where every input holding `k` holds a mapping there, the result holds their own merge. */
  lemma {:induction false} NestedMerge(xs: seq<Dict>, k: string)
    requires forall i :: 0 <= i < |xs| && k in xs[i] ==> xs[i][k].Obj?
    ensures k in MergeAll(xs) <==> Subs(xs, k) != []
    ensures k in MergeAll(xs) ==> MergeAll(xs)[k] == Obj(MergeAll(Subs(xs, k)))
  {
    if xs != [] {
      var n := |xs| - 1;
      var ys := Subs(xs[..n], k);
      forall i | 0 <= i < n && k in xs[..n][i] ensures xs[..n][i][k].Obj? { assert xs[..n][i] == xs[i]; }
      NestedMerge(xs[..n], k);
      var o := MergeAll(xs[..n]);
      if k in xs[n] {
        var v := xs[n][k].fields;
        var zs := Subs(xs, k);
        assert zs == ys + [v];
        assert zs[..|zs| - 1] == ys;
        assert MergeAll(zs) == MergeInto(MergeAll(ys), v);
        if k in o {
          assert o[k] == Obj(MergeAll(ys));
        } else {
          assert ys == [];
        }
        assert MergeAll(xs)[k] == MergeKey(o, xs[n], k);
      } else {
        assert Subs(xs, k) == ys;
      }
    }
  }

  /** Under `Safe`, a key never holds a mapping in an input after a scalar in an earlier one. */
  lemma {:induction false} SafeOrder(xs: seq<Dict>, i: nat, j: nat, k: string)
    requires Safe(xs)
    requires i < j < |xs| && k in xs[i] && k in xs[j] && !xs[i][k].Obj?
    ensures !xs[j][k].Obj?
    decreases j - i
  {
    var prefix := xs[..j];
    var holders := set m | i <= m < j && k in xs[m];
    assert i in holders;
    var last := MaxOf(holders);
    forall m | last < m < j ensures k !in prefix[m] {
      assert prefix[m] == xs[m];
      assert i <= m && m !in holders;
    }
    if last == i {
      LastScalarWins(prefix, i, k);
    } else {
      SafeOrder(xs, i, last, k);
      LastScalarWins(prefix, last, k);
    }
    assert Compatible(MergeAll(xs[..j]), xs[j]);
  }

  // ---- termination measure for the recursion of Assign ----

  /** The largest element of a finite set of naturals, 0 for the empty set. */
  ghost function MaxOf(s: set<nat>): (m: nat)
    ensures forall x :: x in s ==> x <= m
    ensures s != {} ==> m in s
    decreases s
  {
    if s == {} then 0
    else
      var y :| y in s;
      var rest := MaxOf(s - {y});
      assert forall z :: z in s ==> z == y || z in s - {y};
      if y > rest then y else rest
  }

  /** Nesting depth of mappings. */
  ghost function Depth(v: Value): nat
  {
    match v
    case Obj(m) => 1 + MaxOf(set k | k in m :: Depth(m[k]))
    case _ => 0
  }

  ghost function Depths(xs: seq<Dict>): set<nat>
  {
    set i | 0 <= i < |xs| :: Depth(Obj(xs[i]))
  }

  /** The deepest input of a call `assign(*xs)`. */
  ghost function Measure(xs: seq<Dict>): nat
  {
    MaxOf(Depths(xs))
  }

  lemma DepthBelow(m: Dict, n: nat)
    requires forall k :: k in m ==> Depth(m[k]) <= n
    ensures Depth(Obj(m)) <= n + 1
  {
    var s := set k | k in m :: Depth(m[k]);
    if s != {} {
      assert MaxOf(s) in s;
    }
  }

  lemma DepthOfMember(m: Dict, k: string)
    requires k in m
    ensures Depth(m[k]) < Depth(Obj(m))
  {
    var s := set k | k in m :: Depth(m[k]);
    assert Depth(m[k]) in s;
  }

  lemma {:induction false} DepthMergeInto(a: Dict, b: Dict, n: nat)
    requires Depth(Obj(a)) <= n && Depth(Obj(b)) <= n
    ensures Depth(Obj(MergeInto(a, b))) <= n
    decreases Obj(b)
  {
    var r := MergeInto(a, b);
    forall k | k in r ensures Depth(r[k]) <= n - 1 {
      if k in b {
        DepthOfMember(b, k);
        if b[k].Obj? {
          var a' := if k in a && a[k].Obj? then a[k].fields else map[];
          if k in a && a[k].Obj? {
            DepthOfMember(a, k);
          } else {
            DepthBelow(a', 0);
          }
          DepthMergeInto(a', b[k].fields, n - 1);
        }
      } else {
        DepthOfMember(a, k);
      }
    }
    if n > 0 { DepthBelow(r, n - 1); } else { DepthOfMember(b, ""); }
  }

  lemma {:induction false} DepthMergeAll(xs: seq<Dict>, n: nat)
    requires n >= 1
    requires forall i :: 0 <= i < |xs| ==> Depth(Obj(xs[i])) <= n
    ensures Depth(Obj(MergeAll(xs))) <= n
  {
    if xs == [] {
      DepthBelow(map[], 0);
    } else {
      var m := |xs| - 1;
      forall i | 0 <= i < m ensures Depth(Obj(xs[..m][i])) <= n { assert xs[..m][i] == xs[i]; }
      DepthMergeAll(xs[..m], n);
      DepthMergeInto(MergeAll(xs[..m]), xs[m], n);
    }
  }

  lemma MeasureAtLeast(xs: seq<Dict>, i: nat)
    requires i < |xs|
    ensures Depth(Obj(xs[i])) <= Measure(xs)
  {
    assert Depth(Obj(xs[i])) in Depths(xs);
  }

  lemma MeasureAtMost(xs: seq<Dict>, n: nat)
    requires forall i :: 0 <= i < |xs| ==> Depth(Obj(xs[i])) <= n
    ensures Measure(xs) <= n
  {
    var s := Depths(xs);
    if s != {} { assert MaxOf(s) in s; }
  }

  /** The recursive call `assign(o.get(k, {}), v)` inside step `i` does not crash. */
  lemma NestedSafe(xs: seq<Dict>, i: nat, k: string)
    requires Safe(xs) && i < |xs| && k in xs[i] && xs[i][k].Obj?
    ensures var o0 := MergeAll(xs[..i]);
      && (k in o0 ==> o0[k].Obj?)
      && Safe([Prev(o0, k), xs[i][k].fields])
  {
    var o0 := MergeAll(xs[..i]);
    var prev := Prev(o0, k);
    var v := xs[i][k].fields;
    assert Compatible(o0, xs[i]);
    assert Compatible(prev, v);
    assert [prev, v][..0] == [];
    assert [prev, v][..1] == [prev];
    assert MergeAll([prev]) == MergeInto(map[], prev);
    MergeIntoEmpty(prev);
  }

  /** What step `i` finds under `k` is shallower than the deepest input. */
  lemma PrevShallower(xs: seq<Dict>, i: nat, k: string)
    requires i < |xs| && k in xs[i] && xs[i][k].Obj?
    ensures Depth(Obj(Prev(MergeAll(xs[..i]), k))) < Measure(xs)
  {
    var o0 := MergeAll(xs[..i]);
    MeasureAtLeast(xs, i);
    DepthOfMember(xs[i], k);
    if k in o0 && o0[k].Obj? {
      forall j | 0 <= j < i ensures Depth(Obj(xs[..i][j])) <= Measure(xs) {
        assert xs[..i][j] == xs[j];
        MeasureAtLeast(xs, j);
      }
      DepthMergeAll(xs[..i], Measure(xs));
      DepthOfMember(o0, k);
    } else {
      DepthBelow(map[], 0);
    }
  }

  /** The recursive call inside step `i` works on shallower inputs. */
  lemma NestedShallower(xs: seq<Dict>, i: nat, k: string)
    requires i < |xs| && k in xs[i] && xs[i][k].Obj?
    ensures Measure([Prev(MergeAll(xs[..i]), k), xs[i][k].fields]) < Measure(xs)
  {
    PrevShallower(xs, i, k);
    MeasureAtLeast(xs, i);
    DepthOfMember(xs[i], k);
    MeasureAtMost([Prev(MergeAll(xs[..i]), k), xs[i][k].fields], Measure(xs) - 1);
  }

  /** The inner loop of `assign` has visited every key of `u`. */
  lemma FoldDone(o: Dict, o0: Dict, u: Dict)
    requires o.Keys == o0.Keys + u.Keys
    requires forall k :: k in o ==> o[k] == if k in u then MergeKey(o0, u, k) else o0[k]
    ensures o == MergeInto(o0, u)
  {
  }

  /**
   * `assign(*xs)`: a fresh dictionary `o`; for every input in order and every key of it,
   * a mapping is merged recursively with `assign(o.get(k, {}), v)`, anything else replaces.
   * The inputs are values and cannot be changed; the result is their left fold.
   */
  method Assign(xs: seq<Dict>) returns (o: Dict)
    requires Safe(xs)
    ensures o == MergeAll(xs)
    decreases Measure(xs), 2
  {
    o := map[];
    for i := 0 to |xs|
      invariant o == MergeAll(xs[..i])
    {
      assert xs[..i + 1][..i] == xs[..i];
      o := AssignStep(xs, i, o);
    }
    assert xs[..|xs|] == xs;
  }

  /** One pass of the outer loop of `assign`: input `i` merged, key by key, into `o`. */
  method AssignStep(xs: seq<Dict>, i: nat, o0: Dict) returns (o: Dict)
    requires Safe(xs) && i < |xs| && o0 == MergeAll(xs[..i])
    ensures o == MergeInto(o0, xs[i])
    decreases Measure(xs), 1
  {
    o := o0;
    var u := xs[i];
    var ks := u.Keys;
    while ks != {}
      invariant ks <= u.Keys
      invariant o.Keys == o0.Keys + (u.Keys - ks)
      invariant forall k :: k in o ==> o[k] == if k in u && k !in ks then MergeKey(o0, u, k) else o0[k]
      decreases ks
    {
      var k :| k in ks;
      var merged := AssignKey(xs, i, o0, o, k);
      o := o[k := merged];
      ks := ks - {k};
    }
    FoldDone(o, o0, u);
  }

  /**
   * The body of the inner loop of `assign` for key `k`, whose entry in `o` is still the one
   * of `o0`: a mapping is merged into `o.get(k, {})`, anything else replaces.
   */
  method AssignKey(xs: seq<Dict>, i: nat, o0: Dict, o: Dict, k: string) returns (merged: Value)
    requires Safe(xs) && i < |xs| && o0 == MergeAll(xs[..i]) && k in xs[i]
    requires (k in o <==> k in o0) && (k in o ==> o[k] == o0[k])
    ensures merged == MergeKey(o0, xs[i], k)
    decreases Measure(xs), 0
  {
    var v := xs[i][k];
    if v.Obj? {
      NestedSafe(xs, i, k);
      NestedShallower(xs, i, k);
      var prev := if k in o then o[k].fields else map[];
      var sub := Assign([prev, v.fields]);
      MergeTwo(prev, v.fields);
      merged := Obj(sub);
    } else {
      merged := v;
    }
  }
}
