/** Options, duplicate-free lists and order-keeping filters: the vocabulary shared by the other modules. */
module Collections {

  datatype Option<+T> = None | Some(value: T)

  function Elems<F>(fs: seq<F>): set<F> {
    set f | f in fs
  }

  predicate Distinct<F(==)>(fs: seq<F>) {
    forall i, j | 0 <= i < j < |fs| :: fs[i] != fs[j]
  }

  /** The sublist of the elements that satisfy keep, in the order of fs. */
  ghost function Pick<F>(fs: seq<F>, keep: F -> bool): (r: seq<F>)
    ensures |r| <= |fs|
    ensures forall x | x in r :: x in fs && keep(x)
    ensures forall x | x in fs && keep(x) :: x in r
  {
    if fs == [] then []
    else
      var rest := Pick(fs[..|fs| - 1], keep);
      if keep(fs[|fs| - 1]) then rest + [fs[|fs| - 1]] else rest
  }

  lemma {:induction false} PickDistinct<F>(fs: seq<F>, keep: F -> bool)
    requires Distinct(fs)
    ensures Distinct(Pick(fs, keep))
    ensures |Pick(fs, keep)| == |set f | f in fs && keep(f)|
  {
    if fs == [] {
      assert (set f | f in fs && keep(f)) == {};
    } else {
      var n := |fs| - 1;
      var rest, x := fs[..n], fs[n];
      PickDistinct(rest, keep);
      KeptPlus(fs, rest, x, keep);
    }
  }

  lemma KeptPlus<F>(fs: seq<F>, rest: seq<F>, x: F, keep: F -> bool)
    requires fs == rest + [x] && x !in rest
    ensures |set f | f in fs && keep(f)| == |set f | f in rest && keep(f)| + if keep(x) then 1 else 0
  {
    var s := set f | f in rest && keep(f);
    assert (set f | f in fs && keep(f)) == if keep(x) then s + {x} else s;
  }

  lemma {:induction false} PickAgrees<F>(fs: seq<F>, p: F -> bool, q: F -> bool)
    requires forall x | x in fs :: p(x) == q(x)
    ensures Pick(fs, p) == Pick(fs, q)
  {
    if fs != [] {
      PickAgrees(fs[..|fs| - 1], p, q);
    }
  }

  /** A filter never reorders: of two kept elements, the earlier one is in every prefix that has the later one. */
  lemma {:induction false} PickKeepsOrder<F>(fs: seq<F>, keep: F -> bool, i: nat, j: nat, k: nat)
    requires Distinct(fs) && i < j < |fs| && keep(fs[i])
    requires k <= |Pick(fs, keep)| && fs[j] in Pick(fs, keep)[..k]
    ensures fs[i] in Pick(fs, keep)[..k]
  {
    var n := |fs| - 1;
    var rest := Pick(fs[..n], keep);
    if j == n {
      assert fs[n] !in rest;
      assert k == |rest| + 1 && Pick(fs, keep)[..k] == rest + [fs[n]];
      assert fs[i] in fs[..n];
    } else {
      assert fs[..n][i] == fs[i] && fs[..n][j] == fs[j];
      var k' := if k <= |rest| then k else |rest|;
      assert fs[j] != fs[n];
      assert Pick(fs, keep)[..k'] == rest[..k'];
      assert fs[j] in rest[..k'];
      PickKeepsOrder(fs[..n], keep, i, j, k');
    }
  }

  lemma {:induction false} PickAll<F>(fs: seq<F>, keep: F -> bool)
    requires forall x | x in fs :: keep(x)
    ensures Pick(fs, keep) == fs
  {
    if fs != [] {
      var n := |fs| - 1;
      PickAll(fs[..n], keep);
      assert fs[n] in fs && fs == fs[..n] + [fs[n]];
    }
  }

  lemma {:induction false} PickNone<F>(fs: seq<F>, keep: F -> bool)
    requires forall x | x in fs :: !keep(x)
    ensures Pick(fs, keep) == []
  {
    if fs != [] {
      PickNone(fs[..|fs| - 1], keep);
    }
  }

  /** Filtering out just the head of a list leaves its tail. */
  lemma {:induction false} PickTail<F>(fs: seq<F>, keep: F -> bool)
    requires fs != [] && !keep(fs[0])
    requires forall x | x in fs[1..] :: keep(x)
    ensures Pick(fs, keep) == fs[1..]
  {
    var n := |fs| - 1;
    if n > 0 {
      assert fs[n] == fs[1..][n - 1];
      assert fs[..n][1..] == fs[1..n] && fs[1..n] + [fs[n]] == fs[1..];
      assert forall x | x in fs[1..n] :: x in fs[1..];
      PickTail(fs[..n], keep);
    }
  }

  lemma PickPlus<F>(fs: seq<F>, x: F, keep: F -> bool)
    ensures Pick(fs + [x], keep) == if keep(x) then Pick(fs, keep) + [x] else Pick(fs, keep)
  {
    assert (fs + [x])[..|fs|] == fs;
  }

  lemma {:induction false} PickTwice<F>(fs: seq<F>, p: F -> bool, q: F -> bool, both: F -> bool)
    requires forall x | x in fs :: both(x) == (p(x) && q(x))
    ensures Pick(Pick(fs, p), q) == Pick(fs, both)
  {
    if fs != [] {
      var n := |fs| - 1;
      PickTwice(fs[..n], p, q, both);
      if p(fs[n]) {
        PickPlus(Pick(fs[..n], p), fs[n], q);
      }
    }
  }

  /** A one-to-one map into u has no more keys than u has elements. */
  lemma {:induction false} InjectiveCard<K, V>(m: map<K, V>, u: set<V>)
    requires forall k | k in m :: m[k] in u
    requires forall j, k | j in m && k in m && j != k :: m[j] != m[k]
    ensures |m.Keys| <= |u|
    decreases m.Keys
  {
    if m.Keys != {} {
      var k :| k in m.Keys;
      var rest := m - {k};
      assert rest.Keys == m.Keys - {k};
      InjectiveCard(rest, u - {m[k]});
    }
  }

  lemma DistinctCard<F>(fs: seq<F>)
    requires Distinct(fs)
    ensures |Elems(fs)| == |fs|
  {
    PickDistinct(fs, (f: F) => true);
    PickAll(fs, (f: F) => true);
    assert Elems(fs) == set f | f in fs && ((f: F) => true)(f);
  }
}
