/**
 * Building lists and dicts in a loop: `lst.append(f(x))` for every `x`, and
 * `d[k] = v` for every pair, where the later assignment to a key wins.
 */
module Assoc {
  import opened Results

  /** Apply `f` to every element, in order; None as soon as one application fails. */
  function Traverse<A, B>(f: A -> Option<B>, s: seq<A>): Option<seq<B>> {
    if s == [] then Some([])
    else
      var init := Traverse(f, s[..|s| - 1]);
      var last := f(s[|s| - 1]);
      if init.Some? && last.Some? then Some(init.value + [last.value]) else None
  }

  /** The traversal succeeds exactly when every application does, and then holds their results in order. */
  lemma {:induction false} TraverseSpec<A, B>(f: A -> Option<B>, s: seq<A>)
    ensures Traverse(f, s).Some? <==> forall i :: 0 <= i < |s| ==> f(s[i]).Some?
    ensures Traverse(f, s).Some? ==>
      |Traverse(f, s).value| == |s| && forall i :: 0 <= i < |s| ==> Traverse(f, s).value[i] == f(s[i]).value
  {
    if s != [] {
      var init := s[..|s| - 1];
      TraverseSpec(f, init);
      assert forall i :: 0 <= i < |init| ==> init[i] == s[i];
    }
  }

  /** One more element: what the next loop iteration does. */
  lemma TraverseSnoc<A, B>(f: A -> Option<B>, s: seq<A>, x: A)
    ensures Traverse(f, s + [x]) ==
      if Traverse(f, s).Some? && f(x).Some? then Some(Traverse(f, s).value + [f(x).value]) else None
  {
    assert (s + [x])[..|s + [x]| - 1] == s;
  }

  /** The loop step over a prefix: element `i` is processed after `s[..i]`. */
  lemma TraverseStep<A, B>(f: A -> Option<B>, s: seq<A>, i: nat)
    requires i < |s|
    ensures Traverse(f, s[..i + 1]) ==
      if Traverse(f, s[..i]).Some? && f(s[i]).Some? then Some(Traverse(f, s[..i]).value + [f(s[i]).value]) else None
  {
    assert s[..i + 1] == s[..i] + [s[i]];
    TraverseSnoc(f, s[..i], s[i]);
  }

  /** The elements of `s` that satisfy `p`, in order. */
  function Filter<T>(p: T -> bool, s: seq<T>): seq<T> {
    if s == [] then []
    else Filter(p, s[..|s| - 1]) + (if p(s[|s| - 1]) then [s[|s| - 1]] else [])
  }

  /** An element is kept exactly when it occurs in `s` and satisfies `p`. */
  lemma {:induction false} FilterSpec<T>(p: T -> bool, s: seq<T>, x: T)
    ensures x in Filter(p, s) <==> x in s && p(x)
  {
    if s != [] {
      var init := s[..|s| - 1];
      FilterSpec(p, init, x);
      assert s == init + [s[|s| - 1]];
    }
  }

  lemma FilterSnoc<T>(p: T -> bool, s: seq<T>, x: T)
    ensures Filter(p, s + [x]) == Filter(p, s) + (if p(x) then [x] else [])
  {
    assert (s + [x])[..|s + [x]| - 1] == s;
  }

  /** One failing element makes the whole traversal fail. */
  lemma TraverseFails<A, B>(f: A -> Option<B>, s: seq<A>, i: nat)
    requires i < |s| && f(s[i]).None?
    ensures Traverse(f, s).None?
  {
    TraverseSpec(f, s);
  }

  /** The dict left by assigning every pair of `ps` in order. */
  function ToMap<K, V>(ps: seq<(K, V)>): map<K, V> {
    if ps == [] then map[]
    else ToMap(ps[..|ps| - 1])[ps[|ps| - 1].0 := ps[|ps| - 1].1]
  }

  /** The keys of the dict are exactly the keys of the pairs. */
  lemma {:induction false} ToMapKeys<K, V>(ps: seq<(K, V)>, k: K)
    ensures k in ToMap(ps) <==> exists i :: 0 <= i < |ps| && ps[i].0 == k
  {
    if ps != [] {
      var init := ps[..|ps| - 1];
      ToMapKeys(init, k);
      if exists i :: 0 <= i < |init| && init[i].0 == k {
        var i :| 0 <= i < |init| && init[i].0 == k;
        assert ps[i] == init[i];
      }
      if exists i :: 0 <= i < |ps| && ps[i].0 == k {
        var i :| 0 <= i < |ps| && ps[i].0 == k;
        if i < |init| {
          assert init[i] == ps[i];
        }
      }
    }
  }

  lemma ToMapSnoc<K, V>(ps: seq<(K, V)>, p: (K, V))
    ensures ToMap(ps + [p]) == ToMap(ps)[p.0 := p.1]
  {
    assert (ps + [p])[..|ps + [p]| - 1] == ps;
  }

  /** The dict of a list that may have failed to build. */
  function ToMapOpt<K, V>(ps: Option<seq<(K, V)>>): Option<map<K, V>> {
    if ps.Some? then Some(ToMap(ps.value)) else None
  }

  /** A second assignment to a key replaces the first. */
  lemma UpdateTwice<K, V>(m: map<K, V>, k: K, a: V, b: V)
    ensures m[k := a][k := b] == m[k := b]
  {
  }

  /** A key is bound to the value of its LAST pair: a later duplicate overwrites an earlier one. */
  lemma {:induction false} LastWins<K, V>(ps: seq<(K, V)>, j: nat)
    requires j < |ps|
    requires forall k :: j < k < |ps| ==> ps[k].0 != ps[j].0
    ensures ps[j].0 in ToMap(ps) && ToMap(ps)[ps[j].0] == ps[j].1
  {
    if j < |ps| - 1 {
      LastWins(ps[..|ps| - 1], j);
      ToMapSnoc(ps[..|ps| - 1], ps[|ps| - 1]);
      assert ps[..|ps| - 1] + [ps[|ps| - 1]] == ps;
    }
  }

  /** A key is in the dict of a traversal exactly when some element maps to it. */
  lemma TraverseKeys<A, K, V>(f: A -> Option<(K, V)>, s: seq<A>, k: K)
    requires Traverse(f, s).Some?
    ensures k in ToMap(Traverse(f, s).value) <==> exists j :: 0 <= j < |s| && f(s[j]).Some? && f(s[j]).value.0 == k
  {
    TraverseSpec(f, s);
    var ps := Traverse(f, s).value;
    ToMapKeys(ps, k);
    if k in ToMap(ps) {
      var j :| 0 <= j < |ps| && ps[j].0 == k;
      assert f(s[j]).value == ps[j];
    }
    if exists j :: 0 <= j < |s| && f(s[j]).Some? && f(s[j]).value.0 == k {
      var j :| 0 <= j < |s| && f(s[j]).Some? && f(s[j]).value.0 == k;
      assert ps[j] == f(s[j]).value;
    }
  }

  /** The last element that maps to a key decides that key's value in the dict. */
  lemma TraverseLastWins<A, K, V>(f: A -> Option<(K, V)>, s: seq<A>, j: nat)
    requires forall k :: 0 <= k < |s| ==> f(s[k]).Some?
    requires j < |s|
    requires forall k :: j < k < |s| ==> f(s[k]).value.0 != f(s[j]).value.0
    ensures Traverse(f, s).Some?
    ensures var m := ToMap(Traverse(f, s).value);
      f(s[j]).value.0 in m && m[f(s[j]).value.0] == f(s[j]).value.1
  {
    TraverseSpec(f, s);
    var ps := Traverse(f, s).value;
    forall k | j < k < |ps| ensures ps[k].0 != ps[j].0 {
      assert ps[k] == f(s[k]).value;
    }
    LastWins(ps, j);
  }

  /** A key is in the dict of the kept pairs exactly when some element maps to a kept pair with that key. */
  lemma FilterTraverseKeys<A, K, V>(f: A -> Option<(K, V)>, p: ((K, V)) -> bool, s: seq<A>, k: K)
    requires Traverse(f, s).Some?
    ensures k in ToMap(Filter(p, Traverse(f, s).value))
        <==> exists j :: 0 <= j < |s| && f(s[j]).Some? && f(s[j]).value.0 == k && p(f(s[j]).value)
  {
    TraverseSpec(f, s);
    var ps := Traverse(f, s).value;
    var kept := Filter(p, ps);
    ToMapKeys(kept, k);
    if k in ToMap(kept) {
      var i :| 0 <= i < |kept| && kept[i].0 == k;
      FilterSpec(p, ps, kept[i]);
      var j :| 0 <= j < |ps| && ps[j] == kept[i];
      assert f(s[j]).value == ps[j];
    }
    if exists j :: 0 <= j < |s| && f(s[j]).Some? && f(s[j]).value.0 == k && p(f(s[j]).value) {
      var j :| 0 <= j < |s| && f(s[j]).Some? && f(s[j]).value.0 == k && p(f(s[j]).value);
      FilterSpec(p, ps, ps[j]);
      var i :| 0 <= i < |kept| && kept[i] == ps[j];
    }
  }

  /** The keys of `ps`, each once, in the order of first insertion (the order a dict prints them in). */
  function FirstKeys<K(==,!new), V>(ps: seq<(K, V)>): (ks: seq<K>)
    ensures forall k :: k in ks <==> k in ToMap(ps)
    ensures forall i, j :: 0 <= i < j < |ks| ==> ks[i] != ks[j]
  {
    if ps == [] then []
    else
      var ks0 := FirstKeys(ps[..|ps| - 1]);
      ToMapSnoc(ps[..|ps| - 1], ps[|ps| - 1]);
      assert ps[..|ps| - 1] + [ps[|ps| - 1]] == ps;
      if ps[|ps| - 1].0 in ks0 then ks0 else ks0 + [ps[|ps| - 1].0]
  }
}
