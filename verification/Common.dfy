/** Optional values, shared by every module. */
module Options {
  datatype Option<+T> = None | Some(value: T)
}

/** Counting, shared by the invariants that count things. */
module Counting {
  /** One for a fact that holds, zero otherwise. */
  function B(b: bool): (n: nat) { if b then 1 else 0 }

  lemma {:induction false} SubsetSize(a: set<nat>, b: set<nat>)
    requires a <= b
    ensures |a| <= |b| && (|a| == |b| ==> a == b)
  {
    if a != {} {
      var x :| x in a;
      SubsetSize(a - {x}, b - {x});
    } else if |b| == 0 {
      assert b == {};
    }
  }

  ghost function Pick<K>(m: map<K, nat>): (k: K)
    requires m != map[]
    ensures k in m
  {
    var k :| k in m; k
  }

  /** The sum of a map's values. */
  ghost function Sum<K>(m: map<K, nat>): (n: nat)
    decreases |m|
  {
    if m == map[] then 0
    else
      var k := Pick(m);
      SmallerMap(m, k);
      m[k] + Sum(m - {k})
  }

  lemma SmallerMap<K>(m: map<K, nat>, k: K)
    requires k in m
    ensures |m - {k}| == |m| - 1
  {
    assert (m - {k}).Keys == m.Keys - {k};
    assert |m.Keys| == |m| && |(m - {k}).Keys| == |m - {k}|;
  }

  lemma {:induction false} SumSplit<K>(m: map<K, nat>, k: K)
    requires k in m
    ensures Sum(m) == m[k] + Sum(m - {k})
    decreases |m|
  {
    var p := Pick(m);
    if p != k {
      SmallerMap(m, p);
      SmallerMap(m, k);
      SumSplit(m - {p}, k);
      SumSplit(m - {k}, p);
      assert m - {p} - {k} == m - {k} - {p};
    }
  }

  /** Changing one entry changes the sum by the difference. */
  lemma SumUpdate<K>(m: map<K, nat>, k: K, v: nat)
    ensures Sum(m[k := v]) + (if k in m then m[k] else 0) == Sum(m) + v
  {
    var m' := m[k := v];
    SumSplit(m', k);
    if k in m {
      SumSplit(m, k);
      assert m' - {k} == m - {k};
    } else {
      assert m' - {k} == m;
    }
  }
}

/** Finite continuations of a transition system. */
module Paths {
  /** Taking `steps` one after the other from `s` leads to `s'`. */
  ghost predicate Leads<S(!new), L>(next: (S, L, S) -> bool, s: S, steps: seq<L>, s': S)
    decreases |steps|
  {
    if steps == [] then s' == s
    else exists m :: next(s, steps[0], m) && Leads(next, m, steps[1..], s')
  }

  lemma LeadsNowhere<S(!new), L>(next: (S, L, S) -> bool, s: S)
    ensures Leads(next, s, [], s)
  {
  }

  lemma LeadsByOne<S(!new), L>(next: (S, L, S) -> bool, s: S, step: L, s': S)
    requires next(s, step, s')
    ensures Leads(next, s, [step], s')
  {
    assert [step][1..] == [];
    assert Leads(next, s', [step][1..], s');
  }

  lemma {:induction false} LeadsOn<S(!new), L>(
      next: (S, L, S) -> bool, s: S, a: seq<L>, m: S, b: seq<L>, s': S)
    requires Leads(next, s, a, m) && Leads(next, m, b, s')
    ensures Leads(next, s, a + b, s')
    decreases |a|
  {
    if a == [] {
      assert a + b == b;
    } else {
      var n :| next(s, a[0], n) && Leads(next, n, a[1..], m);
      LeadsOn(next, n, a[1..], m, b, s');
      assert (a + b)[0] == a[0] && (a + b)[1..] == a[1..] + b;
    }
  }

  lemma LeadsByFour<S(!new), L>(
      next: (S, L, S) -> bool, s: S, a: L, s1: S, b: L, s2: S, c: L, s3: S, d: L, s4: S)
    requires next(s, a, s1) && next(s1, b, s2) && next(s2, c, s3) && next(s3, d, s4)
    ensures Leads(next, s, [a, b, c, d], s4)
  {
    LeadsByOne(next, s, a, s1);
    LeadsByOne(next, s1, b, s2);
    LeadsByOne(next, s2, c, s3);
    LeadsByOne(next, s3, d, s4);
    LeadsOn(next, s2, [c], s3, [d], s4);
    LeadsOn(next, s1, [b], s2, [c] + [d], s4);
    LeadsOn(next, s, [a], s1, [b] + ([c] + [d]), s4);
    assert [a, b, c, d] == [a] + ([b] + ([c] + [d]));
  }

  /** How often the state changes from index `i` to index `j`. */
  ghost function Changes<S>(states: seq<S>, i: nat, j: nat): (n: nat)
    requires j < |states|
    decreases j
  {
    if j <= i then 0 else Changes(states, i, j - 1) + if states[j] != states[j - 1] then 1 else 0
  }
}
