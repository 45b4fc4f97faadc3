/** Dependency ordering of contracts: Kahn's algorithm over a least-first ready heap
    (`_order_contracts` in src/vllm_hust_ext/contract_compiler.py). */
module Ordering {
  import opened Basics
  import opened Lexicographic

  /** Each consumer's providers. */
  type Graph = map<string, set<string>>

  predicate Closed(g: Graph) { forall n :: n in g ==> g[n] <= g.Keys }

  /** A walk that returns to its start; each node depends on the next. */
  predicate Cycle(g: Graph, c: seq<string>) {
    && c != [] && (forall i :: 0 <= i < |c| ==> c[i] in g)
    && (forall i :: 0 <= i < |c| - 1 ==> c[i + 1] in g[c[i]])
    && c[0] in g[c[|c| - 1]]
  }

  ghost predicate Cyclic(g: Graph) { exists c :: Cycle(g, c) }

  predicate Distinct(s: seq<string>) { forall i, j :: 0 <= i < j < |s| ==> s[i] != s[j] }

  function Elements(s: seq<string>): set<string> { set i | 0 <= i < |s| :: s[i] }

  /** An arrangement of `rest` with every provider before its consumers. */
  ghost predicate IsOrder(g: Graph, rest: set<string>, t: seq<string>)
    requires rest <= g.Keys
  {
    && Distinct(t) && Elements(t) == rest
    && forall i :: 0 <= i < |t| ==> g[t[i]] * rest <= Elements(t[..i])
  }

  function Ready(g: Graph, rest: set<string>): set<string>
    requires rest <= g.Keys
  {
    set n | n in rest && g[n] !! rest
  }

  /** Repeatedly places the least node none of whose providers is left. */
  function Kahn(g: Graph, rest: set<string>): seq<string>
    requires rest <= g.Keys
    decreases |rest|
  {
    var ready := Ready(g, rest);
    if ready == {} then [] else [Least(ready)] + Kahn(g, rest - {Least(ready)})
  }

  // ---------------------------------------------------------------- what is placed

  lemma {:induction false} KahnPlaces(g: Graph, rest: set<string>)
    requires rest <= g.Keys
    ensures var k := Kahn(g, rest);
            Distinct(k) && Elements(k) <= rest && |k| <= |rest| && (|k| == |rest| <==> Elements(k) == rest)
    decreases |rest|
  {
    if Ready(g, rest) != {} {
      var m := Least(Ready(g, rest));
      KahnPlaces(g, rest - {m});
      var tail := Kahn(g, rest - {m});
      ElementsCons(m, tail);
      assert Kahn(g, rest) == [m] + tail;
      assert rest == (rest - {m}) + {m};
      forall j | 0 <= j < |tail| ensures tail[j] != m { assert tail[j] in Elements(tail); }
      if Elements([m] + tail) == rest {
        assert Elements(tail) == rest - {m};
      }
    } else if rest != {} {
      assert Elements([]) != rest;
    }
  }

  lemma ElementsCons(m: string, s: seq<string>)
    ensures Elements([m] + s) == {m} + Elements(s)
  {
    forall x | x in Elements(s) ensures x in Elements([m] + s) {
      var i :| 0 <= i < |s| && s[i] == x;
      assert ([m] + s)[i + 1] == x;
    }
    assert ([m] + s)[0] == m;
  }

  /** Providers come first, as far as they are among `rest`. */
  lemma {:induction false} KahnProvidersFirst(g: Graph, rest: set<string>, i: nat)
    requires rest <= g.Keys && i < |Kahn(g, rest)|
    ensures Kahn(g, rest)[i] in rest
    ensures g[Kahn(g, rest)[i]] * rest <= Elements(Kahn(g, rest)[..i])
    decreases |rest|
  {
    var m := Least(Ready(g, rest));
    var tail := Kahn(g, rest - {m});
    assert Kahn(g, rest) == [m] + tail;
    if i > 0 {
      KahnProvidersFirst(g, rest - {m}, i - 1);
      assert Kahn(g, rest)[..i] == [m] + tail[..i - 1];
      ElementsCons(m, tail[..i - 1]);
    }
  }

  // ---------------------------------------------------------------- cycles

  lemma CycleGoesOn(g: Graph, c: seq<string>)
    requires Cycle(g, c)
    ensures forall x :: x in Elements(c) ==> x in g && g[x] * Elements(c) != {}
  {
    forall x | x in Elements(c) ensures x in g && g[x] * Elements(c) != {} {
      var i :| 0 <= i < |c| && c[i] == x;
      var d := if i < |c| - 1 then c[i + 1] else c[0];
      assert d in g[x] * Elements(c);
    }
  }

  /** Nodes of a cycle are never placed. */
  lemma {:induction false} CycleBlocks(g: Graph, rest: set<string>, c: seq<string>)
    requires rest <= g.Keys && Cycle(g, c) && Elements(c) <= rest
    ensures |Kahn(g, rest)| < |rest|
    decreases |rest|
  {
    if Ready(g, rest) != {} {
      var m := Least(Ready(g, rest));
      CycleGoesOn(g, c);
      assert m !in Elements(c);
      CycleBlocks(g, rest - {m}, c);
      assert rest == (rest - {m}) + {m};
    } else {
      assert c[0] in Elements(c);
    }
  }

  /** A walk inside `rest` along dependencies, visiting no node twice. */
  predicate Walk(g: Graph, rest: set<string>, walk: seq<string>)
    requires rest <= g.Keys
  {
    && walk != [] && Distinct(walk) && Elements(walk) <= rest
    && forall i :: 0 <= i < |walk| - 1 ==> walk[i] in g && walk[i + 1] in g[walk[i]]
  }

  lemma {:induction false} DistinctCount(s: seq<string>)
    requires Distinct(s)
    ensures |Elements(s)| == |s|
  {
    if s != [] {
      var m, tail := s[0], s[1..];
      DistinctCount(tail);
      assert s == [m] + tail;
      ElementsCons(m, tail);
      assert m !in Elements(tail);
    }
  }

  lemma SubsetCount(a: set<string>, b: set<string>)
    requires a <= b
    ensures |a| <= |b| && (|a| == |b| ==> a == b)
  {
    var extra := b - a;
    assert b == a + extra;
    assert |b| == |a| + |extra|;
  }

  lemma ExtendWalk(g: Graph, rest: set<string>, walk: seq<string>, next: string)
    requires rest <= g.Keys && Walk(g, rest, walk) && next in rest && next in g[walk[|walk| - 1]]
             && next !in Elements(walk)
    ensures Walk(g, rest, walk + [next])
  {
    var w := walk + [next];
    forall i | 0 <= i < |walk| ensures w[i] != next { assert walk[i] in Elements(walk); }
    forall x | x in Elements(w) ensures x in rest {
      var i :| 0 <= i < |w| && w[i] == x;
      if i < |walk| { assert walk[i] in Elements(walk); }
    }
    forall i | 0 <= i < |w| - 1 ensures w[i] in g && w[i + 1] in g[w[i]] {
      assert w[i] == walk[i];
      assert walk[i] in Elements(walk);
    }
  }

  /** Where every node has a provider left, following providers finds a cycle. */
  lemma {:induction false} StuckHasCycle(g: Graph, rest: set<string>, walk: seq<string>)
    requires rest <= g.Keys && Ready(g, rest) == {} && Walk(g, rest, walk)
    ensures Cyclic(g)
    decreases |rest| - |walk|
  {
    var last := walk[|walk| - 1];
    assert last in Elements(walk);
    assert last !in Ready(g, rest);
    var next :| next in g[last] && next in rest;
    if next in Elements(walk) {
      var i :| 0 <= i < |walk| && walk[i] == next;
      var c := walk[i..];
      forall k | 0 <= k < |c| ensures c[k] in g { assert walk[i + k] in Elements(walk); }
      assert Cycle(g, c);
    } else {
      ExtendWalk(g, rest, walk, next);
      DistinctCount(walk + [next]);
      SubsetCount(Elements(walk + [next]), rest);
      StuckHasCycle(g, rest, walk + [next]);
    }
  }

  lemma {:induction false} IncompleteHasCycle(g: Graph, rest: set<string>)
    requires rest <= g.Keys && |Kahn(g, rest)| < |rest|
    ensures Cyclic(g)
    decreases |rest|
  {
    if Ready(g, rest) == {} {
      var x :| x in rest;
      ElementsCons(x, []);
      assert [x] + [] == [x];
      StuckHasCycle(g, rest, [x]);
    } else {
      var m := Least(Ready(g, rest));
      assert rest == (rest - {m}) + {m};
      IncompleteHasCycle(g, rest - {m});
    }
  }

  /** Everything is placed exactly when there is no cycle. */
  lemma KahnCompleteIffAcyclic(g: Graph)
    requires Closed(g)
    ensures |Kahn(g, g.Keys)| == |g.Keys| <==> !Cyclic(g)
  {
    KahnPlaces(g, g.Keys);
    if Cyclic(g) {
      var c :| Cycle(g, c);
      forall x | x in Elements(c) ensures x in g.Keys { var i :| 0 <= i < |c| && c[i] == x; }
      CycleBlocks(g, g.Keys, c);
    } else if |Kahn(g, g.Keys)| != |g.Keys| {
      IncompleteHasCycle(g, g.Keys);
    }
  }

  // ---------------------------------------------------------------- the least order

  lemma OrderTail(g: Graph, rest: set<string>, t: seq<string>)
    requires rest <= g.Keys && IsOrder(g, rest, t) && t != []
    ensures t[0] in Ready(g, rest) && IsOrder(g, rest - {t[0]}, t[1..])
  {
    var m, tail := t[0], t[1..];
    assert t == [m] + tail;
    ElementsCons(m, tail);
    assert t[..0] == [] && Elements([]) == {};
    assert m in Elements(t);
    forall j | 0 <= j < |tail| ensures tail[j] != m { assert tail[j] == t[j + 1]; }
    assert Elements(tail) == rest - {m};
    forall i | 0 <= i < |tail| ensures g[tail[i]] * (rest - {m}) <= Elements(tail[..i]) {
      assert t[i + 1] == tail[i] && t[..i + 1] == [m] + tail[..i];
      ElementsCons(m, tail[..i]);
    }
  }

  /** Of all orders, the one found is lexicographically least. */
  lemma {:induction false} KahnIsLeast(g: Graph, rest: set<string>, t: seq<string>)
    requires rest <= g.Keys && IsOrder(g, rest, t)
    ensures KeyLeq(Kahn(g, rest), t)
    decreases |rest|
  {
    if t == [] {
      assert rest == {};
    } else {
      OrderTail(g, rest, t);
      var m := Least(Ready(g, rest));
      assert Kahn(g, rest) == [m] + Kahn(g, rest - {m});
      if m == t[0] {
        KahnIsLeast(g, rest - {m}, t[1..]);
        assert t == [m] + t[1..];
      }
    }
  }

  /** When nothing is left over, the result is an order. */
  lemma KahnIsOrder(g: Graph)
    requires Closed(g) && |Kahn(g, g.Keys)| == |g.Keys|
    ensures IsOrder(g, g.Keys, Kahn(g, g.Keys))
  {
    KahnPlaces(g, g.Keys);
    forall i | 0 <= i < |Kahn(g, g.Keys)| ensures g[Kahn(g, g.Keys)[i]] * g.Keys <= Elements(Kahn(g, g.Keys)[..i]) {
      KahnProvidersFirst(g, g.Keys, i);
    }
  }

  // ---------------------------------------------------------------- the algorithm

  /** How many of a node's providers are left. */
  function Left(providers: set<string>, rest: set<string>): nat { |providers * rest| }

  lemma LeftAfter(providers: set<string>, rest: set<string>, x: string)
    requires x in rest
    ensures Left(providers, rest) == Left(providers, rest - {x}) + if x in providers then 1 else 0
  {
    if x in providers {
      assert providers * rest == providers * (rest - {x}) + {x};
    } else {
      assert providers * rest == providers * (rest - {x});
    }
  }

  lemma LeftZero(providers: set<string>, rest: set<string>)
    ensures Left(providers, rest) == 0 <==> providers !! rest
  {
    if providers !! rest { assert providers * rest == {}; }
    else { var x :| x in providers && x in rest; assert x in providers * rest; }
  }

  predicate Counts(g: Graph, rest: set<string>, indegree: map<string, nat>) {
    indegree.Keys == g.Keys && forall n :: n in g ==> indegree[n] == Left(g[n], rest)
  }

  lemma ReadyByCount(g: Graph, rest: set<string>, indegree: map<string, nat>, ready: set<string>)
    requires rest <= g.Keys && Counts(g, rest, indegree)
    requires forall n :: n in ready <==> n in rest && indegree[n] == 0
    ensures ready == Ready(g, rest)
  {
    hide Left;
    forall n | n in rest ensures indegree[n] == 0 <==> g[n] !! rest { LeftZero(g[n], rest); }
  }

  function WithConsumer(dependents: map<string, set<string>>, providers: set<string>, consumer: string): (r: map<string,
          set<string>>)
    ensures r.Keys == dependents.Keys
    ensures forall p, c :: p in r ==> (c in r[p] <==> c in dependents[p] || (c == consumer && p in providers))
  {
    map p | p in dependents :: if p in providers then dependents[p] + {consumer} else dependents[p]
  }

  /** The dependents of each provider. */
  method Dependents(g: Graph) returns (dependents: map<string, set<string>>)
    ensures dependents.Keys == g.Keys
    ensures forall p, c :: p in g ==> (c in dependents[p] <==> c in g && p in g[c])
  {
    dependents := map p | p in g :: {};
    var pending := g.Keys;
    while pending != {}
      invariant pending <= g.Keys && dependents.Keys == g.Keys
      invariant forall p, c :: p in dependents ==> (c in dependents[p] <==> c in g && c !in pending && p in g[c])
      decreases |pending|
    {
      var consumer :| consumer in pending;
      dependents := WithConsumer(dependents, g[consumer], consumer);
      pending := pending - {consumer};
    }
  }

  /** Lowers the counts of the placed node's dependents; those that reach zero become ready. */
  method Release(g: Graph, ghost rest: set<string>, x: string, dependents: set<string>, counts: map<string, nat>,
                 waiting: set<string>)
    returns (indegree: map<string, nat>, ready: set<string>)
    requires rest <= g.Keys && x in rest && Counts(g, rest, counts)
    requires forall c :: c in dependents <==> c in g && x in g[c]
    requires dependents <= rest - {x}
    requires forall n :: n in waiting <==> n in rest - {x} && counts[n] == 0
    ensures Counts(g, rest - {x}, indegree) && ready == Ready(g, rest - {x})
  {
    hide Left, Ready;
    ghost var after := rest - {x};
    indegree, ready := counts, waiting;
    var todo := dependents;
    forall n | n in g ensures counts[n] == Left(g[n], after) + if n in dependents then 1 else 0 {
      LeftAfter(g[n], rest, x);
    }
    while todo != {}
      invariant todo <= dependents && indegree.Keys == g.Keys
      invariant forall n :: n in g ==> indegree[n] == Left(g[n], after) + if n in todo then 1 else 0
      invariant forall n :: n in ready <==> n in after && indegree[n] == 0
      decreases |todo|
    {
      var d :| d in todo;
      indegree := indegree[d := indegree[d] - 1];
      if indegree[d] == 0 { ready := ready + {d}; }
      todo := todo - {d};
    }
    ReadyByCount(g, after, indegree, ready);
  }

  /** Nothing placed still waits for a provider. */
  predicate Settled(g: Graph, rest: set<string>) { forall n :: n in g && n !in rest ==> g[n] !! rest }

  lemma ReadyFacts(g: Graph, rest: set<string>, indegree: map<string, nat>, x: string)
    requires rest <= g.Keys && Counts(g, rest, indegree) && Settled(g, rest) && x in Ready(g, rest)
    ensures forall c :: c in g && x in g[c] ==> c in rest - {x}
    ensures forall n :: n in Ready(g, rest) <==> n in rest && indegree[n] == 0
    ensures Settled(g, rest - {x})
  {
    hide Left;
    forall n | n in rest ensures indegree[n] == 0 <==> g[n] !! rest { LeftZero(g[n], rest); }
  }

  lemma InitialCounts(g: Graph, indegree: map<string, nat>, ready: set<string>)
    requires Closed(g) && indegree.Keys == g.Keys && (forall n :: n in g ==> indegree[n] == |g[n]|)
    requires forall n :: n in ready <==> n in g && indegree[n] == 0
    ensures Counts(g, g.Keys, indegree) && ready == Ready(g, g.Keys)
  {
    forall n | n in g ensures indegree[n] == Left(g[n], g.Keys) { assert g[n] * g.Keys == g[n]; }
    ReadyByCount(g, g.Keys, indegree, ready);
  }

  /** The whole ordering: None reports a cycle. */
  method OrderContracts(g: Graph) returns (r: Option<seq<string>>)
    requires Closed(g)
    ensures r == if |Kahn(g, g.Keys)| == |g.Keys| then Some(Kahn(g, g.Keys)) else None
    ensures r == None <==> Cyclic(g)
    ensures r.Some? ==> IsOrder(g, g.Keys, r.value) && forall t :: IsOrder(g, g.Keys, t) ==> KeyLeq(r.value, t)
  {
    hide Counts, Ready, Settled, Closed, IsOrder, Cyclic;
    var dependents := Dependents(g);
    var indegree: map<string, nat> := map n | n in g :: |g[n]|;
    var ready := set n | n in g && indegree[n] == 0;
    var ordered: seq<string> := [];
    ghost var rest := g.Keys;
    InitialCounts(g, indegree, ready);
    assert Settled(g, rest) by { AllSettled(g); }
    while ready != {}
      invariant rest <= g.Keys && Counts(g, rest, indegree) && ready == Ready(g, rest) && Settled(g, rest)
      invariant Kahn(g, g.Keys) == ordered + Kahn(g, rest)
      decreases |rest|
    {
      var x := Least(ready);
      assert x in rest by { ReadyInside(g, rest); }
      ReadyFacts(g, rest, indegree, x);
      assert Kahn(g, rest) == [x] + Kahn(g, rest - {x});
      ordered := ordered + [x];
      indegree, ready := Release(g, rest, x, dependents[x], indegree, ready - {x});
      rest := rest - {x};
    }
    assert ordered == Kahn(g, g.Keys);
    r := if |ordered| != |g.Keys| then None else Some(ordered);
    KahnCompleteIffAcyclic(g);
    if r.Some? {
      KahnIsOrder(g);
      forall t | IsOrder(g, g.Keys, t) ensures KeyLeq(r.value, t) { KahnIsLeast(g, g.Keys, t); }
    }
  }

  lemma AllSettled(g: Graph)
    ensures Settled(g, g.Keys)
  {}

  lemma ReadyInside(g: Graph, rest: set<string>)
    requires rest <= g.Keys
    ensures Ready(g, rest) <= rest
  {}
}
