/** What a compiled plan contains, and the loops that compute it. */
module CompilerPlan {
  import opened Basics
  import opened Lexicographic
  import opened Ordering
  import opened Compiler
  import opened CapabilityLaws
  import opened ResourceLaws
  import opened CompilerLaws
  import opened CompilerTheorems

  // ---------------------------------------------------------------- order

  lemma {:induction false} ByIdFinds(cs: seq<Contract>, id: string)
    ensures id in Ids(cs) <==> ById(cs, id).Some?
    ensures ById(cs, id).Some? ==> ById(cs, id).value in cs && ById(cs, id).value.id == id
  {
    if cs != [] {
      var before, last := cs[..|cs| - 1], cs[|cs| - 1];
      ByIdFinds(before, id);
      assert cs == before + [last];
    }
  }

  lemma {:induction false} ArrangedAt(cs: seq<Contract>, ids: seq<string>)
    requires Elements(ids) <= Ids(cs)
    ensures |Arranged(cs, ids)| == |ids|
    ensures forall i :: 0 <= i < |ids| ==> Arranged(cs, ids)[i] in cs && Arranged(cs, ids)[i].id == ids[i]
  {
    hide ById, Ids;
    if ids != [] {
      var before, last := ids[..|ids| - 1], ids[|ids| - 1];
      forall x | x in Elements(before) ensures x in Elements(ids) {
        var i :| 0 <= i < |before| && before[i] == x;
        assert ids[i] == x;
      }
      ArrangedAt(cs, before);
      assert last in Elements(ids);
      ByIdFinds(cs, last);
    }
  }

  function IdsOf(cs: seq<Contract>): (r: seq<string>)
    ensures |r| == |cs| && forall i :: 0 <= i < |r| ==> r[i] == cs[i].id
  {
    if cs == [] then [] else IdsOf(cs[..|cs| - 1]) + [cs[|cs| - 1].id]
  }

  /** The order of a plan: all contracts, providers first, and lexicographically least among such orders. */
  ghost predicate Ordered(lib: Library, cs: seq<Contract>, ordered: seq<Contract>) {
    var g := DependencyGraph(lib, cs);
    && (forall c :: c in ordered ==> c in cs)
    && IsOrder(g, g.Keys, IdsOf(ordered)) && g.Keys == Ids(cs)
    && forall t :: IsOrder(g, g.Keys, t) ==> KeyLeq(IdsOf(ordered), t)
  }

  lemma PlanOrder(lib: Library, cs: seq<Contract>, bs: seq<Binding>)
    requires !DuplicateIds(cs) && BindAll(lib, cs, Demands(cs)) == Ok(bs)
    requires var g := Dependencies(Ids(cs), bs); |Kahn(g, g.Keys)| == |cs|
    ensures var g := Dependencies(Ids(cs), bs); Ordered(lib, cs, Arranged(cs, Kahn(g, g.Keys)))
  {
    hide BindAll, Demands, DuplicateIds, Kahn, DependencyGraph, Arranged, IsOrder, KeyLeq, Ids, IdsOf;
    var g := Dependencies(Ids(cs), bs);
    GraphIsDeclared(lib, cs, bs);
    IdsCount(cs);
    assert g.Keys == Ids(cs);
    var order := Kahn(g, g.Keys);
    KahnIsOrder(g);
    KahnPlaces(g, g.Keys);
    ArrangedAt(cs, order);
    var ordered := Arranged(cs, order);
    assert IdsOf(ordered) == order;
    forall c | c in ordered ensures c in cs { var i :| 0 <= i < |ordered| && ordered[i] == c; }
    forall t | IsOrder(g, g.Keys, t) ensures KeyLeq(order, t) { KahnIsLeast(g, g.Keys, t); }
  }

  // ---------------------------------------------------------------- the whole plan

  /** Each obligation of each contract, with the provider of the capability it speaks of. */
  ghost predicate BindsObligation(bindings: seq<Binding>, c: Contract, o: Obligation, x: ObligationBinding) {
    && x.id == c.id && x.obligation == o
    && (if o.direction == Provides then x.provider == c.id
        else
          exists b ::
            b in bindings && b.consumer == c.id && b.capability == o.capability && b.provider == x.provider)
  }

  ghost predicate Means(lib: Library, cs: seq<Contract>, plan: Plan) {
    && Ordered(lib, cs, plan.ordered)
    && Sorted(plan.bindings, BindingKey)
    && (forall b :: b in plan.bindings <==> exists c, j :: c in cs && 0 <= j < |c.needs| && IsBinding(lib, cs, c, j, b))
    && (forall o :: o in plan.resources ==> Represents(cs, o))
    && (forall i, j :: 0 <= i < j < |plan.resources| ==> Less(plan.resources[i].resource, plan.resources[j].resource))
    && (forall name :: name in ClaimedNames(cs) <==> exists o :: o in plan.resources && o.resource == name)
    && Sorted(plan.obligations, ObligationKey)
    && (forall x :: x in plan.obligations ==>
        exists c, o :: c in cs && o in c.obligations && BindsObligation(plan.bindings, c, o, x))
    && (forall c, o :: c in cs && o in c.obligations ==>
        exists x :: x in plan.obligations && BindsObligation(plan.bindings, c, o, x))
  }

  lemma OneObligation(bs: seq<Binding>, c: Contract, o: Obligation)
    requires BindObligation(bs, c.id, o).Some?
    ensures BindsObligation(bs, c, o, BindObligation(bs, c.id, o).value)
  {
    hide ProviderFor;
    ProviderForIff(bs, c.id, o.capability);
  }

  lemma PlanObligations(bs: seq<Binding>, cs: seq<Contract>)
    requires BindObligations(bs, cs).Some?
    ensures var os := SortBy(BindObligations(bs, cs).value, ObligationKey);
            && Sorted(os, ObligationKey)
            && (forall x :: x in os ==> exists c, o :: c in cs && o in c.obligations && BindsObligation(bs, c, o, x))
            && (forall c, o :: c in cs && o in c.obligations ==> exists x :: x in os && BindsObligation(bs, c, o, x))
  {
    hide BindObligations, SortBy, BindsObligation, BindObligation, Sorted;
    var unsorted := BindObligations(bs, cs).value;
    var os := SortBy(unsorted, ObligationKey);
    SortBySorted(unsorted, ObligationKey);
    SameItems(unsorted, os);
    ObligationsIff(bs, cs);
    forall x | x in os ensures exists c, o :: c in cs && o in c.obligations && BindsObligation(bs, c, o, x) {
      var c, o :| c in cs && o in c.obligations && BindObligation(bs, c.id, o) == Some(x);
      OneObligation(bs, c, o);
    }
    forall c, o | c in cs && o in c.obligations ensures exists x :: x in os && BindsObligation(bs, c, o, x) {
      OneObligation(bs, c, o);
      assert BindObligation(bs, c.id, o).value in unsorted;
    }
  }

  lemma PlanBindings(lib: Library, cs: seq<Contract>, bs: seq<Binding>)
    requires !DuplicateIds(cs) && BindAll(lib, cs, Demands(cs)) == Ok(bs)
    ensures var sorted := SortBy(bs, BindingKey);
            && Sorted(sorted, BindingKey)
            && (forall b :: b in sorted <==>
                exists c, j :: c in cs && 0 <= j < |c.needs| && IsBinding(lib, cs, c, j, b))
  {
    hide BindAll, Demands, DuplicateIds, SortBy, Sorted, IsBinding;
    SortBySorted(bs, BindingKey);
    SameItems(bs, SortBy(bs, BindingKey));
    forall b ensures b in bs <==> exists c, j :: c in cs && 0 <= j < |c.needs| && IsBinding(lib, cs, c, j, b) {
      BindingsIff(lib, cs, bs, b);
    }
  }

  lemma LinkedMeans(lib: Library, cs: seq<Contract>, runtime: string, version: string)
    requires !DuplicateIds(cs) && Linked(lib, cs, runtime, version).Ok?
    ensures Means(lib, cs, Linked(lib, cs, runtime, version).value)
  {
    hide BindAll, Demands, DuplicateIds, Kahn, Arranged, SortBy, Sorted, Ordered, ResolveResources, BindObligations,
         Represents, Dependencies;
    hide BindsObligation, IsBinding, ClaimedNames, AllGranted, Less;
    var bs := BindAll(lib, cs, Demands(cs)).value;
    PlanOrder(lib, cs, bs);
    PlanBindings(lib, cs, bs);
    PlanResources(cs);
    PlanObligations(SortBy(bs, BindingKey), cs);
  }

  /** A successful compilation: host as asked, and a plan that means the prepared contracts. */
  lemma CompiledPlanMeans(lib: Library, cs: seq<Contract>, runtime: string, version: string,
                          taxonomy: Option<seq<Rule>>)
    requires Compile(lib, cs, runtime, version, taxonomy).Ok?
    ensures var plan := Compile(lib, cs, runtime, version, taxonomy).value;
            && Means(lib, Prepared(taxonomy, cs), plan)
            && plan.runtime == runtime && Some(plan.version) == HostVersion(lib, runtime, version)
            && |plan.ordered| == |cs|
  {
    hide Compile, Linked, HostVersion, DuplicateIds, Hosted, Known, ModesAllowed, Declared, Prepared, Means;
    hide AllMet, Clash, Orphan, Unbound, AllGranted, Cyclic, DependencyGraph;
    CompileSucceedsIffAdmissible(lib, cs, runtime, version, taxonomy);
    CompilesPrepared(lib, cs, runtime, version, taxonomy);
    PreparedShape(taxonomy, cs);
    LinkedMeans(lib, Prepared(taxonomy, cs), runtime, HostVersion(lib, runtime, version).value);
    LinkedHost(lib, Prepared(taxonomy, cs), runtime, HostVersion(lib, runtime, version).value);
  }

  lemma LinkedHost(lib: Library, cs: seq<Contract>, runtime: string, version: string)
    requires Linked(lib, cs, runtime, version).Ok? && !DuplicateIds(cs)
    ensures var plan := Linked(lib, cs, runtime, version).value;
            plan.runtime == runtime && plan.version == version && |plan.ordered| == |cs|
  {
    hide BindAll, Demands, DuplicateIds, Kahn, Arranged, SortBy, ResolveResources, BindObligations, Dependencies,
         AllGranted;
    var bs := BindAll(lib, cs, Demands(cs)).value;
    var g := Dependencies(Ids(cs), bs);
    KahnPlaces(g, g.Keys);
    assert g.Keys == Ids(cs) by { DependencyKeys(cs, bs); }
    ArrangedAt(cs, Kahn(g, g.Keys));
  }

  lemma DependencyKeys(cs: seq<Contract>, bs: seq<Binding>)
    ensures Dependencies(Ids(cs), bs).Keys == Ids(cs)
  {}
}
