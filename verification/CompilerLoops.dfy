/** The compiler's loops over contracts, proved to compute the functions the laws are about. */
module CompilerLoops {
  import opened Basics
  import opened Lexicographic
  import opened Ordering
  import opened Compiler
  import opened CapabilityLaws
  import opened CompilerLaws
  import opened CompilerTheorems

  function Get<T>(m: map<string, seq<T>>, name: string): seq<T> { if name in m then m[name] else [] }

  function Append<T>(m: map<string, seq<T>>, name: string, x: T): map<string, seq<T>> { m[name := Get(m, name) + [x]] }

  // ---------------------------------------------------------------- capabilities

  lemma AppendGet<T>(m: map<string, seq<T>>, name: string, x: T)
    ensures forall n :: Get(Append(m, name, x), n) == if n == name then Get(m, n) + [x] else Get(m, n)
  {}

  lemma ProvisionsNone(c: Contract)
    ensures forall name :: ProvisionsOf(c, 0, name) == []
  {}

  lemma ProvisionsStep(c: Contract, j: nat)
    requires j < |c.offers|
    ensures forall name ::
            ProvisionsOf(c, j + 1, name) == ProvisionsOf(c, j, name)
                + (if c.offers[j].name == name then [Provision(c, j)] else [])
  {}

  /** Files what one contract offers under its capability names. */
  method FileOffers(known: map<string, seq<Provision>>, c: Contract) returns (providers: map<string, seq<Provision>>)
    ensures forall name :: Get(providers, name) == Get(known, name) + ProvisionsOf(c, |c.offers|, name)
  {
    hide Get, Append, ProvisionsOf;
    ProvisionsNone(c);
    providers := known;
    for j := 0 to |c.offers|
      invariant forall name :: Get(providers, name) == Get(known, name) + ProvisionsOf(c, j, name)
    {
      AppendGet(providers, c.offers[j].name, Provision(c, j));
      ProvisionsStep(c, j);
      providers := Append(providers, c.offers[j].name, Provision(c, j));
    }
  }

  /** The providers of each capability name, in contract order. */
  method ProvidersByName(cs: seq<Contract>) returns (providers: map<string, seq<Provision>>)
    ensures forall name :: Get(providers, name) == Candidates(cs, name)
  {
    hide ProvisionsOf;
    providers := map[];
    for i := 0 to |cs|
      invariant forall name :: Get(providers, name) == Candidates(cs[..i], name)
    {
      assert cs[..i + 1][..i] == cs[..i];
      hide Get;
      providers := FileOffers(providers, cs[i]);
    }
    assert cs[..|cs|] == cs;
  }

  lemma {:induction false} FailurePersists(lib: Library, cs: seq<Contract>, ds: seq<Demand>, more: seq<Demand>)
    requires BindAll(lib, cs, ds).Err?
    ensures BindAll(lib, cs, ds + more) == BindAll(lib, cs, ds)
  {
    if more == [] { assert ds + more == ds; }
    else {
      var before := more[..|more| - 1];
      FailurePersists(lib, cs, ds, before);
      assert (ds + more)[..|ds + more| - 1] == ds + before;
    }
  }

  lemma {:induction false} DemandsSplit(cs: seq<Contract>, i: nat, j: nat) returns (more: seq<Demand>)
    requires i < |cs| && j <= |cs[i].needs|
    ensures Demands(cs) == Demands(cs[..i]) + DemandsOf(cs[i], j) + more
  {
    DemandsOfAt(cs[i], j);
    DemandsOfAt(cs[i], |cs[i].needs|);
    var rest := DemandsOf(cs[i], |cs[i].needs|)[j..];
    assert DemandsOf(cs[i], |cs[i].needs|) == DemandsOf(cs[i], j) + rest;
    if i == |cs| - 1 {
      more := rest;
    } else {
      var before, last := cs[..|cs| - 1], cs[|cs| - 1];
      var m := DemandsSplit(before, i, j);
      assert before[..i] == cs[..i];
      more := m + DemandsOf(last, |last.needs|);
    }
  }

  lemma DependenciesSnoc(ids: set<string>, bs: seq<Binding>, b: Binding)
    requires b.consumer in ids
    ensures var g := Dependencies(ids, bs);
            Dependencies(ids, bs + [b]) == if b.provider != b.consumer then
                g[b.consumer := g[b.consumer] + {b.provider}] else g
  {
    var g, h := Dependencies(ids, bs), Dependencies(ids, bs + [b]);
    forall id | id in ids
      ensures h[id] == if id == b.consumer && b.provider != id then g[id] + {b.provider} else g[id]
    {
      assert forall x :: x in bs + [b] <==> x in bs || x == b;
    }
    assert h.Keys == g.Keys;
  }

  lemma BindSnoc(lib: Library, cs: seq<Contract>, ds: seq<Demand>, d: Demand)
    ensures BindAll(lib, cs, ds + [d]) ==
            match BindAll(lib, cs, ds)
            case Err(code) => Err(code)
            case Ok(bs) => match Choose(lib, cs, d.need) case Err(code) => Err(code) case Ok(p) => Ok(bs + [Bind(d, p)])
  {
    assert (ds + [d])[..|ds|] == ds;
  }

  /** One requirement: exactly one compatible candidate, or the error. */
  method Resolve(lib: Library, candidates: seq<Provision>, need: Capability) returns (r: Outcome<Provision>)
    ensures forall cs :: candidates == Candidates(cs, need.name) ==> r == Choose(lib, cs, need)
  {
    var compatible: seq<Provision> := [];
    for i := 0 to |candidates|
      invariant compatible == Compatible(lib, candidates[..i], need)
    {
      assert candidates[..i + 1][..i] == candidates[..i];
      if Suits(lib, candidates[i], need) { compatible := compatible + [candidates[i]]; }
    }
    assert candidates[..|candidates|] == candidates;
    if compatible == [] { return Err(if candidates != [] then IncompatibleCapability else MissingCapability); }
    if |compatible| != 1 { return Err(AmbiguousCapability); }
    return Ok(compatible[0]);
  }

  lemma DependencyKeys(ids: set<string>, bs: seq<Binding>)
    ensures Dependencies(ids, bs).Keys == ids
  {}

  lemma NoDependencies(ids: set<string>, g: Graph)
    requires g.Keys == ids && forall id :: id in g ==> g[id] == {}
    ensures Dependencies(ids, []) == g
  {
    var h := Dependencies(ids, []);
    forall id | id in ids ensures h[id] == g[id] { assert h[id] == {}; }
    assert h.Keys == g.Keys;
  }

  /** Binds the requirements of one contract. */
  method BindContract(lib: Library, cs: seq<Contract>, i: nat, providers: map<string, seq<Provision>>,
                      bound: seq<Binding>, graph: Graph)
    returns (r: Outcome<(seq<Binding>, Graph)>)
    requires i < |cs| && (forall name :: Get(providers, name) == Candidates(cs, name))
    requires BindAll(lib, cs, Demands(cs[..i])) == Ok(bound) && graph == Dependencies(Ids(cs), bound)
    ensures r.Ok? ==>
            BindAll(lib, cs, Demands(cs[..i + 1])) == Ok(r.value.0) && r.value.1 == Dependencies(Ids(cs), r.value.0)
    ensures r.Err? ==> BindAll(lib, cs, Demands(cs)) == Err(r.code)
  {
    hide Choose, Candidates, BindAll, Dependencies, Get;
    var c, bindings, dependencies := cs[i], bound, graph;
    assert c.id in Ids(cs);
    assert Demands(cs[..i]) + DemandsOf(c, 0) == Demands(cs[..i]);
    assert cs[..i + 1][..i] == cs[..i];
    assert Demands(cs[..i + 1]) == Demands(cs[..i]) + DemandsOf(c, |c.needs|);
    hide Demands, Ids;
    for j := 0 to |c.needs|
      invariant BindAll(lib, cs, Demands(cs[..i]) + DemandsOf(c, j)) == Ok(bindings)
                && dependencies == Dependencies(Ids(cs), bindings)
    {
      var need := c.needs[j];
      var chosen := Resolve(lib, Get(providers, need.name), need);
      ghost var ds, d := Demands(cs[..i]) + DemandsOf(c, j), Demand(c.id, need);
      assert Demands(cs[..i]) + DemandsOf(c, j + 1) == ds + [d];
      BindSnoc(lib, cs, ds, d);
      if chosen.Err? {
        ghost var more := DemandsSplit(cs, i, j + 1);
        FailurePersists(lib, cs, ds + [d], more);
        return Err(chosen.code);
      }
      var b := Bind(Demand(c.id, need), chosen.value);
      DependenciesSnoc(Ids(cs), bindings, b);
      DependencyKeys(Ids(cs), bindings);
      bindings := bindings + [b];
      if b.provider != b.consumer {
        dependencies := dependencies[b.consumer := dependencies[b.consumer] + {b.provider}];
      }
    }
    return Ok((bindings, dependencies));
  }

  /** Bindings and dependencies of all contracts, or the first requirement that cannot be met. */
  method ResolveCapabilities(lib: Library, cs: seq<Contract>) returns (r: Outcome<(seq<Binding>, Graph)>)
    ensures r == match BindAll(lib, cs, Demands(cs))
                 case Err(code) => Err(code)
                 case Ok(bs) => Ok((SortBy(bs, BindingKey), Dependencies(Ids(cs), bs)))
  {
    var bindings: seq<Binding> := [];
    var dependencies: Graph := map id | id in Ids(cs) :: {};
    NoDependencies(Ids(cs), dependencies);
    assert BindAll(lib, cs, Demands(cs[..0])) == Ok([]);
    hide Choose, Candidates, SortBy, BindAll, Dependencies, Demands;
    var providers := ProvidersByName(cs);
    for i := 0 to |cs|
      invariant BindAll(lib, cs, Demands(cs[..i])) == Ok(bindings) && dependencies == Dependencies(Ids(cs), bindings)
    {
      var bound := BindContract(lib, cs, i, providers, bindings, dependencies);
      if bound.Err? { return Err(bound.code); }
      bindings, dependencies := bound.value.0, bound.value.1;
    }
    assert cs[..|cs|] == cs;
    return Ok((SortBy(bindings, BindingKey), dependencies));
  }

  // ---------------------------------------------------------------- resources

  function NamesIn(claims: seq<Claim>): set<string> { set x | x in claims :: x.name }

  lemma NamesSnoc(claims: seq<Claim>, claim: Claim)
    ensures NamesIn([]) == {} && NamesIn(claims + [claim]) == NamesIn(claims) + {claim.name}
  {
    assert forall x :: x in claims + [claim] <==> x in claims || x == claim;
  }

  lemma ClaimsOfSnoc(id: string, claims: seq<Claim>, claim: Claim)
    ensures forall name :: ClaimsOf(id, [], name) == []
    ensures forall name ::
            ClaimsOf(id, claims + [claim], name) == ClaimsOf(id, claims, name)
                + (if claim.name == name then [Claimed(id, claim)] else [])
  {
    assert (claims + [claim])[..|claims|] == claims;
  }

  /** Files the claims of one contract under their resources. */
  method FileClaims(known: map<string, seq<Claimed>>, c: Contract) returns (claims: map<string, seq<Claimed>>)
    ensures forall name :: Get(claims, name) == Get(known, name) + ClaimsOf(c.id, c.resources, name)
    ensures claims.Keys == known.Keys + NamesIn(c.resources)
  {
    hide Get, NamesIn, ClaimsOf;
    claims := known;
    assert c.resources[..0] == [];
    NamesSnoc([], Claim("", "", None));
    ClaimsOfSnoc(c.id, [], Claim("", "", None));
    for j := 0 to |c.resources|
      invariant forall name :: Get(claims, name) == Get(known, name) + ClaimsOf(c.id, c.resources[..j], name)
      invariant claims.Keys == known.Keys + NamesIn(c.resources[..j])
    {
      var claim := c.resources[j];
      assert c.resources[..j + 1] == c.resources[..j] + [claim];
      ClaimsOfSnoc(c.id, c.resources[..j], claim);
      NamesSnoc(c.resources[..j], claim);
      AppendGet(claims, claim.name, Claimed(c.id, claim));
      claims := Append(claims, claim.name, Claimed(c.id, claim));
    }
    assert c.resources[..|c.resources|] == c.resources;
  }

  lemma ClaimedNamesSnoc(cs: seq<Contract>, c: Contract)
    ensures ClaimedNames(cs + [c]) == ClaimedNames(cs) + NamesIn(c.resources)
  {
    assert forall x :: x in cs + [c] <==> x in cs || x == c;
  }

  /** Who claims each resource, in contract order. */
  method ClaimsByName(cs: seq<Contract>) returns (claims: map<string, seq<Claimed>>)
    ensures (forall name :: Get(claims, name) == ClaimsOn(cs, name)) && claims.Keys == ClaimedNames(cs)
  {
    hide ClaimsOf;
    claims := map[];
    for i := 0 to |cs|
      invariant (forall name :: Get(claims, name) == ClaimsOn(cs[..i], name)) && claims.Keys == ClaimedNames(cs[..i])
    {
      assert cs[..i + 1][..i] == cs[..i] && cs[..i + 1] == cs[..i] + [cs[i]];
      ClaimedNamesSnoc(cs[..i], cs[i]);
      hide Get, ClaimedNames;
      claims := FileClaims(claims, cs[i]);
    }
    assert cs[..|cs|] == cs;
  }

  /** Ownership of all resources: three passes over the names in ascending order, then the result. */
  method Ownerships(cs: seq<Contract>) returns (r: Outcome<seq<Ownership>>)
    ensures r == ResolveResources(cs)
  {
    hide ClaimsOn, Ascending, ClaimedNames, ModeError, MediatorError, PresenceError, Owned;
    var claims := ClaimsByName(cs);
    var names := Ascending(claims.Keys);
    for i := 0 to |names|
      invariant forall k :: 0 <= k < i ==> !ModeError(ClaimsOn(cs, names[k]))
    {
      if ModeError(Get(claims, names[i])) { return Err(ResourceConflict); }
    }
    for i := 0 to |names|
      invariant forall k :: 0 <= k < i ==> !MediatorError(ClaimsOn(cs, names[k]))
    {
      if MediatorError(Get(claims, names[i])) { return Err(ResourceConflict); }
    }
    for i := 0 to |names|
      invariant forall k :: 0 <= k < i ==> !PresenceError(ClaimsOn(cs, names[k]))
    {
      if PresenceError(Get(claims, names[i])) { return Err(AuthorityViolation); }
    }
    var result: seq<Ownership> := [];
    for i := 0 to |names|
      invariant result == OwnedAll(cs, names[..i])
    {
      assert names[..i + 1][..i] == names[..i];
      var on := Get(claims, names[i]);
      if on != [] { result := result + [Owned(names[i], on)]; }
    }
    assert names[..|names|] == names;
    return Ok(result);
  }

  // ---------------------------------------------------------------- the whole compilation

  method CompileContracts(lib: Library, cs: seq<Contract>, runtime: string, version: string,
                          taxonomy: Option<seq<Rule>>)
    returns (r: Outcome<Plan>)
    ensures r == Compile(lib, cs, runtime, version, taxonomy)
  {
    hide SortBy, NormalizedAll, Known, ModesAllowed, Hosted, HostVersion, DuplicateIds;
    if cs == [] { return Err(InvalidContract); }
    var host := HostVersion(lib, runtime, version);
    if host == None { return Err(InvalidContract); }
    if DuplicateIds(cs) { return Err(DuplicatePlugin); }
    for i := 0 to |cs|
      invariant forall k :: 0 <= k < i ==> Hosted(lib, cs[k], runtime, host.value)
    {
      if !Hosted(lib, cs[i], runtime, host.value) { assert cs[i] in cs; return Err(IncompatibleHost); }
    }
    var normalized := SortBy(cs, ContractKey);
    if taxonomy.Some? {
      if exists c :: c in cs && !Known(taxonomy.value, c) { return Err(UnknownResource); }
      if exists c :: c in cs && !ModesAllowed(taxonomy.value, c) { return Err(InvalidResourceMode); }
      normalized := NormalizedAll(taxonomy.value, normalized);
    }
    PreparedShape(taxonomy, cs);
    assert normalized == Prepared(taxonomy, cs);
    r := Link(lib, normalized, runtime, host.value);
  }

  method Link(lib: Library, cs: seq<Contract>, runtime: string, version: string) returns (r: Outcome<Plan>)
    requires !DuplicateIds(cs)
    ensures r == Linked(lib, cs, runtime, version)
  {
    hide SortBy, BindAll, Demands, Kahn, ResolveResources, BindObligations, Arranged, AllGranted, Dependencies,
         DuplicateIds, Ids;
    if exists c :: c in cs && !AllGranted(c) { return Err(AuthorityViolation); }
    var resolved := ResolveCapabilities(lib, cs);
    if resolved.Err? { return Err(resolved.code); }
    var bindings, dependencies := resolved.value.0, resolved.value.1;
    GraphIsDeclared(lib, cs, BindAll(lib, cs, Demands(cs)).value);
    IdsCount(cs);
    DependencyKeys(Ids(cs), BindAll(lib, cs, Demands(cs)).value);
    var order := OrderContracts(dependencies);
    if order == None { return Err(DependencyCycle); }
    var resources := Ownerships(cs);
    if resources.Err? { return Err(resources.code); }
    var obligations := BindObligations(bindings, cs);
    if obligations == None { return Err(UnboundObligation); }
    return Ok(Plan(runtime, version, Arranged(cs, order.value), bindings, resources.value,
                   SortBy(obligations.value, ObligationKey)));
  }
}
