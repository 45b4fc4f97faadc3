/** The main theorems about compile_contracts. */
module CompilerTheorems {
  import opened Basics
  import opened Lexicographic
  import opened Ordering
  import opened Compiler
  import opened CapabilityLaws
  import opened ResourceLaws
  import opened CompilerLaws

  // ---------------------------------------------------------------- obligations

  /** An obligation on a requirement its contract does not declare. */
  predicate Undeclared(c: Contract, o: Obligation) {
    o.direction == Requires && forall k :: 0 <= k < |c.needs| ==> c.needs[k].name != o.capability
  }

  ghost predicate Unbound(cs: seq<Contract>) { exists c, o :: c in cs && o in c.obligations && Undeclared(c, o) }

  lemma {:induction false} ProviderForIff(bs: seq<Binding>, consumer: string, capability: string)
    ensures ProviderFor(bs, consumer, capability).Some? <==>
            exists b :: b in bs && b.consumer == consumer && b.capability == capability
    ensures ProviderFor(bs, consumer, capability).Some? ==>
              exists b :: b in bs && b.consumer == consumer && b.capability == capability
                  && ProviderFor(bs, consumer, capability) == Some(b.provider)
  {
    if bs != [] {
      var before, last := bs[..|bs| - 1], bs[|bs| - 1];
      ProviderForIff(before, consumer, capability);
      assert bs == before + [last];
    }
  }

  lemma {:induction false} ObligationsOfIff(bs: seq<Binding>, id: string, os: seq<Obligation>)
    ensures BindObligationsOf(bs, id, os).Some? <==> forall o :: o in os ==> BindObligation(bs, id, o).Some?
    ensures BindObligationsOf(bs, id, os).Some? ==>
              forall x :: x in BindObligationsOf(bs, id, os).value <==>
                  exists o :: o in os && BindObligation(bs, id, o) == Some(x)
  {
    hide BindObligation;
    if os != [] {
      var before, last := os[..|os| - 1], os[|os| - 1];
      ObligationsOfIff(bs, id, before);
      assert os == before + [last];
    }
  }

  lemma {:induction false} ObligationsIff(bs: seq<Binding>, cs: seq<Contract>)
    ensures BindObligations(bs, cs).Some? <==>
            forall c, o :: c in cs && o in c.obligations ==> BindObligation(bs, c.id, o).Some?
    ensures BindObligations(bs, cs).Some? ==>
              forall x :: x in BindObligations(bs, cs).value <==>
                  exists c, o :: c in cs && o in c.obligations && BindObligation(bs, c.id, o) == Some(x)
  {
    hide BindObligation, BindObligationsOf;
    if cs != [] {
      var before, last := cs[..|cs| - 1], cs[|cs| - 1];
      ObligationsIff(bs, before);
      ObligationsOfIff(bs, last.id, last.obligations);
      assert cs == before + [last];
    }
  }

  /** What the bindings say: one per requirement, naming the only suitable provision. */
  lemma BindingsIff(lib: Library, cs: seq<Contract>, bs: seq<Binding>, b: Binding)
    requires !DuplicateIds(cs) && BindAll(lib, cs, Demands(cs)) == Ok(bs)
    ensures b in bs <==> exists c, j :: c in cs && 0 <= j < |c.needs| && IsBinding(lib, cs, c, j, b)
  {
    hide Choose, BindAll, Demands, DuplicateIds, Offset, OnlyOffer;
    var ds := Demands(cs);
    BindAllIff(lib, cs, ds);
    if b in bs {
      var n :| 0 <= n < |bs| && bs[n] == b;
      var i, j := DemandOwner(cs, n);
      ChosenBinding(lib, cs, cs[i], j);
      assert cs[i] in cs && IsBinding(lib, cs, cs[i], j, b);
    }
    if exists c, j :: c in cs && 0 <= j < |c.needs| && IsBinding(lib, cs, c, j, b) {
      var c, j :| c in cs && 0 <= j < |c.needs| && IsBinding(lib, cs, c, j, b);
      var i :| 0 <= i < |cs| && cs[i] == c;
      DemandsAt(cs, i, j);
      var n := Offset(cs, i) + j;
      assert ds[n] == Demand(c.id, c.needs[j]) && Choose(lib, cs, ds[n].need).Ok?;
      ChosenBinding(lib, cs, c, j);
      BindingUnique(lib, cs, c, j, b, bs[n]);
      assert bs[n] in bs;
    }
  }

  /** The binding of the j-th requirement of a contract: capability, range, consumer, the only suitable provider and its
      version. */
  ghost predicate IsBinding(lib: Library, cs: seq<Contract>, c: Contract, j: int, b: Binding)
    requires 0 <= j < |c.needs|
  {
    && b.capability == c.needs[j].name && b.range == c.needs[j].version && b.consumer == c.id
    && exists p, k: nat :: p in cs && p.id == b.provider && k < |p.offers| && b.version == p.offers[k].version
                           && OnlyOffer(lib, cs, c.needs[j], p.id, k)
  }

  lemma ChosenBinding(lib: Library, cs: seq<Contract>, c: Contract, j: nat)
    requires !DuplicateIds(cs) && j < |c.needs| && Choose(lib, cs, c.needs[j]).Ok?
    ensures IsBinding(lib, cs, c, j, Bind(Demand(c.id, c.needs[j]), Choose(lib, cs, c.needs[j]).value))
  {
    hide Choose, DuplicateIds, OnlyOffer;
    ChooseIff(lib, cs, c.needs[j]);
    var p := Choose(lib, cs, c.needs[j]).value;
    assert p.contract in cs && OnlyOffer(lib, cs, c.needs[j], p.contract.id, p.index);
  }

  lemma BindingUnique(lib: Library, cs: seq<Contract>, c: Contract, j: int, a: Binding, b: Binding)
    requires !DuplicateIds(cs) && 0 <= j < |c.needs| && IsBinding(lib, cs, c, j, a) && IsBinding(lib, cs, c, j, b)
    ensures a == b
  {
    hide DuplicateIds, Offer;
    var p, k: nat :| p in cs && p.id == a.provider && k < |p.offers| && a.version == p.offers[k].version
        && OnlyOffer(lib, cs, c.needs[j], p.id, k);
    var q, m: nat :| q in cs && q.id == b.provider && m < |q.offers| && b.version == q.offers[m].version
        && OnlyOffer(lib, cs, c.needs[j], q.id, m);
    assert p.id == q.id && k == m;
    SameContract(cs, p, q);
  }

  lemma RequirementBound(lib: Library, cs: seq<Contract>, bs: seq<Binding>, c: Contract, capability: string)
    requires !DuplicateIds(cs) && BindAll(lib, cs, Demands(cs)) == Ok(bs) && c in cs
    ensures (exists b :: b in bs && b.consumer == c.id && b.capability == capability) <==>
            exists k :: 0 <= k < |c.needs| && c.needs[k].name == capability
  {
    hide BindAll, Demands, DuplicateIds, Choose, Offset;
    if b :| b in bs && b.consumer == c.id && b.capability == capability {
      BindingsIff(lib, cs, bs, b);
      var d, j :| d in cs && 0 <= j < |d.needs| && IsBinding(lib, cs, d, j, b);
      SameContract(cs, c, d);
    }
    if k :| 0 <= k < |c.needs| && c.needs[k].name == capability {
      var i :| 0 <= i < |cs| && cs[i] == c;
      BindAllIff(lib, cs, Demands(cs));
      DemandsAt(cs, i, k);
      assert bs[Offset(cs, i) + k] in bs;
    }
  }

  /** Obligations fail to bind exactly when one is on an undeclared requirement. */
  lemma ObligationsBind(lib: Library, cs: seq<Contract>, bs: seq<Binding>, sorted: seq<Binding>)
    requires !DuplicateIds(cs) && BindAll(lib, cs, Demands(cs)) == Ok(bs) && multiset(bs) == multiset(sorted)
    ensures BindObligations(sorted, cs) == None <==> Unbound(cs)
  {
    hide BindAll, Demands, DuplicateIds, BindObligations, ProviderFor;
    SameItems(bs, sorted);
    ObligationsIff(sorted, cs);
    forall c, o | c in cs && o in c.obligations ensures BindObligation(sorted, c.id, o) == None <==> Undeclared(c, o) {
      RequirementBound(lib, cs, bs, c, o.capability);
      ProviderForIff(sorted, c.id, o.capability);
    }
  }

  // ---------------------------------------------------------------- the verdict

  function CodeOf(r: Outcome<Plan>): Option<Code> { match r case Ok(_) => None case Err(code) => Some(code) }

  /** The first failing class over the whole set of contracts, from authority grants on. */
  ghost predicate LinkVerdict(lib: Library, cs: seq<Contract>, r: Option<Code>) {
    if exists c :: c in cs && !AllGranted(c) then r == Some(AuthorityViolation)
    else if !AllMet(lib, cs) then r.Some? && exists c, k :: FirstFailure(lib, cs, c, k, r.value)
    else if Cyclic(DependencyGraph(lib, cs)) then r == Some(DependencyCycle)
    else if Clash(cs) then r == Some(ResourceConflict)
    else if Orphan(cs) then r == Some(AuthorityViolation)
    else if Unbound(cs) then r == Some(UnboundObligation)
    else r == None
  }

  /** The first failing class, all classes in the fixed precedence. */
  ghost predicate Verdict(lib: Library, cs: seq<Contract>, runtime: string, version: string,
                          taxonomy: Option<seq<Rule>>, r: Option<Code>) {
    var host := HostVersion(lib, runtime, version);
    if cs == [] || host == None then r == Some(InvalidContract)
    else if DuplicateIds(cs) then r == Some(DuplicatePlugin)
    else if exists c :: c in cs && !Hosted(lib, c, runtime, host.value) then r == Some(IncompatibleHost)
    else if taxonomy.Some? && exists c :: c in cs && !Known(taxonomy.value, c) then r == Some(UnknownResource)
    else if taxonomy.Some? && exists c :: c in cs && !ModesAllowed(taxonomy.value, c) then
            r == Some(InvalidResourceMode)
    else LinkVerdict(lib, Declared(taxonomy, cs), r)
  }

  lemma IdsSnoc(before: seq<Contract>, last: Contract)
    requires !DuplicateIds(before + [last])
    ensures Ids(before + [last]) == Ids(before) + {last.id} && last.id !in Ids(before) && !DuplicateIds(before)
  {
    var cs := before + [last];
    assert forall i, j :: 0 <= i < j < |cs| ==> cs[i].id != cs[j].id;
    forall c | c in before ensures c.id != last.id {
      var i :| 0 <= i < |before| && before[i] == c;
      assert cs[i].id != cs[|before|].id;
    }
    forall i, j | 0 <= i < j < |before| ensures before[i].id != before[j].id { assert cs[i].id != cs[j].id; }
  }

  lemma {:induction false} IdsCount(cs: seq<Contract>)
    requires !DuplicateIds(cs)
    ensures |Ids(cs)| == |cs|
  {
    if cs == [] { assert Ids(cs) == {}; }
    else {
      hide DuplicateIds, Ids;
      var before, last := cs[..|cs| - 1], cs[|cs| - 1];
      assert cs == before + [last];
      IdsSnoc(before, last);
      IdsCount(before);
    }
  }

  /** The ordering covers all contracts exactly when the declared dependencies are acyclic. */
  lemma OrderingComplete(lib: Library, cs: seq<Contract>, bs: seq<Binding>)
    requires !DuplicateIds(cs) && BindAll(lib, cs, Demands(cs)) == Ok(bs)
    ensures var g := Dependencies(Ids(cs), bs); |Kahn(g, g.Keys)| == |cs| <==> !Cyclic(DependencyGraph(lib, cs))
  {
    hide BindAll, Demands, DuplicateIds, Kahn, Cyclic, DependencyGraph;
    GraphIsDeclared(lib, cs, bs);
    IdsCount(cs);
    var g := Dependencies(Ids(cs), bs);
    assert g.Keys == Ids(cs);
    KahnCompleteIffAcyclic(g);
  }

  lemma LinkedVerdict(lib: Library, cs: seq<Contract>, runtime: string, version: string)
    requires !DuplicateIds(cs) && Sorted(cs, ContractKey)
    ensures LinkVerdict(lib, cs, CodeOf(Linked(lib, cs, runtime, version)))
  {
    hide BindAll, Demands, DuplicateIds, Sorted, Kahn, Cyclic, DependencyGraph, AllMet, FirstFailure, Clash, Orphan,
         Unbound;
    hide SortBy, ResolveResources, BindObligations, Arranged, AllGranted, OwnedAll, Dependencies;
    CapabilityLaws.ResolveIff(lib, cs);
    ResourceLaws.ResolveIff(cs);
    var r := BindAll(lib, cs, Demands(cs));
    if r.Ok? {
      OrderingComplete(lib, cs, r.value);
      ObligationsBind(lib, cs, r.value, SortBy(r.value, BindingKey));
    }
  }

  lemma GrantedTransfer(a: seq<Contract>, b: seq<Contract>)
    requires Covered(a, b) && exists c :: c in a && !AllGranted(c)
    ensures exists c :: c in b && !AllGranted(c)
  {
    hide Covered, Alike;
    var c :| c in a && !AllGranted(c);
    var d := Partner(a, b, c);
    assert AllGranted(c) <==> AllGranted(d) by { GrantedSame(c, d); }
  }

  lemma GrantedSame(c: Contract, d: Contract)
    requires c.obligations == d.obligations && c.grants == d.grants
    ensures AllGranted(c) <==> AllGranted(d)
  {
    forall o ensures Granted(c, o) <==> Granted(d, o) {}
  }

  lemma UnboundTransfer(a: seq<Contract>, b: seq<Contract>)
    requires Covered(a, b) && Unbound(a)
    ensures Unbound(b)
  {
    hide Covered, Alike;
    var c, o :| c in a && o in c.obligations && Undeclared(c, o);
    var d := Partner(a, b, c);
    assert Undeclared(d, o);
  }

  lemma FailureTransfer(lib: Library, a: seq<Contract>, b: seq<Contract>, code: Code)
    requires Mirrors(a, b) && !DuplicateIds(a) && exists c, k :: FirstFailure(lib, a, c, k, code)
    ensures exists c, k :: FirstFailure(lib, b, c, k, code)
  {
    hide Mirrors, DuplicateIds, FirstFailure;
    var c, k :| FirstFailure(lib, a, c, k, code);
    FirstFailureTransfer(lib, a, b, c, k, code);
  }

  /** Mirrored contracts fail the same classes. */
  lemma VerdictTransfers(lib: Library, a: seq<Contract>, b: seq<Contract>, r: Option<Code>)
    requires Mirrors(a, b) && Mirrors(b, a) && !DuplicateIds(a) && !DuplicateIds(b) && LinkVerdict(lib, a, r)
    ensures LinkVerdict(lib, b, r)
  {
    hide Covered, DuplicateIds, AllMet, FirstFailure, Clash, Orphan, Unbound, AllGranted, Cyclic, DependencyGraph;
    if exists c :: c in a && !AllGranted(c) { GrantedTransfer(a, b); }
    if exists c :: c in b && !AllGranted(c) { GrantedTransfer(b, a); }
    if AllMet(lib, a) { AllMetTransfer(lib, a, b); }
    if AllMet(lib, b) { AllMetTransfer(lib, b, a); }
    GraphSame(lib, a, b);
    if Clash(a) { ClashTransfer(a, b); }
    if Clash(b) { ClashTransfer(b, a); }
    if Orphan(a) { OrphanTransfer(a, b); }
    if Orphan(b) { OrphanTransfer(b, a); }
    if Unbound(a) { UnboundTransfer(a, b); }
    if Unbound(b) { UnboundTransfer(b, a); }
    if r.Some? && exists c, k :: FirstFailure(lib, a, c, k, r.value) { FailureTransfer(lib, a, b, r.value); }
  }

  lemma VerdictUnique(lib: Library, cs: seq<Contract>, r: Option<Code>, r': Option<Code>)
    requires !DuplicateIds(cs) && LinkVerdict(lib, cs, r) && LinkVerdict(lib, cs, r')
    ensures r == r'
  {
    hide DuplicateIds, AllMet, FirstFailure, Clash, Orphan, Unbound, AllGranted, Cyclic, DependencyGraph;
    if r.Some? && r'.Some? && (exists c, k :: FirstFailure(lib, cs, c, k, r.value))
       && exists c, k :: FirstFailure(lib, cs, c, k, r'.value) {
      var c, k :| FirstFailure(lib, cs, c, k, r.value);
      var d, j :| FirstFailure(lib, cs, d, j, r'.value);
      FirstFailureUnique(lib, cs, c, k, r.value, d, j, r'.value);
    }
  }

  // ---------------------------------------------------------------- main theorems

  /** After its checks of single contracts the compiler works on the prepared ones. */
  lemma CompilesPrepared(lib: Library, cs: seq<Contract>, runtime: string, version: string, taxonomy: Option<seq<Rule>>)
    requires cs != [] && HostVersion(lib, runtime, version).Some? && !DuplicateIds(cs)
    requires forall c :: c in cs ==> Hosted(lib, c, runtime, HostVersion(lib, runtime, version).value)
    requires taxonomy.Some? ==> forall c :: c in cs ==> Known(taxonomy.value, c) && ModesAllowed(taxonomy.value, c)
    ensures Compile(lib, cs, runtime, version, taxonomy) ==
            Linked(lib, Prepared(taxonomy, cs), runtime, HostVersion(lib, runtime, version).value)
  {
    hide Linked, HostVersion, DuplicateIds, Hosted, Known, ModesAllowed, NormalizedAll, SortBy;
  }

  /** The outcome code is the first failing class in the fixed precedence over the whole set, none when nothing
      fails. */
  lemma CompileVerdict(lib: Library, cs: seq<Contract>, runtime: string, version: string, taxonomy: Option<seq<Rule>>)
    ensures Verdict(lib, cs, runtime, version, taxonomy, CodeOf(Compile(lib, cs, runtime, version, taxonomy)))
  {
    hide LinkVerdict, Linked, HostVersion, DuplicateIds, Hosted, Known, ModesAllowed, NormalizedAll, SortBy, Declared;
    var host := HostVersion(lib, runtime, version);
    if cs != [] && host.Some? && !DuplicateIds(cs) && (forall c :: c in cs ==> Hosted(lib, c, runtime, host.value))
       && (taxonomy.Some? ==> forall c :: c in cs ==> Known(taxonomy.value, c) && ModesAllowed(taxonomy.value, c))
    {
      PreparedDecides(lib, cs, runtime, version, taxonomy);
    }
  }

  lemma PreparedDecides(lib: Library, cs: seq<Contract>, runtime: string, version: string, taxonomy: Option<seq<Rule>>)
    requires cs != [] && HostVersion(lib, runtime, version).Some? && !DuplicateIds(cs)
    requires forall c :: c in cs ==> Hosted(lib, c, runtime, HostVersion(lib, runtime, version).value)
    requires taxonomy.Some? ==> forall c :: c in cs ==> Known(taxonomy.value, c) && ModesAllowed(taxonomy.value, c)
    ensures LinkVerdict(lib, Declared(taxonomy, cs), CodeOf(Compile(lib, cs, runtime, version, taxonomy)))
  {
    hide LinkVerdict, Linked, HostVersion, DuplicateIds, Hosted, Known, ModesAllowed, Declared, Compile, Prepared,
         Covered;
    CompilesPrepared(lib, cs, runtime, version, taxonomy);
    PreparedShape(taxonomy, cs);
    PreparedMirrors(taxonomy, cs);
    LinkedVerdict(lib, Prepared(taxonomy, cs), runtime, HostVersion(lib, runtime, version).value);
    VerdictTransfers(lib, Prepared(taxonomy, cs), Declared(taxonomy, cs),
                     CodeOf(Compile(lib, cs, runtime, version, taxonomy)));
  }

  /** A contract set that can be planned, said without compiling it. */
  ghost predicate Admissible(lib: Library, cs: seq<Contract>, runtime: string, version: string,
                             taxonomy: Option<seq<Rule>>) {
    var host, declared := HostVersion(lib, runtime, version), Declared(taxonomy, cs);
    && cs != [] && host.Some? && !DuplicateIds(cs)
    && (forall c :: c in cs ==> Hosted(lib, c, runtime, host.value))
    && (taxonomy.Some? ==> forall c :: c in cs ==> Known(taxonomy.value, c) && ModesAllowed(taxonomy.value, c))
    && (forall c :: c in declared ==> AllGranted(c))
    && AllMet(lib, declared) && !Cyclic(DependencyGraph(lib, declared))
    && !Clash(declared) && !Orphan(declared) && !Unbound(declared)
  }

  lemma CompileSucceedsIffAdmissible(lib: Library, cs: seq<Contract>, runtime: string, version: string,
                                     taxonomy: Option<seq<Rule>>)
    ensures Compile(lib, cs, runtime, version, taxonomy).Ok? <==> Admissible(lib, cs, runtime, version, taxonomy)
  {
    hide Compile, Linked, HostVersion, DuplicateIds, Hosted, Known, ModesAllowed, Declared, AllMet, FirstFailure, Clash,
         Orphan, Unbound, AllGranted, Cyclic, DependencyGraph;
    CompileVerdict(lib, cs, runtime, version, taxonomy);
  }

  /** What parsing guarantees of authority grants: the capability is declared in its direction. */
  predicate GrantsDeclared(c: Contract) {
    forall a, g :: a in c.grants && g in c.grants[a] && g.direction == Requires ==>
        exists k :: 0 <= k < |c.needs| && c.needs[k].name == g.capability
  }

  /** For parsed contracts no obligation is left without a provider. */
  lemma ParsedContractsBind(lib: Library, cs: seq<Contract>, runtime: string, version: string,
                            taxonomy: Option<seq<Rule>>)
    requires forall c :: c in cs ==> GrantsDeclared(c)
    ensures Compile(lib, cs, runtime, version, taxonomy) != Err(UnboundObligation)
  {
    hide Compile, HostVersion, DuplicateIds, Hosted, Known, ModesAllowed, AllMet, FirstFailure, Clash, Orphan, Cyclic,
         DependencyGraph, Declared;
    CompileVerdict(lib, cs, runtime, version, taxonomy);
    var d := Declared(taxonomy, cs);
    FailureCodes(lib, d);
    forall c | c in d && AllGranted(c) ensures forall o :: o in c.obligations ==> !Undeclared(c, o) {
      var i :| 0 <= i < |d| && d[i] == c;
      GrantedIsDeclared(cs[i], c);
    }
  }

  /** A contract whose one obligation is granted and is on a requirement it does not declare. */
  function Careless(runtime: string, range: string): Contract {
    Contract("c", "1", "m", runtime, range, [], [], [], [Obligation("r", "e", "d", Provider, Requires, "x", None)], [],
             [],
             map[Provider := [Grant("r", "e", Requires, "x")]])
  }

  /** On any host its range admits, that contract alone fails with the key error. */
  lemma CarelessContractFails(lib: Library, runtime: string, version: string, range: string)
    requires HostVersion(lib, runtime, version).Some? && lib.contains(range, HostVersion(lib, runtime, version).value)
    ensures Compile(lib, [Careless(runtime, range)], runtime, version, None) == Err(UnboundObligation)
  {
    hide Compile, HostVersion, DependencyGraph, Cyclic, AllGranted, AllMet, Clash, Orphan, Unbound, FirstFailure;
    hide Declared, DuplicateIds, Hosted, Careless;
    var c := Careless(runtime, range);
    CompileVerdict(lib, [c], runtime, version, None);
    CarelessChecks(lib, runtime, HostVersion(lib, runtime, version).value, range);
    CarelessLinks(lib, runtime, range);
  }

  lemma CarelessChecks(lib: Library, runtime: string, host: string, range: string)
    requires lib.contains(range, host)
    ensures var c := Careless(runtime, range);
            !DuplicateIds([c]) && Hosted(lib, c, runtime, host) && Declared(None, [c]) == [c]
  {}

  lemma CarelessLinks(lib: Library, runtime: string, range: string)
    ensures var cs := [Careless(runtime, range)];
            && AllGranted(cs[0]) && AllMet(lib, cs) && !Cyclic(DependencyGraph(lib, cs)) && !Clash(cs) && !Orphan(cs)
            && Unbound(cs)
  {
    hide Cyclic, DependencyGraph;
    var c := Careless(runtime, range);
    NeedlessIsAcyclic(lib, c);
    assert Undeclared(c, c.obligations[0]);
  }

  lemma NeedlessIsAcyclic(lib: Library, c: Contract)
    requires c.needs == []
    ensures !Cyclic(DependencyGraph(lib, [c]))
  {}

  lemma GrantedIsDeclared(c: Contract, d: Contract)
    requires GrantsDeclared(c) && c.grants == d.grants && c.needs == d.needs && AllGranted(d)
    ensures forall o :: o in d.obligations ==> !Undeclared(d, o)
  {
    forall o | o in d.obligations && o.direction == Requires ensures !Undeclared(d, o) {
      assert Grant(o.role, o.event, o.direction, o.capability) in c.grants[o.authority];
    }
  }

  lemma FailureCodes(lib: Library, cs: seq<Contract>)
    ensures forall c, k :: !FirstFailure(lib, cs, c, k, UnboundObligation)
  {}

  /** The plan, or the error, does not depend on the order the contracts are given in. */
  lemma CompileForgetsOrder(lib: Library, cs: seq<Contract>, cs': seq<Contract>, runtime: string, version: string,
                            taxonomy: Option<seq<Rule>>)
    requires multiset(cs) == multiset(cs')
    ensures Compile(lib, cs, runtime, version, taxonomy) == Compile(lib, cs', runtime, version, taxonomy)
  {
    hide Linked, HostVersion, DuplicateIds, Hosted, Known, ModesAllowed, SortBy, NormalizedAll;
    SameItems(cs, cs');
    assert DuplicateIds(cs) <==> DuplicateIds(cs') by {
      DistinctIdsKeys(cs);
      DistinctIdsKeys(cs');
      RearrangedDistinct(cs, cs', ContractKey);
    }
    if !DuplicateIds(cs) {
      assert Faithful(cs, ContractKey) by { DistinctIdsKeys(cs); DistinctIsFaithful(cs, ContractKey); }
      SortForgetsOrder(cs, cs', ContractKey);
    }
  }

  // ---------------------------------------------------------------- aliases

  /** A claim with the rule its name belongs to, in place of the name. */
  datatype Resolved = Resolved(rule: Option<Rule>, mode: string, mediator: Option<string>)

  function ResolvedClaims(rules: seq<Rule>, claims: seq<Claim>): (r: seq<Resolved>)
    ensures |r| == |claims|
    ensures forall k :: 0 <= k < |r| ==>
            r[k] == Resolved(Lookup(rules, claims[k].name), claims[k].mode, claims[k].mediator)
  {
    if claims == [] then []
    else
      var last := claims[|claims| - 1];
      ResolvedClaims(rules, claims[..|claims| - 1]) + [Resolved(Lookup(rules, last.name), last.mode, last.mediator)]
  }

  /** The same contract up to the order of its claims and the aliases they use. */
  ghost predicate AliasOf(rules: seq<Rule>, c: Contract, d: Contract) {
    && c.(resources := []) == d.(resources := [])
    && multiset(ResolvedClaims(rules, c.resources)) == multiset(ResolvedClaims(rules, d.resources))
  }

  function FromResolved(r: Resolved): Claim {
    Claim(if r.rule.Some? then r.rule.value.canonical else "", r.mode, r.mediator)
  }

  function Mapped(rs: seq<Resolved>): (r: seq<Claim>)
    ensures |r| == |rs| && forall k :: 0 <= k < |r| ==> r[k] == FromResolved(rs[k])
  {
    if rs == [] then [] else Mapped(rs[..|rs| - 1]) + [FromResolved(rs[|rs| - 1])]
  }

  lemma MappedAround(left: seq<Resolved>, x: Resolved, right: seq<Resolved>)
    ensures multiset(Mapped(left + [x] + right)) == multiset(Mapped(left + right)) + multiset{FromResolved(x)}
  {
    hide Mapped, FromResolved;
    assert Mapped(left + [x] + right) == Mapped(left) + [FromResolved(x)] + Mapped(right);
    assert Mapped(left + right) == Mapped(left) + Mapped(right);
  }

  lemma Removed(left: seq<Resolved>, x: Resolved, right: seq<Resolved>)
    ensures multiset(left + right) == multiset(left + [x] + right) - multiset{x}
  {}

  lemma {:induction false} MappedForgetsOrder(rs: seq<Resolved>, rs': seq<Resolved>)
    requires multiset(rs) == multiset(rs')
    ensures multiset(Mapped(rs)) == multiset(Mapped(rs'))
    decreases |rs|
  {
    hide Mapped;
    if rs != [] {
      var before, last := rs[..|rs| - 1], rs[|rs| - 1];
      var j := ItemAt(rs, rs', |rs| - 1);
      var left, right := rs'[..j], rs'[j + 1..];
      assert rs == before + [last] + [] && before + [] == before && rs' == left + [last] + right;
      Removed(before, last, []);
      Removed(left, last, right);
      MappedForgetsOrder(before, left + right);
      MappedAround(before, last, []);
      MappedAround(left, last, right);
    } else {
      assert |rs'| == 0 by { assert |multiset(rs)| == |multiset(rs')|; }
    }
  }

  /** Claims on known resources, in canonical form, are a function of the resolved claims. */
  lemma CanonicalMapped(rules: seq<Rule>, c: Contract)
    requires Known(rules, c)
    ensures Canonical(rules, c.resources) == Mapped(ResolvedClaims(rules, c.resources))
  {
    hide Canonical, Mapped, ResolvedClaims, Lookup;
  }

  lemma AliasChecks(rules: seq<Rule>, c: Contract, d: Contract)
    requires AliasOf(rules, c, d)
    ensures Known(rules, c) ==> Known(rules, d)
    ensures ModesAllowed(rules, c) ==> ModesAllowed(rules, d)
  {
    hide ResolvedClaims, Lookup;
    var a, b := ResolvedClaims(rules, c.resources), ResolvedClaims(rules, d.resources);
    forall k | 0 <= k < |d.resources|
      ensures Known(rules, c) ==> Lookup(rules, d.resources[k].name).Some?
      ensures ModesAllowed(rules, c) ==>
                var rule := Lookup(rules, d.resources[k].name);
                    rule.Some? ==> d.resources[k].mode in rule.value.allowedModes
    {
      var j := ItemAt(b, a, k);
    }
  }

  lemma AliasesAlike(rules: seq<Rule>, c: Contract, d: Contract)
    requires AliasOf(rules, c, d) && Known(rules, c) && Known(rules, d)
    ensures Alike(Declare(Some(rules), c), Declare(Some(rules), d))
    ensures !Repeats(Canonical(rules, c.resources)) ==> Normalized(rules, c) == Normalized(rules, d)
  {
    hide Canonical, Mapped, ResolvedClaims, Lookup, SortBy, Known, Repeats;
    CanonicalMapped(rules, c);
    CanonicalMapped(rules, d);
    MappedForgetsOrder(ResolvedClaims(rules, c.resources), ResolvedClaims(rules, d.resources));
    var a, b := Canonical(rules, c.resources), Canonical(rules, d.resources);
    if !Repeats(a) {
      RepeatsKeys(a);
      DistinctIsFaithful(a, ClaimKey);
      SortForgetsOrder(a, b, ClaimKey);
    }
  }

  /** Contract by contract the same up to aliases. */
  ghost predicate AliasesOf(rules: seq<Rule>, cs: seq<Contract>, cs': seq<Contract>) {
    |cs| == |cs'| && forall i :: 0 <= i < |cs| ==> AliasOf(rules, cs[i], cs'[i]) && AliasOf(rules, cs'[i], cs[i])
  }

  lemma AliasesSymmetric(rules: seq<Rule>, cs: seq<Contract>, cs': seq<Contract>)
    requires AliasesOf(rules, cs, cs')
    ensures AliasesOf(rules, cs', cs)
  {
    hide AliasOf;
  }

  lemma AliasesKnown(rules: seq<Rule>, cs: seq<Contract>, cs': seq<Contract>)
    requires AliasesOf(rules, cs, cs')
    ensures (forall c :: c in cs ==> Known(rules, c)) ==> forall c :: c in cs' ==> Known(rules, c)
  {
    hide Known, AliasOf;
    if forall c :: c in cs ==> Known(rules, c) {
      forall c | c in cs' ensures Known(rules, c) {
        var i :| 0 <= i < |cs'| && cs'[i] == c;
        assert cs[i] in cs;
        AliasChecks(rules, cs[i], c);
      }
    }
  }

  lemma AliasesAllowed(rules: seq<Rule>, cs: seq<Contract>, cs': seq<Contract>)
    requires AliasesOf(rules, cs, cs')
    ensures (forall c :: c in cs ==> ModesAllowed(rules, c)) ==> forall c :: c in cs' ==> ModesAllowed(rules, c)
  {
    hide ModesAllowed, AliasOf;
    if forall c :: c in cs ==> ModesAllowed(rules, c) {
      forall c | c in cs' ensures ModesAllowed(rules, c) {
        var i :| 0 <= i < |cs'| && cs'[i] == c;
        assert cs[i] in cs;
        AliasChecks(rules, cs[i], c);
      }
    }
  }

  lemma AliasFields(rules: seq<Rule>, c: Contract, d: Contract)
    requires AliasOf(rules, c, d)
    ensures d.id == c.id && d.runtime == c.runtime && d.range == c.range
  {}

  lemma AliasesHosted(lib: Library, rules: seq<Rule>, cs: seq<Contract>, cs': seq<Contract>, runtime: string,
                      version: string)
    requires AliasesOf(rules, cs, cs')
    ensures DuplicateIds(cs) ==> DuplicateIds(cs')
    ensures (forall c :: c in cs ==> Hosted(lib, c, runtime, version)) ==> forall c :: c in cs' ==>
            Hosted(lib, c, runtime, version)
  {
    hide AliasOf;
    forall i | 0 <= i < |cs|
        ensures cs'[i].id == cs[i].id && cs'[i].runtime == cs[i].runtime && cs'[i].range == cs[i].range {
      AliasFields(rules, cs[i], cs'[i]);
    }
    if DuplicateIds(cs) {
      var i, j :| 0 <= i < j < |cs| && cs[i].id == cs[j].id;
      assert cs'[i].id == cs'[j].id;
    }
    if forall c :: c in cs ==> Hosted(lib, c, runtime, version) {
      forall c | c in cs' ensures Hosted(lib, c, runtime, version) {
        var i :| 0 <= i < |cs'| && cs'[i] == c;
        assert cs[i] in cs;
      }
    }
  }

  lemma AliasesMirror(rules: seq<Rule>, cs: seq<Contract>, cs': seq<Contract>)
    requires AliasesOf(rules, cs, cs') && (forall c :: c in cs ==> Known(rules, c))
             && (forall c :: c in cs' ==> Known(rules, c))
    ensures Mirrors(Declared(Some(rules), cs), Declared(Some(rules), cs'))
  {
    hide AliasOf, Known, Alike, Declare, Declared;
    var a, b := Declared(Some(rules), cs), Declared(Some(rules), cs');
    forall i | 0 <= i < |cs| ensures Alike(a[i], b[i]) && Alike(b[i], a[i]) {
      assert cs[i] in cs && cs'[i] in cs';
      AliasesAlike(rules, cs[i], cs'[i]);
      AlikeSymmetric(a[i], b[i]);
    }
    forall c | c in a ensures exists d :: d in b && Alike(c, d) {
      var i :| 0 <= i < |a| && a[i] == c;
      assert b[i] in b;
    }
    forall c | c in b ensures exists d :: d in a && Alike(c, d) {
      var i :| 0 <= i < |b| && b[i] == c;
      assert a[i] in a;
    }
  }

  /** Without a repeated claim, aliases vanish in preparation. */
  lemma AliasesPrepare(rules: seq<Rule>, cs: seq<Contract>, cs': seq<Contract>)
    requires AliasesOf(rules, cs, cs') && (forall c :: c in cs ==> Known(rules, c))
             && (forall c :: c in cs' ==> Known(rules, c))
    requires forall c :: c in cs ==> !Repeats(Canonical(rules, c.resources))
    requires !DuplicateIds(cs) && !DuplicateIds(cs')
    ensures Prepared(Some(rules), cs) == Prepared(Some(rules), cs')
  {
    hide AliasOf, Known, Repeats, Normalized, SortBy, Canonical, DuplicateIds;
    NormalizeThenSort(rules, cs);
    NormalizeThenSort(rules, cs');
    forall i | 0 <= i < |cs| ensures Normalized(rules, cs[i]) == Normalized(rules, cs'[i]) {
      assert cs[i] in cs && cs'[i] in cs';
      AliasesAlike(rules, cs[i], cs'[i]);
    }
    assert NormalizedAll(rules, cs) == NormalizedAll(rules, cs');
  }

  lemma NormalizedSnoc(rules: seq<Rule>, s: seq<Contract>, x: Contract)
    ensures NormalizedAll(rules, s + [x]) == NormalizedAll(rules, s) + [Normalized(rules, x)]
    ensures ContractKey(Normalized(rules, x)) == ContractKey(x)
  {
    assert (s + [x])[..|s|] == s;
  }

  lemma {:induction false} InsertNormalized(rules: seq<Rule>, s: seq<Contract>, x: Contract)
    ensures NormalizedAll(rules, Insert(s, x, ContractKey)) ==
            Insert(NormalizedAll(rules, s), Normalized(rules, x), ContractKey)
  {
    hide NormalizedAll, Normalized, ContractKey, KeyLess;
    NormalizedSnoc(rules, s, x);
    if s == [] {
      assert [] + [x] == [x] && NormalizedAll(rules, []) == [];
    } else {
      var before, last := s[..|s| - 1], s[|s| - 1];
      assert s == before + [last];
      NormalizedSnoc(rules, before, last);
      var all := NormalizedAll(rules, s);
      assert all[..|all| - 1] == NormalizedAll(rules, before) && all[|all| - 1] == Normalized(rules, last);
      InsertNormalized(rules, before, x);
      NormalizedSnoc(rules, Insert(before, x, ContractKey), last);
    }
  }

  /** Normalizing does not touch the sort key. */
  lemma {:induction false} NormalizeThenSort(rules: seq<Rule>, cs: seq<Contract>)
    ensures Prepared(Some(rules), cs) == SortBy(NormalizedAll(rules, cs), ContractKey)
  {
    hide Insert, Normalized;
    if cs != [] {
      var before, last := cs[..|cs| - 1], cs[|cs| - 1];
      NormalizeThenSort(rules, before);
      InsertNormalized(rules, SortBy(before, ContractKey), last);
      assert NormalizedAll(rules, cs)[..|cs| - 1] == NormalizedAll(rules, before);
    }
  }

  lemma LinkedCode(lib: Library, cs: seq<Contract>, cs': seq<Contract>, runtime: string, version: string,
                   rules: seq<Rule>)
    requires AliasesOf(rules, cs, cs') && !DuplicateIds(cs) && !DuplicateIds(cs')
    requires (forall c :: c in cs ==> Known(rules, c)) && (forall c :: c in cs' ==> Known(rules, c))
    requires var d := Declared(Some(rules), cs); var d' := Declared(Some(rules), cs');
             LinkVerdict(lib, d, CodeOf(Compile(lib, cs, runtime, version, Some(rules))))
                 && LinkVerdict(lib, d', CodeOf(Compile(lib, cs', runtime, version, Some(rules))))
    ensures CodeOf(Compile(lib, cs, runtime, version, Some(rules))) ==
            CodeOf(Compile(lib, cs', runtime, version, Some(rules)))
  {
    hide AliasesOf, DuplicateIds, Known, LinkVerdict, Compile, Declared, Covered;
    AliasesMirror(rules, cs, cs');
    PreparedShape(Some(rules), cs);
    PreparedShape(Some(rules), cs');
    var d, d' := Declared(Some(rules), cs), Declared(Some(rules), cs');
    VerdictTransfers(lib, d, d', CodeOf(Compile(lib, cs, runtime, version, Some(rules))));
    VerdictUnique(lib, d', CodeOf(Compile(lib, cs, runtime, version, Some(rules))),
                  CodeOf(Compile(lib, cs', runtime, version, Some(rules))));
  }

  /** Every contract passes the checks that concern it alone. */
  ghost predicate Checked(lib: Library, cs: seq<Contract>, runtime: string, version: string, rules: seq<Rule>) {
    var host := HostVersion(lib, runtime, version);
    && cs != [] && host.Some? && !DuplicateIds(cs)
    && (forall c :: c in cs ==> Hosted(lib, c, runtime, host.value))
    && (forall c :: c in cs ==> Known(rules, c)) && (forall c :: c in cs ==> ModesAllowed(rules, c))
  }

  lemma CheckedAlias(lib: Library, cs: seq<Contract>, cs': seq<Contract>, runtime: string, version: string,
                     rules: seq<Rule>)
    requires AliasesOf(rules, cs, cs') && Checked(lib, cs, runtime, version, rules)
    ensures Compile(lib, cs, runtime, version, Some(rules)) == Compile(lib, cs', runtime, version, Some(rules))
  {
    hide Compile, HostVersion, Hosted, Known, ModesAllowed, DuplicateIds, AliasOf, LinkVerdict, Declared, Repeats,
         Canonical;
    AliasesSymmetric(rules, cs, cs');
    AliasesKnown(rules, cs, cs');
    AliasesAllowed(rules, cs, cs');
    AliasesHosted(lib, rules, cs, cs', runtime, HostVersion(lib, runtime, version).value);
    AliasesHosted(lib, rules, cs', cs, runtime, HostVersion(lib, runtime, version).value);
    if forall c :: c in cs ==> !Repeats(Canonical(rules, c.resources)) {
      AliasesPrepare(rules, cs, cs');
      CompilesPrepared(lib, cs, runtime, version, Some(rules));
      CompilesPrepared(lib, cs', runtime, version, Some(rules));
    } else {
      PreparedDecides(lib, cs, runtime, version, Some(rules));
      PreparedDecides(lib, cs', runtime, version, Some(rules));
      LinkedCode(lib, cs, cs', runtime, version, rules);
      var c :| c in cs && Repeats(Canonical(rules, c.resources));
      RepeatFails(lib, cs, runtime, version, rules, c);
    }
  }

  /** A resource claimed twice by one contract is always refused. */
  lemma RepeatFails(lib: Library, cs: seq<Contract>, runtime: string, version: string, rules: seq<Rule>, c: Contract)
    requires c in cs && Repeats(Canonical(rules, c.resources))
    requires LinkVerdict(lib, Declared(Some(rules), cs), CodeOf(Compile(lib, cs, runtime, version, Some(rules))))
    ensures Compile(lib, cs, runtime, version, Some(rules)).Err?
  {
    hide Compile, Repeats, Canonical, Declared, AllMet, FirstFailure, Orphan, Unbound, AllGranted, Cyclic,
         DependencyGraph;
    var d := Declared(Some(rules), cs);
    var i :| 0 <= i < |cs| && cs[i] == c;
    assert d[i] in d && Repeats(d[i].resources);
    assert Clash(d);
  }

  /** Replacing resource names by other aliases of the same taxonomy rules changes neither the plan nor the error. */
  lemma CompileForgetsAliases(lib: Library, cs: seq<Contract>, cs': seq<Contract>, runtime: string, version: string,
                              rules: seq<Rule>)
    requires AliasesOf(rules, cs, cs')
    ensures Compile(lib, cs, runtime, version, Some(rules)) == Compile(lib, cs', runtime, version, Some(rules))
  {
    hide HostVersion, Hosted, Known, ModesAllowed, DuplicateIds, AliasOf, Linked, SortBy, NormalizedAll;
    AliasesSymmetric(rules, cs, cs');
    if Checked(lib, cs, runtime, version, rules) { CheckedAlias(lib, cs, cs', runtime, version, rules); return; }
    if Checked(lib, cs', runtime, version, rules) { CheckedAlias(lib, cs', cs, runtime, version, rules); return; }
    AliasesKnown(rules, cs, cs');
    AliasesKnown(rules, cs', cs);
    if HostVersion(lib, runtime, version).Some? {
      AliasesHosted(lib, rules, cs, cs', runtime, HostVersion(lib, runtime, version).value);
      AliasesHosted(lib, rules, cs', cs, runtime, HostVersion(lib, runtime, version).value);
    }
  }
}
