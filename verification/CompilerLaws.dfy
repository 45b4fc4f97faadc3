/** The laws of the contract compiler: what it accepts, which error comes first, and what it does not depend on. */
module CompilerLaws {
  import opened Basics
  import opened Lexicographic
  import opened Compiler
  import opened CapabilityLaws
  import opened ResourceLaws

  // ---------------------------------------------------------------- declared contracts

  /** The claims of a contract under canonical names. */
  function Claims(taxonomy: Option<seq<Rule>>, c: Contract): seq<Claim> {
    match taxonomy case None => c.resources case Some(rules) => Canonical(rules, c.resources)
  }

  function Declare(taxonomy: Option<seq<Rule>>, c: Contract): Contract { c.(resources := Claims(taxonomy, c)) }

  /** The contracts as given, resources under canonical names. */
  function Declared(taxonomy: Option<seq<Rule>>, cs: seq<Contract>): (r: seq<Contract>)
    ensures |r| == |cs| && forall i :: 0 <= i < |cs| ==> r[i] == Declare(taxonomy, cs[i])
  {
    if cs == [] then [] else Declared(taxonomy, cs[..|cs| - 1]) + [Declare(taxonomy, cs[|cs| - 1])]
  }

  /** What the compiler works on once its checks of single contracts passed. */
  function Prepared(taxonomy: Option<seq<Rule>>, cs: seq<Contract>): seq<Contract> {
    var sorted := SortBy(cs, ContractKey);
    match taxonomy case None => sorted case Some(rules) => NormalizedAll(rules, sorted)
  }

  /** The same contract up to the order of its claims. */
  predicate Alike(c: Contract, d: Contract) {
    c.(resources := []) == d.(resources := []) && multiset(c.resources) == multiset(d.resources)
  }

  ghost predicate Covered(a: seq<Contract>, b: seq<Contract>) {
    forall c :: c in a ==> exists d :: d in b && Alike(c, d)
  }

  /** The same contracts up to their order and the order of their claims. */
  ghost predicate Mirrors(a: seq<Contract>, b: seq<Contract>) { Covered(a, b) && Covered(b, a) }

  lemma AlikeSymmetric(c: Contract, d: Contract)
    requires Alike(c, d)
    ensures Alike(d, c)
  {}

  /** The counterpart of a contract. */
  lemma Partner(a: seq<Contract>, b: seq<Contract>, c: Contract) returns (d: Contract)
    requires Covered(a, b) && c in a
    ensures d in b && Alike(c, d)
    ensures d.id == c.id && d.needs == c.needs && d.offers == c.offers && d.obligations == c.obligations
            && d.grants == c.grants
  {
    d :| d in b && Alike(c, d);
  }

  lemma PreparedIsAlike(taxonomy: Option<seq<Rule>>, c: Contract)
    ensures Alike(Declare(taxonomy, c), if taxonomy.Some? then Normalized(taxonomy.value, c) else c)
  {
    hide Canonical;
  }

  lemma PreparedAt(taxonomy: Option<seq<Rule>>, cs: seq<Contract>, j: int)
    requires 0 <= j < |Prepared(taxonomy, cs)|
    ensures |SortBy(cs, ContractKey)| == |Prepared(taxonomy, cs)|
    ensures Alike(Declare(taxonomy, SortBy(cs, ContractKey)[j]), Prepared(taxonomy, cs)[j])
  {
    hide SortBy, Alike, Declare, Normalized, NormalizedAll;
    PreparedIsAlike(taxonomy, SortBy(cs, ContractKey)[j]);
  }

  lemma PreparedCovers(taxonomy: Option<seq<Rule>>, cs: seq<Contract>, c: Contract)
    requires c in Declared(taxonomy, cs)
    ensures exists d :: d in Prepared(taxonomy, cs) && Alike(c, d)
  {
    hide SortBy, Declared, Declare, Alike, NormalizedAll;
    var a, b, sorted := Declared(taxonomy, cs), Prepared(taxonomy, cs), SortBy(cs, ContractKey);
    var i :| 0 <= i < |a| && a[i] == c;
    var j := ItemAt(cs, sorted, i);
    PreparedAt(taxonomy, cs, j);
    assert b[j] in b;
  }

  lemma PreparedCovered(taxonomy: Option<seq<Rule>>, cs: seq<Contract>, d: Contract)
    requires d in Prepared(taxonomy, cs)
    ensures exists c :: c in Declared(taxonomy, cs) && Alike(d, c)
  {
    hide SortBy, Declared, Declare, Alike, NormalizedAll;
    var a, b, sorted := Declared(taxonomy, cs), Prepared(taxonomy, cs), SortBy(cs, ContractKey);
    var j :| 0 <= j < |b| && b[j] == d;
    PreparedAt(taxonomy, cs, j);
    var i := ItemAt(sorted, cs, j);
    AlikeSymmetric(a[i], d);
    assert a[i] in a;
  }

  lemma PreparedMirrors(taxonomy: Option<seq<Rule>>, cs: seq<Contract>)
    ensures Mirrors(Declared(taxonomy, cs), Prepared(taxonomy, cs))
  {
    hide Declared, Prepared, Alike;
    var a, b := Declared(taxonomy, cs), Prepared(taxonomy, cs);
    assert Covered(a, b) by {
      forall c | c in a ensures exists d :: d in b && Alike(c, d) { PreparedCovers(taxonomy, cs, c); }
    }
    assert Covered(b, a) by {
      forall d | d in b ensures exists c :: c in a && Alike(d, c) { PreparedCovered(taxonomy, cs, d); }
    }
  }

  lemma DistinctIdsKeys(cs: seq<Contract>)
    ensures DuplicateIds(cs) <==> !DistinctKeys(cs, ContractKey)
  {
    forall i, j | 0 <= i < j < |cs| ensures ContractKey(cs[i]) == ContractKey(cs[j]) <==> cs[i].id == cs[j].id {
      TextInjective(cs[i].id, cs[j].id);
    }
  }

  lemma PreparedShape(taxonomy: Option<seq<Rule>>, cs: seq<Contract>)
    requires !DuplicateIds(cs)
    ensures !DuplicateIds(Prepared(taxonomy, cs)) && Sorted(Prepared(taxonomy, cs), ContractKey)
            && |Prepared(taxonomy, cs)| == |cs|
    ensures !DuplicateIds(Declared(taxonomy, cs))
  {
    hide SortBy, Normalized, DistinctKeys;
    var sorted := SortBy(cs, ContractKey);
    DistinctIdsKeys(cs);
    DistinctIdsKeys(sorted);
    RearrangedDistinct(cs, sorted, ContractKey);
    SortBySorted(cs, ContractKey);
    SameItems(cs, sorted);
    var b := Prepared(taxonomy, cs);
    forall i | 0 <= i < |b| ensures b[i].id == sorted[i].id && ContractKey(b[i]) == ContractKey(sorted[i]) {
      PreparedId(taxonomy, sorted[i]);
    }
  }

  lemma PreparedId(taxonomy: Option<seq<Rule>>, c: Contract)
    ensures taxonomy.Some? ==> Normalized(taxonomy.value, c).id == c.id
  {}

  // ---------------------------------------------------------------- transfer

  lemma OffersTransfer(lib: Library, a: seq<Contract>, b: seq<Contract>, need: Capability, id: string, k: nat)
    requires Covered(a, b) && Offer(lib, a, need, id, k)
    ensures Offer(lib, b, need, id, k)
  {
    var c :| c in a && c.id == id && k < |c.offers| && c.offers[k].name == need.name
        && lib.contains(need.version, c.offers[k].version);
    var d := Partner(a, b, c);
  }

  lemma OffersSame(lib: Library, a: seq<Contract>, b: seq<Contract>, need: Capability)
    requires Mirrors(a, b)
    ensures forall id, k :: Offer(lib, a, need, id, k) <==> Offer(lib, b, need, id, k)
    ensures OfferedAtAll(a, need.name) <==> OfferedAtAll(b, need.name)
  {
    hide Offer, OfferedAtAll, Covered;
    forall id, k: nat ensures Offer(lib, a, need, id, k) <==> Offer(lib, b, need, id, k) {
      if Offer(lib, a, need, id, k) { OffersTransfer(lib, a, b, need, id, k); }
      if Offer(lib, b, need, id, k) { OffersTransfer(lib, b, a, need, id, k); }
    }
    if OfferedAtAll(a, need.name) { OfferedTransfer(a, b, need.name); }
    if OfferedAtAll(b, need.name) { OfferedTransfer(b, a, need.name); }
  }

  lemma OfferedTransfer(a: seq<Contract>, b: seq<Contract>, name: string)
    requires Covered(a, b) && OfferedAtAll(a, name)
    ensures OfferedAtAll(b, name)
  {
    var c, k: nat :| c in a && k < |c.offers| && c.offers[k].name == name;
    var d := Partner(a, b, c);
  }

  /** The fate of a requirement is the same among mirrored contracts. */
  lemma FateSame(lib: Library, a: seq<Contract>, b: seq<Contract>, need: Capability)
    requires Mirrors(a, b)
    ensures Met(lib, a, need) <==> Met(lib, b, need)
    ensures forall code :: FailsWith(lib, a, need, code) <==> FailsWith(lib, b, need, code)
  {
    hide Offer, OfferedAtAll, Mirrors;
    OffersSame(lib, a, b, need);
    if Met(lib, a, need) { var id, k :| OnlyOffer(lib, a, need, id, k); assert OnlyOffer(lib, b, need, id, k); }
    if Met(lib, b, need) { var id, k :| OnlyOffer(lib, b, need, id, k); assert OnlyOffer(lib, a, need, id, k); }
  }

  lemma AllMetTransfer(lib: Library, a: seq<Contract>, b: seq<Contract>)
    requires Mirrors(a, b) && AllMet(lib, a)
    ensures AllMet(lib, b)
  {
    hide Met, Covered, Alike;
    forall d, k | d in b && 0 <= k < |d.needs| ensures Met(lib, b, d.needs[k]) {
      var c := Partner(b, a, d);
      FateSame(lib, a, b, d.needs[k]);
    }
  }

  lemma FirstFailureTransfer(lib: Library, a: seq<Contract>, b: seq<Contract>, c: Contract, k: nat, code: Code)
    requires Mirrors(a, b) && !DuplicateIds(a) && FirstFailure(lib, a, c, k, code)
    ensures exists d :: FirstFailure(lib, b, d, k, code)
  {
    hide Met, FailsWith, DuplicateIds, Covered, Alike;
    var d := Partner(a, b, c);
    FateSame(lib, a, b, c.needs[k]);
    forall e, j | e in b && 0 <= j < |e.needs| && (Less(e.id, d.id) || (e == d && j < k))
        ensures Met(lib, b, e.needs[j]) {
      var f := Partner(b, a, e);
      if e == d { SameContract(a, f, c); }
      FateSame(lib, a, b, e.needs[j]);
    }
    assert FirstFailure(lib, b, d, k, code);
  }

  lemma GraphSame(lib: Library, a: seq<Contract>, b: seq<Contract>)
    requires Mirrors(a, b)
    ensures DependencyGraph(lib, a) == DependencyGraph(lib, b)
  {
    hide DependsOn, Covered;
    IdsSame(a, b);
    forall id, p ensures DependsOn(lib, a, id, p) <==> DependsOn(lib, b, id, p) {
      if DependsOn(lib, a, id, p) { DependsTransfer(lib, a, b, id, p); }
      if DependsOn(lib, b, id, p) { DependsTransfer(lib, b, a, id, p); }
    }
    var g, h := DependencyGraph(lib, a), DependencyGraph(lib, b);
    forall id | id in Ids(a) ensures g[id] == h[id] {}
    assert g.Keys == h.Keys;
  }

  lemma IdsSame(a: seq<Contract>, b: seq<Contract>)
    requires Mirrors(a, b)
    ensures Ids(a) == Ids(b)
  {
    hide Covered, Alike;
    forall id | id in Ids(a) ensures id in Ids(b) { var c :| c in a && c.id == id; var d := Partner(a, b, c); }
    forall id | id in Ids(b) ensures id in Ids(a) { var c :| c in b && c.id == id; var d := Partner(b, a, c); }
  }

  lemma DependsTransfer(lib: Library, a: seq<Contract>, b: seq<Contract>, consumer: string, provider: string)
    requires Covered(a, b) && DependsOn(lib, a, consumer, provider)
    ensures DependsOn(lib, b, consumer, provider)
  {
    hide Offer, Covered, Alike;
    var c, j, k :| c in a && c.id == consumer && 0 <= j < |c.needs| && Offer(lib, a, c.needs[j], provider, k);
    var d := Partner(a, b, c);
    OffersTransfer(lib, a, b, c.needs[j], provider, k);
  }

  lemma RepeatsKeys(s: seq<Claim>)
    ensures Repeats(s) <==> !DistinctKeys(s, ClaimKey)
  {
    forall i, j | 0 <= i < j < |s| ensures ClaimKey(s[i]) == ClaimKey(s[j]) <==> s[i].name == s[j].name {
      TextInjective(s[i].name, s[j].name);
    }
  }

  lemma AlikeClaims(c: Contract, d: Contract, j: int) returns (k: int)
    requires Alike(c, d) && 0 <= j < |c.resources|
    ensures 0 <= k < |d.resources| && d.resources[k] == c.resources[j]
  {
    SameItems(c.resources, d.resources);
    assert c.resources[j] in d.resources;
    k :| 0 <= k < |d.resources| && d.resources[k] == c.resources[j];
  }

  lemma RepeatsTransfer(c: Contract, d: Contract)
    requires Alike(c, d)
    ensures Repeats(c.resources) <==> Repeats(d.resources)
  {
    hide DistinctKeys;
    RepeatsKeys(c.resources);
    RepeatsKeys(d.resources);
    RearrangedDistinct(c.resources, d.resources, ClaimKey);
  }

  lemma ClashTransfer(a: seq<Contract>, b: seq<Contract>)
    requires Mirrors(a, b) && Clash(a)
    ensures Clash(b)
  {
    hide Repeats, Agree, Covered, Alike;
    if c :| c in a && Repeats(c.resources) {
      var d := Partner(a, b, c);
      RepeatsTransfer(c, d);
    } else {
      var c, j, d, k :| Holds(a, c, j) && Holds(a, d, k) && c.id != d.id && c.resources[j].name == d.resources[k].name
                        && !Agree(c.resources[j], d.resources[k]);
      var c' := Partner(a, b, c);
      var d' := Partner(a, b, d);
      var j' := AlikeClaims(c, c', j);
      var k' := AlikeClaims(d, d', k);
      assert Holds(b, c', j') && Holds(b, d', k');
    }
  }

  lemma OrphanTransfer(a: seq<Contract>, b: seq<Contract>)
    requires Mirrors(a, b) && Orphan(a)
    ensures Orphan(b)
  {
    hide Covered, Alike;
    var c, j :| Holds(a, c, j) && c.resources[j].mode == MEDIATED
                && forall d, k :: Holds(a, d, k) && d.resources[k].name == c.resources[j].name ==>
                      c.resources[j].mediator != Some(d.id);
    var c' := Partner(a, b, c);
    var j' := AlikeClaims(c, c', j);
    forall d', k' | Holds(b, d', k') && d'.resources[k'].name == c'.resources[j'].name
        ensures c'.resources[j'].mediator != Some(d'.id) {
      var d := Partner(b, a, d');
      var k := AlikeClaims(d', d, k');
      assert Holds(a, d, k);
    }
    assert Holds(b, c', j');
  }
}
