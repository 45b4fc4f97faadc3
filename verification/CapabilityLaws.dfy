/** What capability resolution decides, said without its loops. */
module CapabilityLaws {
  import opened Lexicographic
  import opened Ordering
  import opened Compiler

  // ---------------------------------------------------------------- offers

  /** A provision of the needed capability, of any version. */
  predicate Names(p: Provision, name: string) {
    p.index < |p.contract.offers| && p.contract.offers[p.index].name == name
  }

  predicate NoRepeats(s: seq<Provision>) { forall i, j :: 0 <= i < j < |s| ==> s[i] != s[j] }

  lemma {:induction false} ProvisionsOfIff(c: Contract, n: nat, name: string)
    requires n <= |c.offers|
    ensures forall p :: p in ProvisionsOf(c, n, name) <==> p.contract == c && p.index < n && Names(p, name)
    ensures NoRepeats(ProvisionsOf(c, n, name))
  {
    if n != 0 { ProvisionsOfIff(c, n - 1, name); }
  }

  lemma {:induction false} CandidatesIff(cs: seq<Contract>, name: string)
    requires !DuplicateIds(cs)
    ensures forall p :: p in Candidates(cs, name) <==> p.contract in cs && Names(p, name)
    ensures NoRepeats(Candidates(cs, name))
  {
    if cs != [] {
      var before, last := cs[..|cs| - 1], cs[|cs| - 1];
      CandidatesIff(before, name);
      ProvisionsOfIff(last, |last.offers|, name);
      assert cs == before + [last];
      assert last !in before;
    }
  }

  lemma {:induction false} CompatibleIff(lib: Library, s: seq<Provision>, need: Capability)
    requires NoRepeats(s)
    ensures forall p :: p in Compatible(lib, s, need) <==> p in s && Suits(lib, p, need)
    ensures NoRepeats(Compatible(lib, s, need))
  {
    if s != [] {
      var before, last := s[..|s| - 1], s[|s| - 1];
      CompatibleIff(lib, before, need);
      assert s == before + [last];
      assert last !in before;
    }
  }

  /** The contract offers the needed capability in a suitable version, as its k-th provision. */
  ghost predicate Offer(lib: Library, cs: seq<Contract>, need: Capability, id: string, k: nat) {
    exists c :: c in cs && c.id == id && k < |c.offers| && c.offers[k].name == need.name
        && lib.contains(need.version, c.offers[k].version)
  }

  ghost predicate OfferedAtAll(cs: seq<Contract>, name: string) {
    exists c, k: nat :: c in cs && k < |c.offers| && c.offers[k].name == name
  }

  ghost predicate OnlyOffer(lib: Library, cs: seq<Contract>, need: Capability, id: string, k: nat) {
    Offer(lib, cs, need, id, k) && forall id', k' :: Offer(lib, cs, need, id', k') ==> id' == id && k' == k
  }

  /** The fate of one requirement, said without resolving anything. */
  ghost predicate FailsWith(lib: Library, cs: seq<Contract>, need: Capability, code: Code) {
    match code
    case MissingCapability => !OfferedAtAll(cs, need.name)
    case IncompatibleCapability => OfferedAtAll(cs, need.name) && forall id, k :: !Offer(lib, cs, need, id, k)
    case AmbiguousCapability =>
      exists id, k, id', k' :: Offer(lib, cs, need, id, k) && Offer(lib, cs, need, id', k') && (id != id' || k != k')
    case _ => false
  }

  ghost predicate Met(lib: Library, cs: seq<Contract>, need: Capability) {
    exists id, k :: OnlyOffer(lib, cs, need, id, k)
  }

  lemma SameContract(cs: seq<Contract>, c: Contract, d: Contract)
    requires !DuplicateIds(cs) && c in cs && d in cs && c.id == d.id
    ensures c == d
  {
    var i :| 0 <= i < |cs| && cs[i] == c;
    var j :| 0 <= j < |cs| && cs[j] == d;
    assert forall a, b :: 0 <= a < b < |cs| ==> cs[a].id != cs[b].id;
  }

  /** The compatible list holds exactly the offers. */
  lemma CompatibleOffers(lib: Library, cs: seq<Contract>, need: Capability)
    requires !DuplicateIds(cs)
    ensures var s := Compatible(lib, Candidates(cs, need.name), need);
            && NoRepeats(s)
            && (forall p :: p in s ==> p.contract in cs && Offer(lib, cs, need, p.contract.id, p.index))
            && (forall id, k :: Offer(lib, cs, need, id, k) ==>
                exists p :: p in s && p.contract.id == id && p.index == k)
  {
    hide Candidates, Compatible, DuplicateIds;
    CandidatesIff(cs, need.name);
    CompatibleIff(lib, Candidates(cs, need.name), need);
    var s := Compatible(lib, Candidates(cs, need.name), need);
    forall id, k: nat | Offer(lib, cs, need, id, k) ensures exists p :: p in s && p.contract.id == id && p.index == k {
      var c :| c in cs && c.id == id && k < |c.offers| && c.offers[k].name == need.name
          && lib.contains(need.version, c.offers[k].version);
      assert Provision(c, k) in s;
    }
  }

  /** Resolution of one requirement, both ways. */
  lemma ChooseIff(lib: Library, cs: seq<Contract>, need: Capability)
    requires !DuplicateIds(cs)
    ensures Choose(lib, cs, need).Ok? <==> Met(lib, cs, need)
    ensures Choose(lib, cs, need).Ok? ==>
              var p := Choose(lib, cs, need).value;
              p.contract in cs && p.index < |p.contract.offers| && OnlyOffer(lib, cs, need, p.contract.id, p.index)
    ensures forall code :: Choose(lib, cs, need) == Err(code) <==> FailsWith(lib, cs, need, code)
  {
    hide Candidates, Compatible, DuplicateIds, Offer;
    var candidates := Candidates(cs, need.name);
    var s := Compatible(lib, candidates, need);
    CompatibleOffers(lib, cs, need);
    CandidatesIff(cs, need.name);
    assert candidates == [] <==> !OfferedAtAll(cs, need.name) by { NamedCandidates(cs, need.name); }
    if s == [] {
      NoOffer(lib, cs, need);
    } else if |s| == 1 {
      assert OnlyOffer(lib, cs, need, s[0].contract.id, s[0].index);
      assert OfferedAtAll(cs, need.name) by { OfferIsNamed(lib, cs, need, s[0].contract.id, s[0].index); }
      assert s[0].index < |s[0].contract.offers| by { CompatibleIndex(lib, cs, need); }
    } else {
      TwoOffers(lib, cs, need);
    }
  }

  lemma CompatibleIndex(lib: Library, cs: seq<Contract>, need: Capability)
    requires !DuplicateIds(cs)
    ensures forall p :: p in Compatible(lib, Candidates(cs, need.name), need) ==> p.index < |p.contract.offers|
  {
    hide Candidates, Compatible, DuplicateIds;
    CandidatesIff(cs, need.name);
    CompatibleIff(lib, Candidates(cs, need.name), need);
  }

  lemma NamedCandidates(cs: seq<Contract>, name: string)
    requires !DuplicateIds(cs)
    ensures Candidates(cs, name) == [] <==> !OfferedAtAll(cs, name)
  {
    hide Candidates, DuplicateIds;
    CandidatesIff(cs, name);
    var s := Candidates(cs, name);
    if s != [] { assert s[0] in s; }
    if OfferedAtAll(cs, name) {
      var c, k: nat :| c in cs && k < |c.offers| && c.offers[k].name == name;
      assert Provision(c, k) in s;
    }
  }

  lemma OfferIsNamed(lib: Library, cs: seq<Contract>, need: Capability, id: string, k: nat)
    requires Offer(lib, cs, need, id, k)
    ensures OfferedAtAll(cs, need.name)
  {}

  lemma NoOffer(lib: Library, cs: seq<Contract>, need: Capability)
    requires !DuplicateIds(cs) && Compatible(lib, Candidates(cs, need.name), need) == []
    ensures forall id, k :: !Offer(lib, cs, need, id, k)
  {
    hide Candidates, Compatible, DuplicateIds, Offer;
    CompatibleOffers(lib, cs, need);
  }

  lemma TwoOffers(lib: Library, cs: seq<Contract>, need: Capability)
    requires !DuplicateIds(cs) && |Compatible(lib, Candidates(cs, need.name), need)| > 1
    ensures FailsWith(lib, cs, need, AmbiguousCapability) && !Met(lib, cs, need) && OfferedAtAll(cs, need.name)
    ensures !FailsWith(lib, cs, need, IncompatibleCapability)
  {
    hide Candidates, Compatible, DuplicateIds, Offer;
    CompatibleOffers(lib, cs, need);
    var s := Compatible(lib, Candidates(cs, need.name), need);
    var p, q := s[0], s[1];
    assert p in s && q in s && p != q;
    assert p.contract.id != q.contract.id || p.index != q.index by {
      if p.contract.id == q.contract.id { SameContract(cs, p.contract, q.contract); }
    }
    assert Offer(lib, cs, need, p.contract.id, p.index) && Offer(lib, cs, need, q.contract.id, q.index);
    OfferIsNamed(lib, cs, need, p.contract.id, p.index);
  }

  // ---------------------------------------------------------------- demands

  lemma {:induction false} DemandsOfAt(c: Contract, n: nat)
    requires n <= |c.needs|
    ensures |DemandsOf(c, n)| == n && forall k :: 0 <= k < n ==> DemandsOf(c, n)[k] == Demand(c.id, c.needs[k])
  {
    if n != 0 { DemandsOfAt(c, n - 1); }
  }

  /** Where the demands of the i-th contract start. */
  function Offset(cs: seq<Contract>, i: nat): nat
    requires i <= |cs|
  {
    |Demands(cs[..i])|
  }

  lemma {:induction false} DemandsAt(cs: seq<Contract>, i: nat, k: nat)
    requires i < |cs| && k < |cs[i].needs|
    ensures Offset(cs, i) + k < |Demands(cs)| && Demands(cs)[Offset(cs, i) + k] == Demand(cs[i].id, cs[i].needs[k])
    ensures Offset(cs, i) + k < Offset(cs, i + 1)
  {
    var before, last := cs[..|cs| - 1], cs[|cs| - 1];
    DemandsOfAt(last, |last.needs|);
    assert cs[..i + 1][..i] == cs[..i];
    if i == |cs| - 1 {
      assert cs[..i + 1] == cs && cs[..i] == before;
    } else {
      DemandsAt(before, i, k);
      assert before[..i] == cs[..i] && before[..i + 1] == cs[..i + 1];
    }
  }

  /** Every demand is some contract's. */
  lemma {:induction false} DemandOwner(cs: seq<Contract>, n: nat) returns (i: nat, k: nat)
    requires n < |Demands(cs)|
    ensures i < |cs| && k < |cs[i].needs| && n == Offset(cs, i) + k
            && Demands(cs)[n] == Demand(cs[i].id, cs[i].needs[k])
  {
    var before, last := cs[..|cs| - 1], cs[|cs| - 1];
    DemandsOfAt(last, |last.needs|);
    if n < |Demands(before)| {
      i, k := DemandOwner(before, n);
      assert before[..i] == cs[..i];
    } else {
      i, k := |cs| - 1, n - |Demands(before)|;
    }
  }

  lemma {:induction false} OffsetMonotone(cs: seq<Contract>, i: nat, j: nat)
    requires i <= j <= |cs|
    ensures Offset(cs, i) <= Offset(cs, j)
    decreases j
  {
    if i < j {
      OffsetMonotone(cs, i, j - 1);
      assert cs[..j][..j - 1] == cs[..j - 1];
    }
  }

  lemma {:induction false} BindAllIff(lib: Library, cs: seq<Contract>, ds: seq<Demand>)
    ensures BindAll(lib, cs, ds).Ok? <==> forall n :: 0 <= n < |ds| ==> Choose(lib, cs, ds[n].need).Ok?
    ensures BindAll(lib, cs, ds).Ok? ==>
              && |BindAll(lib, cs, ds).value| == |ds|
              && forall n :: 0 <= n < |ds| ==>
                   (Choose(lib, cs, ds[n].need).Ok?
                    && BindAll(lib, cs, ds).value[n] == Bind(ds[n], Choose(lib, cs, ds[n].need).value))
    ensures BindAll(lib, cs, ds).Err? ==>
              exists n :: 0 <= n < |ds| && Choose(lib, cs, ds[n].need) == Err(BindAll(lib, cs, ds).code)
                          && forall m :: 0 <= m < n ==> Choose(lib, cs, ds[m].need).Ok?
  {
    hide Choose, Bind;
    if ds != [] {
      var before, last := ds[..|ds| - 1], ds[|ds| - 1];
      BindAllIff(lib, cs, before);
      assert ds == before + [last];
      var r := BindAll(lib, cs, ds);
      if BindAll(lib, cs, before).Err? {
        var n :| 0 <= n < |before| && Choose(lib, cs, before[n].need) == Err(BindAll(lib, cs, before).code)
                 && forall m :: 0 <= m < n ==> Choose(lib, cs, before[m].need).Ok?;
        assert Choose(lib, cs, ds[n].need) == Err(r.code);
      } else if Choose(lib, cs, last.need).Err? {
        assert Choose(lib, cs, ds[|ds| - 1].need) == Err(r.code);
      }
    }
  }

  // ---------------------------------------------------------------- the verdict on all requirements

  /** Every requirement of every contract has exactly one suitable provision. */
  ghost predicate AllMet(lib: Library, cs: seq<Contract>) {
    forall c, k :: c in cs && 0 <= k < |c.needs| ==> Met(lib, cs, c.needs[k])
  }

  /** The failing requirement that decides: none of a smaller consumer, nor an earlier one of the same, fails. */
  ghost predicate FirstFailure(lib: Library, cs: seq<Contract>, c: Contract, k: nat, code: Code) {
    && c in cs && k < |c.needs| && FailsWith(lib, cs, c.needs[k], code)
    && forall d, j :: d in cs && 0 <= j < |d.needs| && (Less(d.id, c.id) || (d == c && j < k)) ==>
          Met(lib, cs, d.needs[j])
  }

  lemma IdSorted(cs: seq<Contract>, i: nat, j: nat)
    requires Sorted(cs, ContractKey) && i < |cs| && j < |cs| && Less(cs[i].id, cs[j].id)
    ensures i < j
  {
    if j <= i {
      LessIrreflexive(cs[i].id);
      assert j < i;
      assert KeyLeq(ContractKey(cs[j]), ContractKey(cs[i]));
      assert cs[j].id == cs[i].id || Less(cs[j].id, cs[i].id) by { SingletonKeys(cs[j].id, cs[i].id); }
      if Less(cs[j].id, cs[i].id) { LessTransitive(cs[i].id, cs[j].id, cs[i].id); }
    }
  }

  lemma SingletonKeys(a: string, b: string)
    requires KeyLeq([a], [b])
    ensures Leq(a, b)
  {
    if [a] == [b] { assert [a][0] == [b][0]; }
    else { assert [a][1..] == [] && [b][1..] == []; }
  }

  /** Capability resolution of a set of contracts sorted by id. */
  lemma ResolveIff(lib: Library, cs: seq<Contract>)
    requires !DuplicateIds(cs) && Sorted(cs, ContractKey)
    ensures BindAll(lib, cs, Demands(cs)).Ok? <==> AllMet(lib, cs)
    ensures forall code :: BindAll(lib, cs, Demands(cs)) == Err(code) <==>
            exists c, k :: FirstFailure(lib, cs, c, k, code)
  {
    hide Choose, BindAll, Demands, FailsWith, Met, DuplicateIds, Sorted, Offset;
    var ds := Demands(cs);
    BindAllIff(lib, cs, ds);
    if BindAll(lib, cs, ds).Ok? {
      forall c, k | c in cs && 0 <= k < |c.needs| ensures Met(lib, cs, c.needs[k]) {
        var i :| 0 <= i < |cs| && cs[i] == c;
        DemandsAt(cs, i, k);
        ChooseIff(lib, cs, c.needs[k]);
        assert ds[Offset(cs, i) + k].need == c.needs[k];
      }
    } else {
      FailureIsFirst(lib, cs);
    }
    forall c, k: nat, code | FirstFailure(lib, cs, c, k, code) ensures BindAll(lib, cs, ds) == Err(code) {
      ChooseIff(lib, cs, c.needs[k]);
      assert !Met(lib, cs, c.needs[k]) && BindAll(lib, cs, ds).Err?;
      var d, j :| FirstFailure(lib, cs, d, j, BindAll(lib, cs, ds).code);
      FirstFailureUnique(lib, cs, c, k, code, d, j, BindAll(lib, cs, ds).code);
    }
    if AllMet(lib, cs) {
      forall n | 0 <= n < |ds| ensures Choose(lib, cs, ds[n].need).Ok? {
        var i, k := DemandOwner(cs, n);
        assert cs[i] in cs;
        ChooseIff(lib, cs, cs[i].needs[k]);
      }
    }
  }

  lemma FirstFailureUnique(lib: Library, cs: seq<Contract>, c: Contract, k: nat, code: Code, d: Contract, j: nat,
                           code': Code)
    requires !DuplicateIds(cs) && FirstFailure(lib, cs, c, k, code) && FirstFailure(lib, cs, d, j, code')
    ensures c == d && k == j && code == code'
  {
    hide Choose, FailsWith, Met, DuplicateIds;
    ChooseIff(lib, cs, c.needs[k]);
    ChooseIff(lib, cs, d.needs[j]);
    LessTotal(c.id, d.id);
    if c.id == d.id { SameContract(cs, c, d); }
  }

  lemma FailureIsFirst(lib: Library, cs: seq<Contract>)
    requires !DuplicateIds(cs) && Sorted(cs, ContractKey) && BindAll(lib, cs, Demands(cs)).Err?
    ensures exists c, k :: FirstFailure(lib, cs, c, k, BindAll(lib, cs, Demands(cs)).code)
  {
    hide Choose, BindAll, Demands, FailsWith, Met, Offset, Sorted;
    var ds := Demands(cs);
    BindAllIff(lib, cs, ds);
    var code := BindAll(lib, cs, ds).code;
    var n :| 0 <= n < |ds| && Choose(lib, cs, ds[n].need) == Err(code) && forall m :: 0 <= m < n ==>
        Choose(lib, cs, ds[m].need).Ok?;
    var i, k := DemandOwner(cs, n);
    var c := cs[i];
    ChooseIff(lib, cs, c.needs[k]);
    LessIrreflexive(c.id);
    forall d, j | d in cs && 0 <= j < |d.needs| && (Less(d.id, c.id) || (d == c && j < k))
        ensures Met(lib, cs, d.needs[j]) {
      var h :| 0 <= h < |cs| && cs[h] == d;
      if d == c {
        assert h == i by { assert forall a, b :: 0 <= a < b < |cs| ==> cs[a].id != cs[b].id; }
      } else {
        IdSorted(cs, h, i);
        OffsetMonotone(cs, h + 1, i);
      }
      DemandsAt(cs, h, j);
      assert Offset(cs, h) + j < n;
      ChooseIff(lib, cs, d.needs[j]);
      assert ds[Offset(cs, h) + j].need == d.needs[j];
    }
    assert FirstFailure(lib, cs, c, k, code);
  }

  // ---------------------------------------------------------------- dependencies

  /** A requirement of one contract is met by another. */
  ghost predicate DependsOn(lib: Library, cs: seq<Contract>, consumer: string, provider: string) {
    && consumer != provider
    && exists c, j, k :: c in cs && c.id == consumer && 0 <= j < |c.needs| && Offer(lib, cs, c.needs[j], provider, k)
  }

  ghost function DependencyGraph(lib: Library, cs: seq<Contract>): Graph {
    map id | id in Ids(cs) :: set p | p in Ids(cs) && DependsOn(lib, cs, id, p)
  }

  lemma OfferedById(lib: Library, cs: seq<Contract>, need: Capability, id: string, k: nat)
    requires Offer(lib, cs, need, id, k)
    ensures id in Ids(cs)
  {}

  lemma BindingEdges(lib: Library, cs: seq<Contract>, bs: seq<Binding>, consumer: string, provider: string)
    requires !DuplicateIds(cs) && BindAll(lib, cs, Demands(cs)) == Ok(bs) && consumer != provider
    ensures DependsOn(lib, cs, consumer, provider) <==>
            exists b :: b in bs && b.consumer == consumer && b.provider == provider
  {
    hide Choose, BindAll, Demands, Offer, DuplicateIds, Offset, OnlyOffer;
    var ds := Demands(cs);
    BindAllIff(lib, cs, ds);
    if DependsOn(lib, cs, consumer, provider) {
      var c, j, k :| c in cs && c.id == consumer && 0 <= j < |c.needs| && Offer(lib, cs, c.needs[j], provider, k);
      var i :| 0 <= i < |cs| && cs[i] == c;
      DemandsAt(cs, i, j);
      var n := Offset(cs, i) + j;
      ChooseIff(lib, cs, c.needs[j]);
      OnlyProvider(lib, cs, c.needs[j], provider, k);
      assert bs[n] in bs && bs[n] == Bind(ds[n], Choose(lib, cs, ds[n].need).value);
    }
    if exists b :: b in bs && b.consumer == consumer && b.provider == provider {
      var b :| b in bs && b.consumer == consumer && b.provider == provider;
      var n :| 0 <= n < |bs| && bs[n] == b;
      var i, j := DemandOwner(cs, n);
      ChooseIff(lib, cs, ds[n].need);
      OnlyIsOffer(lib, cs, ds[n].need);
      assert cs[i] in cs && Offer(lib, cs, cs[i].needs[j], provider, Choose(lib, cs, ds[n].need).value.index);
    }
  }

  lemma OnlyProvider(lib: Library, cs: seq<Contract>, need: Capability, id: string, k: nat)
    requires !DuplicateIds(cs) && Offer(lib, cs, need, id, k) && Choose(lib, cs, need).Ok?
    ensures Choose(lib, cs, need).value.contract.id == id
  {
    hide Choose, Offer, DuplicateIds;
    ChooseIff(lib, cs, need);
  }

  lemma OnlyIsOffer(lib: Library, cs: seq<Contract>, need: Capability)
    requires !DuplicateIds(cs) && Choose(lib, cs, need).Ok?
    ensures var p := Choose(lib, cs, need).value; Offer(lib, cs, need, p.contract.id, p.index)
  {
    hide Choose, Offer, DuplicateIds;
    ChooseIff(lib, cs, need);
  }

  /** The graph the ordering runs on is the declared one. */
  lemma GraphIsDeclared(lib: Library, cs: seq<Contract>, bs: seq<Binding>)
    requires !DuplicateIds(cs) && BindAll(lib, cs, Demands(cs)) == Ok(bs)
    ensures Dependencies(Ids(cs), bs) == DependencyGraph(lib, cs)
    ensures Closed(Dependencies(Ids(cs), bs))
  {
    hide BindAll, Demands, DuplicateIds, DependsOn;
    var g, h := Dependencies(Ids(cs), bs), DependencyGraph(lib, cs);
    forall id | id in Ids(cs) ensures g[id] == h[id] {
      forall p ensures p in g[id] <==> p in h[id] {
        if p != id { BindingEdges(lib, cs, bs, id, p); DependencyIds(lib, cs, id, p); }
        else { NoSelfDependency(lib, cs, id); }
      }
    }
    assert g.Keys == h.Keys;
  }

  lemma NoSelfDependency(lib: Library, cs: seq<Contract>, id: string)
    ensures !DependsOn(lib, cs, id, id)
  {}

  lemma DependencyIds(lib: Library, cs: seq<Contract>, id: string, p: string)
    ensures DependsOn(lib, cs, id, p) ==> p in Ids(cs)
  {
    hide Offer, Ids;
    if DependsOn(lib, cs, id, p) {
      var c, j, k :| c in cs && c.id == id && 0 <= j < |c.needs| && Offer(lib, cs, c.needs[j], p, k);
      OfferedById(lib, cs, c.needs[j], p, k);
    }
  }
}
