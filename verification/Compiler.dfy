/** The contract compiler (src/vllm_hust_ext/contract_compiler.py): one deterministic plan, or one error code. */
module Compiler {
  import opened Basics
  import opened Lexicographic
  import opened Ordering

  datatype Code =
    | InvalidContract | DuplicatePlugin | IncompatibleHost | MissingCapability | IncompatibleCapability
    | AmbiguousCapability
    | DependencyCycle | ResourceConflict | AuthorityViolation | UnknownResource | InvalidResourceMode
    | UnboundObligation // the KeyError of an obligation on an undeclared requirement

  datatype Outcome<+T> = Ok(value: T) | Err(code: Code)

  datatype Capability = Capability(name: string, version: string)

  datatype Claim = Claim(name: string, mode: string, mediator: Option<string>)

  const SHARED := "shared-read"
  const MEDIATED := "mediated"

  datatype Rule = Rule(canonical: string, aliases: seq<string>, allowedModes: seq<string>)

  datatype Authority = Provider | Runtime | External

  datatype Direction = Provides | Requires

  datatype Grant = Grant(role: string, event: string, direction: Direction, capability: string)

  datatype Obligation = Obligation(role: string, event: string, completion: string, authority: Authority,
                                   direction: Direction, capability: string, quorum: Option<int>)

  datatype Contract = Contract(id: string, version: string, manifest: string, runtime: string, range: string,
                               offers: seq<Capability>, needs: seq<Capability>, resources: seq<Claim>,
                               obligations: seq<Obligation>, managerOwned: seq<string>, operatorOwned: seq<string>,
                               grants: map<Authority, seq<Grant>>)

  datatype Binding = Binding(capability: string, range: string, consumer: string, provider: string, version: string)

  datatype Ownership = Ownership(resource: string, mode: string, owners: seq<string>, mediator: Option<string>)

  datatype ObligationBinding = ObligationBinding(id: string, obligation: Obligation, provider: string)

  datatype Plan = Plan(runtime: string, version: string, ordered: seq<Contract>, bindings: seq<Binding>,
                       resources: seq<Ownership>, obligations: seq<ObligationBinding>)

  /** What the compiler asks of its libraries: whether a string is trimmed, the canonical form of a public PEP 440
      version, and whether a specifier set contains a version. */
  datatype Library = Library(trimmed: string -> bool, publicVersion: string -> Option<string>,
                             contains: (string, string) -> bool)

  // ---------------------------------------------------------------- taxonomy

  predicate Names(rule: Rule, name: string) { name == rule.canonical || name in rule.aliases }

  /** The rule a name belongs to; of several the last. */
  function Lookup(rules: seq<Rule>, name: string): Option<Rule> {
    if rules == [] then None
    else if Names(rules[|rules| - 1], name) then Some(rules[|rules| - 1])
    else Lookup(rules[..|rules| - 1], name)
  }

  predicate Known(rules: seq<Rule>, c: Contract) {
    forall k :: 0 <= k < |c.resources| ==> Lookup(rules, c.resources[k].name).Some?
  }

  predicate ModesAllowed(rules: seq<Rule>, c: Contract)
  {
    forall k :: 0 <= k < |c.resources| ==>
      var rule := Lookup(rules, c.resources[k].name);
      rule.Some? ==> c.resources[k].mode in rule.value.allowedModes
  }

  function CanonicalName(rules: seq<Rule>, name: string): string {
    match Lookup(rules, name) case None => name case Some(rule) => rule.canonical
  }

  function Canonical(rules: seq<Rule>, claims: seq<Claim>): (r: seq<Claim>)
    ensures |r| == |claims|
    ensures forall k :: 0 <= k < |claims| ==> r[k] == claims[k].(name := CanonicalName(rules, claims[k].name))
  {
    if claims == [] then []
    else Canonical(rules, claims[..|claims| - 1])
         + [claims[|claims| - 1].(name := CanonicalName(rules, claims[|claims| - 1].name))]
  }

  function ClaimKey(c: Claim): seq<string> { [c.name] }

  function Normalized(rules: seq<Rule>, c: Contract): Contract {
    c.(resources := SortBy(Canonical(rules, c.resources), ClaimKey))
  }

  function NormalizedAll(rules: seq<Rule>, cs: seq<Contract>): (r: seq<Contract>)
    ensures |r| == |cs| && forall i :: 0 <= i < |cs| ==> r[i] == Normalized(rules, cs[i])
  {
    if cs == [] then [] else NormalizedAll(rules, cs[..|cs| - 1]) + [Normalized(rules, cs[|cs| - 1])]
  }

  // ---------------------------------------------------------------- capabilities

  /** The k-th capability a contract provides. */
  datatype Provision = Provision(contract: Contract, index: nat)

  function ProvisionsOf(c: Contract, n: nat, name: string): seq<Provision>
    requires n <= |c.offers|
  {
    if n == 0 then []
    else ProvisionsOf(c, n - 1, name) + (if c.offers[n - 1].name == name then [Provision(c, n - 1)] else [])
  }

  function Candidates(cs: seq<Contract>, name: string): seq<Provision> {
    if cs == [] then []
    else Candidates(cs[..|cs| - 1], name) + ProvisionsOf(cs[|cs| - 1], |cs[|cs| - 1].offers|, name)
  }

  predicate Suits(lib: Library, p: Provision, need: Capability) {
    p.index < |p.contract.offers| && lib.contains(need.version, p.contract.offers[p.index].version)
  }

  function Compatible(lib: Library, candidates: seq<Provision>, need: Capability): seq<Provision> {
    if candidates == [] then []
    else
      var last := candidates[|candidates| - 1];
      Compatible(lib, candidates[..|candidates| - 1], need) + (if Suits(lib, last, need) then [last] else [])
  }

  /** The one compatible provision, or why there is none. */
  function Choose(lib: Library, cs: seq<Contract>, need: Capability): (r: Outcome<Provision>)
  {
    var candidates := Candidates(cs, need.name);
    var compatible := Compatible(lib, candidates, need);
    if compatible == [] then Err(if candidates == [] then MissingCapability else IncompatibleCapability)
    else if |compatible| != 1 then Err(AmbiguousCapability)
    else Ok(compatible[0])
  }

  datatype Demand = Demand(consumer: string, need: Capability)

  function DemandsOf(c: Contract, n: nat): seq<Demand>
    requires n <= |c.needs|
  {
    if n == 0 then [] else DemandsOf(c, n - 1) + [Demand(c.id, c.needs[n - 1])]
  }

  function Demands(cs: seq<Contract>): seq<Demand> {
    if cs == [] then [] else Demands(cs[..|cs| - 1]) + DemandsOf(cs[|cs| - 1], |cs[|cs| - 1].needs|)
  }

  function Bind(d: Demand, p: Provision): Binding {
    Binding(d.need.name, d.need.version, d.consumer, p.contract.id,
            if p.index < |p.contract.offers| then p.contract.offers[p.index].version else "")
  }

  /** Binds the demands in order; the first that cannot be met decides the error. */
  function BindAll(lib: Library, cs: seq<Contract>, ds: seq<Demand>): Outcome<seq<Binding>> {
    if ds == [] then Ok([])
    else
      match BindAll(lib, cs, ds[..|ds| - 1])
      case Err(code) => Err(code)
      case Ok(bs) =>
        match Choose(lib, cs, ds[|ds| - 1].need)
        case Err(code) => Err(code)
        case Ok(p) => Ok(bs + [Bind(ds[|ds| - 1], p)])
  }

  function BindingKey(b: Binding): seq<string> { [b.consumer, b.capability] }

  function Ids(cs: seq<Contract>): set<string> { set c | c in cs :: c.id }

  /** Who depends on whom, self-dependencies left out. */
  function Dependencies(ids: set<string>, bs: seq<Binding>): Graph {
    map id | id in ids :: set b | b in bs && b.consumer == id && b.provider != id :: b.provider
  }

  // ---------------------------------------------------------------- order

  function ById(cs: seq<Contract>, id: string): Option<Contract> {
    if cs == [] then None
    else if cs[|cs| - 1].id == id then Some(cs[|cs| - 1])
    else ById(cs[..|cs| - 1], id)
  }

  function Arranged(cs: seq<Contract>, ids: seq<string>): seq<Contract> {
    if ids == [] then []
    else
      var last := ById(cs, ids[|ids| - 1]);
      Arranged(cs, ids[..|ids| - 1]) + (if last.Some? then [last.value] else [])
  }

  // ---------------------------------------------------------------- resources

  datatype Claimed = Claimed(owner: string, claim: Claim)

  function ClaimsOf(id: string, claims: seq<Claim>, name: string): seq<Claimed> {
    if claims == [] then []
    else
      var last := claims[|claims| - 1];
      ClaimsOf(id, claims[..|claims| - 1], name) + (if last.name == name then [Claimed(id, last)] else [])
  }

  function ClaimsOn(cs: seq<Contract>, name: string): seq<Claimed> {
    if cs == [] then []
    else ClaimsOn(cs[..|cs| - 1], name) + ClaimsOf(cs[|cs| - 1].id, cs[|cs| - 1].resources, name)
  }

  function ClaimedNames(cs: seq<Contract>): set<string> {
    set c, k | c in cs && 0 <= k < |c.resources| :: c.resources[k].name
  }

  function Ascending(s: set<string>): seq<string>
    decreases |s|
  {
    if s == {} then [] else [Least(s)] + Ascending(s - {Least(s)})
  }

  function Text(s: string): seq<string> { [s] }

  function OwnersOf(claims: seq<Claimed>): (r: seq<string>)
    ensures |r| == |claims| && forall i :: 0 <= i < |r| ==> r[i] == claims[i].owner
  {
    if claims == [] then [] else OwnersOf(claims[..|claims| - 1]) + [claims[|claims| - 1].owner]
  }

  function Modes(claims: seq<Claimed>): set<string> { set x | x in claims :: x.claim.mode }

  function Mediators(claims: seq<Claimed>): set<Option<string>> { set x | x in claims :: x.claim.mediator }

  predicate ModeError(claims: seq<Claimed>) {
    || (exists i, j :: 0 <= i < j < |claims| && claims[i].owner == claims[j].owner)
    || (|claims| > 1 && Modes(claims) != {SHARED} && Modes(claims) != {MEDIATED})
  }

  predicate MediatorError(claims: seq<Claimed>) { Modes(claims) == {MEDIATED} && |Mediators(claims)| != 1 }

  predicate PresenceError(claims: seq<Claimed>) {
    Modes(claims) == {MEDIATED} && exists x :: x in claims && x.claim.mediator !in set y | y in claims :: Some(y.owner)
  }

  function Owned(name: string, claims: seq<Claimed>): Ownership
    requires claims != []
  {
    var owners := SortBy(OwnersOf(claims), Text);
    if Modes(claims) == {MEDIATED} then Ownership(name, MEDIATED, owners, claims[0].claim.mediator)
    else if |claims| == 1 then Ownership(name, claims[0].claim.mode, owners, claims[0].claim.mediator)
    else Ownership(name, SHARED, owners, None)
  }

  function OwnedAll(cs: seq<Contract>, names: seq<string>): seq<Ownership> {
    if names == [] then []
    else
      var name := names[|names| - 1];
      var claims := ClaimsOn(cs, name);
      OwnedAll(cs, names[..|names| - 1]) + (if claims == [] then [] else [Owned(name, claims)])
  }

  function ResolveResources(cs: seq<Contract>): Outcome<seq<Ownership>> {
    var names := Ascending(ClaimedNames(cs));
    if exists i :: 0 <= i < |names| && ModeError(ClaimsOn(cs, names[i])) then Err(ResourceConflict)
    else if exists i :: 0 <= i < |names| && MediatorError(ClaimsOn(cs, names[i])) then Err(ResourceConflict)
    else if exists i :: 0 <= i < |names| && PresenceError(ClaimsOn(cs, names[i])) then Err(AuthorityViolation)
    else Ok(OwnedAll(cs, names))
  }

  // ---------------------------------------------------------------- obligations

  predicate Granted(c: Contract, o: Obligation) {
    o.authority in c.grants && Grant(o.role, o.event, o.direction, o.capability) in c.grants[o.authority]
  }

  predicate AllGranted(c: Contract) { forall o :: o in c.obligations ==> Granted(c, o) }

  function ProviderFor(bs: seq<Binding>, consumer: string, capability: string): Option<string> {
    if bs == [] then None
    else
      var last := bs[|bs| - 1];
      if last.consumer == consumer && last.capability == capability then Some(last.provider)
      else ProviderFor(bs[..|bs| - 1], consumer, capability)
  }

  function BindObligation(bs: seq<Binding>, id: string, o: Obligation): Option<ObligationBinding> {
    if o.direction == Provides then Some(ObligationBinding(id, o, id))
    else match ProviderFor(bs, id, o.capability)
      case None => None
      case Some(p) => Some(ObligationBinding(id, o, p))
  }

  function BindObligationsOf(bs: seq<Binding>, id: string, os: seq<Obligation>): Option<seq<ObligationBinding>> {
    if os == [] then Some([])
    else match (BindObligationsOf(bs, id, os[..|os| - 1]), BindObligation(bs, id, os[|os| - 1]))
      case (Some(before), Some(last)) => Some(before + [last])
      case _ => None
  }

  function BindObligations(bs: seq<Binding>, cs: seq<Contract>): Option<seq<ObligationBinding>> {
    if cs == [] then Some([])
    else match (BindObligations(bs, cs[..|cs| - 1]), BindObligationsOf(bs, cs[|cs| - 1].id, cs[|cs| - 1].obligations))
      case (Some(before), Some(last)) => Some(before + last)
      case _ => None
  }

  function DirectionText(d: Direction): string { if d == Provides then "provides" else "requires" }

  function ObligationKey(b: ObligationBinding): seq<string> {
    [b.id, b.obligation.role, b.obligation.event, DirectionText(b.obligation.direction), b.obligation.capability]
  }

  // ---------------------------------------------------------------- the compiler

  function ContractKey(c: Contract): seq<string> { [c.id] }

  /** The canonical host version, when runtime and version are acceptable strings. */
  function HostVersion(lib: Library, runtime: string, version: string): Option<string> {
    if runtime == "" || !lib.trimmed(runtime) || version == "" || !lib.trimmed(version) then None
       else lib.publicVersion(version)
  }

  predicate DuplicateIds(cs: seq<Contract>) { exists i, j :: 0 <= i < j < |cs| && cs[i].id == cs[j].id }

  predicate Hosted(lib: Library, c: Contract, runtime: string, version: string) {
    c.runtime == runtime && lib.contains(c.range, version)
  }

  function Linked(lib: Library, cs: seq<Contract>, runtime: string, version: string): Outcome<Plan> {
    if exists c :: c in cs && !AllGranted(c) then Err(AuthorityViolation)
    else match BindAll(lib, cs, Demands(cs))
      case Err(code) => Err(code)
      case Ok(unsorted) =>
        var bs := SortBy(unsorted, BindingKey);
        var g := Dependencies(Ids(cs), unsorted);
        var order := Kahn(g, g.Keys);
        if |order| != |cs| then Err(DependencyCycle)
        else match ResolveResources(cs)
          case Err(code) => Err(code)
          case Ok(resources) =>
            match BindObligations(bs, cs)
            case None => Err(UnboundObligation)
            case Some(os) => Ok(Plan(runtime, version, Arranged(cs, order), bs, resources, SortBy(os, ObligationKey)))
  }

  function Compile(lib: Library, cs: seq<Contract>, runtime: string, version: string,
                   taxonomy: Option<seq<Rule>>): Outcome<Plan> {
    if cs == [] then Err(InvalidContract)
    else match HostVersion(lib, runtime, version)
      case None => Err(InvalidContract)
      case Some(v) =>
        if DuplicateIds(cs) then Err(DuplicatePlugin)
        else if exists c :: c in cs && !Hosted(lib, c, runtime, v) then Err(IncompatibleHost)
        else
          var sorted := SortBy(cs, ContractKey);
          match taxonomy
          case None => Linked(lib, sorted, runtime, v)
          case Some(rules) =>
            if exists c :: c in cs && !Known(rules, c) then Err(UnknownResource)
            else if exists c :: c in cs && !ModesAllowed(rules, c) then Err(InvalidResourceMode)
            else Linked(lib, NormalizedAll(rules, sorted), runtime, v)
  }
}
