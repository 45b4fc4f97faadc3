/** The enabled set of extensions (src/vllm_hust_ext/cli.py, src/vllm_hust_ext/core.py): its depth-first dependency
    check, its ownership checks, and the commands that change it. */
module Extensions {
  import opened Basics
  import opened Lexicographic
  import opened Ordering
  import opened Compiler
  import ResourceLaws

  // ---------------------------------------------------------------- the depth-first cycle check

  type Edges = map<string, seq<string>>

  function GraphOf(edges: Edges): Graph { map n | n in edges :: set d | d in edges[n] }

  /** A finishing order: every node after all its dependencies. */
  ghost predicate Finished(g: Graph, order: seq<string>) {
    && Distinct(order)
    && forall i :: 0 <= i < |order| ==> order[i] in g && g[order[i]] <= Elements(order[..i])
  }

  /** The path being visited: each node depends on the next. */
  predicate Path(g: Graph, path: seq<string>) {
    && Distinct(path) && (forall i :: 0 <= i < |path| ==> path[i] in g)
    && forall i :: 0 <= i < |path| - 1 ==> path[i + 1] in g[path[i]]
  }

  lemma PathCloses(g: Graph, path: seq<string>, i: int)
    requires Path(g, path) && 0 <= i < |path| && path[i] in g[path[|path| - 1]]
    ensures Cyclic(g)
  {
    var c := path[i..];
    forall k | 0 <= k < |c| ensures c[k] == path[i + k] {}
    assert Cycle(g, c);
  }

  lemma {:induction false} NoCycleElement(g: Graph, order: seq<string>, c: seq<string>, n: nat)
    requires Finished(g, order) && Cycle(g, c) && n <= |order|
    ensures Elements(order[..n]) !! Elements(c)
  {
    if n > 0 {
      NoCycleElement(g, order, c, n - 1);
      CycleGoesOn(g, c);
      var x := order[n - 1];
      assert g[x] <= Elements(order[..n - 1]);
      assert order[..n] == order[..n - 1] + [x];
      ElementsSnoc(order[..n - 1], x);
      hide Elements, Cycle;
    }
  }

  lemma CycleInside(g: Graph, c: seq<string>)
    requires Cycle(g, c)
    ensures Elements(c) * g.Keys != {}
  {
    assert c[0] in Elements(c) * g.Keys;
  }

  /** A finishing order of all nodes excludes cycles. */
  lemma FinishedIsAcyclic(g: Graph, order: seq<string>)
    requires Finished(g, order) && Elements(order) == g.Keys
    ensures !Cyclic(g)
  {
    assert order[..|order|] == order;
    forall c | Cycle(g, c) ensures Elements(order) !! Elements(c) { NoCycleElement(g, order, c, |order|); }
    forall c | Cycle(g, c) ensures Elements(c) * g.Keys != {} { CycleInside(g, c); }
  }

  lemma PathShort(g: Graph, path: seq<string>)
    requires Path(g, path)
    ensures |path| <= |g.Keys| && (|path| == |g.Keys| ==> Elements(path) == g.Keys)
  {
    DistinctCount(path);
    forall x | x in Elements(path) ensures x in g.Keys { var i :| 0 <= i < |path| && path[i] == x; }
    SubsetCount(Elements(path), g.Keys);
  }

  lemma ElementsSnoc(s: seq<string>, x: string)
    ensures Elements(s + [x]) == Elements(s) + {x}
  {
    var t := s + [x];
    assert t[|s|] == x;
    forall y | y in Elements(s) ensures y in Elements(t) { var i :| 0 <= i < |s| && s[i] == y; assert t[i] == y; }
  }

  lemma FinishSnoc(g: Graph, order: seq<string>, x: string)
    requires Finished(g, order) && x in g && x !in Elements(order) && g[x] <= Elements(order)
    ensures Finished(g, order + [x]) && Elements(order + [x]) == Elements(order) + {x}
  {
    var t := order + [x];
    ElementsSnoc(order, x);
    forall i | 0 <= i < |t| ensures t[i] in g && g[t[i]] <= Elements(t[..i]) {
      if i < |order| { assert t[..i] == order[..i]; } else { assert t[..i] == order; }
    }
    forall i | 0 <= i < |order| ensures t[i] != x { assert order[i] in Elements(order); }
  }

  /** The state of the walk: a path, and finished nodes off it. */
  ghost predicate Walking(g: Graph, visiting: seq<string>, visited: set<string>, order: seq<string>) {
    Path(g, visiting) && Finished(g, order) && Elements(order) == visited && visited !! Elements(visiting)
  }

  lemma Enter(g: Graph, visiting: seq<string>, visited: set<string>, order: seq<string>, id: string)
    requires Walking(g, visiting, visited, order) && id in g && id !in visiting && id !in visited
    requires visiting != [] ==> id in g[visiting[|visiting| - 1]]
    ensures Walking(g, visiting + [id], visited, order) && |visiting| < |g.Keys|
  {
    hide Finished;
    assert id !in Elements(visiting);
    Extend(g, visiting, id);
    PathShort(g, visiting + [id]);
    ElementsSnoc(visiting, id);
  }

  lemma Leave(g: Graph, visiting: seq<string>, visited: set<string>, order: seq<string>, id: string)
    requires Walking(g, visiting + [id], visited, order) && id in g && g[id] <= visited
    ensures Walking(g, visiting, visited + {id}, order + [id])
  {
    var path := visiting + [id];
    ElementsSnoc(visiting, id);
    forall i | 0 <= i < |visiting| ensures visiting[i] == path[i] {}
    assert path[|visiting|] == id;
    assert id !in Elements(visiting);
    FinishSnoc(g, order, id);
  }

  lemma Meet(g: Graph, visiting: seq<string>, visited: set<string>, order: seq<string>, id: string)
    requires Walking(g, visiting, visited, order) && id in visiting && id in g[visiting[|visiting| - 1]]
    ensures Cyclic(g)
  {
    var i :| 0 <= i < |visiting| && visiting[i] == id;
    PathCloses(g, visiting, i);
  }

  lemma Start(g: Graph)
    ensures Walking(g, [], {}, [])
  {}

  class DependencyWalk {
    const edges: Edges
    var visiting: seq<string>
    var visited: set<string>
    ghost var order: seq<string>

    ghost predicate Valid()
      reads this
    {
      Closed(GraphOf(edges)) && Walking(GraphOf(edges), visiting, visited, order)
    }

    constructor (edges: Edges)
      requires Closed(GraphOf(edges))
      ensures Valid() && this.edges == edges && visiting == [] && visited == {}
    {
      this.edges := edges;
      visiting, visited, order := [], {}, [];
      Start(GraphOf(edges));
    }

    /** Visits one extension and everything below it; false when it meets a cycle. */
    method Visit(id: string) returns (ok: bool)
      requires Valid() && id in edges
               && (visiting != [] ==>
                   visiting[|visiting| - 1] in edges && id in GraphOf(edges)[visiting[|visiting| - 1]])
      modifies this`visiting, this`visited, this`order
      ensures !ok ==> Cyclic(GraphOf(edges))
      ensures ok ==> Valid() && visiting == old(visiting) && old(visited) <= visited && id in visited
      decreases |edges.Keys| - |visiting|
    {
      hide Walking, Cyclic;
      ghost var g := GraphOf(edges);
      assert g.Keys == edges.Keys;
      if id in visiting { Meet(g, visiting, visited, order, id); return false; }
      if id in visited { return true; }
      Enter(g, visiting, visited, order, id);
      visiting := visiting + [id];
      for k := 0 to |edges[id]|
        invariant Valid() && visiting == old(visiting) + [id] && old(visited) <= visited
        invariant forall j :: 0 <= j < k ==> edges[id][j] in visited
      {
        assert edges[id][k] in g[id];
        var below := Visit(edges[id][k]);
        if !below { return false; }
      }
      Leave(g, old(visiting), visited, order, id);
      visiting := visiting[..|visiting| - 1];
      visited := visited + {id};
      order := order + [id];
      return true;
    }
  }

  lemma Extend(g: Graph, path: seq<string>, id: string)
    requires Path(g, path) && id in g && id !in Elements(path) && (path != [] ==> id in g[path[|path| - 1]])
    ensures Path(g, path + [id])
  {
    var t := path + [id];
    forall i | 0 <= i < |path| ensures t[i] != id { assert path[i] in Elements(path); }
    forall i | 0 <= i < |t| - 1 ensures t[i + 1] in g[t[i]] { assert t[i] == path[i]; }
  }

  /** The depth-first check terminates and rejects exactly the cyclic graphs. */
  method RejectsCycles(edges: Edges) returns (ok: bool)
    requires Closed(GraphOf(edges))
    ensures ok <==> !Cyclic(GraphOf(edges))
  {
    hide Cyclic;
    var walk := new DependencyWalk(edges);
    var ids := Ascending(edges.Keys);
    ResourceLaws.AscendingElements(edges.Keys);
    for i := 0 to |ids|
      invariant walk.Valid() && walk.visiting == []
      invariant forall j :: 0 <= j < i ==> ids[j] in walk.visited
    {
      assert ids[i] in Elements(ids);
      var below := walk.Visit(ids[i]);
      if !below { return false; }
    }
    forall x | x in edges.Keys ensures x in walk.visited { var i :| 0 <= i < |ids| && ids[i] == x; }
    ghost var g := GraphOf(edges);
    assert g.Keys == edges.Keys;
    forall x | x in walk.visited ensures x in g.Keys { var i :| 0 <= i < |walk.order| && walk.order[i] == x; }
    assert Elements(walk.order) == g.Keys;
    FinishedIsAcyclic(g, walk.order);
    return true;
  }

  // ---------------------------------------------------------------- bundles

  datatype Dependency = Dependency(id: string, range: string)

  datatype ResourceClaim = ResourceClaim(scope: string, resource: string, mode: string)

  datatype Bundle = Bundle(version: string, provider: string, processScope: string, isolation: string,
                           needs: seq<Dependency>, claims: seq<ResourceClaim>, blocked: bool)

  type Installed = map<string, Bundle>

  /** Whether a PEP 440 range contains a version. */
  type Contains = (string, string) -> bool

  const EXCLUSIVE := "exclusive"

  predicate OwnsProcesses(b: Bundle) {
    b.provider == "stateaxis" && b.processScope == "stateaxis_processes" && b.isolation == "trusted_in_process"
  }

  /** The k-th dependency of a bundle is selected, in a version its range contains. */
  predicate Answered(contains: Contains, installed: Installed, selected: set<string>, id: string, k: int)
    requires selected <= installed.Keys && id in selected && 0 <= k < |installed[id].needs|
  {
    var need := installed[id].needs[k];
    need.id in selected && contains(need.range, installed[need.id].version)
  }

  /** Every dependency of a selected bundle is selected, in a version the range contains. */
  ghost predicate DependenciesMet(contains: Contains, installed: Installed, selected: set<string>)
    requires selected <= installed.Keys
  {
    forall id, k :: id in selected && 0 <= k < |installed[id].needs| ==> Answered(contains, installed, selected, id, k)
  }

  function Targets(needs: seq<Dependency>): (r: seq<string>)
    ensures |r| == |needs| && forall k :: 0 <= k < |r| ==> r[k] == needs[k].id
  {
    if needs == [] then [] else Targets(needs[..|needs| - 1]) + [needs[|needs| - 1].id]
  }

  function EdgesOf(installed: Installed, selected: set<string>): Edges
    requires selected <= installed.Keys
  {
    map id | id in selected :: Targets(installed[id].needs)
  }

  ghost predicate Acyclic(installed: Installed, selected: set<string>)
    requires selected <= installed.Keys
  {
    !Cyclic(GraphOf(EdgesOf(installed, selected)))
  }

  predicate OneOwner(installed: Installed, selected: set<string>)
    requires selected <= installed.Keys
  {
    forall a, b :: a in selected && b in selected && OwnsProcesses(installed[a]) && OwnsProcesses(installed[b]) ==>
        a == b
  }

  /** The index-th claim of a bundle. */
  datatype Held = Held(id: string, index: nat)

  predicate IsClaim(installed: Installed, x: Held) { x.id in installed && x.index < |installed[x.id].claims| }

  function ClaimAt(installed: Installed, x: Held): ResourceClaim
    requires IsClaim(installed, x)
  {
    installed[x.id].claims[x.index]
  }

  predicate SameResource(a: ResourceClaim, b: ResourceClaim) { a.scope == b.scope && a.resource == b.resource }

  /** Two different claims that one of them wants for itself. */
  predicate Conflict(installed: Installed, x: Held, y: Held) {
    && IsClaim(installed, x) && IsClaim(installed, y) && x != y
    && SameResource(ClaimAt(installed, x), ClaimAt(installed, y))
    && (ClaimAt(installed, x).mode == EXCLUSIVE || ClaimAt(installed, y).mode == EXCLUSIVE)
  }

  ghost predicate NoConflict(installed: Installed, selected: set<string>) {
    forall x: Held, y: Held :: x.id in selected && y.id in selected ==> !Conflict(installed, x, y)
  }

  /** What every enabled set satisfies. */
  ghost predicate Sound(contains: Contains, installed: Installed, enabled: set<string>) {
    && enabled <= installed.Keys && DependenciesMet(contains, installed, enabled) && Acyclic(installed, enabled)
    && OneOwner(installed, enabled) && NoConflict(installed, enabled)
  }

  // ---------------------------------------------------------------- validation

  method ValidateDependencies(contains: Contains, installed: Installed, selected: set<string>) returns (ok: bool)
    requires selected <= installed.Keys
    ensures ok <==> DependenciesMet(contains, installed, selected) && Acyclic(installed, selected)
  {
    hide Acyclic;
    var ids := Ascending(selected);
    ResourceLaws.AscendingElements(selected);
    hide Ascending;
    for i := 0 to |ids|
      invariant forall h, k :: 0 <= h < i && 0 <= k < |installed[ids[h]].needs| ==>
                Answered(contains, installed, selected, ids[h], k)
    {
      assert ids[i] in Elements(ids);
      for j := 0 to |installed[ids[i]].needs|
        invariant forall k :: 0 <= k < j ==> Answered(contains, installed, selected, ids[i], k)
      {
        if !Answered(contains, installed, selected, ids[i], j) { return false; }
      }
    }
    forall id, k | id in selected && 0 <= k < |installed[id].needs|
        ensures Answered(contains, installed, selected, id, k) {
      assert id in Elements(ids);
      var h :| 0 <= h < |ids| && ids[h] == id;
      assert Answered(contains, installed, selected, ids[h], k);
    }
    MetIsClosed(contains, installed, selected);
    ok := RejectsCycles(EdgesOf(installed, selected));
    assert ok <==> Acyclic(installed, selected) by { AcyclicMeans(installed, selected); }
  }

  lemma AcyclicMeans(installed: Installed, selected: set<string>)
    requires selected <= installed.Keys
    ensures Acyclic(installed, selected) <==> !Cyclic(GraphOf(EdgesOf(installed, selected)))
  {}

  lemma MetIsClosed(contains: Contains, installed: Installed, selected: set<string>)
    requires selected <= installed.Keys && DependenciesMet(contains, installed, selected)
    ensures Closed(GraphOf(EdgesOf(installed, selected)))
  {
    var g := GraphOf(EdgesOf(installed, selected));
    assert g.Keys == selected;
    forall id, d | id in g && d in g[id] ensures d in selected {
      assert d in Targets(installed[id].needs);
      var k :| 0 <= k < |installed[id].needs| && Targets(installed[id].needs)[k] == d;
      assert Answered(contains, installed, selected, id, k);
    }
  }

  method ValidateOwnership(installed: Installed, selected: set<string>) returns (ok: bool)
    requires selected <= installed.Keys
    ensures ok <==> OneOwner(installed, selected)
  {
    var owners := set id | id in selected && OwnsProcesses(installed[id]);
    ok := |owners| <= 1;
    if ok {
      forall a, b | a in selected && b in selected && OwnsProcesses(installed[a]) && OwnsProcesses(installed[b])
          ensures a == b {
        assert a in owners && b in owners;
        SmallSet(owners, a, b);
      }
    }
    else { TwoMembers(owners); ghost var a, b :| a in owners && b in owners && a != b; }
  }

  lemma SmallSet(s: set<string>, a: string, b: string)
    requires |s| <= 1 && a in s && b in s
    ensures a == b
  {
    if a != b { SubsetCount({a, b}, s); }
  }

  lemma TwoMembers(s: set<string>)
    requires |s| > 1
    ensures exists a, b :: a in s && b in s && a != b
  {
    var a :| a in s;
    var rest := s - {a};
    assert |rest| > 0;
    var b :| b in rest;
  }

  ghost predicate PairsOk(installed: Installed, seen: set<Held>) {
    forall x, y :: x in seen && y in seen ==> !Conflict(installed, x, y)
  }

  /** The dictionary remembers, per resource, some claim already seen. */
  ghost predicate Remembers(installed: Installed, seen: set<Held>, resources: map<(string, string), string>) {
    && (forall x :: x in seen ==>
        IsClaim(installed, x) && (ClaimAt(installed, x).scope, ClaimAt(installed, x).resource) in resources)
    && (forall key :: key in resources ==>
          exists x :: x in seen && IsClaim(installed, x)
              && key == (ClaimAt(installed, x).scope, ClaimAt(installed, x).resource)
                      && resources[key] == ClaimAt(installed, x).mode)
  }

  /** One claim against the dictionary: exactly a conflict with something seen is reported. */
  lemma NextClaim(installed: Installed, seen: set<Held>, resources: map<(string, string), string>, z: Held)
    requires PairsOk(installed, seen) && Remembers(installed, seen, resources) && IsClaim(installed, z) && z !in seen
    ensures var c := ClaimAt(installed, z);
            var key := (c.scope, c.resource);
            if key in resources && (resources[key] == EXCLUSIVE || c.mode == EXCLUSIVE)
            then exists x :: x in seen && Conflict(installed, x, z)
            else PairsOk(installed, seen + {z}) && Remembers(installed, seen + {z}, resources[key := c.mode])
  {
    var c := ClaimAt(installed, z);
    var key := (c.scope, c.resource);
    if key in resources {
      var x :| x in seen && IsClaim(installed, x)
          && key == (ClaimAt(installed, x).scope, ClaimAt(installed, x).resource)
               && resources[key] == ClaimAt(installed, x).mode;
      if resources[key] == EXCLUSIVE || c.mode == EXCLUSIVE {
        assert Conflict(installed, x, z);
      } else {
        forall y | y in seen ensures !Conflict(installed, y, z) && !Conflict(installed, z, y) {
          assert !Conflict(installed, x, y);
        }
        StillRemembers(installed, seen, resources, z);
      }
    } else {
      StillRemembers(installed, seen, resources, z);
    }
  }

  lemma StillRemembers(installed: Installed, seen: set<Held>, resources: map<(string, string), string>, z: Held)
    requires Remembers(installed, seen, resources) && IsClaim(installed, z)
    ensures var c := ClaimAt(installed, z); Remembers(installed, seen + {z}, resources[(c.scope, c.resource) := c.mode])
  {
    var c := ClaimAt(installed, z);
    var now := resources[(c.scope, c.resource) := c.mode];
    forall key | key in now
      ensures exists x ::
                && x in seen + {z} && IsClaim(installed, x) && now[key] == ClaimAt(installed, x).mode
                && key == (ClaimAt(installed, x).scope, ClaimAt(installed, x).resource)
    {
      if key == (c.scope, c.resource) { assert z in seen + {z}; }
      else {
        var x :| x in seen && IsClaim(installed, x)
            && key == (ClaimAt(installed, x).scope, ClaimAt(installed, x).resource)
                 && resources[key] == ClaimAt(installed, x).mode;
        assert x in seen + {z};
      }
    }
  }

  /** reject_conflicting_plans on resource claims: one pass, a dictionary of the last claim per resource. */
  method ValidateResources(installed: Installed, selected: set<string>) returns (ok: bool)
    requires selected <= installed.Keys
    ensures ok <==> NoConflict(installed, selected)
  {
    var ids := Ascending(selected);
    ResourceLaws.AscendingElements(selected);
    AscendingDistinct(selected);
    hide Ascending, PairsOk, Remembers, Conflict;
    var resources: map<(string, string), string> := map[];
    ghost var seen: set<Held> := {};
    NothingSeen(installed, resources);
    for i := 0 to |ids|
      invariant PairsOk(installed, seen) && Remembers(installed, seen, resources)
      invariant forall x :: x in seen <==> x.id in Elements(ids[..i]) && IsClaim(installed, x)
    {
      assert ids[i] in Elements(ids);
      assert ids[..i + 1] == ids[..i] + [ids[i]];
      ElementsSnoc(ids[..i], ids[i]);
      FreshId(ids, i);
      var id := ids[i];
      for j := 0 to |installed[id].claims|
        invariant PairsOk(installed, seen) && Remembers(installed, seen, resources)
        invariant forall x :: x in seen <==>
                  (x.id in Elements(ids[..i]) && IsClaim(installed, x)) || (x.id == id && x.index < j)
      {
        var c := installed[id].claims[j];
        var key := (c.scope, c.resource);
        ghost var z := Held(id, j);
        NextClaim(installed, seen, resources, z);
        if key in resources && (resources[key] == EXCLUSIVE || c.mode == EXCLUSIVE) {
          ghost var x :| x in seen && Conflict(installed, x, z);
          PrefixInside(ids, i);
          assert x.id in selected && z.id in selected;
          return false;
        }
        resources := resources[key := c.mode];
        seen := seen + {z};
      }
    }
    assert ids[..|ids|] == ids;
    AllPairs(installed, selected, seen);
    return true;
  }

  lemma NothingSeen(installed: Installed, resources: map<(string, string), string>)
    requires resources == map[]
    ensures PairsOk(installed, {}) && Remembers(installed, {}, resources)
  {}

  lemma AscendingDistinct(s: set<string>)
    ensures Distinct(Ascending(s))
  {
    hide Ascending;
    ResourceLaws.AscendingElements(s);
    forall i, j | 0 <= i < j < |Ascending(s)| ensures Ascending(s)[i] != Ascending(s)[j] {
      LessIrreflexive(Ascending(s)[i]);
    }
  }

  lemma FreshId(ids: seq<string>, i: nat)
    requires Distinct(ids) && i < |ids|
    ensures ids[i] !in Elements(ids[..i])
  {}

  lemma PrefixInside(ids: seq<string>, i: nat)
    requires i <= |ids|
    ensures Elements(ids[..i]) <= Elements(ids)
  {
    forall x | x in Elements(ids[..i]) ensures x in Elements(ids) {
      var k :| 0 <= k < i && ids[..i][k] == x;
      assert ids[k] == x;
    }
  }

  lemma AllPairs(installed: Installed, selected: set<string>, seen: set<Held>)
    requires PairsOk(installed, seen) && forall x :: x in seen <==> x.id in selected && IsClaim(installed, x)
    ensures NoConflict(installed, selected)
  {
    forall x: Held, y: Held | x.id in selected && y.id in selected ensures !Conflict(installed, x, y) {
      if IsClaim(installed, x) && IsClaim(installed, y) { assert x in seen && y in seen; }
    }
  }

  // ---------------------------------------------------------------- commands

  datatype Extension = Extension(enabled: bool, configuration: string)

  type Config = map<string, Extension>

  datatype Command = Enable(id: string) | Disable(id: string) | Forget(id: string) | Configure(id: string,
          configuration: Option<string>)

  function EnabledIn(config: Config): set<string> { set id | id in config && config[id].enabled }

  /** A stored extension, or the default of one that is not. */
  function Stored(config: Config, id: string): Extension { if id in config then config[id] else Extension(false, "") }

  /** Some other enabled bundle depends on this one. */
  predicate Needed(installed: Installed, enabled: set<string>, id: string)
    requires enabled <= installed.Keys
  {
    exists d, k :: d in enabled && d != id && 0 <= k < |installed[d].needs| && installed[d].needs[k].id == id
  }

  /** What a command makes of the configuration; None where it raises. */
  ghost function Apply(contains: Contains, installed: Installed, config: Config, c: Command): Option<Config> {
    var enabled := EnabledIn(config);
    match c
    case Enable(id) =>
      if id !in installed || installed[id].blocked || !Sound(contains, installed, enabled + {id}) then None
      else Some(config[id := Stored(config, id).(enabled := true)])
    case Disable(id) =>
      if !(enabled <= installed.Keys) || Needed(installed, enabled, id) then None
      else Some(config[id := Stored(config, id).(enabled := false)])
    case Forget(id) =>
      if id !in config || config[id].enabled || !(enabled <= installed.Keys) || Needed(installed, enabled, id) then None
      else Some(config - {id})
    case Configure(id, configuration) =>
      if id !in installed || configuration == None then None
      else Some(config[id := Stored(config, id).(configuration := configuration.value)])
  }

  /** A command that raises leaves the configuration alone. */
  ghost function After(contains: Contains, installed: Installed, config: Config, c: Command): Config {
    var r := Apply(contains, installed, config, c);
    if r.Some? then r.value else config
  }

  ghost function AfterAll(contains: Contains, installed: Installed, commands: seq<Command>): Config {
    if commands == [] then map[]
    else After(contains, installed, AfterAll(contains, installed, commands[..|commands| - 1]), commands[|commands| - 1])
  }

  lemma GraphShrinks(installed: Installed, a: set<string>, b: set<string>)
    requires a <= b <= installed.Keys && Acyclic(installed, b)
    ensures Acyclic(installed, a)
  {
    var g, h := GraphOf(EdgesOf(installed, a)), GraphOf(EdgesOf(installed, b));
    forall c | Cycle(g, c) ensures Cycle(h, c) {
      forall i | 0 <= i < |c| ensures c[i] in h && g[c[i]] == h[c[i]] {}
    }
  }

  /** Dropping a bundle nothing depends on keeps the rest sound. */
  lemma RemovalKeeps(contains: Contains, installed: Installed, enabled: set<string>, id: string)
    requires Sound(contains, installed, enabled) && !Needed(installed, enabled, id)
    ensures Sound(contains, installed, enabled - {id})
  {
    hide Acyclic, Conflict;
    GraphShrinks(installed, enabled - {id}, enabled);
    forall d, k | d in enabled - {id} && 0 <= k < |installed[d].needs|
        ensures Answered(contains, installed, enabled - {id}, d, k) {
      assert Answered(contains, installed, enabled, d, k);
    }
  }

  lemma EmptyIsSound(contains: Contains, installed: Installed)
    ensures Sound(contains, installed, {})
  {
    var g := GraphOf(EdgesOf(installed, {}));
    forall c ensures !Cycle(g, c) { if c != [] { assert c[0] !in g; } }
  }

  lemma EnabledAfter(contains: Contains, installed: Installed, config: Config, c: Command)
    requires Apply(contains, installed, config, c).Some?
    ensures EnabledIn(Apply(contains, installed, config, c).value) ==
            match c
            case Enable(id) => EnabledIn(config) + {id}
            case Disable(id) => EnabledIn(config) - {id}
            case Forget(_) => EnabledIn(config)
            case Configure(_, _) => EnabledIn(config)
  {
    hide Sound, Needed;
  }

  lemma CommandKeeps(contains: Contains, installed: Installed, config: Config, c: Command)
    requires Sound(contains, installed, EnabledIn(config))
    ensures Sound(contains, installed, EnabledIn(After(contains, installed, config, c)))
  {
    hide Sound, EnabledIn;
    if Apply(contains, installed, config, c).Some? {
      EnabledAfter(contains, installed, config, c);
      if c.Disable? {
        RemovalKeeps(contains, installed, EnabledIn(config), c.id) by {
          SoundInstalled(contains, installed, EnabledIn(config));
        }
      }
    }
  }

  lemma SoundInstalled(contains: Contains, installed: Installed, enabled: set<string>)
    requires Sound(contains, installed, enabled)
    ensures enabled <= installed.Keys
  {}

  /** Every sequence of commands from an empty configuration keeps the enabled set dependency-closed with versions in
      range, acyclic, with one process owner at most and no exclusive resource claimed twice. */
  lemma {:induction false} EveryConfigurationIsSound(contains: Contains, installed: Installed, commands: seq<Command>)
    ensures Sound(contains, installed, EnabledIn(AfterAll(contains, installed, commands)))
    decreases |commands|
  {
    hide Sound, After;
    if commands == [] {
      EmptyIsSound(contains, installed);
      assert EnabledIn(map[]) == {};
    } else {
      var before := AfterAll(contains, installed, commands[..|commands| - 1]);
      EveryConfigurationIsSound(contains, installed, commands[..|commands| - 1]);
      CommandKeeps(contains, installed, before, commands[|commands| - 1]);
    }
  }

  /** In a sound set a bundle may be dropped exactly when the rest is sound. */
  lemma RemovalIff(contains: Contains, installed: Installed, enabled: set<string>, id: string)
    requires Sound(contains, installed, enabled)
    ensures Sound(contains, installed, enabled - {id}) <==> !Needed(installed, enabled, id)
  {
    hide Acyclic, NoConflict, OneOwner;
    if Needed(installed, enabled, id) {
      var d, k :| d in enabled && d != id && 0 <= k < |installed[d].needs| && installed[d].needs[k].id == id;
      assert !Answered(contains, installed, enabled - {id}, d, k);
    } else { RemovalKeeps(contains, installed, enabled, id); }
  }

  /** A bundle that a sound set leaves out is not needed by it. */
  lemma OutsiderIsUnneeded(contains: Contains, installed: Installed, enabled: set<string>, id: string)
    requires Sound(contains, installed, enabled) && id !in enabled
    ensures !Needed(installed, enabled, id)
  {
    assert enabled - {id} == enabled;
    RemovalIff(contains, installed, enabled, id);
  }

  /** Every entry but this one is as it was. */
  predicate SameBut(before: Config, after: Config, id: string) { before - {id} == after - {id} }

  /** What was just enabled can be disabled, which gives the enabled set and the stored configurations back. */
  lemma DisableUndoesEnable(contains: Contains, installed: Installed, config: Config, id: string)
    requires Sound(contains, installed, EnabledIn(config)) && id !in EnabledIn(config)
    requires Apply(contains, installed, config, Enable(id)).Some?
    ensures var r := Apply(contains, installed, After(contains, installed, config, Enable(id)), Disable(id));
            && r.Some? && EnabledIn(r.value) == EnabledIn(config) && forall x :: Stored(r.value, x) == Stored(config, x)
  {
    hide Sound, Needed;
    var enabled, next := EnabledIn(config), After(contains, installed, config, Enable(id));
    EnabledAfter(contains, installed, config, Enable(id));
    assert enabled + {id} - {id} == enabled;
    RemovalIff(contains, installed, enabled + {id}, id);
    SoundInstalled(contains, installed, enabled + {id});
    EnabledAfter(contains, installed, next, Disable(id));
  }

  /** The stored configuration and the commands that rewrite it. */
  class ExtensionManager {
    const installed: Installed
    const contains: Contains
    var config: Config

    constructor (installed: Installed, contains: Contains)
      ensures this.installed == installed && this.contains == contains && config == map[] && SoundNow()
    {
      EmptyIsSound(contains, installed);
      this.installed, this.contains := installed, contains;
      config := map[];
      new;
      assert EnabledIn(config) == {};
    }

    /** The enabled bundles fit together. */
    ghost predicate SoundNow()
      reads this`config
    {
      Sound(contains, installed, EnabledIn(config))
    }

    /** Enables exactly when the enlarged set is sound; so whatever it saves is sound. */
    method EnableExtension(id: string) returns (ok: bool)
      modifies this`config
      ensures ok <==>
              id in installed && !installed[id].blocked && Sound(contains, installed, EnabledIn(old(config)) + {id})
      ensures ok ==> SoundNow() && EnabledIn(config) == EnabledIn(old(config)) + {id}
      ensures ok ==> Stored(config, id).configuration == Stored(old(config), id).configuration
      ensures SameBut(old(config), config, id) && (!ok ==> config == old(config))
      ensures config == After(contains, installed, old(config), Enable(id))
    {
      hide DependenciesMet, Acyclic, OneOwner, NoConflict, EnabledIn;
      if id !in installed || installed[id].blocked { return false; }
      var prospective := EnabledIn(config) + {id};
      if !(prospective <= installed.Keys) { return false; }
      ok := ValidateDependencies(contains, installed, prospective);
      if !ok { return; }
      ok := ValidateOwnership(installed, prospective);
      if !ok { return; }
      ok := ValidateResources(installed, prospective);
      if !ok { return; }
      EnabledAfter(contains, installed, config, Enable(id));
      config := config[id := Stored(config, id).(enabled := true)];
    }

    /** Of a sound configuration: disables exactly when the remaining set is sound. */
    method DisableExtension(id: string) returns (ok: bool)
      modifies this`config
      ensures old(SoundNow()) ==> SoundNow() && (ok <==> Sound(contains, installed, EnabledIn(old(config)) - {id}))
      ensures ok ==> EnabledIn(config) == EnabledIn(old(config)) - {id} && id in config
      ensures ok ==> Stored(config, id).configuration == Stored(old(config), id).configuration
      ensures SameBut(old(config), config, id) && (!ok ==> config == old(config))
      ensures config == After(contains, installed, old(config), Disable(id))
    {
      hide EnabledIn, Needed, Sound;
      if SoundNow() {
        SoundInstalled(contains, installed, EnabledIn(config));
        RemovalIff(contains, installed, EnabledIn(config), id);
      }
      if !(EnabledIn(config) <= installed.Keys) || Needed(installed, EnabledIn(config), id) { return false; }
      EnabledAfter(contains, installed, config, Disable(id));
      config := config[id := Stored(config, id).(enabled := false)];
      return true;
    }

    /** Of a sound configuration: forgets exactly what is stored and disabled, since nothing enabled can need it. */
    method ForgetExtension(id: string) returns (ok: bool)
      modifies this`config
      ensures old(SoundNow()) ==> SoundNow() && (ok <==> id in old(config) && id !in EnabledIn(old(config)))
      ensures EnabledIn(config) == EnabledIn(old(config)) && (ok ==> id !in config)
      ensures SameBut(old(config), config, id) && (!ok ==> config == old(config))
      ensures config == After(contains, installed, old(config), Forget(id))
    {
      hide Needed, Sound;
      if SoundNow() { SoundInstalled(contains, installed, EnabledIn(config)); }
      if SoundNow() && id !in EnabledIn(config) { OutsiderIsUnneeded(contains, installed, EnabledIn(config), id); }
      if id !in config || config[id].enabled { return false; }
      if !(EnabledIn(config) <= installed.Keys) || Needed(installed, EnabledIn(config), id) { return false; }
      EnabledAfter(contains, installed, config, Forget(id));
      config := config - {id};
      return true;
    }

    /** Stores a configuration for any installed bundle, and touches neither the enabled set nor any other entry. */
    method ConfigureExtension(id: string, configuration: Option<string>) returns (ok: bool)
      modifies this`config
      ensures ok <==> id in installed && configuration.Some?
      ensures EnabledIn(config) == EnabledIn(old(config)) && (old(SoundNow()) ==> SoundNow())
      ensures ok ==> Stored(config, id) == Extension(id in EnabledIn(old(config)), configuration.value)
      ensures SameBut(old(config), config, id) && (!ok ==> config == old(config))
      ensures config == After(contains, installed, old(config), Configure(id, configuration))
    {
      hide Sound, Needed;
      if id !in installed || configuration == None { return false; }
      EnabledAfter(contains, installed, config, Configure(id, configuration));
      config := config[id := Stored(config, id).(configuration := configuration.value)];
      return true;
    }
  }
}
