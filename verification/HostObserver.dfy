/** Invocation coverage from host journals (observe_bound_invocations in src/vllm_hust_ext/host_observer.py). */
module HostObserver {
  import opened Basics
  import opened Lexicographic

  datatype Slot = Slot(host: string, role: string, ordinal: int)

  /** A row of the required process snapshot. */
  datatype Required = Required(slot: Slot, epoch: int)

  datatype Entry = Entry(group: string, name: string, value: string)

  datatype Obligation = Obligation(role: string, event: string, ordinals: set<int>)

  datatype Binding = Binding(entry: Entry, plugin: string, obligation: string)

  /** What reading the live process returned. */
  datatype Live = Live(pid: int, startTicks: int, argv: seq<string>)

  /** A journal record; `live` is None where the process cannot be observed or is another one by now. */
  datatype Record = Record(bound: bool, kind: string, controller: string, entry: Entry, event: string, slot: Slot,
                           epoch: int, live: Option<Live>)

  datatype Observed = Observed(slot: Slot, epoch: int, live: Live)

  datatype Identity = Identity(host: string, pid: int, startTicks: int)

  /** The setting of one observation. */
  datatype Context = Context(controller: string, host: string, obligations: map<string, Obligation>, byEntry: map<Entry,
                             string>, required: map<Slot, int>)

  datatype Result = Result(effects: map<string, map<Slot, Observed>>, coverage: map<string, real>,
                           dispatched: set<string>, complete: bool)

  function IdentityOf(o: Observed): Identity { Identity(o.slot.host, o.live.pid, o.live.startTicks) }

  // ---------------------------------------------------------------- bindings

  predicate GoodBinding(plugins: set<string>, obligations: map<string, Obligation>, b: Binding) {
    b.plugin in plugins && b.obligation in obligations && obligations[b.obligation].event == "invoked"
  }

  predicate Unambiguous(bindings: seq<Binding>) {
    forall i, j :: 0 <= i < j < |bindings| ==>
        bindings[i].entry != bindings[j].entry && bindings[i].obligation != bindings[j].obligation
  }

  /** Each binding of its own entry point and obligation, for a plugin and an invocation obligation of the plan; none
      left out. */
  ghost predicate BindingsOk(plugins: set<string>, obligations: map<string, Obligation>, bindings: seq<Binding>) {
    && Unambiguous(bindings) && (forall b :: b in bindings ==> GoodBinding(plugins, obligations, b))
    && (forall o :: o in obligations ==> HasObligation(bindings, o))
  }

  ghost predicate HasEntry(bindings: seq<Binding>, e: Entry) { exists b :: b in bindings && b.entry == e }

  ghost predicate HasObligation(bindings: seq<Binding>, o: string) { exists b :: b in bindings && b.obligation == o }

  /** The two dictionaries say what the bindings say. */
  ghost predicate Filed(bindings: seq<Binding>, entries: map<Entry, string>, bound: set<string>) {
    && (forall b :: b in bindings ==> b.entry in entries && entries[b.entry] == b.obligation && b.obligation in bound)
    && (forall e :: e in entries ==> HasEntry(bindings, e))
    && (forall o :: o in bound ==> HasObligation(bindings, o))
  }

  lemma HasSnoc(bindings: seq<Binding>, b: Binding)
    ensures forall e :: HasEntry(bindings + [b], e) <==> HasEntry(bindings, e) || e == b.entry
    ensures forall o :: HasObligation(bindings + [b], o) <==> HasObligation(bindings, o) || o == b.obligation
  {
    assert forall c :: c in bindings + [b] <==> c in bindings || c == b;
  }

  lemma UnambiguousSnoc(bindings: seq<Binding>, b: Binding)
    requires Unambiguous(bindings)
    ensures Unambiguous(bindings + [b]) <==> !HasEntry(bindings, b.entry) && !HasObligation(bindings, b.obligation)
  {
    var all := bindings + [b];
    if HasEntry(bindings, b.entry) {
      var c :| c in bindings && c.entry == b.entry;
      var i :| 0 <= i < |bindings| && bindings[i] == c;
      assert all[i].entry == all[|bindings|].entry;
    } else if HasObligation(bindings, b.obligation) {
      var c :| c in bindings && c.obligation == b.obligation;
      var i :| 0 <= i < |bindings| && bindings[i] == c;
      assert all[i].obligation == all[|bindings|].obligation;
    } else {
      forall i | 0 <= i < |bindings| ensures all[i].entry != b.entry && all[i].obligation != b.obligation {
        assert bindings[i] in bindings;
      }
    }
  }

  lemma FiledHas(bindings: seq<Binding>, entries: map<Entry, string>, bound: set<string>)
    requires Filed(bindings, entries, bound)
    ensures forall e :: e in entries <==> HasEntry(bindings, e)
    ensures forall o :: o in bound <==> HasObligation(bindings, o)
  {}

  lemma FiledSnoc(bindings: seq<Binding>, b: Binding, entries: map<Entry, string>, bound: set<string>)
    requires Unambiguous(bindings) && Filed(bindings, entries, bound)
    ensures Unambiguous(bindings + [b]) <==> b.entry !in entries && b.obligation !in bound
    ensures b.entry !in entries ==> Filed(bindings + [b], entries[b.entry := b.obligation], bound + {b.obligation})
  {
    hide Unambiguous, HasEntry, HasObligation;
    UnambiguousSnoc(bindings, b);
    FiledHas(bindings, entries, bound);
    HasSnoc(bindings, b);
    assert forall c :: c in bindings + [b] <==> c in bindings || c == b;
  }

  lemma AmbiguousPrefix(bindings: seq<Binding>, n: nat)
    requires n <= |bindings| && !Unambiguous(bindings[..n])
    ensures !Unambiguous(bindings)
  {
    var i, j :| 0 <= i < j < n
        && !(bindings[..n][i].entry != bindings[..n][j].entry
             && bindings[..n][i].obligation != bindings[..n][j].obligation);
    assert bindings[i] == bindings[..n][i] && bindings[j] == bindings[..n][j];
  }

  lemma AllBound(plugins: set<string>, obligations: map<string, Obligation>, bindings: seq<Binding>, entries: map<Entry,
                 string>, bound: set<string>)
    requires Filed(bindings, entries, bound) && forall b :: b in bindings ==> GoodBinding(plugins, obligations, b)
    ensures bound == obligations.Keys <==> forall o :: o in obligations ==> HasObligation(bindings, o)
  {
    FiledHas(bindings, entries, bound);
    forall o | o in bound ensures o in obligations {
      assert HasObligation(bindings, o);
      var b :| b in bindings && b.obligation == o;
    }
  }

  /** The entry points by obligation; None where the bindings are refused. */
  method Bind(plugins: set<string>, obligations: map<string, Obligation>, bindings: seq<Binding>)
      returns (byEntry: Option<map<Entry, string>>)
    ensures byEntry.Some? <==> BindingsOk(plugins, obligations, bindings)
    ensures byEntry.Some? ==> Filed(bindings, byEntry.value, obligations.Keys)
  {
    hide Filed, Unambiguous;
    var entries: map<Entry, string> := map[];
    var bound: set<string> := {};
    NothingFiled();
    for n := 0 to |bindings|
      invariant Unambiguous(bindings[..n]) && Filed(bindings[..n], entries, bound)
      invariant forall b :: b in bindings[..n] ==> GoodBinding(plugins, obligations, b)
    {
      var b := bindings[n];
      assert bindings[..n + 1] == bindings[..n] + [b];
      FiledSnoc(bindings[..n], b, entries, bound);
      if b.entry in entries || b.obligation in bound { AmbiguousPrefix(bindings, n + 1); return None; }
      if !GoodBinding(plugins, obligations, b) { assert b in bindings; return None; }
      entries, bound := entries[b.entry := b.obligation], bound + {b.obligation};
    }
    assert bindings[..|bindings|] == bindings;
    AllBound(plugins, obligations, bindings, entries, bound);
    if bound != obligations.Keys { return None; }
    return Some(entries);
  }

  lemma NothingFiled()
    ensures Unambiguous([]) && Filed([], map[], {})
  {}

  // ---------------------------------------------------------------- records

  predicate Scheduler(kind: string) { kind == "scheduler_resolution" || kind == "scheduler_dispatch" }

  /** The obligation a record is evidence for, if it is effect evidence at all. */
  function EffectOf(x: Context, r: Record): Option<string> {
    if r.entry in x.byEntry && r.event == "invoked" then Some(x.byEntry[r.entry]) else None
  }

  /** Effect evidence of the slot's current process epoch. */
  predicate Current(x: Context, r: Record) {
    EffectOf(x, r).Some? && r.slot in x.required && r.epoch == x.required[r.slot]
  }

  /** What a record must satisfy on its own. */
  predicate RecordOk(x: Context, r: Record) {
    && r.bound && (Scheduler(r.kind) ==> r.controller == x.controller)
    && (EffectOf(x, r).Some? && EffectOf(x, r).value in x.obligations ==>
          var o := x.obligations[EffectOf(x, r).value];
          r.slot in x.required && r.slot.role == o.role && r.slot.ordinal in o.ordinals
              && (Current(x, r) ==> r.live.Some?))
  }

  function Seen(r: Record): Observed
    requires r.live.Some?
  {
    Observed(r.slot, r.epoch, r.live.value)
  }

  /** What two records must satisfy together: one identity per slot of an obligation, one slot per identity. */
  predicate PairOk(x: Context, r: Record, q: Record) {
    Current(x, r) && Current(x, q) && r.live.Some? && q.live.Some? ==>
      && (EffectOf(x, r) == EffectOf(x, q) && r.slot == q.slot ==> Seen(r) == Seen(q))
      && (IdentityOf(Seen(r)) == IdentityOf(Seen(q)) ==> r.slot == q.slot)
  }

  /** The journals an observation accepts. */
  ghost predicate Acceptable(x: Context, records: seq<Record>) {
    && (forall i :: 0 <= i < |records| ==> RecordOk(x, records[i]))
    && (forall i, j :: 0 <= i < j < |records| ==> PairOk(x, records[i], records[j]))
  }

  ghost predicate ContextOk(x: Context) { forall e :: e in x.byEntry ==> x.byEntry[e] in x.obligations }

  /** The slots an obligation must reach. */
  function Targets(x: Context, o: string): set<Slot>
    requires o in x.obligations
  {
    set s | s in x.required && s.role == x.obligations[o].role && s.ordinal in x.obligations[o].ordinals
  }

  /** Some record shows a live current process in the slot of the obligation. */
  ghost predicate Covered(x: Context, records: seq<Record>, o: string, s: Slot) {
    exists i :: 0 <= i < |records| && Current(x, records[i]) && EffectOf(x, records[i]) == Some(o)
        && records[i].slot == s
  }

  // ---------------------------------------------------------------- the pass over the journal

  /** What the tables say after some records. */
  ghost predicate Tables(x: Context, records: seq<Record>, effects: map<string, map<Slot, Observed>>,
                         linux: map<Identity, Slot>) {
    && effects.Keys == x.obligations.Keys
    && (forall o, s :: o in effects ==> (s in effects[o] <==> Covered(x, records, o, s)))
    && (forall i :: 0 <= i < |records| && Current(x, records[i]) ==>
          && records[i].live.Some? && EffectOf(x, records[i]).value in effects
          && records[i].slot in effects[EffectOf(x, records[i]).value]
          && effects[EffectOf(x, records[i]).value][records[i].slot] == Seen(records[i])
          && IdentityOf(Seen(records[i])) in linux && linux[IdentityOf(Seen(records[i]))] == records[i].slot)
    && (forall k :: k in linux ==>
          exists i :: 0 <= i < |records| && Current(x, records[i]) && records[i].live.Some?
              && IdentityOf(Seen(records[i])) == k)
  }

  lemma CoveredSnoc(x: Context, records: seq<Record>, r: Record, o: string, s: Slot)
    ensures Covered(x, records + [r], o, s) <==>
            Covered(x, records, o, s) || (Current(x, r) && EffectOf(x, r) == Some(o) && r.slot == s)
  {
    hide Current, EffectOf;
    var all := records + [r];
    if Covered(x, records, o, s) {
      var i :| 0 <= i < |records| && Current(x, records[i]) && EffectOf(x, records[i]) == Some(o)
          && records[i].slot == s;
      assert all[i] == records[i];
    }
    if Current(x, r) && EffectOf(x, r) == Some(o) && r.slot == s { assert all[|records|] == r; }
  }

  lemma QuietRecord(x: Context, records: seq<Record>, r: Record, effects: map<string, map<Slot, Observed>>,
                    linux: map<Identity, Slot>)
    requires Tables(x, records, effects, linux) && !Current(x, r)
    ensures Tables(x, records + [r], effects, linux)
  {
    hide Current, EffectOf, Covered;
    var all := records + [r];
    forall o, s ensures Covered(x, all, o, s) <==> Covered(x, records, o, s) { CoveredSnoc(x, records, r, o, s); }
    forall k | k in linux
        ensures exists i :: 0 <= i < |all| && Current(x, all[i]) && all[i].live.Some? && IdentityOf(Seen(all[i])) == k {
      var i :| 0 <= i < |records| && Current(x, records[i]) && records[i].live.Some?
          && IdentityOf(Seen(records[i])) == k;
      assert all[i] == records[i];
    }
  }

  lemma EffectRecord(x: Context, records: seq<Record>, r: Record, o: string, effects: map<string, map<Slot, Observed>>,
                     linux: map<Identity, Slot>)
    requires Tables(x, records, effects, linux) && Current(x, r) && EffectOf(x, r) == Some(o) && o in effects
             && r.live.Some?
    requires r.slot in effects[o] ==> effects[o][r.slot] == Seen(r)
    requires IdentityOf(Seen(r)) in linux ==> linux[IdentityOf(Seen(r))] == r.slot
    ensures Tables(x, records + [r], effects[o := effects[o][r.slot := Seen(r)]], linux[IdentityOf(Seen(r)) := r.slot])
  {
    hide EffectOf, Covered;
    var all, now, known := records
        + [r], effects[o := effects[o][r.slot := Seen(r)]], linux[IdentityOf(Seen(r)) := r.slot];
    forall p, s ensures Covered(x, all, p, s) <==> Covered(x, records, p, s) || (p == o && s == r.slot) {
      CoveredSnoc(x, records, r, p, s);
    }
    forall k | k in known
        ensures exists i :: 0 <= i < |all| && Current(x, all[i]) && all[i].live.Some? && IdentityOf(Seen(all[i])) == k {
      if k == IdentityOf(Seen(r)) { assert all[|records|] == r; }
      else {
        var i :| 0 <= i < |records| && Current(x, records[i]) && records[i].live.Some?
            && IdentityOf(Seen(records[i])) == k;
        assert all[i] == records[i];
      }
    }
    forall i | 0 <= i < |all| && Current(x, all[i])
      ensures all[i].live.Some? && EffectOf(x, all[i]).value in now && all[i].slot in now[EffectOf(x, all[i]).value]
              && now[EffectOf(x, all[i]).value][all[i].slot] == Seen(all[i])
              && IdentityOf(Seen(all[i])) in known && known[IdentityOf(Seen(all[i]))] == all[i].slot
    {
      if i < |records| { assert all[i] == records[i]; }
    }
  }

  /** A clash with the tables is a clash with an earlier record. */
  lemma ClashIsPair(x: Context, records: seq<Record>, r: Record, o: string, effects: map<string, map<Slot, Observed>>,
                    linux: map<Identity, Slot>)
    requires Tables(x, records, effects, linux) && Current(x, r) && EffectOf(x, r) == Some(o) && o in effects
             && r.live.Some?
    requires (r.slot in effects[o] && effects[o][r.slot] != Seen(r))
             || (IdentityOf(Seen(r)) in linux && linux[IdentityOf(Seen(r))] != r.slot)
    ensures exists i :: 0 <= i < |records| && !PairOk(x, records[i], r)
  {
    hide Current, EffectOf;
    if r.slot in effects[o] && effects[o][r.slot] != Seen(r) {
      var i :| 0 <= i < |records| && Current(x, records[i]) && EffectOf(x, records[i]) == Some(o)
          && records[i].slot == r.slot;
      assert !PairOk(x, records[i], r);
    } else {
      var i :| 0 <= i < |records| && Current(x, records[i]) && records[i].live.Some?
          && IdentityOf(Seen(records[i])) == IdentityOf(Seen(r));
      assert !PairOk(x, records[i], r);
    }
  }

  lemma NoClashIsPair(x: Context, records: seq<Record>, r: Record, o: string, effects: map<string, map<Slot, Observed>>,
                      linux: map<Identity, Slot>)
    requires Tables(x, records, effects, linux) && EffectOf(x, r) == Some(o) && o in effects && r.live.Some?
    requires (r.slot in effects[o] ==> effects[o][r.slot] == Seen(r))
             && (IdentityOf(Seen(r)) in linux ==> linux[IdentityOf(Seen(r))] == r.slot)
    ensures forall i :: 0 <= i < |records| ==> PairOk(x, records[i], r)
  {
    hide Current, EffectOf, Covered;
  }

  /** The pass: None where the observer raises. */
  method Pass(x: Context, records: seq<Record>)
      returns (r: Option<(map<string, map<Slot, Observed>>, map<Identity, Slot>, set<string>)>)
    requires ContextOk(x)
    ensures r.Some? <==> Acceptable(x, records)
    ensures r.Some? ==> Tables(x, records, r.value.0, r.value.1)
    ensures r.Some? ==> forall o :: o in r.value.2 <==>
              exists i :: 0 <= i < |records| && Current(x, records[i]) && EffectOf(x, records[i]) == Some(o)
                  && records[i].kind == "scheduler_dispatch"
  {
    hide Tables, PairOk;
    var effects: map<string, map<Slot, Observed>> := map o | o in x.obligations :: map[];
    var linux: map<Identity, Slot> := map[];
    var dispatched: set<string> := {};
    EmptyTables(x, effects, linux);
    for n := 0 to |records|
      invariant Tables(x, records[..n], effects, linux)
      invariant forall i :: 0 <= i < n ==> RecordOk(x, records[i])
      invariant forall i, j :: 0 <= i < j < n ==> PairOk(x, records[i], records[j])
      invariant forall o :: o in dispatched <==>
                  exists i :: 0 <= i < n && Current(x, records[i]) && EffectOf(x, records[i]) == Some(o)
                      && records[i].kind == "scheduler_dispatch"
    {
      var record := records[n];
      assert records[..n + 1] == records[..n] + [record];
      if !RecordOk(x, record) { return None; }
      if Current(x, record) {
        var o := EffectOf(x, record).value;
        var seen := Seen(record);
        assert o in effects by { KnownObligation(x, records[..n], effects, linux, o); }
        if (record.slot in effects[o] && effects[o][record.slot] != seen)
           || (IdentityOf(seen) in linux && linux[IdentityOf(seen)] != record.slot) {
          ClashIsPair(x, records[..n], record, o, effects, linux);
          ghost var i :| 0 <= i < n && !PairOk(x, records[..n][i], record);
          assert !PairOk(x, records[i], records[n]);
          return None;
        }
        NoClashIsPair(x, records[..n], record, o, effects, linux);
        forall i | 0 <= i < n ensures PairOk(x, records[i], record) { assert records[i] == records[..n][i]; }
        EffectRecord(x, records[..n], record, o, effects, linux);
        effects, linux := effects[o := effects[o][record.slot := seen]], linux[IdentityOf(seen) := record.slot];
        if record.kind == "scheduler_dispatch" { dispatched := dispatched + {o}; }
      } else {
        forall i | 0 <= i < n ensures PairOk(x, records[i], record) { QuietPair(x, records[i], record); }
        QuietRecord(x, records[..n], record, effects, linux);
      }
    }
    assert records[..|records|] == records;
    return Some((effects, linux, dispatched));
  }

  lemma QuietPair(x: Context, r: Record, q: Record)
    requires !Current(x, q)
    ensures PairOk(x, r, q)
  {}

  lemma EmptyTables(x: Context, effects: map<string, map<Slot, Observed>>, linux: map<Identity, Slot>)
    requires effects.Keys == x.obligations.Keys && (forall o :: o in effects ==> effects[o] == map[]) && linux == map[]
    ensures Tables(x, [], effects, linux)
  {}

  lemma KnownObligation(x: Context, records: seq<Record>, effects: map<string, map<Slot, Observed>>,
                        linux: map<Identity, Slot>, o: string)
    requires Tables(x, records, effects, linux) && o in x.obligations
    ensures o in effects
  {}

  // ---------------------------------------------------------------- coverage

  lemma SlotsAreTargets(x: Context, records: seq<Record>, o: string, effects: map<string, map<Slot, Observed>>,
                        linux: map<Identity, Slot>)
    requires ContextOk(x) && Acceptable(x, records) && Tables(x, records, effects, linux) && o in x.obligations
    ensures o in effects && effects[o].Keys <= Targets(x, o)
    ensures |effects[o]| <= |Targets(x, o)|
    ensures |effects[o]| == |Targets(x, o)| <==> forall s :: s in Targets(x, o) ==> Covered(x, records, o, s)
  {
    hide Acceptable, Covered, Targets, Tables;
    TableSlots(x, records, effects, linux);
    TableKeys(x, records, effects, linux);
    forall s | s in effects[o] ensures s in Targets(x, o) { CoveredIsTarget(x, records, o, s); }
    CountSubset(effects[o].Keys, Targets(x, o));
    assert |effects[o]| == |effects[o].Keys|;
  }

  lemma CoveredIsTarget(x: Context, records: seq<Record>, o: string, s: Slot)
    requires ContextOk(x) && Acceptable(x, records) && o in x.obligations && Covered(x, records, o, s)
    ensures s in Targets(x, o)
  {
    hide Current, PairOk;
    var i :| 0 <= i < |records| && Current(x, records[i]) && EffectOf(x, records[i]) == Some(o) && records[i].slot == s;
    assert RecordOk(x, records[i]);
  }

  lemma CountSubset(a: set<Slot>, b: set<Slot>)
    requires a <= b
    ensures |a| <= |b| && (|a| == |b| <==> a == b)
  {
    assert b == a + (b - a);
  }

  /** No Linux identity stands in two slots anywhere in the observation. */
  ghost predicate OneSlotPerIdentity(effects: map<string, map<Slot, Observed>>) {
    forall o, s, p, t ::
      o in effects && s in effects[o] && p in effects && t in effects[p] ==>
        IdentityOf(effects[o][s]) == IdentityOf(effects[p][t]) ==> s == t
  }

  lemma IdentitiesApart(x: Context, records: seq<Record>, effects: map<string, map<Slot, Observed>>,
                        linux: map<Identity, Slot>)
    requires Tables(x, records, effects, linux)
    ensures OneSlotPerIdentity(effects)
  {
    hide Current, EffectOf;
    forall o, s | o in effects && s in effects[o]
        ensures IdentityOf(effects[o][s]) in linux && linux[IdentityOf(effects[o][s])] == s {
      assert Covered(x, records, o, s);
      var i :| 0 <= i < |records| && Current(x, records[i]) && EffectOf(x, records[i]) == Some(o)
          && records[i].slot == s;
    }
  }

  /** The slots the plan asks for, all on the local host. */
  function Obligated(x: Context): set<Slot> {
    set o, k | o in x.obligations && k in x.obligations[o].ordinals :: Slot(x.host, x.obligations[o].role, k)
  }

  /** The required process snapshot names exactly those, so the targets of an obligation are its ordinals. */
  lemma TargetsAreOrdinals(x: Context, o: string)
    requires x.required.Keys == Obligated(x) && o in x.obligations
    ensures Targets(x, o) == set k | k in x.obligations[o].ordinals :: Slot(x.host, x.obligations[o].role, k)
  {
    forall k | k in x.obligations[o].ordinals ensures Slot(x.host, x.obligations[o].role, k) in Targets(x, o) {
      assert Slot(x.host, x.obligations[o].role, k) in Obligated(x);
    }
  }

  /** Whether every obligation has somewhere to be observed. */
  predicate Reachable(x: Context) { forall o :: o in x.obligations ==> Targets(x, o) != {} }

  function Ratio(covered: nat, targets: nat): real
    requires targets > 0
  {
    covered as real / targets as real
  }

  lemma RatioIsOne(covered: nat, targets: nat)
    requires targets > 0 && covered <= targets
    ensures 0.0 <= Ratio(covered, targets) <= 1.0 && (Ratio(covered, targets) == 1.0 <==> covered == targets)
  {
    var c, t := covered as real, targets as real;
    assert c == Ratio(covered, targets) * t;
    if covered < targets { assert c < t; }
  }

  /** The observation: accepted exactly for acceptable journals; coverage is at most 1, and 1 exactly when every
      required slot has a current live record; no process identity covers two slots. */
  method Observe(x: Context, records: seq<Record>) returns (r: Option<Result>)
    requires ContextOk(x)
    ensures r.Some? <==> x.required.Keys == Obligated(x) && Acceptable(x, records) && Reachable(x)
    ensures r.Some? ==> OneSlotPerIdentity(r.value.effects)
    ensures r.Some? ==> r.value.effects.Keys == x.obligations.Keys == r.value.coverage.Keys
    ensures r.Some? ==> forall o, s :: o in r.value.effects ==> (s in r.value.effects[o] <==> Covered(x, records, o, s))
    ensures r.Some? ==> forall o :: o in x.obligations ==>
              && 0.0 <= r.value.coverage[o] <= 1.0
              && (r.value.coverage[o] == 1.0 <==> forall s :: s in Targets(x, o) ==> Covered(x, records, o, s))
    ensures r.Some? ==>
            (r.value.complete <==>
             forall o, s :: o in x.obligations && s in Targets(x, o) ==> Covered(x, records, o, s))
  {
    hide Acceptable, Covered, Targets, OneSlotPerIdentity, Current, EffectOf, Ratio, Obligated;
    if x.required.Keys != Obligated(x) { return None; }
    var pass := Pass(x, records);
    if pass == None { return None; }
    if !Reachable(x) { return None; }
    var effects := pass.value.0;
    ghost var linux := pass.value.1;
    IdentitiesApart(x, records, effects, linux);
    forall o | o in x.obligations
      ensures o in effects && |Targets(x, o)| > 0 && |effects[o]| <= |Targets(x, o)|
      ensures 0.0 <= Ratio(|effects[o]|, |Targets(x, o)|) <= 1.0
      ensures Ratio(|effects[o]|, |Targets(x, o)|) == 1.0 <==>
              forall s :: s in Targets(x, o) ==> Covered(x, records, o, s)
    {
      SlotsAreTargets(x, records, o, effects, linux);
      RatioIsOne(|effects[o]|, |Targets(x, o)|);
    }
    assert effects.Keys == x.obligations.Keys by { TableKeys(x, records, effects, linux); }
    var coverage := map o | o in x.obligations :: Ratio(|effects[o]|, |Targets(x, o)|);
    var complete := forall o :: o in x.obligations ==> coverage[o] == 1.0;
    assert forall o, s :: o in effects ==> (s in effects[o] <==> Covered(x, records, o, s)) by {
      TableSlots(x, records, effects, linux);
    }
    return Some(Result(effects, coverage, pass.value.2, complete));
  }

  lemma TableKeys(x: Context, records: seq<Record>, effects: map<string, map<Slot, Observed>>, linux: map<Identity,
                  Slot>)
    requires Tables(x, records, effects, linux)
    ensures effects.Keys == x.obligations.Keys
  {}

  lemma TableSlots(x: Context, records: seq<Record>, effects: map<string, map<Slot, Observed>>, linux: map<Identity,
                   Slot>)
    requires Tables(x, records, effects, linux)
    ensures forall o, s :: o in effects ==> (s in effects[o] <==> Covered(x, records, o, s))
  {
    hide Covered;
  }

  /** The setting of an observation, read off the declared bindings. */
  ghost predicate Setting(x: Context, controller: string, host: string, obligations: map<string, Obligation>,
                          bindings: seq<Binding>,
                          required: map<Slot, int>) {
    && x.controller == controller && x.host == host && x.obligations == obligations && x.required == required
    && (forall e :: e in x.byEntry <==> HasEntry(bindings, e)) && forall b :: b in bindings ==>
          x.byEntry[b.entry] == b.obligation
  }

  /** Bindings that are accepted make one setting, and its entry points lead to obligations of the plan. */
  lemma SettingIsBound(plugins: set<string>, obligations: map<string, Obligation>, bindings: seq<Binding>,
                       byEntry: map<Entry, string>, x: Context)
    requires BindingsOk(plugins, obligations, bindings) && Filed(bindings, byEntry, obligations.Keys)
    requires x.obligations == obligations
    ensures ContextOk(x.(byEntry := byEntry))
    ensures Setting(x, x.controller, x.host, obligations, bindings, x.required) <==> x.byEntry == byEntry
  {
    hide Unambiguous;
    forall e | e in byEntry ensures byEntry[e] in obligations {
      var b :| b in bindings && b.entry == e;
      assert GoodBinding(plugins, obligations, b);
    }
    assert forall e :: e in byEntry <==> HasEntry(bindings, e);
    if Setting(x, x.controller, x.host, obligations, bindings, x.required) {
      forall e | e in byEntry ensures e in x.byEntry && x.byEntry[e] == byEntry[e] {
        var b :| b in bindings && b.entry == e;
      }
    }
  }

  // ---------------------------------------------------------------- the required process snapshot

  predicate WellFormed(trimmed: string -> bool, r: Required) {
    && r.slot.host != "" && trimmed(r.slot.host) && r.slot.role != "" && trimmed(r.slot.role) && r.slot.ordinal >= 0
    && r.epoch >= 0
  }

  /** Python's order on the rows as tuples. */
  predicate Before(a: Required, b: Required) {
    if a.slot.host != b.slot.host then Less(a.slot.host, b.slot.host)
    else if a.slot.role != b.slot.role then Less(a.slot.role, b.slot.role)
    else if a.slot.ordinal != b.slot.ordinal then a.slot.ordinal < b.slot.ordinal
    else a.epoch < b.epoch
  }

  predicate DistinctSlots(rows: seq<Required>) { forall i, j :: 0 <= i < j < |rows| ==> rows[i].slot != rows[j].slot }

  /** A snapshot that is accepted: not empty, well formed, strictly ascending, one row per logical slot. */
  predicate SnapshotOk(trimmed: string -> bool, rows: seq<Required>) {
    && rows != [] && (forall i :: 0 <= i < |rows| ==> WellFormed(trimmed, rows[i]))
    && (forall i :: 0 < i < |rows| ==> Before(rows[i - 1], rows[i])) && DistinctSlots(rows)
  }

  function EpochOf(rows: seq<Required>): map<Slot, int> {
    if rows == [] then map[] else EpochOf(rows[..|rows| - 1])[rows[|rows| - 1].slot := rows[|rows| - 1].epoch]
  }

  lemma {:induction false} EpochsFiled(rows: seq<Required>, s: Slot)
    ensures s in EpochOf(rows) <==> exists i :: 0 <= i < |rows| && rows[i].slot == s
  {
    if rows != [] {
      EpochsFiled(rows[..|rows| - 1], s);
      assert rows == rows[..|rows| - 1] + [rows[|rows| - 1]];
    }
  }

  method RequiredProcesses(trimmed: string -> bool, rows: seq<Required>) returns (required: Option<map<Slot, int>>)
    ensures required == if SnapshotOk(trimmed, rows) then Some(EpochOf(rows)) else None
  {
    hide WellFormed, Before;
    if rows == [] { return None; }
    var filed: map<Slot, int> := map[];
    for n := 0 to |rows|
      invariant filed == EpochOf(rows[..n]) && DistinctSlots(rows[..n])
      invariant forall i :: 0 <= i < n ==> WellFormed(trimmed, rows[i])
      invariant forall i :: 0 < i < n ==> Before(rows[i - 1], rows[i])
    {
      EpochsFiled(rows[..n], rows[n].slot);
      assert rows[..n + 1] == rows[..n] + [rows[n]];
      if !WellFormed(trimmed, rows[n]) || (n > 0 && !Before(rows[n - 1], rows[n])) || rows[n].slot in filed {
        return None;
      }
      filed := filed[rows[n].slot := rows[n].epoch];
    }
    assert rows[..|rows|] == rows;
    return Some(filed);
  }

  // ---------------------------------------------------------------- the whole observation

  /** observe_bound_invocations as a whole: the snapshot is read, the bindings are filed, then the journal is read once.
      It succeeds exactly for a snapshot and bindings that are in order and a journal acceptable in their setting, and
      is complete exactly when every target slot is covered there. */
  method ObserveBound(trimmed: string -> bool, plugins: set<string>, controller: string, host: string,
                      obligations: map<string, Obligation>, bindings: seq<Binding>, snapshot: seq<Required>,
                      records: seq<Record>) returns (r: Option<Result>)
    ensures !SnapshotOk(trimmed, snapshot) || host == "" || !BindingsOk(plugins, obligations, bindings) ==> r == None
    ensures SnapshotOk(trimmed, snapshot) && host != "" && BindingsOk(plugins, obligations, bindings) ==>
              forall x :: Setting(x, controller, host, obligations, bindings, EpochOf(snapshot)) ==>
                && (r.Some? <==> x.required.Keys == Obligated(x) && Acceptable(x, records) && Reachable(x))
                && (r.Some? ==>
                    r.value.effects.Keys == obligations.Keys == r.value.coverage.Keys
                        && OneSlotPerIdentity(r.value.effects))
                && (r.Some? ==> forall o, s :: o in r.value.effects ==>
                    (s in r.value.effects[o] <==> Covered(x, records, o, s)))
                && (r.Some? ==> forall o :: o in obligations ==>
                      (r.value.coverage[o] == 1.0 <==> forall s :: s in Targets(x, o) ==> Covered(x, records, o, s)))
                && (r.Some? ==>
                      (r.value.complete <==>
                       forall o, s :: o in obligations && s in Targets(x, o) ==> Covered(x, records, o, s)))
  {
    hide BindingsOk, Acceptable, Covered, Targets, OneSlotPerIdentity, Reachable, Obligated, ContextOk, Setting,
         SnapshotOk, EpochOf;
    var required := RequiredProcesses(trimmed, snapshot);
    if required == None || host == "" { return None; }
    var byEntry := Bind(plugins, obligations, bindings);
    if byEntry == None { return None; }
    var x := Context(controller, host, obligations, byEntry.value, required.value);
    SettingIsBound(plugins, obligations, bindings, byEntry.value, x);
    r := Observe(x, records);
    forall y | Setting(y, controller, host, obligations, bindings, required.value) ensures y == x {
      SettingFixes(y, controller, host, obligations, bindings, required.value);
      SettingIsBound(plugins, obligations, bindings, byEntry.value, y);
    }
  }

  lemma SettingFixes(x: Context, controller: string, host: string, obligations: map<string, Obligation>,
                     bindings: seq<Binding>, required: map<Slot, int>)
    requires Setting(x, controller, host, obligations, bindings, required)
    ensures x == Context(controller, host, obligations, x.byEntry, required)
  {}
}
