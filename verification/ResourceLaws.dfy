/** What resource resolution decides, said pairwise over the claims. */
module ResourceLaws {
  import opened Basics
  import opened Lexicographic
  import opened Ordering
  import opened Compiler

  /** Two claims on one resource by different extensions can stand together. */
  predicate Agree(a: Claim, b: Claim) {
    (a.mode == SHARED && b.mode == SHARED) || (a.mode == MEDIATED && b.mode == MEDIATED && a.mediator == b.mediator)
  }

  /** One extension claims a resource twice. */
  predicate Repeats(claims: seq<Claim>) { exists j, k :: 0 <= j < k < |claims| && claims[j].name == claims[k].name }

  /** The k-th claim of the contract. */
  predicate Holds(cs: seq<Contract>, c: Contract, k: int) { c in cs && 0 <= k < |c.resources| }

  ghost predicate Clash(cs: seq<Contract>) {
    || (exists c :: c in cs && Repeats(c.resources))
    || (exists c, j, d, k ::
          && Holds(cs, c, j) && Holds(cs, d, k) && c.id != d.id
          && c.resources[j].name == d.resources[k].name && !Agree(c.resources[j], d.resources[k]))
  }

  /** A mediated claim whose mediator does not claim the resource. */
  ghost predicate Orphan(cs: seq<Contract>) {
    exists c, j :: Holds(cs, c, j) && c.resources[j].mode == MEDIATED
                   && forall d, k :: Holds(cs, d, k) && d.resources[k].name == c.resources[j].name ==>
                         c.resources[j].mediator != Some(d.id)
  }

  // ---------------------------------------------------------------- one resource

  ghost predicate ListClash(claims: seq<Claimed>) {
    exists i, j :: 0 <= i < j < |claims|
        && (claims[i].owner == claims[j].owner || !Agree(claims[i].claim, claims[j].claim))
  }

  lemma UniformModes(claims: seq<Claimed>)
    requires !ListClash(claims) && |claims| > 1
    ensures Modes(claims) == {SHARED} || Modes(claims) == {MEDIATED}
  {
    var m := claims[0].claim.mode;
    assert Agree(claims[0].claim, claims[1].claim);
    forall x | x in claims ensures x.claim.mode == m {
      var i :| 0 <= i < |claims| && claims[i] == x;
      if i > 0 { assert Agree(claims[0].claim, claims[i].claim); }
    }
    assert claims[0] in claims;
    assert Modes(claims) == {m};
  }

  lemma OneMediator(claims: seq<Claimed>)
    requires !ListClash(claims) && Modes(claims) == {MEDIATED}
    ensures claims != [] && Mediators(claims) == {claims[0].claim.mediator}
  {
    assert MEDIATED in Modes(claims);
    var some :| some in claims && some.claim.mode == MEDIATED;
    forall x | x in claims ensures x.claim.mediator == claims[0].claim.mediator {
      assert x.claim.mode in Modes(claims) && claims[0].claim.mode in Modes(claims);
      var i :| 0 <= i < |claims| && claims[i] == x;
      if i > 0 { assert Agree(claims[0].claim, claims[i].claim); }
    }
    assert claims[0] in claims;
  }

  lemma DisagreeingMediators(claims: seq<Claimed>, i: int, j: int)
    requires 0 <= i < j < |claims| && !Agree(claims[i].claim, claims[j].claim) && Modes(claims) == {MEDIATED}
    ensures |Mediators(claims)| != 1
  {
    var a, b := claims[i].claim, claims[j].claim;
    assert claims[i] in claims && claims[j] in claims;
    assert a.mode in Modes(claims) && b.mode in Modes(claims);
    assert {a.mediator, b.mediator} <= Mediators(claims);
    var rest := Mediators(claims) - {a.mediator, b.mediator};
    assert Mediators(claims) == {a.mediator, b.mediator} + rest;
    assert |Mediators(claims)| == |{a.mediator, b.mediator}| + |rest|;
  }

  /** The two conflict tests together are the pairwise test. */
  lemma ConflictIffClash(claims: seq<Claimed>)
    ensures ModeError(claims) || MediatorError(claims) <==> ListClash(claims)
  {
    if ListClash(claims) {
      var i, j :| 0 <= i < j < |claims|
          && (claims[i].owner == claims[j].owner || !Agree(claims[i].claim, claims[j].claim));
      if claims[i].owner != claims[j].owner {
        if Modes(claims) == {MEDIATED} { DisagreeingMediators(claims, i, j); }
        else if Modes(claims) == {SHARED} { SharedAgree(claims, i, j); }
      }
    } else {
      if |claims| > 1 { UniformModes(claims); }
      if Modes(claims) == {MEDIATED} { OneMediator(claims); }
    }
  }

  lemma SharedAgree(claims: seq<Claimed>, i: int, j: int)
    requires 0 <= i < j < |claims| && Modes(claims) == {SHARED}
    ensures Agree(claims[i].claim, claims[j].claim)
  {
    assert claims[i] in claims && claims[j] in claims;
    assert claims[i].claim.mode in Modes(claims) && claims[j].claim.mode in Modes(claims);
  }

  // ---------------------------------------------------------------- from lists to contracts

  lemma {:induction false} ClaimsOfIff(id: string, claims: seq<Claim>, name: string)
    ensures forall x :: x in ClaimsOf(id, claims, name) <==> x.owner == id && x.claim in claims && x.claim.name == name
    ensures |ClaimsOf(id, claims, name)| > 1 <==>
            exists j, k :: 0 <= j < k < |claims| && claims[j].name == claims[k].name == name
  {
    if claims != [] {
      var before, last := claims[..|claims| - 1], claims[|claims| - 1];
      ClaimsOfIff(id, before, name);
      assert claims == before + [last];
      var s := ClaimsOf(id, before, name);
      if last.name == name && s != [] {
        assert s[0] in s;
        var j :| 0 <= j < |before| && before[j] == s[0].claim;
        assert claims[j].name == claims[|before|].name == name;
      }
      assert forall j :: 0 <= j < |before| && before[j].name == name ==> Claimed(id, before[j]) in s;
    }
  }

  lemma {:induction false} ClaimsOnIff(cs: seq<Contract>, name: string)
    ensures forall x :: x in ClaimsOn(cs, name) ==>
            exists c, k :: Holds(cs, c, k) && x == Claimed(c.id, c.resources[k]) && c.resources[k].name == name
    ensures forall c, k :: Holds(cs, c, k) && c.resources[k].name == name ==>
            Claimed(c.id, c.resources[k]) in ClaimsOn(cs, name)
  {
    if cs != [] {
      var before, last := cs[..|cs| - 1], cs[|cs| - 1];
      ClaimsOnIff(before, name);
      ClaimsOfIff(last.id, last.resources, name);
      assert cs == before + [last];
      forall x | x in ClaimsOn(cs, name)
          ensures exists c, k :: Holds(cs, c, k) && x == Claimed(c.id, c.resources[k]) && c.resources[k].name == name {
        if x in ClaimsOn(before, name) {
          var c, k :| Holds(before, c, k) && x == Claimed(c.id, c.resources[k]) && c.resources[k].name == name;
          assert Holds(cs, c, k);
        } else {
          var k :| 0 <= k < |last.resources| && last.resources[k] == x.claim;
          assert Holds(cs, last, k);
        }
      }
      forall c, k | Holds(cs, c, k) && c.resources[k].name == name
          ensures Claimed(c.id, c.resources[k]) in ClaimsOn(cs, name) {
        if c != last { assert Holds(before, c, k); }
      }
    }
  }

  ghost predicate Doubled(s: seq<Claimed>) { exists i, j :: 0 <= i < j < |s| && s[i].owner == s[j].owner }

  /** Claims of a new owner after claims of others. */
  lemma DoubledConcat(a: seq<Claimed>, b: seq<Claimed>, owner: string)
    requires (forall i :: 0 <= i < |a| ==> a[i].owner != owner) && (forall i :: 0 <= i < |b| ==> b[i].owner == owner)
    ensures Doubled(a + b) <==> Doubled(a) || |b| > 1
  {
    var s := a + b;
    if |b| > 1 { assert s[|a|].owner == s[|a| + 1].owner; }
    if Doubled(a) {
      var i, j :| 0 <= i < j < |a| && a[i].owner == a[j].owner;
      assert s[i].owner == s[j].owner;
    }
    if |b| <= 1 && Doubled(s) {
      var i, j :| 0 <= i < j < |s| && s[i].owner == s[j].owner;
      assert j < |a|;
      assert a[i].owner == a[j].owner;
    }
  }

  ghost predicate SomeoneTwice(cs: seq<Contract>, name: string) {
    exists c :: c in cs && |ClaimsOf(c.id, c.resources, name)| > 1
  }

  lemma SomeoneTwiceSnoc(cs: seq<Contract>, c: Contract, name: string)
    ensures SomeoneTwice(cs + [c], name) <==> SomeoneTwice(cs, name) || |ClaimsOf(c.id, c.resources, name)| > 1
  {
    hide ClaimsOf;
    assert forall d :: d in cs + [c] <==> d in cs || d == c;
  }

  /** An owner appears twice on a resource exactly when its contract names it twice. */
  lemma {:induction false} OwnerTwice(cs: seq<Contract>, name: string)
    requires !DuplicateIds(cs)
    ensures Doubled(ClaimsOn(cs, name)) <==> SomeoneTwice(cs, name)
  {
    if cs != [] {
      var before, last := cs[..|cs| - 1], cs[|cs| - 1];
      var a, b := ClaimsOn(before, name), ClaimsOf(last.id, last.resources, name);
      OwnerTwice(before, name);
      assert cs == before + [last] && ClaimsOn(cs, name) == a + b;
      hide ClaimsOn, ClaimsOf, Doubled, SomeoneTwice, DuplicateIds;
      ClaimsOfIff(last.id, last.resources, name);
      forall i | 0 <= i < |b| ensures b[i].owner == last.id { assert b[i] in b; }
      forall i | 0 <= i < |a| ensures a[i].owner != last.id { EarlierOwner(before, last, name, i); }
      DoubledConcat(a, b, last.id);
      SomeoneTwiceSnoc(before, last, name);
    }
  }

  lemma EarlierOwner(before: seq<Contract>, last: Contract, name: string, i: nat)
    requires !DuplicateIds(before + [last]) && i < |ClaimsOn(before, name)|
    ensures ClaimsOn(before, name)[i].owner != last.id
  {
    hide ClaimsOn;
    ClaimsOnIff(before, name);
    var x := ClaimsOn(before, name)[i];
    assert x in ClaimsOn(before, name);
    var c, k :| Holds(before, c, k) && x == Claimed(c.id, c.resources[k]) && c.resources[k].name == name;
    var h :| 0 <= h < |before| && before[h] == c;
    var all := before + [last];
    assert forall a, b :: 0 <= a < b < |all| ==> all[a].id != all[b].id;
    assert all[h] == c && all[|before|] == last;
  }

  lemma NamedClash(cs: seq<Contract>, name: string)
    requires !DuplicateIds(cs) && ListClash(ClaimsOn(cs, name))
    ensures Clash(cs)
  {
    hide ClaimsOn, ClaimsOf, DuplicateIds, Agree;
    var s := ClaimsOn(cs, name);
    ClaimsOnIff(cs, name);
    OwnerTwice(cs, name);
    if exists i, j :: 0 <= i < j < |s| && s[i].owner == s[j].owner {
      var c :| c in cs && |ClaimsOf(c.id, c.resources, name)| > 1;
      ClaimsOfIff(c.id, c.resources, name);
      assert Repeats(c.resources);
    } else {
      var i, j :| 0 <= i < j < |s| && !Agree(s[i].claim, s[j].claim);
      assert s[i] in s && s[j] in s;
      var c, m :| Holds(cs, c, m) && s[i] == Claimed(c.id, c.resources[m]) && c.resources[m].name == name;
      var d, n :| Holds(cs, d, n) && s[j] == Claimed(d.id, d.resources[n]) && d.resources[n].name == name;
      assert c.id != d.id;
    }
  }

  lemma RepeatIsNamed(cs: seq<Contract>, c: Contract)
    requires !DuplicateIds(cs) && c in cs && Repeats(c.resources)
    ensures exists name :: name in ClaimedNames(cs) && ListClash(ClaimsOn(cs, name))
  {
    hide ClaimsOn, ClaimsOf, DuplicateIds, Agree;
    var j, k :| 0 <= j < k < |c.resources| && c.resources[j].name == c.resources[k].name;
    var name := c.resources[j].name;
    ClaimsOfIff(c.id, c.resources, name);
    OwnerTwice(cs, name);
    assert name in ClaimedNames(cs) && ListClash(ClaimsOn(cs, name));
  }

  lemma DisagreementIsNamed(cs: seq<Contract>, c: Contract, j: int, d: Contract, k: int)
    requires Holds(cs, c, j) && Holds(cs, d, k) && c.id != d.id && c.resources[j].name == d.resources[k].name
    requires !Agree(c.resources[j], d.resources[k])
    ensures exists name :: name in ClaimedNames(cs) && ListClash(ClaimsOn(cs, name))
  {
    hide ClaimsOn;
    var name := c.resources[j].name;
    var s := ClaimsOn(cs, name);
    ClaimsOnIff(cs, name);
    var x, y := Claimed(c.id, c.resources[j]), Claimed(d.id, d.resources[k]);
    assert x in s && y in s;
    var a :| 0 <= a < |s| && s[a] == x;
    var b :| 0 <= b < |s| && s[b] == y;
    assert if a < b then !Agree(s[a].claim, s[b].claim) else b < a && !Agree(s[b].claim, s[a].claim);
    assert name in ClaimedNames(cs) && ListClash(s);
  }

  /** Some resource is in conflict exactly when two claims clash. */
  lemma ClashIsNamed(cs: seq<Contract>)
    requires !DuplicateIds(cs)
    ensures Clash(cs) <==> exists name :: name in ClaimedNames(cs) && ListClash(ClaimsOn(cs, name))
  {
    hide ClaimsOn, ListClash, DuplicateIds, ClaimedNames, Agree;
    if Clash(cs) {
      if c :| c in cs && Repeats(c.resources) { RepeatIsNamed(cs, c); }
      else {
        var c, j, d, k :| Holds(cs, c, j) && Holds(cs, d, k) && c.id != d.id
            && c.resources[j].name == d.resources[k].name
                          && !Agree(c.resources[j], d.resources[k]);
        DisagreementIsNamed(cs, c, j, d, k);
      }
    }
    forall name | name in ClaimedNames(cs) && ListClash(ClaimsOn(cs, name)) ensures Clash(cs) { NamedClash(cs, name); }
  }

  // ---------------------------------------------------------------- mediators

  lemma NamedOrphan(cs: seq<Contract>, name: string)
    requires PresenceError(ClaimsOn(cs, name))
    ensures Orphan(cs)
  {
    hide ClaimsOn;
    var s := ClaimsOn(cs, name);
    ClaimsOnIff(cs, name);
    var x :| x in s && x.claim.mediator !in set y | y in s :: Some(y.owner);
    var c, j :| Holds(cs, c, j) && x == Claimed(c.id, c.resources[j]) && c.resources[j].name == name;
    assert x.claim.mode in Modes(s);
    forall d, k | Holds(cs, d, k) && d.resources[k].name == name ensures c.resources[j].mediator != Some(d.id) {
      assert Claimed(d.id, d.resources[k]) in s;
    }
  }

  lemma OrphanIsNamed(cs: seq<Contract>)
    requires !DuplicateIds(cs) && !Clash(cs) && Orphan(cs)
    ensures exists name :: name in ClaimedNames(cs) && PresenceError(ClaimsOn(cs, name))
  {
    hide ClaimsOn, Clash, DuplicateIds;
    var c, j :| Holds(cs, c, j) && c.resources[j].mode == MEDIATED
                && forall d, k :: Holds(cs, d, k) && d.resources[k].name == c.resources[j].name ==>
                      c.resources[j].mediator != Some(d.id);
    var name := c.resources[j].name;
    var s := ClaimsOn(cs, name);
    ClaimsOnIff(cs, name);
    ClashIsNamed(cs);
    var x := Claimed(c.id, c.resources[j]);
    assert x in s && name in ClaimedNames(cs);
    AllMediated(s, x);
    forall y | y in s ensures x.claim.mediator != Some(y.owner) {
      var d, k :| Holds(cs, d, k) && y == Claimed(d.id, d.resources[k]) && d.resources[k].name == name;
    }
  }

  lemma AllMediated(s: seq<Claimed>, x: Claimed)
    requires !ListClash(s) && x in s && x.claim.mode == MEDIATED
    ensures Modes(s) == {MEDIATED}
  {
    assert x.claim.mode in Modes(s);
    if |s| > 1 { UniformModes(s); } else { assert s == [x]; }
  }

  // ---------------------------------------------------------------- the verdict

  lemma {:induction false} AscendingElements(s: set<string>)
    ensures Elements(Ascending(s)) == s
    ensures forall i, j :: 0 <= i < j < |Ascending(s)| ==> Less(Ascending(s)[i], Ascending(s)[j])
    decreases |s|
  {
    if s != {} {
      var m := Least(s);
      AscendingElements(s - {m});
      var tail := Ascending(s - {m});
      ElementsCons(m, tail);
      assert Ascending(s) == [m] + tail;
      forall j | 0 <= j < |tail| ensures Less(m, tail[j]) { assert tail[j] in Elements(tail); }
    }
  }

  /** Some listed name satisfies a test exactly when some claimed name does. */
  lemma ListedNames(s: set<string>, name: string)
    ensures name in s <==> name in Ascending(s)
  {
    hide Ascending;
    AscendingElements(s);
    assert name in s <==> name in Elements(Ascending(s));
  }

  /** Resource resolution succeeds exactly when no two claims clash and every mediator claims what it mediates; a clash
      takes precedence. */
  lemma ResolveIff(cs: seq<Contract>)
    requires !DuplicateIds(cs)
    ensures ResolveResources(cs) ==
            if Clash(cs) then Err(ResourceConflict)
            else if Orphan(cs) then Err(AuthorityViolation)
            else Ok(OwnedAll(cs, Ascending(ClaimedNames(cs))))
  {
    hide ClaimsOn, Clash, Orphan, DuplicateIds, Ascending, ListClash, ModeError, MediatorError, PresenceError,
         ClaimedNames, OwnedAll;
    var names := Ascending(ClaimedNames(cs));
    ClashIsNamed(cs);
    forall name ensures name in ClaimedNames(cs) <==> name in names { ListedNames(ClaimedNames(cs), name); }
    forall i | 0 <= i < |names| ensures names[i] in ClaimedNames(cs) { assert names[i] in names; }
    forall name ensures ModeError(ClaimsOn(cs, name)) || MediatorError(ClaimsOn(cs, name)) <==>
        ListClash(ClaimsOn(cs, name)) {
      ConflictIffClash(ClaimsOn(cs, name));
    }
    if !Clash(cs) {
      if Orphan(cs) { OrphanIsNamed(cs); }
      forall name | PresenceError(ClaimsOn(cs, name)) ensures Orphan(cs) { NamedOrphan(cs, name); }
    }
  }

  // ---------------------------------------------------------------- ownership

  lemma {:induction false} OwnedAllAt(cs: seq<Contract>, names: seq<string>)
    requires forall i :: 0 <= i < |names| ==> ClaimsOn(cs, names[i]) != []
    ensures |OwnedAll(cs, names)| == |names|
    ensures forall i :: 0 <= i < |names| ==> OwnedAll(cs, names)[i] == Owned(names[i], ClaimsOn(cs, names[i]))
  {
    hide ClaimsOn, Owned;
    if names != [] {
      var before := names[..|names| - 1];
      forall i | 0 <= i < |before| ensures ClaimsOn(cs, before[i]) != [] { assert before[i] == names[i]; }
      OwnedAllAt(cs, before);
    }
  }

  /** An entry of the plan speaks for every claim on its resource. */
  ghost predicate Represents(cs: seq<Contract>, o: Ownership) {
    && (forall id :: id in o.owners <==>
        exists c, k :: Holds(cs, c, k) && c.id == id && c.resources[k].name == o.resource)
    && Distinct(o.owners)
    && (forall c, k :: Holds(cs, c, k) && c.resources[k].name == o.resource ==> c.resources[k].mode == o.mode)
    && (o.mode == MEDIATED ==>
          && o.mediator.Some? && o.mediator.value in o.owners
          && forall c, k :: Holds(cs, c, k) && c.resources[k].name == o.resource ==>
                c.resources[k].mediator == o.mediator)
    && (o.mode != MEDIATED && o.mode != SHARED ==> |o.owners| == 1)
  }

  lemma OwnersIff(claims: seq<Claimed>)
    ensures var owners := SortBy(OwnersOf(claims), Text);
            && |owners| == |claims|
            && (forall id :: id in owners <==> exists x :: x in claims && x.owner == id)
  {
    hide OwnersOf, SortBy;
    var s := OwnersOf(claims);
    SameItems(s, SortBy(s, Text));
    forall id ensures id in s <==> exists x :: x in claims && x.owner == id {
      if id in s { var i :| 0 <= i < |s| && s[i] == id; assert claims[i] in claims; }
      if x :| x in claims && x.owner == id { var i :| 0 <= i < |claims| && claims[i] == x; assert s[i] == id; }
    }
  }

  lemma OwnersDistinct(claims: seq<Claimed>)
    requires forall i, j :: 0 <= i < j < |claims| ==> claims[i].owner != claims[j].owner
    ensures Distinct(SortBy(OwnersOf(claims), Text))
  {
    var s := OwnersOf(claims);
    assert DistinctKeys(s, Text) by {
      forall i, j | 0 <= i < j < |s| ensures Text(s[i]) != Text(s[j]) { TextInjective(s[i], s[j]); }
    }
    RearrangedDistinct(s, SortBy(s, Text), Text);
    var t := SortBy(s, Text);
    forall i, j | 0 <= i < j < |t| ensures t[i] != t[j] { assert Text(t[i]) != Text(t[j]); }
  }

  lemma TextInjective(a: string, b: string)
    ensures Text(a) == Text(b) ==> a == b
  {
    if Text(a) == Text(b) { assert Text(a)[0] == Text(b)[0]; }
  }

  /** One mode for all claims of a resource without clash. */
  lemma OwnedMode(name: string, s: seq<Claimed>)
    requires s != [] && !ListClash(s)
    ensures var o := Owned(name, s);
            && (forall x :: x in s ==> x.claim.mode == o.mode)
            && (o.mode == MEDIATED ==> Modes(s) == {MEDIATED} && o.mediator == s[0].claim.mediator
                                       && forall x :: x in s ==> x.claim.mediator == o.mediator)
            && (o.mode != MEDIATED && o.mode != SHARED ==> |s| == 1)
  {
    hide SortBy;
    assert s[0] in s && s[0].claim.mode in Modes(s);
    if |s| > 1 { UniformModes(s); }
    if |s| == 1 { assert Modes(s) == {s[0].claim.mode}; }
    forall x | x in s ensures x.claim.mode == Owned(name, s).mode { assert x.claim.mode in Modes(s); }
    if Modes(s) == {MEDIATED} {
      OneMediator(s);
      forall x | x in s ensures x.claim.mediator == s[0].claim.mediator { assert x.claim.mediator in Mediators(s); }
    }
  }

  lemma OwnedRepresents(cs: seq<Contract>, name: string)
    requires !DuplicateIds(cs) && !Clash(cs) && !Orphan(cs) && name in ClaimedNames(cs)
    ensures ClaimsOn(cs, name) != [] && Represents(cs, Owned(name, ClaimsOn(cs, name)))
  {
    hide ClaimsOn, Clash, Orphan, DuplicateIds, ListClash, Owned, OwnersOf, SortBy, Modes, Mediators;
    var s := ClaimsOn(cs, name);
    ClaimsOnIff(cs, name);
    ClashIsNamed(cs);
    var c0, k0 :| c0 in cs && 0 <= k0 < |c0.resources| && c0.resources[k0].name == name;
    assert Holds(cs, c0, k0);
    OwnedMode(name, s);
    OwnersIff(s);
    OwnersDistinct(s) by { OwnersDiffer(s); }
    var o := Owned(name, s);
    assert o.resource == name && o.owners == SortBy(OwnersOf(s), Text) by { OwnedOwners(name, s); }
    forall id ensures id in o.owners <==> exists c, k :: Holds(cs, c, k) && c.id == id && c.resources[k].name == name {
      if x :| x in s && x.owner == id {
        var c, k :| Holds(cs, c, k) && x == Claimed(c.id, c.resources[k]) && c.resources[k].name == name;
      }
      if c, k :| Holds(cs, c, k) && c.id == id && c.resources[k].name == name {
        assert Claimed(c.id, c.resources[k]) in s;
      }
    }
    forall c, k | Holds(cs, c, k) && c.resources[k].name == name
      ensures c.resources[k].mode == o.mode && (o.mode == MEDIATED ==> c.resources[k].mediator == o.mediator)
    {
      assert Claimed(c.id, c.resources[k]) in s;
    }
    if o.mode == MEDIATED { MediatorOwns(cs, c0, k0); }
  }

  lemma OwnedOwners(name: string, s: seq<Claimed>)
    requires s != []
    ensures Owned(name, s).resource == name && Owned(name, s).owners == SortBy(OwnersOf(s), Text)
  {
    hide SortBy;
  }

  lemma OwnersDiffer(s: seq<Claimed>)
    requires !ListClash(s)
    ensures forall i, j :: 0 <= i < j < |s| ==> s[i].owner != s[j].owner
  {}

  lemma MediatorOwns(cs: seq<Contract>, c: Contract, j: int)
    requires !Orphan(cs) && Holds(cs, c, j) && c.resources[j].mode == MEDIATED
    ensures exists d, k ::
              Holds(cs, d, k) && d.resources[k].name == c.resources[j].name && c.resources[j].mediator == Some(d.id)
  {}

  /** The resource part of a plan: one entry per claimed resource, in ascending order, each representing its claims. */
  lemma PlanResources(cs: seq<Contract>)
    requires !DuplicateIds(cs) && ResolveResources(cs).Ok?
    ensures var os := ResolveResources(cs).value;
            && (forall o :: o in os ==> Represents(cs, o))
            && (forall i, j :: 0 <= i < j < |os| ==> Less(os[i].resource, os[j].resource))
            && (forall name :: name in ClaimedNames(cs) <==> exists o :: o in os && o.resource == name)
  {
    hide ClaimsOn, Clash, Orphan, DuplicateIds, Ascending, ClaimedNames, OwnedAll, Owned, Represents;
    var names, os := Ascending(ClaimedNames(cs)), ResolveResources(cs).value;
    ResolveIff(cs);
    AscendingElements(ClaimedNames(cs));
    forall i | 0 <= i < |names|
        ensures ClaimsOn(cs, names[i]) != [] && Represents(cs, Owned(names[i], ClaimsOn(cs, names[i]))) {
      assert names[i] in Elements(names);
      OwnedRepresents(cs, names[i]);
    }
    OwnedAllAt(cs, names);
    forall i | 0 <= i < |names| ensures os[i].resource == names[i] { OwnedOwners(names[i], ClaimsOn(cs, names[i])); }
    forall name ensures name in ClaimedNames(cs) <==> exists o :: o in os && o.resource == name {
      if name in Elements(names) { var i :| 0 <= i < |names| && names[i] == name; assert os[i] in os; }
      if o :| o in os && o.resource == name {
        var i :| 0 <= i < |os| && os[i] == o;
        assert names[i] in Elements(names);
      }
    }
  }
}
