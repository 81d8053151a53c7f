/**
 * Choosing charms (charm-selection.tsx): toggling an id in the list of active charm ids, with the
 * tier rules of multi-tier charms, and the test that greys out a charm the character cannot use.
 */
module CharmSelection {
  import opened Wrappers
  import opened JsStrings
  import opened Types
  import opened Charms

  // ---------------------------------------------------------------------------------------------
  // List helpers.
  // ---------------------------------------------------------------------------------------------

  /** `s.filter(id => !drop.has(id))`: the ids of `s` outside `drop`, in order. */
  function Without(s: seq<string>, drop: set<string>): (r: seq<string>)
    ensures forall x :: x in r <==> x in s && x !in drop
    ensures |r| <= |s|
  {
    if s == [] then []
    else (if s[0] in drop then [] else [s[0]]) + Without(s[1..], drop)
  }

  lemma {:induction false} WithoutWithout(s: seq<string>, a: set<string>, b: set<string>)
    ensures Without(Without(s, a), b) == Without(s, a + b)
  {
    if s != [] {
      WithoutWithout(s[1..], a, b);
      var head := if s[0] in a then [] else [s[0]];
      WithoutAppend(head, Without(s[1..], a), b);
      if s[0] !in a {
        assert Without(head, b) == if s[0] in b then [] else [s[0]];
      }
    }
  }

  lemma {:induction false} WithoutAppend(s: seq<string>, t: seq<string>, drop: set<string>)
    ensures Without(s + t, drop) == Without(s, drop) + Without(t, drop)
  {
    if s != [] {
      assert (s + t)[0] == s[0] && (s + t)[1..] == s[1..] + t;
      WithoutAppend(s[1..], t, drop);
    } else {
      assert s + t == t;
    }
  }

  /** Each id of `ids` not yet present appended in turn, as the `includes`-guarded `push`es do. */
  function AddMissing(s: seq<string>, ids: seq<string>): (r: seq<string>)
    ensures s <= r
    ensures forall x :: x in r <==> x in s || x in ids
  {
    if ids == [] then s
    else
      var t := AddMissing(s, ids[..|ids| - 1]);
      assert forall x :: x in ids <==> x in ids[..|ids| - 1] || x == ids[|ids| - 1];
      if ids[|ids| - 1] in t then t else t + [ids[|ids| - 1]]
  }

  predicate NoDuplicates(s: seq<string>) {
    forall i, j :: 0 <= i < j < |s| ==> s[i] != s[j]
  }

  lemma {:induction false} AddMissingNoDuplicates(s: seq<string>, ids: seq<string>)
    requires NoDuplicates(s)
    ensures NoDuplicates(AddMissing(s, ids))
  {
    if ids != [] {
      AddMissingNoDuplicates(s, ids[..|ids| - 1]);
    }
  }

  lemma {:induction false} WithoutNoDuplicates(s: seq<string>, drop: set<string>)
    requires NoDuplicates(s)
    ensures NoDuplicates(Without(s, drop))
  {
    if s != [] {
      var tail := s[1..];
      assert forall i, j :: 0 <= i < j < |tail| ==> tail[i] == s[i + 1] && tail[j] == s[j + 1];
      WithoutNoDuplicates(tail, drop);
      assert s[0] !in tail;
    }
  }

  // ---------------------------------------------------------------------------------------------
  // Families.
  // ---------------------------------------------------------------------------------------------

  /** Whether `id` is the id of one of the tiers. */
  predicate HasTier(subs: seq<Charm>, id: string) {
    exists k :: 0 <= k < |subs| && subs[k].id == id
  }

  /** `allCharms.find(c => c.id === id || c.subEffects?.some(sub => sub.id === id))`. */
  function FindFamily(catalog: seq<Charm>, id: string): (r: Option<Charm>)
    ensures r.Some? ==> r.value in catalog && (r.value.id == id || HasTier(r.value.subEffects, id))
    ensures r.None? <==> forall c :: c in catalog ==> c.id != id && !HasTier(c.subEffects, id)
  {
    if catalog == [] then None
    else if catalog[0].id == id || HasTier(catalog[0].subEffects, id) then Some(catalog[0])
    else
      var r := FindFamily(catalog[1..], id);
      assert forall c :: c in catalog ==> c == catalog[0] || c in catalog[1..];
      r
  }

  /** `subEffects.findIndex(s => s.id === id)`: the first tier with that id, or -1. */
  function TierIndex(subs: seq<Charm>, id: string): (i: int)
    ensures -1 <= i < |subs|
    ensures i >= 0 ==> subs[i].id == id && forall k :: 0 <= k < i ==> subs[k].id != id
    ensures i == -1 <==> !HasTier(subs, id)
  {
    if subs == [] then -1
    else if subs[0].id == id then 0
    else
      var i := TierIndex(subs[1..], id);
      assert forall k :: 1 <= k < |subs| ==> subs[k] == subs[1..][k - 1];
      if i == -1 then -1 else i + 1
  }

  /** The ids of the tiers at indices `from <= k < to`. */
  function TierIds(subs: seq<Charm>, from: int, to: int): (ids: set<string>)
    requires 0 <= from && to <= |subs|
    ensures forall x :: x in ids <==> exists k :: from <= k < to && subs[k].id == x
  {
    set k | from <= k < to :: subs[k].id
  }

  /** Whether the toggled id is a tier rather than the top-level charm that `find` returned. */
  predicate IsTierToggle(catalog: seq<Charm>, id: string) {
    FindFamily(catalog, id).Some? && FindFamily(catalog, id).value.id != id
  }

  /** The ids that a deselection removes besides the id itself: every tier of a base, the tiers above a tier. */
  function DroppedAlong(catalog: seq<Charm>, id: string): set<string> {
    match FindFamily(catalog, id)
    case None => {}
    case Some(base) =>
      var subs := base.subEffects;
      if base.id == id then TierIds(subs, 0, |subs|)
      else TierIds(subs, TierIndex(subs, id) + 1, |subs|)
  }

  /** The ids that a selection of a tier pulls in: its base, then the lower tiers. */
  function PulledAlong(catalog: seq<Charm>, id: string): seq<string> {
    match FindFamily(catalog, id)
    case None => []
    case Some(base) =>
      if base.id == id then []
      else [base.id] + Ids(base.subEffects[..TierIndex(base.subEffects, id)])
  }

  // ---------------------------------------------------------------------------------------------
  // handleCharmToggle.
  // ---------------------------------------------------------------------------------------------

  /** `handleCharmToggle(charmId)` over the catalog `catalog`; the result is what `setActiveCharms` receives. */
  method HandleCharmToggle(catalog: seq<Charm>, active: seq<string>, charmId: string) returns (newActive: seq<string>)
    ensures charmId in active ==> newActive == Without(active, {charmId} + DroppedAlong(catalog, charmId))
    ensures charmId !in active ==> newActive == AddMissing(active + [charmId], PulledAlong(catalog, charmId))
  {
    if charmId in active {
      newActive := Deselect(catalog, active, charmId);
    } else {
      newActive := Select(catalog, active, charmId);
    }
  }

  /** Adding one more tier to the range of tier ids. */
  lemma TierIdsStep(subs: seq<Charm>, from: int, to: int)
    requires 0 <= from <= to < |subs|
    ensures TierIds(subs, from, to + 1) == TierIds(subs, from, to) + {subs[to].id}
  {
  }

  /** The loop that filters out, one at a time, the ids of the tiers from index `from` on. */
  method DropTiers(s: seq<string>, subs: seq<Charm>, from: int) returns (r: seq<string>)
    requires 0 <= from <= |subs|
    ensures r == Without(s, TierIds(subs, from, |subs|))
  {
    r := s;
    var i := from;
    assert TierIds(subs, from, i) == {};
    WithoutNothing(s);
    while i < |subs|
      invariant from <= i <= |subs|
      invariant r == Without(s, TierIds(subs, from, i))
    {
      var tierId := subs[i].id;
      WithoutWithout(s, TierIds(subs, from, i), {tierId});
      TierIdsStep(subs, from, i);
      r := Without(r, {tierId});
      i := i + 1;
    }
  }

  lemma {:induction false} WithoutNothing(s: seq<string>)
    ensures Without(s, {}) == s
  {
    if s != [] {
      WithoutNothing(s[1..]);
    }
  }

  /** The deselecting branch of `handleCharmToggle`: the filters. */
  method Deselect(catalog: seq<Charm>, active: seq<string>, charmId: string) returns (newActive: seq<string>)
    ensures newActive == Without(active, {charmId} + DroppedAlong(catalog, charmId))
  {
    var baseCharm := FindFamily(catalog, charmId);
    var isSubEffect := baseCharm.Some? && baseCharm.value.id != charmId;
    newActive := Without(active, {charmId});
    if baseCharm.Some? && !isSubEffect {
      var subs := baseCharm.value.subEffects;
      newActive := DropTiers(newActive, subs, 0);
      WithoutWithout(active, {charmId}, TierIds(subs, 0, |subs|));
    } else if isSubEffect {
      var subs := baseCharm.value.subEffects;
      var subCharmIndex := TierIndex(subs, charmId);
      if subCharmIndex != -1 {
        newActive := DropTiers(newActive, subs, subCharmIndex + 1);
        WithoutWithout(active, {charmId}, TierIds(subs, subCharmIndex + 1, |subs|));
      }
    } else {
      assert {charmId} + DroppedAlong(catalog, charmId) == {charmId};
    }
  }

  /** One more guarded push appends the id unless it is already there. */
  lemma AddMissingStep(s: seq<string>, ids: seq<string>, x: string)
    ensures AddMissing(s, ids + [x]) ==
      if x in AddMissing(s, ids) then AddMissing(s, ids) else AddMissing(s, ids) + [x]
  {
    assert (ids + [x])[..|ids|] == ids;
  }

  /** The pulled-in ids grow by one tier at a time. */
  lemma LowerTiersStep(baseId: string, subs: seq<Charm>, i: int)
    requires 0 <= i < |subs|
    ensures [baseId] + Ids(subs[..i + 1]) == [baseId] + Ids(subs[..i]) + [subs[i].id]
  {
    assert subs[..i + 1] == subs[..i] + [subs[i]];
  }

  /** The selecting branch of `handleCharmToggle`: the guarded pushes. */
  method Select(catalog: seq<Charm>, active: seq<string>, charmId: string) returns (newActive: seq<string>)
    ensures newActive == AddMissing(active + [charmId], PulledAlong(catalog, charmId))
  {
    var baseCharm := FindFamily(catalog, charmId);
    var isSubEffect := baseCharm.Some? && baseCharm.value.id != charmId;
    newActive := active + [charmId];
    if isSubEffect {
      var base := baseCharm.value;
      if base.id !in newActive {
        newActive := newActive + [base.id];
      }
      var subs := base.subEffects;
      var subCharmIndex := TierIndex(subs, charmId);
      var i := 0;
      assert [base.id] + Ids(subs[..0]) == [base.id];
      assert AddMissing(active + [charmId], [base.id]) == newActive;
      while i < subCharmIndex
        invariant 0 <= i <= subCharmIndex
        invariant newActive == AddMissing(active + [charmId], [base.id] + Ids(subs[..i]))
      {
        var lowerTierId := subs[i].id;
        LowerTiersStep(base.id, subs, i);
        AddMissingStep(active + [charmId], [base.id] + Ids(subs[..i]), lowerTierId);
        if lowerTierId !in newActive {
          newActive := newActive + [lowerTierId];
        }
        i := i + 1;
      }
    }
  }

  // ---------------------------------------------------------------------------------------------
  // What a toggle does.
  // ---------------------------------------------------------------------------------------------

  /**
   * Selecting an absent id adds it and, for a tier, its base and every lower tier; it adds nothing
   * else and removes nothing.
   */
  lemma SelectPullsInFamily(catalog: seq<Charm>, active: seq<string>, charmId: string)
    requires charmId !in active
    ensures var r := AddMissing(active + [charmId], PulledAlong(catalog, charmId));
      && active + [charmId] <= r
      && (IsTierToggle(catalog, charmId) ==>
            var base := FindFamily(catalog, charmId).value;
            && base.id in r
            && forall k :: 0 <= k < TierIndex(base.subEffects, charmId) ==> base.subEffects[k].id in r)
      && forall x :: x in r ==> x in active || x == charmId || x in PulledAlong(catalog, charmId)
  {
    if IsTierToggle(catalog, charmId) {
      var base := FindFamily(catalog, charmId).value;
      var subs := base.subEffects[..TierIndex(base.subEffects, charmId)];
      assert forall k :: 0 <= k < |subs| ==> Ids(subs)[k] == base.subEffects[k].id;
    }
  }

  /** A selection never introduces a duplicate id. */
  lemma SelectKeepsNoDuplicates(catalog: seq<Charm>, active: seq<string>, charmId: string)
    requires charmId !in active && NoDuplicates(active)
    ensures NoDuplicates(AddMissing(active + [charmId], PulledAlong(catalog, charmId)))
  {
    AddMissingNoDuplicates(active + [charmId], PulledAlong(catalog, charmId));
  }

  /**
   * Deselecting a present id removes every occurrence of it; deselecting a base removes all of its
   * tiers; deselecting a tier removes every higher tier. An id keeps its presence exactly when it is
   * none of these.
   */
  lemma DeselectDropsFamily(catalog: seq<Charm>, active: seq<string>, charmId: string)
    requires charmId in active
    ensures var r := Without(active, {charmId} + DroppedAlong(catalog, charmId));
      && charmId !in r
      && (forall x :: x in r <==> x in active && x != charmId && x !in DroppedAlong(catalog, charmId))
      && (FindFamily(catalog, charmId).Some? && !IsTierToggle(catalog, charmId) ==>
            forall k :: 0 <= k < |FindFamily(catalog, charmId).value.subEffects| ==>
              FindFamily(catalog, charmId).value.subEffects[k].id !in r)
      && (IsTierToggle(catalog, charmId) ==>
            var subs := FindFamily(catalog, charmId).value.subEffects;
            forall k :: TierIndex(subs, charmId) < k < |subs| ==> subs[k].id !in r)
  {
  }

  /** The ids of a charm and of its tiers are pairwise distinct. */
  predicate FamilyIdsDistinct(base: Charm) {
    && (forall k :: 0 <= k < |base.subEffects| ==> base.subEffects[k].id != base.id)
    && (forall i, j :: 0 <= i < j < |base.subEffects| ==> base.subEffects[i].id != base.subEffects[j].id)
  }

  /** Deselecting a tier keeps its base and every lower tier that was active, when the family's ids are distinct. */
  lemma DeselectKeepsLowerTiers(catalog: seq<Charm>, active: seq<string>, charmId: string)
    requires charmId in active && IsTierToggle(catalog, charmId)
    requires FamilyIdsDistinct(FindFamily(catalog, charmId).value)
    ensures var base := FindFamily(catalog, charmId).value;
      var r := Without(active, {charmId} + DroppedAlong(catalog, charmId));
      && (base.id in active ==> base.id in r)
      && forall k :: 0 <= k < TierIndex(base.subEffects, charmId) && base.subEffects[k].id in active ==>
           base.subEffects[k].id in r
  {
    var base := FindFamily(catalog, charmId).value;
    var subs := base.subEffects;
    var index := TierIndex(subs, charmId);
    var dropped := TierIds(subs, index + 1, |subs|);
    assert DroppedAlong(catalog, charmId) == dropped;
    assert base.id !in dropped;
  }

  lemma SupremeMasterworkFocusIdsDistinct()
    ensures FamilyIdsDistinct(SupremeMasterworkFocus)
  {
    var base := SupremeMasterworkFocus;
    var subs := base.subEffects;
    assert forall k :: 0 <= k < |subs| ==> |subs[k].id| == |base.id| + 2;
    assert subs[0].id[25] == '1' && subs[1].id[25] == '2' && subs[2].id[25] == '3';
  }

  /** Only Supreme Masterwork Focus has tiers. */
  lemma OthersHaveNoTiers(c: Charm)
    requires c in AllCharms && c != SupremeMasterworkFocus
    ensures c.subEffects == []
  {
    assert c in Essence1Charms || c in Essence2Charms || c in Essence3Charms;
  }

  /** Every family of the catalog has distinct ids, so `DeselectKeepsLowerTiers` applies to all of them. */
  lemma CatalogFamiliesDistinct()
    ensures forall c :: c in AllCharms ==> FamilyIdsDistinct(c)
  {
    forall c | c in AllCharms
      ensures FamilyIdsDistinct(c)
    {
      if c == SupremeMasterworkFocus {
        SupremeMasterworkFocusIdsDistinct();
      } else {
        OthersHaveNoTiers(c);
      }
    }
  }

  /** Whether `x` lies outside the family of the toggled id: neither its base nor one of the base's tiers. */
  predicate OutsideFamily(catalog: seq<Charm>, charmId: string, x: string) {
    FindFamily(catalog, charmId).Some? ==>
      x != FindFamily(catalog, charmId).value.id && !HasTier(FindFamily(catalog, charmId).value.subEffects, x)
  }

  /** A deselection drops nothing outside the family. */
  lemma NotDroppedOutsideFamily(catalog: seq<Charm>, charmId: string, x: string)
    requires OutsideFamily(catalog, charmId, x)
    ensures x !in DroppedAlong(catalog, charmId)
  {
  }

  /** A selection pulls in nothing outside the family. */
  lemma NotPulledOutsideFamily(catalog: seq<Charm>, charmId: string, x: string)
    requires OutsideFamily(catalog, charmId, x)
    ensures x !in PulledAlong(catalog, charmId)
  {
    if IsTierToggle(catalog, charmId) {
      var base := FindFamily(catalog, charmId).value;
      var subs := base.subEffects[..TierIndex(base.subEffects, charmId)];
      assert forall k :: 0 <= k < |subs| ==> Ids(subs)[k] == base.subEffects[k].id;
    }
  }

  /** Ids outside the family of the toggled id keep their presence. */
  lemma ToggleLeavesOthers(catalog: seq<Charm>, active: seq<string>, charmId: string, x: string)
    requires x != charmId
    requires OutsideFamily(catalog, charmId, x)
    ensures charmId in active ==> (x in Without(active, {charmId} + DroppedAlong(catalog, charmId)) <==> x in active)
    ensures charmId !in active ==> (x in AddMissing(active + [charmId], PulledAlong(catalog, charmId)) <==> x in active)
  {
    NotDroppedOutsideFamily(catalog, charmId, x);
    NotPulledOutsideFamily(catalog, charmId, x);
  }

  // ---------------------------------------------------------------------------------------------
  // isCharmDisabled.
  // ---------------------------------------------------------------------------------------------

  /** Whether the cost names `unit` with more than `available`: `cost?.match(/(\d+)unit/)` and `available < n`. */
  predicate CostExceeds(cost: Option<string>, unit: string, available: int) {
    cost.Some? && FirstNumberBefore(cost.value, unit).Some? && available < FirstNumberBefore(cost.value, unit).value
  }

  /** `isCharmDisabled(charm)`. */
  predicate IsCharmDisabled(charm: Charm, active: seq<string>, experience: Experience, character: Character) {
    if charm.id in active then false
    else if CostExceeds(charm.cost, "sxp", experience.sxp) then true
    else if CostExceeds(charm.cost, "gxp", experience.gxp) then true
    else if CostExceeds(charm.cost, "wxp", experience.wxp) then true
    else if charm.id == "ever-ready-innovation-discipline" && experience.sxp < 15 then true
    else if charm.minCraft > character.craft then true
    else if charm.minEssence > character.essence then true
    else false
  }

  /** The match of /(\d+)unit/ at position `i` with digit run `k` is the leftmost one in `s`. */
  ghost predicate IsLeftmostMatch(s: string, unit: string, i: int, k: int) {
    MatchesAt(s, unit, i, k) && forall j, m :: MatchesAt(s, unit, j, m) ==> i <= j
  }

  /**
   * The charm asks for more of `unit` than `available`, read through the regular expression:
   * `cost` is present and its leftmost /(\d+)unit/ match captures a number above `available`.
   */
  ghost predicate LeftmostMatchAbove(cost: Option<string>, unit: string, available: int) {
    && cost.Some?
    && exists i, k :: IsLeftmostMatch(cost.value, unit, i, k) && available < DecimalValue(cost.value[i..i + k])
  }

  lemma LeftmostMatchUnique(s: string, unit: string, i: int, k: int, i': int, k': int)
    requires |unit| > 0 && !IsDigit(unit[0])
    requires IsLeftmostMatch(s, unit, i, k) && IsLeftmostMatch(s, unit, i', k')
    ensures i == i' && k == k'
  {
    assert i <= i' && i' <= i;
    MatchLengthUnique(s, unit, i, k, k');
  }

  /**
   * The cost test reads the leftmost /(\d+)unit/ match and no other: a cost without a match never
   * disables, and a cost disables exactly when its leftmost match captures more than is available,
   * whatever later matches say.
   */
  lemma CostExceedsMeansMatch(cost: Option<string>, unit: string, available: int)
    requires |unit| > 0 && !IsDigit(unit[0])
    ensures cost.Some? && (forall j, m :: !MatchesAt(cost.value, unit, j, m)) ==> !CostExceeds(cost, unit, available)
    ensures CostExceeds(cost, unit, available) <==> LeftmostMatchAbove(cost, unit, available)
  {
    if cost.Some? {
      var s := cost.value;
      var i, k := FirstNumberBeforeIsLeftmostMatch(s, unit);
      if FirstNumberBefore(s, unit).Some? {
        assert IsLeftmostMatch(s, unit, i, k);
        if LeftmostMatchAbove(cost, unit, available) {
          var i', k' :| IsLeftmostMatch(s, unit, i', k') && available < DecimalValue(s[i'..i' + k']);
          LeftmostMatchUnique(s, unit, i, k, i', k');
        }
      }
    }
  }

  /**
   * An active charm is never disabled; an inactive one is disabled exactly when, for one of sxp,
   * gxp and wxp, the leftmost match of /(\d+)unit/ in its cost captures more than the character has,
   * or the Ever-Ready Innovation Discipline rule applies, or its Craft or Essence minimum is unmet.
   */
  lemma DisabledExactly(charm: Charm, active: seq<string>, experience: Experience, character: Character)
    ensures charm.id in active ==> !IsCharmDisabled(charm, active, experience, character)
    ensures charm.id !in active ==> (IsCharmDisabled(charm, active, experience, character) <==>
      || LeftmostMatchAbove(charm.cost, "sxp", experience.sxp)
      || LeftmostMatchAbove(charm.cost, "gxp", experience.gxp)
      || LeftmostMatchAbove(charm.cost, "wxp", experience.wxp)
      || (charm.id == "ever-ready-innovation-discipline" && experience.sxp < 15)
      || charm.minCraft > character.craft
      || charm.minEssence > character.essence)
  {
    CostExceedsMeansMatch(charm.cost, "sxp", experience.sxp);
    CostExceedsMeansMatch(charm.cost, "gxp", experience.gxp);
    CostExceedsMeansMatch(charm.cost, "wxp", experience.wxp);
  }

  /** Only the first sxp match counts: "1sxp 20sxp" with 5 sxp is not over budget, though 20 is. */
  lemma LaterMatchIgnored()
    ensures MatchesAt("1sxp 20sxp", "sxp", 5, 2) && 5 < DecimalValue("1sxp 20sxp"[5..7])
    ensures !CostExceeds(Some("1sxp 20sxp"), "sxp", 5)
  {
    var s := "1sxp 20sxp";
    assert s == ['1'] + "sxp 20sxp";
    FirstNumberAtStart('1', "sxp 20sxp", "sxp");
    assert s[5..7] == "20" && s[7..] == "sxp";
    assert DecimalValue("20") == 20 by {
      assert "20"[..1] == "2" && "2"[..0] == [];
    }
  }
}
