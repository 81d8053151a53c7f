/**
 * The roll panel (dice-roller.tsx): the gold "special success" faces, the tally of what the active
 * charms cost, the Will-Forging willpower total, and the dice pool and request a roll sends.
 */
module DiceRoller {
  import opened Wrappers
  import opened JsStrings
  import opened Types
  import opened Charms
  import DiceLogic

  // ---------------------------------------------------------------------------------------------
  // Special successes.
  // ---------------------------------------------------------------------------------------------

  /** `isSpecialSuccess`: a 10, or a face at or above the lowest tier of Supreme Masterwork Focus that is active. */
  predicate IsSpecialSuccess(roll: int, active: seq<string>) {
    || roll == 10
    || (roll >= 9 && "supreme-masterwork-focus-1" in active)
    || (roll >= 8 && "supreme-masterwork-focus-2" in active)
    || (roll >= 7 && "supreme-masterwork-focus-3" in active)
  }

  /** A die is shown as a special success exactly when the roll logic counts it twice. */
  lemma SpecialSuccessIsDouble(roll: DiceLogic.Die, active: seq<string>)
    ensures IsSpecialSuccess(roll, active) <==> DiceLogic.CalculateSuccesses(roll, active) == 2
  {
  }

  // ---------------------------------------------------------------------------------------------
  // calculateCharmCost.
  // ---------------------------------------------------------------------------------------------

  /** The five counters of `calculateCharmCost`. */
  datatype Costs = Costs(motes: int, willpower: int, sxp: int, gxp: int, wxp: int)
  {
    function Plus(o: Costs): Costs {
      Costs(motes + o.motes, willpower + o.willpower, sxp + o.sxp, gxp + o.gxp, wxp + o.wxp)
    }

    function Total(): int {
      motes + willpower + sxp + gxp + wxp
    }
  }

  const NoCost := Costs(0, 0, 0, 0, 0)

  /** The counter a cost part is added to. */
  datatype Bucket = MotesBucket | WillpowerBucket | GxpBucket | WxpBucket | SxpBucket | NoBucket

  const WillForgingId := "will-forging-discipline"
  const VoidId := "experiential-conjuring-of-true-void"

  /** The suffix tests of the part loop, in their order; Will-Forging's own `wp` is not charged. */
  function BucketOf(part: string, costId: string): (b: Bucket)
    ensures costId == WillForgingId ==> b != WillpowerBucket
  {
    if EndsWith(part, "m") then MotesBucket
    else if EndsWith(part, "wp") && costId != WillForgingId then WillpowerBucket
    else if EndsWith(part, "gxp") then GxpBucket
    else if EndsWith(part, "wxp") then WxpBucket
    else if EndsWith(part, "sxp") then SxpBucket
    else NoBucket
  }

  /** `parseInt(part, 10) || 0`: NaN counts as 0. */
  function PartValue(part: string): (n: int)
    ensures LeadingDigits(SignStripped(TrimStart(part))) == [] ==> n == 0
  {
    ParseInt(part).GetOr(0)
  }

  /** `n` in the counter `b`, nothing elsewhere. */
  function InBucket(b: Bucket, n: int): Costs {
    match b
    case MotesBucket => Costs(n, 0, 0, 0, 0)
    case WillpowerBucket => Costs(0, n, 0, 0, 0)
    case SxpBucket => Costs(0, 0, n, 0, 0)
    case GxpBucket => Costs(0, 0, 0, n, 0)
    case WxpBucket => Costs(0, 0, 0, 0, n)
    case NoBucket => NoCost
  }

  /** What one trimmed part of a cost string adds. */
  function PartCost(part: string, costId: string): Costs {
    InBucket(BucketOf(part, costId), PartValue(part))
  }

  /** What the parts add, one after the other. */
  function PartsCost(parts: seq<string>, costId: string): Costs {
    if parts == [] then NoCost
    else PartsCost(parts[..|parts| - 1], costId).Plus(PartCost(parts[|parts| - 1], costId))
  }

  /** `cost.split(',').map(s => s.trim())`. */
  function CostParts(cost: string): seq<string> {
    var pieces := Split(cost, ',');
    seq(|pieces|, k requires 0 <= k < |pieces| => Trim(pieces[k]))
  }

  /** `subEffects.find(se => se.id === id)`. */
  function FindTier(subs: seq<Charm>, id: string): (r: Option<Charm>)
    ensures r.Some? ==> r.value.id == id
  {
    if subs == [] then None
    else if subs[0].id == id then Some(subs[0])
    else FindTier(subs[1..], id)
  }

  /**
   * The charm a charm id is costed as: the first top-level charm that is it or has a tier with that
   * id; a tier is costed under the name "Base: Tier".
   */
  function CharmToCost(catalog: seq<Charm>, id: string): (r: Option<Charm>)
    ensures r.Some? ==> r.value.id == id
  {
    if catalog == [] then None
    else if catalog[0].id == id then Some(catalog[0])
    else match FindTier(catalog[0].subEffects, id)
      case Some(sub) => Some(sub.(name := catalog[0].name + ": " + sub.name))
      case None => CharmToCost(catalog[1..], id)
  }

  /** `find` returns a tier with that id, and finds none exactly when no tier has it. */
  lemma {:induction false} FindTierFinds(subs: seq<Charm>, id: string)
    ensures FindTier(subs, id).Some? ==> FindTier(subs, id).value in subs
    ensures FindTier(subs, id).None? <==> forall s :: s in subs ==> s.id != id
  {
    if subs != [] && subs[0].id != id {
      FindTierFinds(subs[1..], id);
      assert forall s :: s in subs ==> s == subs[0] || s in subs[1..];
    }
  }

  /** The lookup finds nothing exactly when no charm and no tier of the catalog has the id. */
  lemma {:induction false} CharmToCostFinds(catalog: seq<Charm>, id: string)
    ensures CharmToCost(catalog, id).None? <==>
      forall c :: c in catalog ==> c.id != id && forall s :: s in c.subEffects ==> s.id != id
  {
    if catalog != [] && catalog[0].id != id {
      FindTierFinds(catalog[0].subEffects, id);
      CharmToCostFinds(catalog[1..], id);
      assert forall c :: c in catalog ==> c == catalog[0] || c in catalog[1..];
    }
  }

  /** A charm whose cost is missing, empty or the dash costs nothing. */
  predicate Costless(c: Charm) {
    c.cost.None? || c.cost.value == "" || c.cost.value == "—"
  }

  /** Experiential Conjuring of True Void: 4 gxp on major types, 4 wxp on superior and legendary ones. */
  function VoidSurcharge(t: ProjectType): Costs {
    if StartsWith(t.Name(), "major") then Costs(0, 0, 0, 4, 0)
    else if StartsWith(t.Name(), "superior") || StartsWith(t.Name(), "legendary") then Costs(0, 0, 0, 0, 4)
    else NoCost
  }

  /** What a charm with a cost adds: the Void surcharge, then its parts. */
  function ChargedCost(c: Charm, t: ProjectType): Costs
    requires c.cost.Some?
  {
    (if c.id == VoidId then VoidSurcharge(t) else NoCost).Plus(PartsCost(CostParts(c.cost.value), c.id))
  }

  /** What one active id adds. */
  function CharmCostOf(catalog: seq<Charm>, id: string, t: ProjectType): Costs {
    match CharmToCost(catalog, id)
    case None => NoCost
    case Some(c) => if Costless(c) then NoCost else ChargedCost(c, t)
  }

  /** What the active ids add, one after the other. */
  function CharmCostsOf(ids: seq<string>, catalog: seq<Charm>, t: ProjectType): Costs {
    if ids == [] then NoCost
    else CharmCostsOf(ids[..|ids| - 1], catalog, t).Plus(CharmCostOf(catalog, ids[|ids| - 1], t))
  }

  /** The Craft Excellency: one mote per added die, none while Triumph-Forging Eye pays for them. */
  function ExcellencyMotes(excellencyDice: int, triumph: bool): (m: int)
    ensures m >= 0
    ensures m > 0 <==> excellencyDice > 0 && !triumph
  {
    if excellencyDice > 0 && !triumph then excellencyDice else 0
  }

  /** The value `calculateCharmCost` returns. */
  function CharmCost(ids: seq<string>, catalog: seq<Charm>, t: ProjectType, excellencyDice: int, triumph: bool): Costs {
    Costs(ExcellencyMotes(excellencyDice, triumph), 0, 0, 0, 0).Plus(CharmCostsOf(ids, catalog, t))
  }

  /** One more id adds its own cost to what the ids before it add. */
  lemma CharmCostsStep(ids: seq<string>, i: int, catalog: seq<Charm>, t: ProjectType, before: Costs, added: Costs)
    requires 0 <= i < |ids|
    requires before == CharmCostsOf(ids[..i], catalog, t) && added == CharmCostOf(catalog, ids[i], t)
    ensures CharmCostsOf(ids[..i + 1], catalog, t) == before.Plus(added)
  {
    assert ids[..i + 1][..i] == ids[..i];
  }

  /** The inner loop of `calculateCharmCost` that looks an id up, leaving at the first hit. */
  method FindCharmToCost(catalog: seq<Charm>, id: string) returns (charmToCost: Option<Charm>)
    ensures charmToCost == CharmToCost(catalog, id)
  {
    charmToCost := None;
    var i := 0;
    while i < |catalog|
      invariant 0 <= i <= |catalog|
      invariant CharmToCost(catalog[i..], id) == CharmToCost(catalog, id)
    {
      var charm := catalog[i];
      assert catalog[i..][1..] == catalog[i + 1..];
      if charm.id == id {
        charmToCost := Some(charm);
        return;
      }
      var subEffect := FindTier(charm.subEffects, id);
      if subEffect.Some? {
        charmToCost := Some(subEffect.value.(name := charm.name + ": " + subEffect.value.name));
        return;
      }
      i := i + 1;
    }
  }

  /** One more part adds its own cost to what the parts before it add. */
  lemma PartsCostStep(parts: seq<string>, j: int, costId: string)
    requires 0 <= j < |parts|
    ensures PartsCost(parts[..j + 1], costId) == PartsCost(parts[..j], costId).Plus(PartCost(parts[j], costId))
  {
    assert parts[..j + 1][..j] == parts[..j];
  }

  /** The loop over the trimmed parts of one cost string, adding each part's number to its counter. */
  method TallyCostParts(costParts: seq<string>, costId: string)
    returns (motes: int, willpower: int, sxp: int, gxp: int, wxp: int)
    ensures Costs(motes, willpower, sxp, gxp, wxp) == PartsCost(costParts, costId)
  {
    motes, willpower, sxp, gxp, wxp := 0, 0, 0, 0, 0;
    var j := 0;
    while j < |costParts|
      invariant 0 <= j <= |costParts|
      invariant motes == PartsCost(costParts[..j], costId).motes
      invariant willpower == PartsCost(costParts[..j], costId).willpower
      invariant sxp == PartsCost(costParts[..j], costId).sxp
      invariant gxp == PartsCost(costParts[..j], costId).gxp
      invariant wxp == PartsCost(costParts[..j], costId).wxp
    {
      var part := costParts[j];
      PartsCostStep(costParts, j, costId);
      var n := PartValue(part);
      match BucketOf(part, costId) {
        case MotesBucket => motes := motes + n;
        case WillpowerBucket => willpower := willpower + n;
        case GxpBucket => gxp := gxp + n;
        case WxpBucket => wxp := wxp + n;
        case SxpBucket => sxp := sxp + n;
        case NoBucket =>
      }
      j := j + 1;
    }
    assert costParts[..j] == costParts;
  }

  /** The Void surcharge of `calculateCharmCost`, added before the charm's cost string is read. */
  method ChargeVoid(costId: string, projectType: ProjectType) returns (gxp: int, wxp: int)
    ensures Costs(0, 0, 0, gxp, wxp) == (if costId == VoidId then VoidSurcharge(projectType) else NoCost)
  {
    gxp, wxp := 0, 0;
    if costId == VoidId {
      if StartsWith(projectType.Name(), "major") {
        gxp := gxp + 4;
      } else if StartsWith(projectType.Name(), "superior") || StartsWith(projectType.Name(), "legendary") {
        wxp := wxp + 4;
      }
    }
  }

  /** What a charm with a cost adds to the counters: the Void surcharge, then the loop over its parts. */
  method ChargeCostedCharm(c: Charm, projectType: ProjectType)
    returns (motes: int, willpower: int, sxp: int, gxp: int, wxp: int)
    requires c.cost.Some?
    ensures Costs(motes, willpower, sxp, gxp, wxp) == ChargedCost(c, projectType)
  {
    motes, willpower, sxp := 0, 0, 0;
    gxp, wxp := ChargeVoid(c.id, projectType);
    ghost var surcharge := Costs(motes, willpower, sxp, gxp, wxp);
    var m, w, s, g, x := TallyCostParts(CostParts(c.cost.value), c.id);
    ChargedCostAdds(c, projectType, surcharge, Costs(m, w, s, g, x));
    motes, willpower, sxp, gxp, wxp := motes + m, willpower + w, sxp + s, gxp + g, wxp + x;
  }

  /** A charged cost is its surcharge plus the tally of its parts. */
  lemma ChargedCostAdds(c: Charm, t: ProjectType, surcharge: Costs, tally: Costs)
    requires c.cost.Some?
    requires surcharge == (if c.id == VoidId then VoidSurcharge(t) else NoCost)
    requires tally == PartsCost(CostParts(c.cost.value), c.id)
    ensures ChargedCost(c, t) == surcharge.Plus(tally)
  {
  }

  /** The body of the outer loop of `calculateCharmCost`: what one active id adds to the counters. */
  method ChargeCharm(catalog: seq<Charm>, id: string, projectType: ProjectType)
    returns (motes: int, willpower: int, sxp: int, gxp: int, wxp: int)
    ensures Costs(motes, willpower, sxp, gxp, wxp) == CharmCostOf(catalog, id, projectType)
  {
    motes, willpower, sxp, gxp, wxp := 0, 0, 0, 0, 0;
    var charmToCost := FindCharmToCost(catalog, id);
    if charmToCost.None? || Costless(charmToCost.value) {
      return;
    }
    motes, willpower, sxp, gxp, wxp := ChargeCostedCharm(charmToCost.value, projectType);
  }

  /** `calculateCharmCost`: the Excellency motes, then what each active id adds, in order. */
  method CalculateCharmCost(activeCharmIds: seq<string>, catalog: seq<Charm>, projectType: ProjectType,
                            excellencyDice: int, isTriumphForgingEyeActive: bool) returns (costs: Costs)
    ensures costs == CharmCost(activeCharmIds, catalog, projectType, excellencyDice, isTriumphForgingEyeActive)
  {
    var motes, willpower, sxp, gxp, wxp := 0, 0, 0, 0, 0;
    if excellencyDice > 0 && !isTriumphForgingEyeActive {
      motes := motes + excellencyDice;
    }
    ghost var excellency := motes;
    var i := 0;
    while i < |activeCharmIds|
      invariant 0 <= i <= |activeCharmIds|
      invariant motes == excellency + CharmCostsOf(activeCharmIds[..i], catalog, projectType).motes
      invariant willpower == CharmCostsOf(activeCharmIds[..i], catalog, projectType).willpower
      invariant sxp == CharmCostsOf(activeCharmIds[..i], catalog, projectType).sxp
      invariant gxp == CharmCostsOf(activeCharmIds[..i], catalog, projectType).gxp
      invariant wxp == CharmCostsOf(activeCharmIds[..i], catalog, projectType).wxp
    {
      ghost var before := Costs(motes - excellency, willpower, sxp, gxp, wxp);
      var m, w, s, g, x := ChargeCharm(catalog, activeCharmIds[i], projectType);
      CharmCostsStep(activeCharmIds, i, catalog, projectType, before, Costs(m, w, s, g, x));
      motes, willpower, sxp, gxp, wxp := motes + m, willpower + w, sxp + s, gxp + g, wxp + x;
      i := i + 1;
    }
    assert activeCharmIds[..i] == activeCharmIds;
    costs := Costs(motes, willpower, sxp, gxp, wxp);
  }

  // ---------------------------------------------------------------------------------------------
  // What the tally means.
  // ---------------------------------------------------------------------------------------------

  /**
   * Each part adds its number to exactly one counter, chosen by the first suffix that matches in
   * the order m, wp (not for Will-Forging), gxp, wxp, sxp, and to none when no suffix matches.
   */
  lemma PartSuffixOrder(part: string, costId: string)
    ensures EndsWith(part, "m") ==> PartCost(part, costId) == Costs(PartValue(part), 0, 0, 0, 0)
    ensures !EndsWith(part, "m") && EndsWith(part, "wp") && costId != WillForgingId ==>
      PartCost(part, costId) == Costs(0, PartValue(part), 0, 0, 0)
    ensures !EndsWith(part, "m") && !(EndsWith(part, "wp") && costId != WillForgingId) && EndsWith(part, "gxp") ==>
      PartCost(part, costId) == Costs(0, 0, 0, PartValue(part), 0)
    ensures (!EndsWith(part, "m") && !(EndsWith(part, "wp") && costId != WillForgingId) && !EndsWith(part, "gxp")
             && EndsWith(part, "wxp")) ==> PartCost(part, costId) == Costs(0, 0, 0, 0, PartValue(part))
    ensures (!EndsWith(part, "m") && !(EndsWith(part, "wp") && costId != WillForgingId) && !EndsWith(part, "gxp")
             && !EndsWith(part, "wxp") && EndsWith(part, "sxp")) ==> PartCost(part, costId) == Costs(0, 0, PartValue(part), 0, 0)
    ensures (!EndsWith(part, "m") && !(EndsWith(part, "wp") && costId != WillForgingId) && !EndsWith(part, "gxp")
             && !EndsWith(part, "wxp") && !EndsWith(part, "sxp")) ==> PartCost(part, costId) == NoCost
    ensures PartCost(part, costId).Total() == (if BucketOf(part, costId) == NoBucket then 0 else PartValue(part))
  {
  }

  /** Will-Forging Discipline's willpower is never charged through its cost string, whatever the catalog says. */
  lemma {:induction false} WillForgingChargesNoWillpower(parts: seq<string>)
    ensures PartsCost(parts, WillForgingId).willpower == 0
  {
    if parts != [] {
      WillForgingChargesNoWillpower(parts[..|parts| - 1]);
    }
  }

  /** An id that names no charm, or a charm without a cost, adds nothing. */
  lemma UncostedIdsAddNothing(catalog: seq<Charm>, id: string, t: ProjectType)
    ensures (forall c :: c in catalog ==> c.id != id && forall s :: s in c.subEffects ==> s.id != id) ==>
      CharmCostOf(catalog, id, t) == NoCost
    ensures CharmToCost(catalog, id).Some? && Costless(CharmToCost(catalog, id).value) ==>
      CharmCostOf(catalog, id, t) == NoCost
  {
    CharmToCostFinds(catalog, id);
  }

  /** Will-Forging Discipline's own cost string never adds willpower. */
  lemma WillForgingChargedNoWillpower(c: Charm, t: ProjectType)
    requires c.id == WillForgingId && c.cost.Some?
    ensures ChargedCost(c, t).willpower == 0
  {
    WillForgingChargesNoWillpower(CostParts(c.cost.value));
  }

  /** Will-Forging Discipline never adds willpower to the tally, whatever cost the catalog gives it. */
  lemma WillForgingAddsNoWillpower(catalog: seq<Charm>, id: string, t: ProjectType)
    requires id == WillForgingId
    ensures CharmCostOf(catalog, id, t).willpower == 0
  {
    var r := CharmToCost(catalog, id);
    if r.Some? && !Costless(r.value) {
      WillForgingChargedNoWillpower(r.value, t);
    }
  }

  /** The Void surcharge: 4 gxp on major types, 4 wxp on superior and legendary types, nothing on basic ones. */
  lemma VoidSurchargeByTier(t: ProjectType)
    ensures t.IsMajor() ==> VoidSurcharge(t) == Costs(0, 0, 0, 4, 0)
    ensures t.IsSuperior() || t.IsLegendary() ==> VoidSurcharge(t) == Costs(0, 0, 0, 0, 4)
    ensures t.IsBasic() ==> VoidSurcharge(t) == NoCost
  {
    TierPrefixes(t);
  }

  /** The Excellency adds its dice as motes, unless Triumph-Forging Eye is active, and changes nothing else. */
  lemma ExcellencyOnlyAddsMotes(ids: seq<string>, catalog: seq<Charm>, t: ProjectType, excellencyDice: int, triumph: bool)
    ensures var x := CharmCostsOf(ids, catalog, t);
      CharmCost(ids, catalog, t, excellencyDice, triumph)
        == Costs(x.motes + (if excellencyDice > 0 && !triumph then excellencyDice else 0), x.willpower, x.sxp, x.gxp, x.wxp)
  {
  }

  /** "5m, 1wp, 1gxp" splits at its two commas. */
  lemma SplitFiveMotesCost(cost: string)
    requires cost == "5m, 1wp, 1gxp"
    ensures Split(cost, ',') == ["5m", " 1wp", " 1gxp"]
  {
    assert cost == "5m" + [','] + (" 1wp" + [','] + " 1gxp");
    SplitAtFirst("5m", " 1wp" + [','] + " 1gxp", ',');
    SplitAtFirst(" 1wp", " 1gxp", ',');
    SplitWithoutSeparator(" 1gxp", ',');
  }

  /** Trimming " 1wp" drops its blank. */
  lemma TrimOneWillpower()
    ensures Trim(" 1wp") == "1wp"
  {
    TrimSkipsLeadingBlank(" 1wp");
    assert " 1wp"[1..] == "1wp";
    TrimUntouched("1wp");
  }

  /** Trimming " 1gxp" drops its blank. */
  lemma TrimOneGxp()
    ensures Trim(" 1gxp") == "1gxp"
  {
    TrimSkipsLeadingBlank(" 1gxp");
    assert " 1gxp"[1..] == "1gxp";
    TrimUntouched("1gxp");
  }

  /** The parts of the cost "5m, 1wp, 1gxp". */
  lemma FiveMotesCostParts(cost: string)
    requires cost == "5m, 1wp, 1gxp"
    ensures CostParts(cost) == ["5m", "1wp", "1gxp"]
  {
    SplitFiveMotesCost(cost);
    CostPartsOfThree(cost, "5m", " 1wp", " 1gxp");
    TrimUntouched("5m");
    TrimOneWillpower();
    TrimOneGxp();
  }

  /** A cost with three pieces has their trimmed forms as its parts. */
  lemma CostPartsOfThree(cost: string, p0: string, p1: string, p2: string)
    requires Split(cost, ',') == [p0, p1, p2]
    ensures CostParts(cost) == [Trim(p0), Trim(p1), Trim(p2)]
  {
  }

  /** A single part adds its own cost. */
  lemma OnePartCost(part: string, costId: string, c: Costs)
    requires PartCost(part, costId) == c
    ensures PartsCost([part], costId) == NoCost.Plus(c)
  {
    assert [part][..0] == [];
  }

  /** Three parts add up left to right. */
  lemma ThreePartsCost(p0: string, p1: string, p2: string, costId: string, c0: Costs, c1: Costs, c2: Costs)
    requires PartCost(p0, costId) == c0 && PartCost(p1, costId) == c1 && PartCost(p2, costId) == c2
    ensures PartsCost([p0, p1, p2], costId) == NoCost.Plus(c0).Plus(c1).Plus(c2)
  {
    var parts := [p0, p1, p2];
    PartsCostStep(parts, 2, costId);
    PartsCostStep(parts, 1, costId);
    PartsCostStep(parts, 0, costId);
    assert parts[..3] == parts && parts[..0] == [];
  }

  /** A part that goes to no counter costs nothing, whatever number it starts with. */
  lemma UncountedPartCost(part: string, costId: string)
    requires BucketOf(part, costId) == NoBucket
    ensures PartCost(part, costId) == NoCost
  {
  }

  /** "5m" goes to the motes. */
  lemma FiveMotesPart(id: string)
    ensures PartCost("5m", id) == Costs(5, 0, 0, 0, 0)
  {
    assert "5m" == ['5'] + "m";
    ParseSingleDigit('5', "m");
  }

  /** "1wp" goes to the willpower of any charm but Will-Forging Discipline. */
  lemma OneWillpowerPart(id: string)
    requires id != WillForgingId
    ensures PartCost("1wp", id) == Costs(0, 1, 0, 0, 0)
  {
    assert "1wp" == ['1'] + "wp";
    ParseSingleDigit('1', "wp");
  }

  /** "1gxp" goes to the gxp. */
  lemma OneGxpPart(id: string)
    ensures PartCost("1gxp", id) == Costs(0, 0, 0, 1, 0)
  {
    assert "1gxp" == ['1'] + "gxp";
    ParseSingleDigit('1', "gxp");
    assert !EndsWith("1gxp", "m") && !EndsWith("1gxp", "wp") && EndsWith("1gxp", "gxp");
  }

  /** The cost of the second Supreme Masterwork Focus tier, "5m, 1wp, 1gxp", parsed. */
  lemma FiveMotesCost(cost: string, id: string)
    requires cost == "5m, 1wp, 1gxp" && id != WillForgingId
    ensures PartsCost(CostParts(cost), id) == Costs(5, 1, 0, 1, 0)
  {
    FiveMotesCostParts(cost);
    FiveMotesPartsCost(id);
  }

  /** The three parts "5m", "1wp" and "1gxp" add up to five motes, one willpower and one gxp. */
  lemma FiveMotesPartsCost(id: string)
    requires id != WillForgingId
    ensures PartsCost(["5m", "1wp", "1gxp"], id) == Costs(5, 1, 0, 1, 0)
  {
    FiveMotesPart(id);
    OneWillpowerPart(id);
    OneGxpPart(id);
    ThreePartsCost("5m", "1wp", "1gxp", id, Costs(5, 0, 0, 0, 0), Costs(0, 1, 0, 0, 0), Costs(0, 0, 0, 1, 0));
  }

  /** A part whose last character is neither `m` nor `p` ends in none of the suffixes. */
  lemma NoSuffixNoBucket(part: string, costId: string)
    requires part != [] && part[|part| - 1] != 'm' && part[|part| - 1] != 'p'
    ensures BucketOf(part, costId) == NoBucket
  {
    if EndsWith(part, "m") { EndsWithLastChar(part, "m"); }
    if EndsWith(part, "wp") { EndsWithLastChar(part, "wp"); }
    if EndsWith(part, "gxp") { EndsWithLastChar(part, "gxp"); }
    if EndsWith(part, "wxp") { EndsWithLastChar(part, "wxp"); }
    if EndsWith(part, "sxp") { EndsWithLastChar(part, "sxp"); }
  }

  /** "1wp per 2 succ." has no comma and no blank at either end, so it is its only part. */
  lemma WillForgingCostParts(cost: string)
    requires cost == "1wp per 2 succ."
    ensures CostParts(cost) == [cost]
  {
    SplitWithoutSeparator(cost, ',');
    TrimUntouched(cost);
  }

  /** Will-Forging's cost string "1wp per 2 succ." ends in none of the suffixes, so it adds nothing. */
  lemma WillForgingCostIsUncounted(cost: string)
    requires cost == "1wp per 2 succ."
    ensures PartsCost(CostParts(cost), WillForgingId) == NoCost
  {
    WillForgingCostParts(cost);
    NoSuffixNoBucket(cost, WillForgingId);
    UncountedPartCost(cost, WillForgingId);
    OnePartCost(cost, WillForgingId, NoCost);
  }

  // ---------------------------------------------------------------------------------------------
  // The panel's arithmetic.
  // ---------------------------------------------------------------------------------------------

  /** `totalWillpowerCost`: the charm willpower, and the points put into Will-Forging when it is active. */
  function TotalWillpowerCost(costs: Costs, active: seq<string>, willpowerSpent: int): (w: int)
    ensures WillForgingId in active ==> w == costs.willpower + willpowerSpent
    ensures WillForgingId !in active ==> w == costs.willpower
  {
    costs.willpower + (if WillForgingId in active then willpowerSpent else 0)
  }

  /** `Math.max(0, parseInt(value, 10) || 0)`, the handler of the Excellency and willpower inputs. */
  function ClampedInput(value: string): (n: nat)
    ensures n == 0 <==> ParseInt(value).None? || ParseInt(value).value <= 0
    ensures n > 0 ==> n == ParseInt(value).value
  {
    var v := ParseInt(value).GetOr(0);
    if v > 0 then v else 0
  }

  /** The Excellency after the effect that fills it to the maximum while Triumph-Forging Eye is active. */
  function ExcellencyAfterEffect(excellencyDice: int, triumph: bool, character: Character): int {
    if triumph then character.DicePool() else excellencyDice
  }

  /** The first argument of `onRoll`. */
  datatype ProjectDetails = ProjectDetails(projectType: ProjectType, artifactRating: int, objectivesMet: int, targetNumber: int)

  /** The dice pool argument of `onRoll`. */
  datatype DicePool = DicePool(base: int, excellency: int)
  {
    /** The count on the roll button. */
    function Dice(): int { base + excellency }
  }

  /** The arguments `handleRollClick` passes to `onRoll`. */
  datatype RollRequest = RollRequest(
    details: ProjectDetails, pool: DicePool, willpowerSpent: int, triumph: bool, assignedProjectId: Option<string>)

  /** `handleRollClick`: the artifact rating is only sent for superior types; the pool is attribute plus Craft. */
  function RollRequestOf(character: Character, projectType: ProjectType, artifactRating: int, objectivesMet: int,
                         targetNumber: int, excellencyDice: int, willpowerSpent: int, triumph: bool,
                         assignedProjectId: Option<string>): (r: RollRequest)
    ensures r.details.artifactRating == (if projectType.IsSuperior() then artifactRating else 0)
    ensures r.details.projectType == projectType && r.details.objectivesMet == objectivesMet
    ensures r.details.targetNumber == targetNumber
    ensures r.pool.base == character.Rating(character.selectedAttribute) + character.craft
    ensures r.pool.Dice() == r.pool.base + excellencyDice
  {
    TierPrefixes(projectType);
    RollRequest(
      ProjectDetails(projectType, if StartsWith(projectType.Name(), "superior-") then artifactRating else 0,
                     objectivesMet, targetNumber),
      DicePool(character.DicePool(), excellencyDice), willpowerSpent, triumph, assignedProjectId)
  }

  /** With Triumph-Forging Eye the Excellency is filled to the base pool, so twice the base pool is rolled. */
  lemma TriumphDoublesPool(character: Character, excellencyDice: int, t: ProjectType, assignedProjectId: Option<string>)
    ensures ExcellencyAfterEffect(excellencyDice, true, character) == character.DicePool()
    ensures RollRequestOf(character, t, 0, 0, 0, ExcellencyAfterEffect(excellencyDice, true, character), 0, true,
                          assignedProjectId).pool.Dice() == 2 * character.DicePool()
  {
  }
}
