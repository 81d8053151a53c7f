/**
 * One craft roll on the main page (page.tsx `handleRoll`), and the project list it feeds. The active
 * charms are scanned for costs and effects, the costs are paid, a pool of per-die history chains is
 * rolled and exploded chain by chain, failures may be rerolled once, the last value of every chain is
 * scored, and a successful roll pays experience and advances the assigned project.
 *
 * `Math.random` is replaced by an injected finite sequence of die values; a roll that would need more
 * values than the sequence holds ends in `Exhausted`.
 */
module CraftingSession {
  import opened Wrappers
  import opened JsStrings
  import opened Types
  import opened Charms
  import DiceLogic
  import CraftingCalculator
  import DiceRoller

  type Die = DiceLogic.Die

  // ---------------------------------------------------------------------------------------------
  // The charm scan: what the active charms cost and do.
  // ---------------------------------------------------------------------------------------------

  /** `if (charm.cost) { const m = charm.cost.match(/(\d+)unit/); if (m) total += parseInt(m[1], 10); }`. */
  function RegexCost(cost: Option<string>, unit: string): nat {
    if cost.Some? && cost.value != "" then FirstNumberBefore(cost.value, unit).GetOr(0) else 0
  }

  /** The cost in one currency, summed over the active charms. */
  function UnitCost(details: seq<Charm>, unit: string): nat {
    if details == [] then 0 else RegexCost(details[0].cost, unit) + UnitCost(details[1..], unit)
  }

  /** `tnModifier -= value` for every repair-difficulty charm, but only when the project type is a repair. */
  function TnShift(details: seq<Charm>, isRepairType: bool): int {
    if details == [] then 0
    else
      (if details[0].effect.kind == LowerRepairDifficulty && isRepairType then -details[0].effect.value.GetOr(0) else 0)
      + TnShift(details[1..], isRepairType)
  }

  /** Some active charm rerolls failures. */
  predicate RerollsFailures(details: seq<Charm>) {
    exists k :: 0 <= k < |details| && details[k].effect.kind == RerollFailures
  }

  /** The accumulators of the scan. */
  datatype CharmScan = CharmScan(
    moteCost: int, willpowerCost: int, sxpCost: int, gxpCost: int, wxpCost: int,
    tnModifier: int, automaticSuccesses: int, willRerollFailures: bool)

  /** What the scan of `details` arrives at, one accumulator at a time. */
  function ScanOf(details: seq<Charm>, projectType: ProjectType): CharmScan {
    CharmScan(
      UnitCost(details, "m"), UnitCost(details, "wp"), UnitCost(details, "sxp"),
      UnitCost(details, "gxp"), UnitCost(details, "wxp"),
      TnShift(details, Includes(projectType.Name(), "repair")),
      DiceLogic.AddedSuccesses(details), RerollsFailures(details))
  }

  /** The `if (charm.cost)` block: the five regular-expression matches on one cost string. */
  method MatchCosts(charmCost: Option<string>) returns (motes: nat, willpower: nat, sxp: nat, gxp: nat, wxp: nat)
    ensures motes == RegexCost(charmCost, "m") && willpower == RegexCost(charmCost, "wp")
    ensures sxp == RegexCost(charmCost, "sxp") && gxp == RegexCost(charmCost, "gxp") && wxp == RegexCost(charmCost, "wxp")
  {
    motes, willpower, sxp, gxp, wxp := 0, 0, 0, 0, 0;
    if charmCost.Some? && charmCost.value != "" {
      var cost := charmCost.value;
      var moteMatch := FirstNumberBefore(cost, "m");
      if moteMatch.Some? { motes := motes + moteMatch.value; }
      var willpowerMatch := FirstNumberBefore(cost, "wp");
      if willpowerMatch.Some? { willpower := willpower + willpowerMatch.value; }
      var sxpMatch := FirstNumberBefore(cost, "sxp");
      if sxpMatch.Some? { sxp := sxp + sxpMatch.value; }
      var gxpMatch := FirstNumberBefore(cost, "gxp");
      if gxpMatch.Some? { gxp := gxp + gxpMatch.value; }
      var wxpMatch := FirstNumberBefore(cost, "wxp");
      if wxpMatch.Some? { wxp := wxp + wxpMatch.value; }
    }
  }

  /** The `else if` chain on the effect type of one charm. */
  method ApplyEffect(effect: Effect, isRepairType: bool, automaticSuccesses: int, willRerollFailures: bool,
                     tnModifier: int) returns (automaticSuccesses': int, willRerollFailures': bool, tnModifier': int)
    ensures automaticSuccesses' == automaticSuccesses + (if effect.kind == AddSuccesses then effect.value.GetOr(0) else 0)
    ensures willRerollFailures' <==> willRerollFailures || effect.kind == RerollFailures
    ensures tnModifier' == tnModifier -
      (if effect.kind == LowerRepairDifficulty && isRepairType then effect.value.GetOr(0) else 0)
  {
    automaticSuccesses', willRerollFailures', tnModifier' := automaticSuccesses, willRerollFailures, tnModifier;
    if effect.kind == AddSuccesses {
      automaticSuccesses' := automaticSuccesses + effect.value.GetOr(0);
    } else if effect.kind == RerollFailures {
      willRerollFailures' := true;
    } else if effect.kind == LowerRepairDifficulty && isRepairType {
      tnModifier' := tnModifier - effect.value.GetOr(0);
    }
  }

  /** One charm of the scan: what it adds to each accumulator. */
  lemma ScanStep(details: seq<Charm>, i: int, isRepairType: bool)
    requires 0 <= i < |details|
    ensures forall unit :: UnitCost(details[i..], unit) == RegexCost(details[i].cost, unit) + UnitCost(details[i + 1..], unit)
    ensures TnShift(details[i..], isRepairType) == TnShift(details[i + 1..], isRepairType) -
      (if details[i].effect.kind == LowerRepairDifficulty && isRepairType then details[i].effect.value.GetOr(0) else 0)
    ensures DiceLogic.AddedSuccesses(details[i..]) == DiceLogic.AddedSuccesses(details[i + 1..]) +
      (if details[i].effect.kind == AddSuccesses then details[i].effect.value.GetOr(0) else 0)
    ensures RerollsFailures(details[..i + 1]) <==>
      RerollsFailures(details[..i]) || details[i].effect.kind == RerollFailures
  {
    assert details[i..][1..] == details[i + 1..];
    assert forall k :: 0 <= k < i ==> details[..i + 1][k] == details[..i][k];
    assert details[..i + 1][i] == details[i];
  }

  /** The `forEach` over the active charm details. */
  method ScanCharms(details: seq<Charm>, projectType: ProjectType) returns (scan: CharmScan)
    ensures scan == ScanOf(details, projectType)
  {
    var moteCost, willpowerCost, sxpCost, gxpCost, wxpCost := 0, 0, 0, 0, 0;
    var tnModifier, automaticSuccesses := 0, 0;
    var willRerollFailures := false;
    var isRepairType := Includes(projectType.Name(), "repair");
    var i := 0;
    while i < |details|
      invariant 0 <= i <= |details|
      invariant moteCost + UnitCost(details[i..], "m") == UnitCost(details, "m")
      invariant willpowerCost + UnitCost(details[i..], "wp") == UnitCost(details, "wp")
      invariant sxpCost + UnitCost(details[i..], "sxp") == UnitCost(details, "sxp")
      invariant gxpCost + UnitCost(details[i..], "gxp") == UnitCost(details, "gxp")
      invariant wxpCost + UnitCost(details[i..], "wxp") == UnitCost(details, "wxp")
      invariant tnModifier + TnShift(details[i..], isRepairType) == TnShift(details, isRepairType)
      invariant automaticSuccesses + DiceLogic.AddedSuccesses(details[i..]) == DiceLogic.AddedSuccesses(details)
      invariant willRerollFailures == RerollsFailures(details[..i])
    {
      var charm := details[i];
      ScanStep(details, i, isRepairType);
      automaticSuccesses, willRerollFailures, tnModifier :=
        ApplyEffect(charm.effect, isRepairType, automaticSuccesses, willRerollFailures, tnModifier);
      var m, w, sx, gx, wx := MatchCosts(charm.cost);
      moteCost, willpowerCost, sxpCost, gxpCost, wxpCost :=
        moteCost + m, willpowerCost + w, sxpCost + sx, gxpCost + gx, wxpCost + wx;
      i := i + 1;
    }
    assert details[i..] == [] && details[..i] == details;
    scan := CharmScan(moteCost, willpowerCost, sxpCost, gxpCost, wxpCost,
      tnModifier, automaticSuccesses, willRerollFailures);
  }

  /** The scan charges each charm, per currency, the number of the leftmost /(\d+)unit/ match, or nothing. */
  lemma RegexCostIsLeftmostMatch(cost: string, unit: string)
    requires |unit| > 0 && !IsDigit(unit[0])
    ensures (forall j, m :: !MatchesAt(cost, unit, j, m)) ==> RegexCost(Some(cost), unit) == 0
    ensures (exists j, m :: MatchesAt(cost, unit, j, m)) ==>
      exists i, k :: && MatchesAt(cost, unit, i, k) && RegexCost(Some(cost), unit) == DecimalValue(cost[i..i + k])
                     && forall j, m :: MatchesAt(cost, unit, j, m) ==> i <= j
  {
    var i, k := FirstNumberBeforeIsLeftmostMatch(cost, unit);
    if cost == "" {
      assert forall j, m :: !MatchesAt(cost, unit, j, m);
    }
  }

  lemma {:induction false} NoShiftOffRepairs(details: seq<Charm>)
    ensures TnShift(details, false) == 0
  {
    if details != [] {
      NoShiftOffRepairs(details[1..]);
    }
  }

  /** Repair-difficulty charms lower the target number only on repair types, and never raise it. */
  lemma TnShiftOnlyLowersRepairs(details: seq<Charm>, projectType: ProjectType)
    ensures !projectType.IsRepair() ==> ScanOf(details, projectType).tnModifier == 0
    ensures (forall k :: 0 <= k < |details| ==> details[k].effect.value.GetOr(0) >= 0) ==>
      ScanOf(details, projectType).tnModifier <= 0
  {
    RepairSubstring(projectType);
    NoShiftOffRepairs(details);
    ShiftNotPositive(details, Includes(projectType.Name(), "repair"));
  }

  lemma {:induction false} ShiftNotPositive(details: seq<Charm>, isRepairType: bool)
    ensures (forall k :: 0 <= k < |details| ==> details[k].effect.value.GetOr(0) >= 0) ==>
      TnShift(details, isRepairType) <= 0
  {
    if details != [] {
      ShiftNotPositive(details[1..], isRepairType);
      assert forall k :: 1 <= k < |details| ==> details[1..][k - 1] == details[k];
    }
  }

  /** Will-Forging Discipline's cost string charges the roll one willpower, which the roll panel does not count. */
  lemma WillForgingChargedOnRoll(cost: string)
    requires cost == "1wp per 2 succ."
    ensures RegexCost(Some(cost), "wp") == 1
    ensures DiceRoller.PartsCost(DiceRoller.CostParts(cost), DiceRoller.WillForgingId).willpower == 0
  {
    assert cost == ['1'] + cost[1..];
    FirstNumberAtStart('1', cost[1..], "wp");
    DiceRoller.WillForgingCostIsUncounted(cost);
  }

  // ---------------------------------------------------------------------------------------------
  // Paying the costs.
  // ---------------------------------------------------------------------------------------------

  function Min(a: int, b: int): int {
    if a <= b then a else b
  }

  datatype MotePools = MotePools(personal: int, peripheral: int)

  /**
   * The mote payment in the `character` update: personal motes first, as many as the cost asks and the
   * pool holds, then the rest from the peripheral pool, as far as it goes.
   */
  function PayMotes(personalMotes: int, peripheralMotes: int, moteCost: int): (pools: MotePools)
    ensures personalMotes - pools.personal == Min(personalMotes, moteCost)
    ensures peripheralMotes - pools.peripheral == Min(peripheralMotes, moteCost - Min(personalMotes, moteCost))
    ensures 0 <= personalMotes && 0 <= peripheralMotes && 0 <= moteCost ==>
      && 0 <= pools.personal <= personalMotes && 0 <= pools.peripheral <= peripheralMotes
      && (personalMotes - pools.personal) + (peripheralMotes - pools.peripheral)
         == Min(moteCost, personalMotes + peripheralMotes)
      && (pools.peripheral < peripheralMotes ==> pools.personal == 0)
  {
    var personal := personalMotes;
    var peripheral := peripheralMotes;
    var remainingMoteCost := moteCost;
    var personalToSpend := Min(personal, remainingMoteCost);
    var personal' := personal - personalToSpend;
    var remainingMoteCost' := remainingMoteCost - personalToSpend;
    var peripheralToSpend := Min(peripheral, remainingMoteCost');
    MotePools(personal', peripheral - peripheralToSpend)
  }

  /**
   * The two `handleStateChange` calls before the roll: the motes are paid, and willpower and each
   * experience pool drop by exactly their summed cost, with no floor. Nothing else changes.
   */
  function Paid(state: AppState, scan: CharmScan): (s: AppState)
    ensures s.character.willpower == state.character.willpower - scan.willpowerCost
    ensures s.craftingXp == Experience(state.craftingXp.sxp - scan.sxpCost, state.craftingXp.gxp - scan.gxpCost,
                                       state.craftingXp.wxp - scan.wxpCost)
    ensures s.character == state.character.(personalMotes := s.character.personalMotes,
                                            peripheralMotes := s.character.peripheralMotes,
                                            willpower := s.character.willpower)
    ensures s.activeCharms == state.activeCharms && s.activeProjects == state.activeProjects
  {
    var c := state.character;
    var pools := PayMotes(c.personalMotes, c.peripheralMotes, scan.moteCost);
    var xp := state.craftingXp;
    state.(
      character := c.(personalMotes := pools.personal, peripheralMotes := pools.peripheral,
                      willpower := c.willpower - scan.willpowerCost),
      craftingXp := Experience(xp.sxp - scan.sxpCost, xp.gxp - scan.gxpCost, xp.wxp - scan.wxpCost))
  }

  // ---------------------------------------------------------------------------------------------
  // Target number and the exceptional test.
  // ---------------------------------------------------------------------------------------------

  /** `Math.max(1, targetNumber + tnModifier)`. */
  function FinalTargetNumber(targetNumber: int, tnModifier: int): (tn: int)
    ensures tn >= 1 && tn >= targetNumber + tnModifier
    ensures tn == 1 || tn == targetNumber + tnModifier
  {
    if targetNumber + tnModifier >= 1 then targetNumber + tnModifier else 1
  }

  /** The type starts with `basic-` or `major-` and the roll beats the target number by three. */
  predicate IsExceptional(projectType: ProjectType, totalSuccesses: int, finalTargetNumber: int) {
    && (StartsWith(projectType.Name(), "basic-") || StartsWith(projectType.Name(), "major-"))
    && totalSuccesses >= finalTargetNumber + 3
  }

  lemma ExceptionalOnlyForBasicAndMajor(projectType: ProjectType, totalSuccesses: int, finalTargetNumber: int)
    ensures IsExceptional(projectType, totalSuccesses, finalTargetNumber) <==>
      (projectType.IsBasic() || projectType.IsMajor()) && totalSuccesses >= finalTargetNumber + 3
  {
    TierPrefixes(projectType);
  }

  // ---------------------------------------------------------------------------------------------
  // History chains: explosion passes and the reroll pass.
  // ---------------------------------------------------------------------------------------------

  /** A die's history: its first roll, then every value pushed onto it. */
  type History = h: seq<Die> | |h| > 0 witness [1]

  function Last(h: History): Die {
    h[|h| - 1]
  }

  /** The test a pass applies to the last value of a chain: `shouldDieExplode`, or `lastRoll < 7`. */
  datatype Pass = Explosion(active: seq<string>) | Reroll
  {
    predicate Selects(roll: Die) {
      match this
      case Explosion(active) => DiceLogic.ShouldDieExplode(roll, active)
      case Reroll => roll < 7
    }
  }

  /** The number of chains whose last value the pass selects. */
  function Selected(hs: seq<History>, pass: Pass): nat {
    if hs == [] then 0
    else Selected(hs[..|hs| - 1], pass) + (if pass.Selects(Last(hs[|hs| - 1])) then 1 else 0)
  }

  /** One pass: every selected chain, in order, gets the next of `dice` pushed onto it. */
  function Appended(hs: seq<History>, pass: Pass, dice: seq<Die>): (r: seq<History>)
    requires |dice| == Selected(hs, pass)
    ensures |r| == |hs|
  {
    if hs == [] then []
    else
      var n := |hs| - 1;
      var k := Selected(hs[..n], pass);
      Appended(hs[..n], pass, dice[..k]) + [if pass.Selects(Last(hs[n])) then hs[n] + [dice[k]] else hs[n]]
  }

  /** Chain `i` gets exactly one value, the next unused die, when it is selected, and is unchanged otherwise. */
  lemma AppendedShape(hs: seq<History>, pass: Pass, dice: seq<Die>)
    requires |dice| == Selected(hs, pass)
    ensures |Appended(hs, pass, dice)| == |hs|
    ensures forall i :: 0 <= i < |hs| && !pass.Selects(Last(hs[i])) ==> Appended(hs, pass, dice)[i] == hs[i]
    ensures forall i :: 0 <= i < |hs| && pass.Selects(Last(hs[i])) ==>
      Selected(hs[..i], pass) < |dice| && Appended(hs, pass, dice)[i] == hs[i] + [dice[Selected(hs[..i], pass)]]
  {
    AppendedKeepsOthers(hs, pass, dice);
    AppendedPushesSelected(hs, pass, dice);
  }

  lemma {:induction false} AppendedKeepsOthers(hs: seq<History>, pass: Pass, dice: seq<Die>)
    requires |dice| == Selected(hs, pass)
    ensures forall i :: 0 <= i < |hs| && !pass.Selects(Last(hs[i])) ==> Appended(hs, pass, dice)[i] == hs[i]
  {
    if hs != [] {
      var n := |hs| - 1;
      var init := hs[..n];
      AppendedKeepsOthers(init, pass, dice[..Selected(init, pass)]);
      assert forall i :: 0 <= i < n ==> init[i] == hs[i];
    }
  }

  lemma {:induction false} AppendedPushesSelected(hs: seq<History>, pass: Pass, dice: seq<Die>)
    requires |dice| == Selected(hs, pass)
    ensures forall i :: 0 <= i < |hs| && pass.Selects(Last(hs[i])) ==>
      Selected(hs[..i], pass) < |dice| && Appended(hs, pass, dice)[i] == hs[i] + [dice[Selected(hs[..i], pass)]]
  {
    if hs != [] {
      var n := |hs| - 1;
      var k := Selected(hs[..n], pass);
      var init := hs[..n];
      AppendedPushesSelected(init, pass, dice[..k]);
      forall i | 0 <= i < n
        ensures init[..i] == hs[..i]
      {
      }
    }
  }

  lemma {:induction false} SelectedZero(hs: seq<History>, pass: Pass)
    ensures Selected(hs, pass) == 0 <==> forall i :: 0 <= i < |hs| ==> !pass.Selects(Last(hs[i]))
  {
    if hs != [] {
      var n := |hs| - 1;
      SelectedZero(hs[..n], pass);
      assert forall i :: 0 <= i < n ==> hs[..n][i] == hs[i];
    }
  }

  lemma SelectedStep(hs: seq<History>, pass: Pass, i: nat)
    requires i < |hs|
    ensures Selected(hs[..i + 1], pass) == Selected(hs[..i], pass) + (if pass.Selects(Last(hs[i])) then 1 else 0)
  {
    assert hs[..i + 1][..i] == hs[..i];
  }

  /** One step of a pass over the chains: the prefix grows by one chain. */
  lemma PassStep(hs: seq<History>, pass: Pass, dice: seq<Die>, i: nat)
    requires i < |hs| && |dice| == Selected(hs[..i + 1], pass)
    ensures Selected(hs[..i + 1], pass) == Selected(hs[..i], pass) + (if pass.Selects(Last(hs[i])) then 1 else 0)
    ensures Appended(hs[..i + 1], pass, dice) ==
      Appended(hs[..i], pass, dice[..Selected(hs[..i], pass)])
      + [if pass.Selects(Last(hs[i])) then hs[i] + [dice[Selected(hs[..i], pass)]] else hs[i]]
  {
    assert hs[..i + 1][..i] == hs[..i];
  }

  /** `for (const history of newExplosions)` counting: how many chains the pass will push onto. */
  method CountSelected(hs: seq<History>, pass: Pass) returns (count: nat)
    ensures count == Selected(hs, pass)
  {
    count := 0;
    var i := 0;
    while i < |hs|
      invariant 0 <= i <= |hs|
      invariant count == Selected(hs[..i], pass)
    {
      assert hs[..i + 1][..i] == hs[..i];
      if pass.Selects(Last(hs[i])) {
        count := count + 1;
      }
      i := i + 1;
    }
    assert hs[..i] == hs;
  }

  /** (a + b)[|a| := x] splits into a, x and the rest of b. */
  lemma UpdateAtJoin(a: seq<History>, b: seq<History>, x: History)
    requires b != []
    ensures (a + b)[|a| := x] == a + [x] + b[1..]
  {
  }

  /** One step of the pushing walk keeps its invariant. */
  lemma PushStep(histories: seq<History>, pass: Pass, source: seq<Die>, i: nat, used: nat, next: seq<History>)
    requires i < |histories| && used == Selected(histories[..i], pass) && used <= |source|
    requires |next| == |histories| && next == Appended(histories[..i], pass, source[..used]) + histories[i..]
    requires pass.Selects(Last(histories[i])) ==> used < |source|
    ensures var k := used + (if pass.Selects(Last(histories[i])) then 1 else 0);
      && k == Selected(histories[..i + 1], pass) && k <= |source|
      && (if pass.Selects(Last(histories[i])) then next[i := histories[i] + [source[used]]] else next)
         == Appended(histories[..i + 1], pass, source[..k]) + histories[i + 1..]
  {
    if pass.Selects(Last(histories[i])) {
      PushStepSelected(histories, pass, source, i, used, next);
    } else {
      PushStepSkipped(histories, pass, source, i, used, next);
    }
  }

  /** A selected chain gets the next unused die. */
  lemma PushStepSelected(histories: seq<History>, pass: Pass, source: seq<Die>, i: nat, used: nat,
                         next: seq<History>)
    requires i < |histories| && used == Selected(histories[..i], pass) && used < |source|
    requires |next| == |histories| && next == Appended(histories[..i], pass, source[..used]) + histories[i..]
    requires pass.Selects(Last(histories[i]))
    ensures used + 1 == Selected(histories[..i + 1], pass)
    ensures next[i := histories[i] + [source[used]]]
      == Appended(histories[..i + 1], pass, source[..used + 1]) + histories[i + 1..]
  {
    var k := used + 1;
    SelectedStep(histories, pass, i);
    PassStep(histories, pass, source[..k], i);
    assert source[..k][..used] == source[..used];
    assert source[..k][used] == source[used];
    var prefix := Appended(histories[..i], pass, source[..used]);
    assert histories[i..][1..] == histories[i + 1..];
    UpdateAtJoin(prefix, histories[i..], histories[i] + [source[used]]);
  }

  /** A chain the pass does not select is left as it is. */
  lemma PushStepSkipped(histories: seq<History>, pass: Pass, source: seq<Die>, i: nat, used: nat,
                        next: seq<History>)
    requires i < |histories| && used == Selected(histories[..i], pass) && used <= |source|
    requires |next| == |histories| && next == Appended(histories[..i], pass, source[..used]) + histories[i..]
    requires !pass.Selects(Last(histories[i]))
    ensures used == Selected(histories[..i + 1], pass)
    ensures next == Appended(histories[..i + 1], pass, source[..used]) + histories[i + 1..]
  {
    SelectedStep(histories, pass, i);
    PassStep(histories, pass, source[..used], i);
    assert source[..used][..used] == source[..used];
    assert histories[i..] == [histories[i]] + histories[i + 1..];
  }

  /** The loop body: chain `i` gets the next value when the pass selects it; `pushed` is false when none is left. */
  method PushOne(histories: seq<History>, pass: Pass, source: seq<Die>, i: nat, used: nat, next: seq<History>)
    returns (next': seq<History>, used': nat, pushed: bool)
    requires i < |histories| && used == Selected(histories[..i], pass) && used <= |source|
    requires |next| == |histories| && next == Appended(histories[..i], pass, source[..used]) + histories[i..]
    ensures !pushed ==> Selected(histories, pass) > |source|
    ensures pushed ==> && used' == Selected(histories[..i + 1], pass) && used' <= |source|
                       && |next'| == |histories|
                       && next' == Appended(histories[..i + 1], pass, source[..used']) + histories[i + 1..]
  {
    var selected := pass.Selects(Last(histories[i]));
    if selected && used == |source| {
      SelectedStep(histories, pass, i);
      SelectedGrows(histories, pass, i + 1);
      return next, used, false;
    }
    PushStep(histories, pass, source, i, used, next);
    next', used', pushed := next, used, true;
    if selected {
      next' := next[i := histories[i] + [source[used]]];
      used' := used + 1;
    }
  }

  /**
   * `history.push(rollDie())` on each selected chain, walking the chains in order. `ok` is false when the
   * source runs out before every selected chain has had its value.
   */
  method PushToSelected(histories: seq<History>, pass: Pass, source: seq<Die>)
    returns (next: seq<History>, rest: seq<Die>, ok: bool)
    ensures ok <==> Selected(histories, pass) <= |source|
    ensures ok ==> && next == Appended(histories, pass, source[..Selected(histories, pass)])
                   && rest == source[Selected(histories, pass)..]
  {
    next := histories;
    var used := 0;
    var i := 0;
    while i < |histories|
      invariant 0 <= i <= |histories| && |next| == |histories|
      invariant used == Selected(histories[..i], pass) && used <= |source|
      invariant next == Appended(histories[..i], pass, source[..used]) + histories[i..]
    {
      var pushed;
      next, used, pushed := PushOne(histories, pass, source, i, used, next);
      if !pushed {
        return next, source, false;
      }
      i := i + 1;
    }
    assert histories[..i] == histories;
    assert histories[i..] == [];
    rest, ok := source[used..], true;
  }

  /** The count of a prefix never exceeds the count of the whole. */
  lemma {:induction false} SelectedGrows(hs: seq<History>, pass: Pass, j: nat)
    requires j <= |hs|
    ensures Selected(hs[..j], pass) <= Selected(hs, pass)
    decreases |hs|
  {
    if j < |hs| {
      var n := |hs| - 1;
      SelectedGrows(hs[..n], pass, j);
      assert hs[..n][..j] == hs[..j];
    } else {
      assert hs[..j] == hs;
    }
  }

  /** The chains and what is left of the die source. */
  datatype Drawn = Drawn(histories: seq<History>, rest: seq<Die>)

  /**
   * The `while (true)` explosion loop: while some chain's last value explodes, push one value onto every
   * such chain; `None` when the source runs out first.
   */
  function Exploded(hs: seq<History>, active: seq<string>, source: seq<Die>): Option<Drawn>
    decreases |source|
  {
    var k := Selected(hs, Explosion(active));
    if k == 0 then Some(Drawn(hs, source))
    else if |source| < k then None
    else Exploded(Appended(hs, Explosion(active), source[..k]), active, source[k..])
  }

  /** Chain `g` extends chain `h`. */
  predicate Extends(g: seq<History>, h: seq<History>) {
    |g| == |h| && forall i :: 0 <= i < |h| ==> h[i] <= g[i]
  }

  /** A pass only ever lengthens chains. */
  lemma AppendedExtends(hs: seq<History>, pass: Pass, dice: seq<Die>)
    requires |dice| == Selected(hs, pass)
    ensures Extends(Appended(hs, pass, dice), hs)
  {
    AppendedShape(hs, pass, dice);
  }

  lemma ExtendsTransitive(a: seq<History>, b: seq<History>, c: seq<History>)
    requires Extends(b, a) && Extends(c, b)
    ensures Extends(c, a)
  {
    forall i | 0 <= i < |a|
      ensures a[i] <= c[i]
    {
      assert a[i] <= b[i] && b[i] <= c[i];
    }
  }

  /** The explosion loop stops at once when no chain's last value explodes. */
  lemma ExplodedStopsWhenSettled(hs: seq<History>, active: seq<string>, source: seq<Die>)
    requires forall i :: 0 <= i < |hs| ==> !DiceLogic.ShouldDieExplode(Last(hs[i]), active)
    ensures Exploded(hs, active, source) == Some(Drawn(hs, source))
  {
    SelectedZero(hs, Explosion(active));
  }

  /** When the explosion loop finishes, no chain's last value explodes. */
  lemma {:induction false} ExplodedSettles(hs: seq<History>, active: seq<string>, source: seq<Die>)
    requires Exploded(hs, active, source).Some?
    ensures forall i :: 0 <= i < |Exploded(hs, active, source).value.histories| ==>
      !DiceLogic.ShouldDieExplode(Last(Exploded(hs, active, source).value.histories[i]), active)
    decreases |source|
  {
    var pass := Explosion(active);
    var k := Selected(hs, pass);
    if k == 0 {
      SelectedZero(hs, pass);
    } else {
      ExplodedSettles(Appended(hs, pass, source[..k]), active, source[k..]);
    }
  }

  /** The explosion loop keeps the number of chains and only ever lengthens them. */
  lemma {:induction false} ExplodedExtends(hs: seq<History>, active: seq<string>, source: seq<Die>)
    requires Exploded(hs, active, source).Some?
    ensures Extends(Exploded(hs, active, source).value.histories, hs)
    decreases |source|
  {
    var pass := Explosion(active);
    var k := Selected(hs, pass);
    if k != 0 {
      var next := Appended(hs, pass, source[..k]);
      AppendedExtends(hs, pass, source[..k]);
      ExplodedExtends(next, active, source[k..]);
      ExtendsTransitive(hs, next, Exploded(hs, active, source).value.histories);
    }
  }

  /** A suffix of a suffix is a suffix. */
  lemma SuffixOfSuffix(source: seq<Die>, k: int, n: int)
    requires 0 <= k <= |source| && 0 <= n <= |source| - k
    ensures source[k..][|source| - k - n..] == source[|source| - n..]
  {
  }

  /** The explosion loop draws its dice from the front of the source. */
  lemma {:induction false} ExplodedDrawsFromFront(hs: seq<History>, active: seq<string>, source: seq<Die>)
    requires Exploded(hs, active, source).Some?
    ensures var rest := Exploded(hs, active, source).value.rest;
      |rest| <= |source| && rest == source[|source| - |rest|..]
    decreases |source|
  {
    var pass := Explosion(active);
    var k := Selected(hs, pass);
    if k == 0 {
      assert source[|source| - |source|..] == source;
    } else {
      assert |source| >= k;
      var next, tail := Appended(hs, pass, source[..k]), source[k..];
      assert Exploded(hs, active, source) == Exploded(next, active, tail);
      ExplodedDrawsFromFront(next, active, tail);
      SuffixOfSuffix(source, k, |Exploded(next, active, tail).value.rest|);
    }
  }

  /** The explosion loop, pass by pass. */
  method ExplodeAll(histories: seq<History>, active: seq<string>, source: seq<Die>) returns (out: Option<Drawn>)
    ensures out == Exploded(histories, active, source)
  {
    var hs, src := histories, source;
    while true
      invariant Exploded(hs, active, src) == Exploded(histories, active, source)
      decreases |src|
    {
      var newExplosions := CountSelected(hs, Explosion(active));
      if newExplosions > 0 {
        var ok;
        hs, src, ok := PushToSelected(hs, Explosion(active), src);
        if !ok {
          return None;
        }
      } else {
        return Some(Drawn(hs, src));
      }
    }
  }

  /** `baseSuccesses`: the `reduce` adding `calculateSuccesses` of the last value of every chain. */
  function BaseSuccesses(hs: seq<History>, active: seq<string>): int {
    if hs == [] then 0 else DiceLogic.CalculateSuccesses(Last(hs[0]), active) + BaseSuccesses(hs[1..], active)
  }

  /** Only the last value of each chain counts, and each chain counts 0, 1 or 2. */
  lemma {:induction false} OnlyLastValuesCount(hs: seq<History>, gs: seq<History>, active: seq<string>)
    requires |hs| == |gs| && forall i :: 0 <= i < |hs| ==> Last(hs[i]) == Last(gs[i])
    ensures BaseSuccesses(hs, active) == BaseSuccesses(gs, active)
    ensures 0 <= BaseSuccesses(hs, active) <= 2 * |hs|
  {
    if hs != [] {
      OnlyLastValuesCount(hs[1..], gs[1..], active);
    }
  }

  // ---------------------------------------------------------------------------------------------
  // Projects.
  // ---------------------------------------------------------------------------------------------

  datatype ActiveProject = ActiveProject(
    id: string, name: string, projectType: ProjectType, goal: int, progress: int, isComplete: bool)

  /** What the journal hands to `addProject`: a project without its id and completion flag. */
  datatype ProjectDraft = ProjectDraft(name: string, projectType: ProjectType, goal: int, progress: int)

  /** The `map` callback on a successful roll: the assigned project gains the successes and may complete. */
  function Advance(p: ActiveProject, assignedProjectId: string, totalSuccesses: int): ActiveProject {
    if p.id == assignedProjectId then
      var newProgress := p.progress + totalSuccesses;
      p.(progress := newProgress, isComplete := newProgress >= p.goal)
    else p
  }

  /** `prevProjects.map(...)` with `Advance`. */
  function AdvanceProjects(projects: seq<ActiveProject>, assignedProjectId: string, totalSuccesses: int)
    : (r: seq<ActiveProject>)
    ensures |r| == |projects|
    ensures forall i :: 0 <= i < |projects| && projects[i].id != assignedProjectId ==> r[i] == projects[i]
    ensures forall i :: 0 <= i < |projects| && projects[i].id == assignedProjectId ==>
      && r[i].progress == projects[i].progress + totalSuccesses
      && (r[i].isComplete <==> r[i].progress >= r[i].goal)
      && r[i] == projects[i].(progress := r[i].progress, isComplete := r[i].isComplete)
  {
    if projects == [] then []
    else
      [Advance(projects[0], assignedProjectId, totalSuccesses)]
      + AdvanceProjects(projects[1..], assignedProjectId, totalSuccesses)
  }

  /** `addProject`: the draft goes to the end with a fresh id, not yet complete. */
  function AddProject(projects: seq<ActiveProject>, draft: ProjectDraft, newId: string): (r: seq<ActiveProject>)
    ensures |r| == |projects| + 1 && r[..|projects|] == projects
    ensures r[|projects|] == ActiveProject(newId, draft.name, draft.projectType, draft.goal, draft.progress, false)
  {
    projects + [ActiveProject(newId, draft.name, draft.projectType, draft.goal, draft.progress, false)]
  }

  /** `removeProject`: `prev.filter(p => p.id !== projectId)`. */
  function RemoveProject(projects: seq<ActiveProject>, projectId: string): (r: seq<ActiveProject>)
    ensures |r| <= |projects|
    ensures forall p :: p in r <==> p in projects && p.id != projectId
  {
    if projects == [] then []
    else (if projects[0].id != projectId then [projects[0]] else []) + RemoveProject(projects[1..], projectId)
  }

  function Ids(projects: seq<ActiveProject>): set<string> {
    set p | p in projects :: p.id
  }

  /** The filter keeps the relative order of what it keeps, so it leaves a list without the id untouched. */
  lemma {:induction false} RemoveAbsent(projects: seq<ActiveProject>, projectId: string)
    requires projectId !in Ids(projects)
    ensures RemoveProject(projects, projectId) == projects
  {
    if projects != [] {
      assert projects[0] in projects;
      assert Ids(projects[1..]) <= Ids(projects);
      RemoveAbsent(projects[1..], projectId);
      assert [projects[0]] + projects[1..] == projects;
    }
  }

  lemma {:induction false} RemoveDistributes(a: seq<ActiveProject>, b: seq<ActiveProject>, projectId: string)
    ensures RemoveProject(a + b, projectId) == RemoveProject(a, projectId) + RemoveProject(b, projectId)
  {
    if a != [] {
      assert (a + b)[1..] == a[1..] + b;
      RemoveDistributes(a[1..], b, projectId);
    } else {
      assert a + b == b;
    }
  }

  /** Removing a project just added under a fresh id gives back the list as it was. */
  lemma RemoveUndoesAdd(projects: seq<ActiveProject>, draft: ProjectDraft, newId: string)
    requires newId !in Ids(projects)
    ensures RemoveProject(AddProject(projects, draft, newId), newId) == projects
  {
    var added := ActiveProject(newId, draft.name, draft.projectType, draft.goal, draft.progress, false);
    RemoveDistributes(projects, [added], newId);
    RemoveAbsent(projects, newId);
    assert RemoveProject([added], newId) == [];
  }

  /** `majorProjectSlots`: twice Essence with Tireless Workhorse Method active, otherwise none. */
  function MajorProjectSlots(character: Character, activeCharms: seq<string>): int {
    if "tireless-workhorse-method" in activeCharms then character.essence * 2 else 0
  }

  /** The projects whose type starts with `major`. */
  function MajorCount(projects: seq<ActiveProject>): nat {
    if projects == [] then 0
    else (if StartsWith(projects[0].projectType.Name(), "major") then 1 else 0) + MajorCount(projects[1..])
  }

  /** The journal's `canAddProject` (crafting-journal.tsx): fewer major projects than slots. */
  predicate CanAddProject(projects: seq<ActiveProject>, maxProjects: int) {
    MajorCount(projects) < maxProjects
  }

  lemma {:induction false} MajorCountAppend(a: seq<ActiveProject>, b: seq<ActiveProject>)
    ensures MajorCount(a + b) == MajorCount(a) + MajorCount(b)
  {
    if a != [] {
      assert (a + b)[1..] == a[1..] + b;
      MajorCountAppend(a[1..], b);
    } else {
      assert a + b == b;
    }
  }

  /** Without Tireless Workhorse Method there is no slot; each added major project takes one. */
  lemma MajorSlots(character: Character, activeCharms: seq<string>, projects: seq<ActiveProject>,
                   draft: ProjectDraft, newId: string)
    ensures "tireless-workhorse-method" !in activeCharms ==>
      !CanAddProject(projects, MajorProjectSlots(character, activeCharms))
    ensures MajorCount(AddProject(projects, draft, newId)) ==
      MajorCount(projects) + (if draft.projectType.IsMajor() then 1 else 0)
  {
    var added := ActiveProject(newId, draft.name, draft.projectType, draft.goal, draft.progress, false);
    MajorCountAppend(projects, [added]);
    TierPrefixes(draft.projectType);
    assert [added][1..] == [];
  }

  // ---------------------------------------------------------------------------------------------
  // The roll.
  // ---------------------------------------------------------------------------------------------

  /** One tier of the `forEach`: pushed when active, skipped otherwise. */
  lemma ActiveOfStep(pushed: seq<Charm>, subEffects: seq<Charm>, j: int, activeCharms: seq<string>)
    requires 0 <= j < |subEffects|
    ensures pushed + ActiveOf(subEffects[j..], activeCharms) ==
      (if subEffects[j].id in activeCharms then pushed + [subEffects[j]] else pushed)
      + ActiveOf(subEffects[j + 1..], activeCharms)
  {
    assert subEffects[j..][1..] == subEffects[j + 1..];
    if subEffects[j].id in activeCharms {
      assert pushed + ([subEffects[j]] + ActiveOf(subEffects[j + 1..], activeCharms))
        == pushed + [subEffects[j]] + ActiveOf(subEffects[j + 1..], activeCharms);
    }
  }

  /** `charm.subEffects.forEach`: the active tiers of one charm, pushed in order. */
  method PushActiveTiers(details: seq<Charm>, subEffects: seq<Charm>, activeCharms: seq<string>)
    returns (pushed: seq<Charm>)
    ensures pushed == details + ActiveOf(subEffects, activeCharms)
  {
    pushed := details;
    var j := 0;
    while j < |subEffects|
      invariant 0 <= j <= |subEffects|
      invariant pushed + ActiveOf(subEffects[j..], activeCharms) == details + ActiveOf(subEffects, activeCharms)
    {
      ActiveOfStep(pushed, subEffects, j, activeCharms);
      if subEffects[j].id in activeCharms {
        pushed := pushed + [subEffects[j]];
      }
      j := j + 1;
    }
    assert subEffects[j..] == [];
  }

  lemma Regrouped<T>(a: seq<T>, b: seq<T>, c: seq<T>, d: seq<T>)
    ensures a + (b + c + d) == a + b + c + d
  {
  }

  /** `allCharms.forEach`: each active catalog charm, then each of its active tiers, pushed in order. */
  method CollectActiveDetails(catalog: seq<Charm>, activeCharms: seq<string>) returns (details: seq<Charm>)
    ensures details == ActiveDetails(catalog, activeCharms)
  {
    details := [];
    var i := 0;
    while i < |catalog|
      invariant 0 <= i <= |catalog|
      invariant details + ActiveDetails(catalog[i..], activeCharms) == ActiveDetails(catalog, activeCharms)
    {
      var charm := catalog[i];
      assert catalog[i..][1..] == catalog[i + 1..];
      ghost var before := details;
      var own := if charm.id in activeCharms then [charm] else [];
      details := details + own;
      details := PushActiveTiers(details, charm.subEffects, activeCharms);
      Regrouped(before, own, ActiveOf(charm.subEffects, activeCharms), ActiveDetails(catalog[i + 1..], activeCharms));
      i := i + 1;
    }
    assert catalog[i..] == [];
  }

  /** The page state `handleRoll` reads and updates. */
  datatype AppState = AppState(
    character: Character, activeCharms: seq<string>, craftingXp: Experience, activeProjects: seq<ActiveProject>)

  /** The `projectDetails` argument of `handleRoll`. */
  datatype RollProject = RollProject(projectType: ProjectType, artifactRating: int, objectivesMet: int)

  /** What a finished roll leaves behind: the new state, the roll shown, the outcome and the unused dice. */
  datatype CraftRoll = CraftRoll(
    state: AppState,
    diceHistories: seq<History>,
    totalSuccesses: int,
    automaticSuccesses: int,
    targetNumber: int,
    activeCharmNames: seq<string>,
    outcome: CraftingCalculator.CraftingOutcome,
    rest: seq<Die>)

  datatype RollResult = Rolled(roll: CraftRoll) | Exhausted

  /** `initialRolls.map(r => [r])`. */
  function Singletons(dice: seq<Die>): (hs: seq<History>)
    ensures |hs| == |dice| && forall i :: 0 <= i < |dice| ==> hs[i] == [dice[i]]
  {
    seq(|dice|, i requires 0 <= i < |dice| => [dice[i]])
  }

  /** The reroll pass after the explosions, when some active charm rerolls failures. */
  function Rerolled(d: Drawn, willRerollFailures: bool): Option<Drawn> {
    if !willRerollFailures then Some(d)
    else
      var k := Selected(d.histories, Reroll);
      if |d.rest| < k then None else Some(Drawn(Appended(d.histories, Reroll, d.rest[..k]), d.rest[k..]))
  }

  /** The experience and project updates of a roll; a failed roll changes nothing. */
  function Settled(s: AppState, outcome: CraftingCalculator.CraftingOutcome, assignedProjectId: Option<string>,
                   totalSuccesses: int): AppState
  {
    if !outcome.isSuccess then s
    else
      var gained := outcome.experienceGained;
      var xp := Experience(s.craftingXp.sxp + gained.sxp, s.craftingXp.gxp + gained.gxp, s.craftingXp.wxp + gained.wxp);
      var projects :=
        if assignedProjectId.Some? && assignedProjectId.value != "" then
          AdvanceProjects(s.activeProjects, assignedProjectId.value, totalSuccesses)
        else s.activeProjects;
      s.(craftingXp := xp, activeProjects := projects)
  }

  /** `calculateCraftingOutcome` on the roll's total and target number, with the exceptional test. */
  function OutcomeFor(project: RollProject, totalSuccesses: int, finalTargetNumber: int)
    : CraftingCalculator.CraftingOutcome
  {
    CraftingCalculator.OutcomeOf(CraftingCalculator.CraftingInput(
      project.projectType, project.artifactRating, project.objectivesMet, totalSuccesses, finalTargetNumber,
      IsExceptional(project.projectType, totalSuccesses, finalTargetNumber), None, None))
  }

  /** The outcome is exceptional only for basic and major types three successes past the target. */
  lemma OutcomeForExceptional(project: RollProject, totalSuccesses: int, finalTargetNumber: int)
    ensures OutcomeFor(project, totalSuccesses, finalTargetNumber) ==
      CraftingCalculator.OutcomeOf(CraftingCalculator.CraftingInput(
        project.projectType, project.artifactRating, project.objectivesMet, totalSuccesses, finalTargetNumber,
        (project.projectType.IsBasic() || project.projectType.IsMajor()) && totalSuccesses >= finalTargetNumber + 3,
        None, None))
  {
    ExceptionalOnlyForBasicAndMajor(project.projectType, totalSuccesses, finalTargetNumber);
  }

  /** The successes of the dice plus the charms' automatic successes. */
  function TotalSuccesses(hs: seq<History>, active: seq<string>, scan: CharmScan): int {
    BaseSuccesses(hs, active) + scan.automaticSuccesses
  }

  /** The roll once its total and final target number are known: outcome, payment and rewards. */
  function Scored(state: AppState, project: RollProject, assignedProjectId: Option<string>,
                  details: seq<Charm>, scan: CharmScan, f: Drawn, totalSuccesses: int, finalTargetNumber: int)
    : CraftRoll
  {
    var outcome := OutcomeFor(project, totalSuccesses, finalTargetNumber);
    CraftRoll(Settled(Paid(state, scan), outcome, assignedProjectId, totalSuccesses), f.histories, totalSuccesses,
      scan.automaticSuccesses, finalTargetNumber, DiceLogic.Names(details), outcome, f.rest)
  }

  /** `handleRoll` once the active charm details are known. */
  function RollWith(details: seq<Charm>, state: AppState, targetNumber: int, project: RollProject,
                    assignedProjectId: Option<string>, source: seq<Die>): RollResult
  {
    var scan := ScanOf(details, project.projectType);
    var n := DiceLogic.Max0(state.character.DicePool());
    if |source| < n then Exhausted
    else
      match Exploded(Singletons(source[..n]), state.activeCharms, source[n..])
      case None => Exhausted
      case Some(d) =>
        match Rerolled(d, scan.willRerollFailures)
        case None => Exhausted
        case Some(f) =>
          Rolled(Scored(state, project, assignedProjectId, details, scan, f,
            TotalSuccesses(f.histories, state.activeCharms, scan),
            FinalTargetNumber(targetNumber, scan.tnModifier)))
  }

  /** `handleRoll`, on the state, the page's target number and a finite source of die values. */
  function HandleRollSpec(state: AppState, targetNumber: int, project: RollProject,
                          assignedProjectId: Option<string>, source: seq<Die>): RollResult
  {
    RollWith(ActiveDetails(AllCharms, state.activeCharms), state, targetNumber, project, assignedProjectId, source)
  }

  /** `handleRoll`, step by step. */
  method HandleRoll(state: AppState, targetNumber: int, project: RollProject,
                    assignedProjectId: Option<string>, source: seq<Die>) returns (r: RollResult)
    ensures r == HandleRollSpec(state, targetNumber, project, assignedProjectId, source)
  {
    var activeCharmDetails := CollectActiveDetails(AllCharms, state.activeCharms);
    r := RollWithDetails(activeCharmDetails, state, targetNumber, project, assignedProjectId, source);
  }

  /** The body of `handleRoll` after the active charm details are collected. */
  method RollWithDetails(activeCharmDetails: seq<Charm>, state: AppState, targetNumber: int, project: RollProject,
                         assignedProjectId: Option<string>, source: seq<Die>) returns (r: RollResult)
    ensures r == RollWith(activeCharmDetails, state, targetNumber, project, assignedProjectId, source)
  {
    var scan := ScanCharms(activeCharmDetails, project.projectType);
    var dice, rest, ok := DiceLogic.RollDice(state.character.DicePool(), source);
    if !ok {
      return Exhausted;
    }
    var diceHistories := Singletons(dice);
    var exploded := ExplodeAll(diceHistories, state.activeCharms, rest);
    if exploded.None? {
      return Exhausted;
    }
    diceHistories, rest := exploded.value.histories, exploded.value.rest;
    if scan.willRerollFailures {
      diceHistories, rest, ok := PushToSelected(diceHistories, Reroll, rest);
      if !ok {
        return Exhausted;
      }
    }
    var totalSuccesses := TotalSuccesses(diceHistories, state.activeCharms, scan);
    var finalTargetNumber := FinalTargetNumber(targetNumber, scan.tnModifier);
    r := Rolled(Scored(state, project, assignedProjectId, activeCharmDetails, scan, Drawn(diceHistories, rest),
      totalSuccesses, finalTargetNumber));
  }

  // ---------------------------------------------------------------------------------------------
  // What a roll means. The lemmas hold for any list of active charm details, so in particular for
  // the one `handleRoll` collects from the catalog.
  // ---------------------------------------------------------------------------------------------

  /**
   * A finished roll has one chain per die of the pool, each beginning with the die first drawn for it;
   * without a reroll charm no chain ends on an exploding value; and the total is the sum over the last
   * values plus the automatic successes.
   */
  lemma RollChains(details: seq<Charm>, state: AppState, targetNumber: int, project: RollProject,
                   assignedProjectId: Option<string>, source: seq<Die>)
    requires RollWith(details, state, targetNumber, project, assignedProjectId, source).Rolled?
    ensures var r := RollWith(details, state, targetNumber, project, assignedProjectId, source).roll;
      var n := DiceLogic.Max0(state.character.DicePool());
      && |r.diceHistories| == n && n <= |source|
      && (forall i :: 0 <= i < n ==> r.diceHistories[i][0] == source[i])
      && (!RerollsFailures(details) ==>
            forall i :: 0 <= i < n ==> !DiceLogic.ShouldDieExplode(Last(r.diceHistories[i]), state.activeCharms))
      && r.totalSuccesses == BaseSuccesses(r.diceHistories, state.activeCharms) + DiceLogic.AddedSuccesses(details)
  {
    var scan := ScanOf(details, project.projectType);
    var n := DiceLogic.Max0(state.character.DicePool());
    var initial := Singletons(source[..n]);
    var d := Exploded(initial, state.activeCharms, source[n..]).value;
    var f := Rerolled(d, scan.willRerollFailures).value;
    ExplodedExtends(initial, state.activeCharms, source[n..]);
    ExplodedSettles(initial, state.activeCharms, source[n..]);
    if scan.willRerollFailures {
      var k := Selected(d.histories, Reroll);
      AppendedExtends(d.histories, Reroll, d.rest[..k]);
      ExtendsTransitive(initial, d.histories, f.histories);
    }
    forall i | 0 <= i < n
      ensures f.histories[i][0] == source[i]
    {
      assert initial[i] == [source[i]] && initial[i] <= f.histories[i];
    }
  }

  /**
   * A finished roll has paid its costs: motes personal-first, willpower and each experience pool by the
   * summed cost with no floor; a success then adds the experience gained. Nothing else of the character
   * changes.
   */
  lemma RollPays(details: seq<Charm>, state: AppState, targetNumber: int, project: RollProject,
                 assignedProjectId: Option<string>, source: seq<Die>)
    requires RollWith(details, state, targetNumber, project, assignedProjectId, source).Rolled?
    ensures var r := RollWith(details, state, targetNumber, project, assignedProjectId, source).roll;
      var c := state.character;
      var pools := PayMotes(c.personalMotes, c.peripheralMotes, UnitCost(details, "m"));
      var gained := if r.outcome.isSuccess then r.outcome.experienceGained else Experience(0, 0, 0);
      && r.state.character == c.(personalMotes := pools.personal, peripheralMotes := pools.peripheral,
                                  willpower := c.willpower - UnitCost(details, "wp"))
      && r.state.craftingXp == Experience(
           state.craftingXp.sxp - UnitCost(details, "sxp") + gained.sxp,
           state.craftingXp.gxp - UnitCost(details, "gxp") + gained.gxp,
           state.craftingXp.wxp - UnitCost(details, "wxp") + gained.wxp)
      && r.state.activeCharms == state.activeCharms
  {
    var scan := ScanOf(details, project.projectType);
    var n := DiceLogic.Max0(state.character.DicePool());
    var d := Exploded(Singletons(source[..n]), state.activeCharms, source[n..]).value;
    var f := Rerolled(d, scan.willRerollFailures).value;
    var total := TotalSuccesses(f.histories, state.activeCharms, scan);
    var tn := FinalTargetNumber(targetNumber, scan.tnModifier);
    assert RollWith(details, state, targetNumber, project, assignedProjectId, source).roll
      == Scored(state, project, assignedProjectId, details, scan, f, total, tn);
    ScoredPays(state, project, assignedProjectId, details, scan, f, total, tn);
  }

  /** A scored roll pays the scan's costs and, on success only, adds the experience gained. */
  lemma ScoredPays(state: AppState, project: RollProject, assignedProjectId: Option<string>,
                   details: seq<Charm>, scan: CharmScan, f: Drawn, totalSuccesses: int, finalTargetNumber: int)
    ensures var r := Scored(state, project, assignedProjectId, details, scan, f, totalSuccesses, finalTargetNumber);
      var c := state.character;
      var pools := PayMotes(c.personalMotes, c.peripheralMotes, scan.moteCost);
      var gained := if r.outcome.isSuccess then r.outcome.experienceGained else Experience(0, 0, 0);
      && r.state.character == c.(personalMotes := pools.personal, peripheralMotes := pools.peripheral,
                                  willpower := c.willpower - scan.willpowerCost)
      && r.state.craftingXp == Experience(
           state.craftingXp.sxp - scan.sxpCost + gained.sxp,
           state.craftingXp.gxp - scan.gxpCost + gained.gxp,
           state.craftingXp.wxp - scan.wxpCost + gained.wxp)
      && r.state.activeCharms == state.activeCharms
  {
  }

  /**
   * The outcome of a finished roll is the calculator's on the total and the clamped target number; it is
   * exceptional only for basic and major types three successes past the target; and only a success with
   * an assigned project id advances that project.
   */
  lemma RollOutcome(details: seq<Charm>, state: AppState, targetNumber: int, project: RollProject,
                    assignedProjectId: Option<string>, source: seq<Die>)
    requires RollWith(details, state, targetNumber, project, assignedProjectId, source).Rolled?
    ensures var r := RollWith(details, state, targetNumber, project, assignedProjectId, source).roll;
      && r.targetNumber == FinalTargetNumber(targetNumber, TnShift(details, project.projectType.IsRepair()))
      && r.targetNumber >= 1
      && r.outcome == CraftingCalculator.OutcomeOf(CraftingCalculator.CraftingInput(
           project.projectType, project.artifactRating, project.objectivesMet, r.totalSuccesses, r.targetNumber,
           (project.projectType.IsBasic() || project.projectType.IsMajor()) && r.totalSuccesses >= r.targetNumber + 3,
           None, None))
      && (r.outcome.isSuccess <==> r.totalSuccesses >= r.targetNumber)
      && r.state.activeProjects ==
           if r.outcome.isSuccess && assignedProjectId.Some? && assignedProjectId.value != "" then
             AdvanceProjects(state.activeProjects, assignedProjectId.value, r.totalSuccesses)
           else state.activeProjects
  {
    var scan := ScanOf(details, project.projectType);
    var n := DiceLogic.Max0(state.character.DicePool());
    var d := Exploded(Singletons(source[..n]), state.activeCharms, source[n..]).value;
    var f := Rerolled(d, scan.willRerollFailures).value;
    var total := TotalSuccesses(f.histories, state.activeCharms, scan);
    var tn := FinalTargetNumber(targetNumber, scan.tnModifier);
    assert RollWith(details, state, targetNumber, project, assignedProjectId, source).roll
      == Scored(state, project, assignedProjectId, details, scan, f, total, tn);
    RepairSubstring(project.projectType);
    ScoredOutcome(state, project, assignedProjectId, details, scan, f, total, tn);
    ScoredProjects(state, project, assignedProjectId, details, scan, f, total, tn);
  }

  lemma SettledProjects(s: AppState, outcome: CraftingCalculator.CraftingOutcome, assignedProjectId: Option<string>,
                        totalSuccesses: int)
    ensures Settled(s, outcome, assignedProjectId, totalSuccesses).activeProjects ==
      if outcome.isSuccess && assignedProjectId.Some? && assignedProjectId.value != "" then
        AdvanceProjects(s.activeProjects, assignedProjectId.value, totalSuccesses)
      else s.activeProjects
  {
  }

  /** A scored roll keeps its total and target number; it is exceptional only for basic and major types. */
  lemma ScoredOutcome(state: AppState, project: RollProject, assignedProjectId: Option<string>,
                      details: seq<Charm>, scan: CharmScan, f: Drawn, totalSuccesses: int, finalTargetNumber: int)
    ensures var r := Scored(state, project, assignedProjectId, details, scan, f, totalSuccesses, finalTargetNumber);
      && r.totalSuccesses == totalSuccesses && r.targetNumber == finalTargetNumber
      && r.outcome == CraftingCalculator.OutcomeOf(CraftingCalculator.CraftingInput(
           project.projectType, project.artifactRating, project.objectivesMet, totalSuccesses, finalTargetNumber,
           (project.projectType.IsBasic() || project.projectType.IsMajor()) && totalSuccesses >= finalTargetNumber + 3,
           None, None))
  {
    OutcomeForExceptional(project, totalSuccesses, finalTargetNumber);
  }

  /** Only a success with an assigned project id advances that project. */
  lemma ScoredProjects(state: AppState, project: RollProject, assignedProjectId: Option<string>,
                       details: seq<Charm>, scan: CharmScan, f: Drawn, totalSuccesses: int, finalTargetNumber: int)
    ensures var r := Scored(state, project, assignedProjectId, details, scan, f, totalSuccesses, finalTargetNumber);
      r.state.activeProjects ==
        if r.outcome.isSuccess && assignedProjectId.Some? && assignedProjectId.value != "" then
          AdvanceProjects(state.activeProjects, assignedProjectId.value, totalSuccesses)
        else state.activeProjects
  {
    SettledProjects(Paid(state, scan), OutcomeFor(project, totalSuccesses, finalTargetNumber), assignedProjectId,
      totalSuccesses);
  }
}
