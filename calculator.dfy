/**
 * The crafting outcome: whether the roll met the target number, which of the five outcome texts is
 * shown, and the experience the project type pays (crafting-calculator.ts).
 */
module CraftingCalculator {
  import opened Wrappers
  import opened JsStrings
  import opened Types

  datatype CraftingInput = CraftingInput(
    projectType: ProjectType,
    artifactRating: int,
    objectivesMet: int,
    successes: int,
    targetNumber: int,
    isExceptional: bool,
    intervalsRemaining: Option<int>,
    legendaryBonusRoll: Option<seq<int>>)

  /** The five outcome texts; only the titles are kept. */
  datatype OutcomeKind = Failure | Success | ExceptionalSuccess | SuperiorSuccess | LegendarySuccess
  {
    function Title(): string {
      match this
      case Failure => "An Unfortunate Setback"
      case Success => "A Masterful Creation"
      case ExceptionalSuccess => "A Work of True Genius"
      case SuperiorSuccess => "Echoes of the First Age"
      case LegendarySuccess => "A New Star in Heaven"
    }
  }

  datatype CraftingOutcome = CraftingOutcome(isSuccess: bool, kind: OutcomeKind, experienceGained: Experience)

  function Max0(x: int): (r: int)
    ensures r >= 0 && r >= x && (r == 0 || r == x)
  {
    if x > 0 then x else 0
  }

  /** `{ 2: 3, 3: 5, 4: 7, 5: 9 }[rating] || 0`. */
  function WxpForRating(rating: int): (w: int)
    ensures 2 <= rating <= 5 ==> w == 2 * rating - 1
    ensures !(2 <= rating <= 5) ==> w == 0
  {
    if rating == 2 then 3
    else if rating == 3 then 5
    else if rating == 4 then 7
    else if rating == 5 then 9
    else 0
  }

  /** Dice of the legendary bonus roll that show 7 or more. */
  function Hits(roll: seq<int>): nat {
    if roll == [] then 0 else (if roll[0] >= 7 then 1 else 0) + Hits(roll[1..])
  }

  /** Dice of the legendary bonus roll that show less than 7. */
  function Misses(roll: seq<int>): nat {
    if roll == [] then 0 else (if roll[0] >= 7 then 0 else 1) + Misses(roll[1..])
  }

  /** Every bonus die pays exactly one point: a gxp when it hits, an sxp when it misses. */
  lemma {:induction false} HitsAndMisses(roll: seq<int>)
    ensures Hits(roll) + Misses(roll) == |roll|
    ensures Hits(roll) == |roll| <==> forall k :: 0 <= k < |roll| ==> roll[k] >= 7
  {
    if roll != [] {
      HitsAndMisses(roll[1..]);
      assert forall k :: 1 <= k < |roll| ==> roll[k] == roll[1..][k - 1];
    }
  }

  /** The outcome text: failure, then the legendary and superior types by name prefix, then exceptional. */
  function KindOf(input: CraftingInput): OutcomeKind {
    if !(input.successes >= input.targetNumber) then Failure
    else if StartsWith(input.projectType.Name(), "legendary") then LegendarySuccess
    else if StartsWith(input.projectType.Name(), "superior") then SuperiorSuccess
    else if input.isExceptional then ExceptionalSuccess
    else Success
  }

  /** The experience of a successful roll by project type, before the clamp at zero. */
  function RawExperience(input: CraftingInput): Experience {
    var met := input.objectivesMet;
    var rating := input.artifactRating;
    match input.projectType
    case BasicProject => Experience((if input.isExceptional then 3 else 2) * met, 0, 0)
    case BasicRepair => Experience(1 * met, 0, 0)
    case MajorProject => Experience(1 * met, (if input.isExceptional then 3 else 2) * met, 0)
    case MajorRepair => Experience(0, 1 * met, 0)
    case SuperiorProject =>
      Experience(0, (rating * 2) * input.intervalsRemaining.GetOr(0), if met >= 1 then WxpForRating(rating) else 0)
    case SuperiorRepair => Experience(0, 0, rating - 1)
    case LegendaryProject =>
      var roll := input.legendaryBonusRoll.GetOr([]);
      Experience(Misses(roll), Hits(roll), if met >= 1 then 10 else 0)
    case LegendaryRepair => Experience(0, 0, 0)
  }

  /** `calculateCraftingOutcome`. */
  function OutcomeOf(input: CraftingInput): (o: CraftingOutcome)
    ensures o.isSuccess <==> input.successes >= input.targetNumber
    ensures o.isSuccess <==> o.kind != Failure
    ensures !o.isSuccess ==> o.experienceGained == Experience(0, 0, 0)
    ensures o.experienceGained.sxp >= 0 && o.experienceGained.gxp >= 0 && o.experienceGained.wxp >= 0
  {
    var isSuccess := input.successes >= input.targetNumber;
    var raw := if isSuccess then RawExperience(input) else Experience(0, 0, 0);
    CraftingOutcome(isSuccess, KindOf(input), Experience(Max0(raw.sxp), Max0(raw.gxp), Max0(raw.wxp)))
  }

  /** The `forEach` over the legendary bonus roll, counting hits into gxp and misses into sxp. */
  method TallyBonusRoll(roll: seq<int>) returns (gxp: int, sxp: int)
    ensures gxp == Hits(roll) && sxp == Misses(roll)
    ensures gxp + sxp == |roll|
  {
    gxp, sxp := 0, 0;
    var i := 0;
    while i < |roll|
      invariant 0 <= i <= |roll|
      invariant gxp + Hits(roll[i..]) == Hits(roll)
      invariant sxp + Misses(roll[i..]) == Misses(roll)
    {
      assert roll[i..][1..] == roll[i + 1..];
      if roll[i] >= 7 {
        gxp := gxp + 1;
      } else {
        sxp := sxp + 1;
      }
      i := i + 1;
    }
    assert roll[i..] == [];
    HitsAndMisses(roll);
  }

  /** `calculateCraftingOutcome`, statement by statement. */
  method CalculateCraftingOutcome(input: CraftingInput) returns (o: CraftingOutcome)
    ensures o == OutcomeOf(input)
  {
    var isSuccess := input.successes >= input.targetNumber;
    var sxp, gxp, wxp := 0, 0, 0;
    var kind := Failure;
    if isSuccess {
      if StartsWith(input.projectType.Name(), "legendary") {
        kind := LegendarySuccess;
      } else if StartsWith(input.projectType.Name(), "superior") {
        kind := SuperiorSuccess;
      } else if input.isExceptional {
        kind := ExceptionalSuccess;
      } else {
        kind := Success;
      }
      var met := input.objectivesMet;
      match input.projectType {
        case BasicProject =>
          sxp := (if input.isExceptional then 3 else 2) * met;
        case BasicRepair =>
          sxp := 1 * met;
        case MajorProject =>
          gxp := (if input.isExceptional then 3 else 2) * met;
          sxp := 1 * met;
        case MajorRepair =>
          gxp := 1 * met;
        case SuperiorProject =>
          if met >= 1 {
            wxp := WxpForRating(input.artifactRating);
          }
          gxp := (input.artifactRating * 2) * input.intervalsRemaining.GetOr(0);
        case SuperiorRepair =>
          wxp := input.artifactRating - 1;
        case LegendaryProject =>
          if met >= 1 {
            wxp := 10;
          }
          if input.legendaryBonusRoll.Some? {
            gxp, sxp := TallyBonusRoll(input.legendaryBonusRoll.value);
          }
        case LegendaryRepair =>
      }
    }
    o := CraftingOutcome(isSuccess, kind, Experience(Max0(sxp), Max0(gxp), Max0(wxp)));
  }

  // ---------------------------------------------------------------------------------------------
  // What the outcome means.
  // ---------------------------------------------------------------------------------------------

  /** The outcome text follows the tier first and the exceptional flag only for basic and major types. */
  lemma OutcomeKinds(input: CraftingInput)
    ensures OutcomeOf(input).kind == LegendarySuccess <==>
      input.successes >= input.targetNumber && input.projectType.IsLegendary()
    ensures OutcomeOf(input).kind == SuperiorSuccess <==>
      input.successes >= input.targetNumber && input.projectType.IsSuperior()
    ensures OutcomeOf(input).kind == ExceptionalSuccess <==>
      && input.successes >= input.targetNumber && input.isExceptional
      && (input.projectType.IsBasic() || input.projectType.IsMajor())
    ensures OutcomeOf(input).kind == Success <==>
      && input.successes >= input.targetNumber && !input.isExceptional
      && (input.projectType.IsBasic() || input.projectType.IsMajor())
  {
    TierPrefixes(input.projectType);
  }

  /** Each project type pays only in its own currencies. */
  lemma Currencies(input: CraftingInput)
    ensures input.projectType.IsBasic() ==> OutcomeOf(input).experienceGained.gxp == 0
    ensures !input.projectType.IsSuperior() && input.projectType != LegendaryProject ==>
      OutcomeOf(input).experienceGained.wxp == 0
    ensures input.projectType in {MajorRepair, SuperiorProject, SuperiorRepair, LegendaryRepair} ==>
      OutcomeOf(input).experienceGained.sxp == 0
    ensures input.projectType == LegendaryRepair ==> OutcomeOf(input).experienceGained == Experience(0, 0, 0)
  {
  }

  /** An exceptional roll never pays less than the same roll without it. */
  lemma ExceptionalNeverPaysLess(input: CraftingInput)
    ensures var plain := OutcomeOf(input.(isExceptional := false)).experienceGained;
            var exceptional := OutcomeOf(input.(isExceptional := true)).experienceGained;
            && plain.sxp <= exceptional.sxp && plain.gxp <= exceptional.gxp && plain.wxp <= exceptional.wxp
  {
  }

  /** A successful legendary project pays 10 wxp once an objective is met, and one point per bonus die. */
  lemma LegendaryProjectPays(input: CraftingInput)
    requires input.projectType == LegendaryProject && input.successes >= input.targetNumber
    ensures OutcomeOf(input).experienceGained.wxp == (if input.objectivesMet >= 1 then 10 else 0)
    ensures OutcomeOf(input).experienceGained.sxp + OutcomeOf(input).experienceGained.gxp ==
      |input.legendaryBonusRoll.GetOr([])|
  {
    HitsAndMisses(input.legendaryBonusRoll.GetOr([]));
  }

  /** A successful superior project: wxp 2 * rating - 1 for ratings 2 to 5, gxp twice the rating per interval left. */
  lemma SuperiorProjectPays(input: CraftingInput)
    requires input.projectType == SuperiorProject && input.successes >= input.targetNumber
    ensures OutcomeOf(input).experienceGained.wxp ==
      (if input.objectivesMet >= 1 && 2 <= input.artifactRating <= 5 then 2 * input.artifactRating - 1 else 0)
    ensures OutcomeOf(input).experienceGained.gxp ==
      Max0(2 * input.artifactRating * input.intervalsRemaining.GetOr(0))
  {
  }

  /**
   * The payment table of a successful roll for the basic, major and superior-repair types, each
   * currency clamped at zero: a basic project pays 3 (exceptional) or 2 sxp per objective met, a basic
   * repair 1 sxp per objective, a major project 1 sxp and 3 (exceptional) or 2 gxp per objective, a
   * major repair 1 gxp per objective, and a superior repair rating - 1 wxp.
   */
  lemma TablePays(input: CraftingInput)
    requires input.successes >= input.targetNumber
    ensures var met := input.objectivesMet;
            var perObjective := if input.isExceptional then 3 else 2;
            var paid := OutcomeOf(input).experienceGained;
      && (input.projectType == BasicProject ==> paid == Experience(Max0(perObjective * met), 0, 0))
      && (input.projectType == BasicRepair ==> paid == Experience(Max0(met), 0, 0))
      && (input.projectType == MajorProject ==> paid == Experience(Max0(met), Max0(perObjective * met), 0))
      && (input.projectType == MajorRepair ==> paid == Experience(0, Max0(met), 0))
      && (input.projectType == SuperiorRepair ==> paid == Experience(0, 0, Max0(input.artifactRating - 1)))
  {
  }
}
