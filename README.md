# Exalted Crafter's Aid, modelled in Dafny

Exalted Crafter's Aid is a web tool for the crafting rules of *Exalted, Third Edition*. A Solar
character picks crafting charms and rolls (Attribute + Craft) ten-sided dice against a target
number. The roll pays the charms' mote, willpower and experience costs. A success earns crafting
experience (sxp, gxp, wxp) and advances the project the roll is assigned to.

This project models the core of that tool, one Dafny module per source file:

- **`Charms`** (`charms.ts`): the `toId` normaliser and the charm catalog. The catalog has three
  Essence groups, and Supreme Masterwork Focus has three tiers. It also defines the "active
  details" list, which every roll walks.
- **`CraftingCalculator`** (`crafting-calculator.ts`): `calculateCraftingOutcome`. It decides
  success against the target number, picks which of five outcome texts is shown, and computes the
  experience each of the eight project types pays.
- **`DiceLogic`** (`dice-logic.ts`): `performDiceRoll`. The pool is rolled in waves, and every
  exploding die is rolled again in the next wave. It covers the Supreme Masterwork Focus
  double-success rules and the First Movement of the Demiurge reroll, exactly as the code behaves.
  It also adds the automatic successes of add-successes charms.
- **`CharmSelection`** (`charm-selection.tsx`): `handleCharmToggle` with its tier rules, and
  `isCharmDisabled`.
- **`DiceRoller`** (`dice-roller.tsx`): the roll panel. This covers the gold special-success
  faces, `calculateCharmCost` (the cost tally shown before rolling), the Will-Forging willpower
  total, the input clamps and the request `handleRollClick` sends.
- **`CraftingSession`** (`page.tsx`):
  - `handleRoll`: the charm scan, paying motes personal-first, the per-die history chains with
    their explosion passes and the reroll pass, scoring, the clamped target number, the
    exceptional test, and the experience and project updates.
  - The project list: `addProject`, `removeProject` and the major project slots.

Three helper modules support these:

- `Wrappers` holds the `Option` type.
- `JsStrings` models the JavaScript string built-ins the source relies on: `startsWith`,
  `endsWith`, `includes`, `split`, `trim`, `parseInt` and the first match of `/(\d+)unit/`.
- `Types` holds the character sheet, the experience triple and the eight project types. Each type
  carries its string name, so the source's prefix and substring tests are modelled on the real
  names.

Randomness is a parameter. `Math.random` becomes a finite sequence of die values (`Die`, 1 to 10)
read from the front. A roll that needs more values than the sequence holds ends as `Exhausted`. The
dice methods also return the values they did not use, so the lemmas can state which dice went where.

The source changes state through React's `setState`. So `handleRoll` is a method on an immutable
`AppState` value that returns the new state. The loops of the source are methods with loop
invariants, and each is proved equal to a specification function; the lemmas state what those
functions mean.

## Model

| member | source | states |
|---|---|---|
| JsStrings.LeadingDigits | src/components/dice-roller.tsx:198 | the longest run of digits at the front of a string: a prefix, all digits, followed by a non-digit or nothing |
| JsStrings.Split | src/components/dice-roller.tsx:194 | `split` on a one-character separator always yields at least one piece |
| JsStrings.SplitJoin | src/components/dice-roller.tsx:194 | joining the pieces of a split with the separator gives back the original string, so the split loses nothing |
| JsStrings.SplitPiecesLackSeparator | src/components/dice-roller.tsx:194 | no piece of a split contains the separator |
| JsStrings.SplitAtFirst | src/components/dice-roller.tsx:194 | a string with a first separator splits into the text before it, then the pieces of the rest |
| JsStrings.SplitWithoutSeparator | src/components/dice-roller.tsx:194 | a string without the separator is its own single piece |
| JsStrings.TrimUntouched | src/components/dice-roller.tsx:194 | `trim` leaves a string alone when it neither starts nor ends with white space |
| JsStrings.TrimSkipsLeadingBlank | src/components/dice-roller.tsx:194 | `trim` drops one leading white-space character |
| JsStrings.ParseInt | src/components/dice-roller.tsx:198 | `parseInt(s, 10)` is NaN (`None`) exactly when no digit follows the leading white space and optional sign |
| JsStrings.ParseSingleDigit | src/components/dice-roller.tsx:198 | a digit followed by a non-digit parses as that digit's value |
| JsStrings.FirstNumberBeforeIsLeftmostMatch | src/app/page.tsx:148-161 | `match(/(\d+)unit/)` finds nothing exactly when the pattern matches nowhere; otherwise its number is the digits of the leftmost match, whose digit run is maximal |
| JsStrings.FirstNumberAtStart | src/app/page.tsx:151-152 | a single digit followed at once by the unit is the first match, with that digit's value |
| Types.TierPrefixes | src/lib/crafting-calculator.ts:59-65 | the `startsWith` tests on a type name ("basic-", "major", "major-", "superior", "superior-", "legendary") hold exactly for the tier they name |
| Types.RepairSubstring | src/app/page.tsx:145 | `type.includes("repair")` holds exactly for the four repair types |
| Types.NamesDistinct | src/lib/crafting-calculator.ts:74-114 | different project types have different names, so the `switch` on the name is a case split on the type |
| Charms.DropWhitespace | src/lib/charms.ts:5 | the suffix after a leading run of white space, starting with a non-blank |
| Charms.DashWhitespace | src/lib/charms.ts:5 | `replace(/\s+/g, "-")` leaves no white space and never lengthens the string |
| Charms.KeepIdChars | src/lib/charms.ts:5 | `replace(/[^a-z0-9-]/g, "")` keeps only a-z, 0-9 and dashes, never lengthening |
| Charms.ToId | src/lib/charms.ts:4-5 | an id holds only a-z, 0-9 and dashes and is never longer than the name |
| Charms.ToIdIdempotent | src/lib/charms.ts:4-5 | applying `toId` to an id changes nothing |
| Charms.SimpleNameId | src/lib/charms.ts:4-5 | for a name of ASCII words separated by single spaces, `toId` lower-cases it and turns each space into a dash |
| Charms.CatalogIds | src/lib/charms.ts:17-160 | each of the fourteen catalog ids is exactly what `toId` makes of the name the catalog passes to it |
| Charms.CatalogEntries | src/lib/charms.ts:167-171 | the catalog, tiers included, has fourteen entries |
| Charms.FlattenedCatalog | src/lib/charms.ts:167-171 | walking the catalog charm by charm, each followed by its tiers, gives the fourteen entries in order: the three tiers right after Supreme Masterwork Focus |
| Charms.CatalogIdsDistinct | src/lib/charms.ts:17-171 | the fourteen ids are pairwise different, so an id names exactly one entry |
| Charms.SupremeMasterworkFocusTiers | src/lib/charms.ts:71-107 | Supreme Masterwork Focus has three tiers without tiers of their own; tier k (from 0) doubles 9 - k and needs Essence k + 1 |
| Charms.EssenceGroups | src/lib/charms.ts:17-171 | every charm of an Essence group has that minimum Essence, and the catalog is the three groups in order |
| Charms.ActiveOf | src/lib/dice-logic.ts:115-118 | the entries whose id is active: exactly those members, never more than the list |
| Charms.ActiveOfAppend | src/lib/dice-logic.ts:113-122 | filtering a concatenation filters each part |
| Charms.ActiveDetailsFilterFlattened | src/lib/dice-logic.ts:113-122 | the `flatMap` over charms and tiers is the walked catalog filtered by the active ids, order kept |
| Charms.ActiveDetailsMembers | src/app/page.tsx:126-137 | an entry is among the active details exactly when it is in the walked catalog and its id is active |
| CraftingCalculator.Max0 | src/lib/crafting-calculator.ts:122-124 | `Math.max(0, x)`: at least 0 and x, and one of them |
| CraftingCalculator.WxpForRating | src/lib/crafting-calculator.ts:90-91 | the wxp table: 2 * rating - 1 for ratings 2 to 5, 0 otherwise |
| CraftingCalculator.HitsAndMisses | src/lib/crafting-calculator.ts:104-109 | every bonus die is a hit or a miss, and all dice hit exactly when all show 7 or more |
| CraftingCalculator.TallyBonusRoll | src/lib/crafting-calculator.ts:104-109 | the `forEach` counts hits (7 or more) as gxp and misses as sxp, one point per die |
| CraftingCalculator.OutcomeOf | src/lib/crafting-calculator.ts:42-127 | success exactly when successes reach the target number; the text is failure exactly on failure; a failure pays nothing; all three payments are non-negative |
| CraftingCalculator.CalculateCraftingOutcome | src/lib/crafting-calculator.ts:42-127 | the statement-by-statement computation returns `OutcomeOf(input)` |
| CraftingCalculator.OutcomeKinds | src/lib/crafting-calculator.ts:54-71 | legendary and superior types show their own texts on success; exceptional and plain success texts appear only for basic and major types, by the flag |
| CraftingCalculator.Currencies | src/lib/crafting-calculator.ts:74-114 | basic types pay no gxp; only superior types and legendary projects pay wxp; major repairs, superior types and legendary repairs pay no sxp; legendary repairs pay nothing at all |
| CraftingCalculator.ExceptionalNeverPaysLess | src/lib/crafting-calculator.ts:74-87 | setting the exceptional flag never lowers any payment |
| CraftingCalculator.LegendaryProjectPays | src/lib/crafting-calculator.ts:99-110 | a successful legendary project pays 10 wxp once an objective is met, and its sxp plus gxp is the number of bonus dice |
| CraftingCalculator.SuperiorProjectPays | src/lib/crafting-calculator.ts:88-95 | a successful superior project pays the rating's wxp once an objective is met, and gxp of twice the rating per interval remaining, clamped at zero |
| CraftingCalculator.TablePays | src/lib/crafting-calculator.ts:74-98 | on success, each currency clamped at zero: basic project (3 if exceptional, else 2) sxp per objective; basic repair 1 sxp per objective; major project 1 sxp and (3 or 2) gxp per objective; major repair 1 gxp per objective; superior repair rating - 1 wxp and nothing else |
| DiceLogic.DoubleThreshold | src/lib/dice-logic.ts:19-31 | the lowest double-success face lies between 7 and 10 |
| DiceLogic.ExplodingFaces | src/lib/dice-logic.ts:11-17 | only 7 to 10 can ever explode |
| DiceLogic.ShouldDieExplode | src/lib/dice-logic.ts:11-17 | a die explodes exactly when its face is among the exploding faces of the active charms |
| DiceLogic.CalculateSuccesses | src/lib/dice-logic.ts:19-31 | 2 at or above the double threshold, 1 from 7, otherwise 0 |
| DiceLogic.ExplodingDieCountsDouble | src/lib/dice-logic.ts:11-31 | every exploding die counts two successes |
| DiceLogic.SuccessesMonotone | src/lib/dice-logic.ts:19-31 | a higher face never counts fewer successes, and each die counts 0 to 2 |
| DiceLogic.Explosions | src/lib/dice-logic.ts:89-94 | a wave never has more explosions than dice |
| DiceLogic.WaveChainShape | src/lib/dice-logic.ts:70-109 | the waves of a finished loop are a well-formed history (each wave has as many dice as the previous one exploded, the last has no explosion), read from the front of the source |
| DiceLogic.WaveChainOfHistory | src/lib/dice-logic.ts:70-109 | conversely, a well-formed history followed by any dice is what the loop reads from them |
| DiceLogic.RerolledKeepsSuccesses | src/lib/dice-logic.ts:63 | the reroll keeps each success in place and replaces each failure by the next die, in order; it runs out exactly when fewer dice remain than there are failures |
| DiceLogic.RerollWithExplosionNeverEnds | src/lib/dice-logic.ts:72-109 | after a reroll the loop recounts the rerolled wave every round, so a wave with an exploding die exhausts every finite source |
| DiceLogic.RerollWithoutExplosionEnds | src/lib/dice-logic.ts:72-109 | after a reroll without an exploding die the loop runs one round and discards as many dice as the pool |
| DiceLogic.Names | src/lib/dice-logic.ts:136 | one name per active charm |
| DiceLogic.RollDice | src/lib/dice-logic.ts:73 | `Array.from({length: n}, rollDie)` takes the first max(n, 0) dice, failing exactly when the source holds fewer |
| DiceLogic.ScoreWave | src/lib/dice-logic.ts:89-94 | the `for` over a wave returns its successes and its explosions |
| DiceLogic.SumAutomaticSuccesses | src/lib/dice-logic.ts:124-126 | the `forEach` sums `value || 0` of the add-successes effects |
| DiceLogic.WaveLoop | src/lib/dice-logic.ts:70-109 | the `while` loop without the reroll returns the wave chain and the successes it counted |
| DiceLogic.RerollLoop | src/lib/dice-logic.ts:53-109 | the reroll branch followed by the `while` loop returns the waves of the roll and the successes |
| DiceLogic.MainLoopAfterReroll | src/lib/dice-logic.ts:70-109 | after a reroll the `while` loop only discards dice and adds the rerolled wave's successes once |
| DiceLogic.PerformDiceRoll | src/lib/dice-logic.ts:43-146 | `performDiceRoll` returns the roll of the specification, on any source |
| DiceLogic.RollHistory | src/lib/dice-logic.ts:43-146 | without the reroll, a finished roll is a well-formed wave history read from the front of the source, and its total is the dice successes plus the automatic ones |
| DiceLogic.RerollWithExplosionIsExhausted | src/lib/dice-logic.ts:53-109 | with the reroll, a rerolled first wave holding an exploding die makes every roll run out of dice |
| DiceLogic.AddedSuccessesAppend | src/lib/dice-logic.ts:124-126 | the automatic successes of two lists add up |
| DiceLogic.CatalogAutomaticSuccesses | src/lib/dice-logic.ts:112-128 | with the catalog, only Will-Forging Discipline adds automatic successes, and it adds two |
| CharmSelection.Without | src/components/charm-selection.tsx:81 | the filter keeps exactly the ids outside the dropped set, never lengthening the list |
| CharmSelection.WithoutWithout | src/components/charm-selection.tsx:85-87 | two filters in a row drop the union of what each drops |
| CharmSelection.AddMissing | src/components/charm-selection.tsx:107-115 | the `includes`-guarded pushes keep the list as a prefix and add exactly the missing ids |
| CharmSelection.FindFamily | src/components/charm-selection.tsx:76 | `find` returns a catalog charm that is the id or has a tier with it, and finds nothing exactly when no charm or tier has the id |
| CharmSelection.TierIndex | src/components/charm-selection.tsx:92 | `findIndex` returns the first tier with the id, or -1 exactly when none has it |
| CharmSelection.TierIds | src/components/charm-selection.tsx:94-97 | the ids of the tiers in an index range |
| CharmSelection.DropTiers | src/components/charm-selection.tsx:94-97 | the `for` loop of filters removes the ids of every tier from an index on |
| CharmSelection.Deselect | src/components/charm-selection.tsx:79-99 | the deselecting branch removes the id and what the tier rules drop along with it |
| CharmSelection.Select | src/components/charm-selection.tsx:101-117 | the selecting branch appends the id, then any missing base and lower tiers |
| CharmSelection.HandleCharmToggle | src/components/charm-selection.tsx:74-120 | a present id is deselected and an absent one selected, as the two branches do |
| CharmSelection.SelectPullsInFamily | src/components/charm-selection.tsx:101-117 | selecting keeps every active id, adds the id, and for a tier also its base and every lower tier; nothing else is added |
| CharmSelection.SelectKeepsNoDuplicates | src/components/charm-selection.tsx:101-117 | selecting never introduces a duplicate id |
| CharmSelection.DeselectDropsFamily | src/components/charm-selection.tsx:79-99 | deselecting removes the id; for a base every tier, for a tier every higher tier; an id survives exactly when it is none of these |
| CharmSelection.DeselectKeepsLowerTiers | src/components/charm-selection.tsx:90-98 | deselecting a tier keeps its base and every active lower tier |
| CharmSelection.CatalogFamiliesDistinct | src/lib/charms.ts:17-171 | every charm of the catalog, with its tiers, has pairwise distinct ids, so the lower-tier property holds for the real catalog |
| CharmSelection.ToggleLeavesOthers | src/components/charm-selection.tsx:74-120 | ids outside the toggled charm's family keep their presence either way |
| CharmSelection.DisabledExactly | src/components/charm-selection.tsx:123-147 | an active charm is never disabled; an inactive one is disabled exactly when, for sxp, gxp or wxp, the leftmost `/(\d+)unit/` match in its cost (a position and digit run, no match to its left) captures more than the character has, or the Ever-Ready Innovation Discipline rule applies, or Craft or Essence is too low |
| CharmSelection.CostExceedsMeansMatch | src/components/charm-selection.tsx:130-135 | a cost without a match never disables; the cost test holds exactly when the leftmost match captures a number above what is available, in both directions |
| CharmSelection.LaterMatchIgnored | src/components/charm-selection.tsx:130-135 | only the first match is read: "1sxp 20sxp" with 5 sxp passes, although its match 20 exceeds 5 |
| DiceRoller.SpecialSuccessIsDouble | src/components/dice-roller.tsx:79-84 | a die is painted gold exactly when the roll logic counts it double |
| DiceRoller.BucketOf | src/components/dice-roller.tsx:196-207 | Will-Forging Discipline's parts never go to willpower |
| DiceRoller.PartValue | src/components/dice-roller.tsx:198 | `parseInt(part, 10) \|\| 0` is 0 when the part starts with no number |
| DiceRoller.FindTier | src/components/dice-roller.tsx:176 | a found tier has the id |
| DiceRoller.FindTierFinds | src/components/dice-roller.tsx:176 | `find` returns a tier of the list, and finds none exactly when no tier has the id |
| DiceRoller.CharmToCost | src/components/dice-roller.tsx:170-182 | a found charm or tier has the id |
| DiceRoller.CharmToCostFinds | src/components/dice-roller.tsx:170-182 | the lookup finds nothing exactly when no charm and no tier of the catalog has the id |
| DiceRoller.ExcellencyMotes | src/components/dice-roller.tsx:163-165 | the Excellency costs motes exactly when dice are added and Triumph-Forging Eye is off |
| DiceRoller.FindCharmToCost | src/components/dice-roller.tsx:170-182 | the inner `for` with its `break`s finds what the lookup finds |
| DiceRoller.TallyCostParts | src/components/dice-roller.tsx:196-208 | the loop over the trimmed parts adds each part's number to its counter |
| DiceRoller.ChargeVoid | src/components/dice-roller.tsx:188-192 | the Experiential Conjuring of True Void surcharge is added for that id only |
| DiceRoller.ChargeCostedCharm | src/components/dice-roller.tsx:188-208 | a charm with a cost adds its surcharge, then its parts |
| DiceRoller.ChargeCharm | src/components/dice-roller.tsx:168-208 | one iteration of the outer loop adds what the looked-up charm costs, nothing for a missing, empty or dash cost |
| DiceRoller.CalculateCharmCost | src/components/dice-roller.tsx:155-212 | `calculateCharmCost` returns the Excellency motes plus the cost of every active id, in order |
| DiceRoller.PartSuffixOrder | src/components/dice-roller.tsx:196-207 | the suffix tests in their order: `m` first, `wp` unless Will-Forging, then `gxp`, `wxp`, `sxp`; a part adds its number to exactly one counter or nothing |
| DiceRoller.WillForgingChargesNoWillpower | src/components/dice-roller.tsx:199 | no cost string charges Will-Forging Discipline willpower |
| DiceRoller.UncostedIdsAddNothing | src/components/dice-roller.tsx:184-186 | an unknown id, or a charm without a cost, adds nothing |
| DiceRoller.WillForgingAddsNoWillpower | src/components/dice-roller.tsx:199 | Will-Forging Discipline adds no willpower to the tally, whatever cost the catalog gives it |
| DiceRoller.VoidSurchargeByTier | src/components/dice-roller.tsx:188-192 | the surcharge is 4 gxp on major types, 4 wxp on superior and legendary types, nothing on basic types |
| DiceRoller.ExcellencyOnlyAddsMotes | src/components/dice-roller.tsx:162-165 | the Excellency changes only the motes of the tally |
| DiceRoller.FiveMotesCost | src/lib/charms.ts:91 | the cost "5m, 1wp, 1gxp" tallies 5 motes, 1 willpower and 1 gxp |
| DiceRoller.WillForgingCostIsUncounted | src/lib/charms.ts:154 | Will-Forging's cost "1wp per 2 succ." is its only part and ends in no counted suffix, so the tally adds nothing for it |
| DiceRoller.TotalWillpowerCost | src/components/dice-roller.tsx:259-260 | the willpower total adds the points spent exactly when Will-Forging Discipline is active |
| DiceRoller.ClampedInput | src/components/dice-roller.tsx:338 | `Math.max(0, parseInt(v, 10) \|\| 0)` is the parsed number when positive, else 0 |
| DiceRoller.RollRequestOf | src/components/dice-roller.tsx:244-255 | the artifact rating is sent only for superior types; the pool is attribute plus Craft plus the Excellency dice |
| DiceRoller.TriumphDoublesPool | src/components/dice-roller.tsx:238-242 | with Triumph-Forging Eye the Excellency fills to the base pool, so twice the base pool is rolled |
| CraftingSession.MatchCosts | src/app/page.tsx:147-162 | the five matches on one cost string add, per currency, the leftmost match's number or nothing |
| CraftingSession.ApplyEffect | src/app/page.tsx:143-145 | the `else if` chain: add-successes adds its value, reroll-failures sets the flag, repair-difficulty lowers the modifier on repair types only |
| CraftingSession.ScanCharms | src/app/page.tsx:142-163 | the `forEach` over the active details arrives at the scan of the specification |
| CraftingSession.RegexCostIsLeftmostMatch | src/app/page.tsx:147-162 | a charm is charged nothing in a currency the pattern does not match, otherwise the leftmost match's number |
| CraftingSession.TnShiftOnlyLowersRepairs | src/app/page.tsx:145 | the target-number modifier is 0 off repair types and never positive for non-negative values |
| CraftingSession.WillForgingChargedOnRoll | src/app/page.tsx:151-152 | the roll charges Will-Forging Discipline 1 willpower from its cost string, while the panel's tally charges it none |
| CraftingSession.PayMotes | src/app/page.tsx:166-176 | personal motes pay first, the peripheral pool the rest; the pools stay within bounds, pay min(cost, both pools) and peripheral motes go only once the personal pool is empty |
| CraftingSession.Paid | src/app/page.tsx:166-183 | willpower and each experience pool drop by their summed cost with no floor; only the motes and willpower of the character change |
| CraftingSession.FinalTargetNumber | src/app/page.tsx:325 | the target number after the modifier is at least 1, and is either 1 or the shifted number |
| CraftingSession.ExceptionalOnlyForBasicAndMajor | src/app/page.tsx:335 | a roll is exceptional exactly for basic and major types reaching the target number plus three |
| CraftingSession.Appended | src/app/page.tsx:276-280 | a pass keeps the number of chains |
| CraftingSession.AppendedShape | src/app/page.tsx:268-280 | a pass pushes onto each selected chain exactly the next unused die, in chain order, and leaves every other chain unchanged |
| CraftingSession.SelectedZero | src/app/page.tsx:276-286 | a pass selects nothing exactly when no chain's last value qualifies |
| CraftingSession.CountSelected | src/app/page.tsx:268-274 | the loop collecting the exploding chains counts the selected chains |
| CraftingSession.PushToSelected | src/app/page.tsx:276-280 | `history.push(rollDie())` on each selected chain, in order, succeeding exactly when the source holds enough dice |
| CraftingSession.ExplodeAll | src/app/page.tsx:221-287 | the `while (true)` loop returns the explosion result of the specification |
| CraftingSession.ExplodedStopsWhenSettled | src/app/page.tsx:283-286 | the loop stops at once when no last value explodes |
| CraftingSession.ExplodedSettles | src/app/page.tsx:221-287 | when the loop finishes, no chain ends on an exploding value |
| CraftingSession.ExplodedExtends | src/app/page.tsx:221-287 | the loop keeps the number of chains and only lengthens them |
| CraftingSession.ExplodedDrawsFromFront | src/app/page.tsx:221-287 | the loop draws its dice from the front of the source |
| CraftingSession.OnlyLastValuesCount | src/app/page.tsx:319-322 | only the last value of each chain counts, and each chain counts 0 to 2 |
| CraftingSession.PushActiveTiers | src/app/page.tsx:130-136 | the inner `forEach` appends the active tiers of one charm, in order |
| CraftingSession.CollectActiveDetails | src/app/page.tsx:124-137 | the `forEach` builds the active details: each active charm followed by its active tiers |
| CraftingSession.Singletons | src/app/page.tsx:190 | one chain per die, holding just that die |
| CraftingSession.HandleRoll | src/app/page.tsx:100-370 | `handleRoll` returns the roll of the specification, on any state and any source |
| CraftingSession.RollWithDetails | src/app/page.tsx:142-363 | the body of `handleRoll` after the details are collected |
| CraftingSession.RollChains | src/app/page.tsx:185-324 | a finished roll has one chain per die of the pool, each starting with its first die; without a reroll charm no chain ends on an exploding value; the total is the sum over the last values plus the automatic successes |
| CraftingSession.RollPays | src/app/page.tsx:165-183 | a finished roll has paid motes personal-first and each other cost with no floor; a success then adds the experience gained; the active charms are untouched |
| CraftingSession.RollOutcome | src/app/page.tsx:324-361 | the outcome is the calculator's on the total and the clamped target number; exceptional only for basic and major types three past the target; only a success with an assigned id advances that project |
| CraftingSession.ScoredPays | src/app/page.tsx:165-183 | for any total and target number, the scored roll has paid the scan's mote cost personal-first and its other costs with no floor, adds the experience gained only on success, and leaves the active charms alone |
| CraftingSession.ScoredOutcome | src/app/page.tsx:328-337 | for any total and target number, the roll shown keeps them, and its outcome is the calculator's on them with the exceptional test true exactly for basic and major types three successes past the target |
| CraftingSession.ScoredProjects | src/app/page.tsx:339-360 | for any total and target number, the assigned project is advanced by the total on success only, and the list is otherwise unchanged |
| CraftingSession.AdvanceProjects | src/app/page.tsx:346-359 | the assigned project gains the total and is complete exactly when its progress reaches its goal; every other project and field is unchanged |
| CraftingSession.AddProject | src/app/page.tsx:392-394 | the new project goes to the end with the given id, not complete, and the list before it is kept |
| CraftingSession.RemoveProject | src/app/page.tsx:396-398 | exactly the projects with another id remain |
| CraftingSession.RemoveAbsent | src/app/page.tsx:396-398 | removing an absent id leaves the list unchanged, order included |
| CraftingSession.RemoveUndoesAdd | src/app/page.tsx:392-398 | removing a project just added under a fresh id restores the list |
| CraftingSession.MajorSlots | src/app/page.tsx:388-390 | without Tireless Workhorse Method no project can be added; each added major project takes one slot, other types none |

## Left out

- Timing and rendering: `setTimeout`, the animation steps, the interim `onProgress` and `updateDiceRoll` displays, toasts, `getDieStyle`, the outcome descriptions (only the titles are kept) and all JSX.
- `localStorage` loading and saving, and `resetState`: persistence does not affect the rules modelled here.
- `crypto.randomUUID()`: the new project's id is a parameter of `AddProject`.
- `Math.random`: replaced by a finite sequence of die values. Running out of values is the `Exhausted` result, which the source cannot reach.
- The empty loops at page.tsx:221-265 compute nothing, so the explosion loop is modelled from page.tsx:268 on. The model counts the exploding chains first and then pushes while walking the chains. This uses the same order and the same targets as pushing onto the collected list.
- The charm search and sort of charm-selection.tsx:149-170 (the `localeCompare` order) and the functional/narrative split are display only.
- The AI flow (`evaluate-crafting-outcome.ts`) and `create_backup.js` are not part of this model.
- `toLowerCase` is modelled on ASCII letters only, which covers every catalog name.
- Three ids the code tests are not in the catalog: `ever-ready-innovation-discipline`, `experiential-conjuring-of-true-void` and `triumph-forging-eye`. The model keeps the tests on them as written.
- The props page.tsx passes to `DiceRoller` do not match the props the component declares. Its `onRoll` sends arguments that `handleRoll` does not take. Each side is modelled on its own: `DiceRoller.RollRequestOf` models what the panel sends, and `CraftingSession.HandleRoll` models what the page computes. `HandleRoll` uses the page's target number.
- `CraftingSession.ScanOf`: an add-successes or repair-difficulty effect without a value counts as 0. In JavaScript it would make the sum NaN. No catalog effect of either kind lacks a value.
- JavaScript `number`s are modelled as unbounded integers throughout. No floating-point precision limits are modelled; every value involved is a small whole number.
- `DiceRoller.CalculateCharmCost`: the source's outer loop is split into the methods `ChargeCharm`, `ChargeCostedCharm` and `ChargeVoid`. The loop over one cost's parts is `TallyCostParts`. Each is proved against its specification function.
- `CraftingSession.HandleRoll`: the React updates are modelled as one new `AppState`. The dice pool comes from the character read before the debit, as in the source. The try/catch has nothing to catch in the model.
- `DiceLogic.RerollWithExplosionNeverEnds` models dice-logic.ts as written. After a First Movement reroll, the loop never adds a wave, so a rerolled wave with an exploding die never ends. The model states this as the roll running out of any finite source. page.tsx has no such loop.
