/**
 * The charm catalog: the `toId` normaliser that derives a charm's id from a name, the static
 * table of charms (grouped by minimum Essence, Supreme Masterwork Focus with three tiers), and the
 * list of catalog entries whose ids are active, which the roll code walks to price and apply charms.
 */
module Charms {
  import opened Wrappers
  import opened JsStrings

  datatype EffectType =
    | Custom | LowerRepairDifficulty | AddSuccessesPerEssence | DoubleSuccess | RerollFailures | AddSuccesses

  datatype Effect = Effect(kind: EffectType, value: Option<int>)

  /** A catalog entry; the tiers of a multi-tier charm are entries without tiers of their own. */
  datatype Charm = Charm(
    id: string,
    name: string,
    cost: Option<string>,
    minCraft: int,
    minEssence: int,
    effect: Effect,
    subEffects: seq<Charm>)

  // ---------------------------------------------------------------------------------------------
  // toId: lower-case, each run of white space becomes one dash, then everything except a-z, 0-9
  // and the dash is dropped.
  // ---------------------------------------------------------------------------------------------

  function LowerAscii(c: char): char {
    if 'A' <= c <= 'Z' then (c as int + 32) as char else c
  }

  /** `toLowerCase` on the ASCII letters. */
  function Lowercased(s: string): (r: string)
    ensures |r| == |s|
  {
    seq(|s|, i requires 0 <= i < |s| => LowerAscii(s[i]))
  }

  /** The suffix of `s` after its leading run of white space. */
  function DropWhitespace(s: string): (r: string)
    ensures |r| <= |s| && r == s[|s| - |r|..]
    ensures r != [] ==> !IsWhitespace(r[0])
  {
    if s != [] && IsWhitespace(s[0]) then DropWhitespace(s[1..]) else s
  }

  /** `replace(/\s+/g, "-")`. */
  function DashWhitespace(s: string): (r: string)
    ensures |r| <= |s|
    ensures forall k :: 0 <= k < |r| ==> !IsWhitespace(r[k])
    decreases |s|
  {
    if s == [] then []
    else if IsWhitespace(s[0]) then "-" + DashWhitespace(DropWhitespace(s[1..]))
    else [s[0]] + DashWhitespace(s[1..])
  }

  predicate IsIdChar(c: char) {
    'a' <= c <= 'z' || '0' <= c <= '9' || c == '-'
  }

  /** `replace(/[^a-z0-9-]/g, "")`. */
  function KeepIdChars(s: string): (r: string)
    ensures |r| <= |s|
    ensures forall k :: 0 <= k < |r| ==> IsIdChar(r[k])
  {
    if s == [] then [] else (if IsIdChar(s[0]) then [s[0]] else []) + KeepIdChars(s[1..])
  }

  /** The id of a charm name: only a-z, 0-9 and dashes, and never longer than the name. */
  function ToId(name: string): (id: string)
    ensures forall k :: 0 <= k < |id| ==> IsIdChar(id[k])
    ensures |id| <= |name|
  {
    KeepIdChars(DashWhitespace(Lowercased(name)))
  }

  predicate IsId(s: string) {
    forall k :: 0 <= k < |s| ==> IsIdChar(s[k])
  }

  lemma {:induction false} KeepIdCharsOfId(s: string)
    requires IsId(s)
    ensures KeepIdChars(s) == s
  {
    if s != [] {
      KeepIdCharsOfId(s[1..]);
    }
  }

  lemma {:induction false} DashWhitespaceOfNoWhitespace(s: string)
    requires forall k :: 0 <= k < |s| ==> !IsWhitespace(s[k])
    ensures DashWhitespace(s) == s
  {
    if s != [] {
      DashWhitespaceOfNoWhitespace(s[1..]);
    }
  }

  /** An id is its own id: applying `toId` a second time changes nothing. */
  lemma ToIdIdempotent(name: string)
    ensures ToId(ToId(name)) == ToId(name)
  {
    var id := ToId(name);
    assert Lowercased(id) == id;
    DashWhitespaceOfNoWhitespace(id);
    KeepIdCharsOfId(id);
  }

  /** A name made of words of letters, digits and dashes, separated by single spaces. */
  predicate SimpleName(s: string) {
    && (forall k :: 0 <= k < |s| ==> s[k] == ' ' || IsIdChar(LowerAscii(s[k])))
    && (s != [] ==> s[0] != ' ' && s[|s| - 1] != ' ')
    && (forall k :: 0 <= k < |s| - 1 ==> s[k] != ' ' || s[k + 1] != ' ')
  }

  /** A simple name in lower case with each space turned into a dash. */
  function Dashed(s: string): string {
    seq(|s|, i requires 0 <= i < |s| => if s[i] == ' ' then '-' else LowerAscii(s[i]))
  }

  /** Each space of `t` turned into a dash. */
  function SpacesToDashes(t: string): (r: string)
    ensures |r| == |t|
    ensures forall k :: 0 <= k < |t| ==> r[k] == if t[k] == ' ' then '-' else t[k]
  {
    if t == [] then [] else [if t[0] == ' ' then '-' else t[0]] + SpacesToDashes(t[1..])
  }

  /** White space only as single spaces, none at the end. */
  predicate SingleSpaced(t: string) {
    && (forall k :: 0 <= k < |t| ==> t[k] == ' ' || !IsWhitespace(t[k]))
    && (t != [] ==> t[|t| - 1] != ' ')
    && (forall k :: 0 <= k < |t| - 1 ==> t[k] != ' ' || t[k + 1] != ' ')
  }

  lemma SingleSpacedTail(t: string)
    requires t != [] && SingleSpaced(t)
    ensures SingleSpaced(t[1..])
    ensures t[0] == ' ' ==> !IsWhitespace(t[1..][0])
  {
    var rest := t[1..];
    assert forall k :: 0 <= k < |rest| ==> rest[k] == t[k + 1];
  }

  lemma {:induction false} DashSingleSpaces(t: string)
    requires SingleSpaced(t)
    ensures DashWhitespace(t) == SpacesToDashes(t)
    decreases |t|
  {
    if t != [] {
      SingleSpacedTail(t);
      DashSingleSpaces(t[1..]);
    }
  }

  /** `toId` of a simple name is the name lower-cased with its spaces turned into dashes. */
  lemma SimpleNameId(s: string)
    requires SimpleName(s)
    ensures ToId(s) == Dashed(s)
  {
    var low := Lowercased(s);
    assert forall k :: 0 <= k < |low| ==> (low[k] == ' ' <==> s[k] == ' ');
    assert forall k :: 0 <= k < |low| && low[k] != ' ' ==> IsIdChar(low[k]);
    assert SingleSpaced(low);
    DashSingleSpaces(low);
    assert SpacesToDashes(low) == Dashed(s);
    KeepIdCharsOfId(Dashed(s));
  }

  // ---------------------------------------------------------------------------------------------
  // The catalog.
  // ---------------------------------------------------------------------------------------------

  const FlawlessHandiworkMethod := Charm("flawless-handiwork-method", "Flawless Handiwork Method",
    Some("3m"), 1, 1, Effect(Custom, None), [])
  const TirelessWorkhorseMethod := Charm("tireless-workhorse-method", "Tireless Workhorse Method",
    None, 2, 1, Effect(Custom, None), [])
  const CraftsmanNeedsNoTools := Charm("craftsman-needs-no-tools", "Craftsman Needs No Tools",
    Some("5m"), 3, 1, Effect(Custom, None), [])
  const DurabilityEnhancingTechnique := Charm("durability-enhancing-technique", "Durability-Enhancing Technique",
    Some("5m"), 3, 1, Effect(Custom, None), [])
  const CrackMendingTechnique := Charm("crack-mending-technique", "Crack-Mending Technique",
    Some("5m"), 3, 1, Effect(LowerRepairDifficulty, Some(1)), [])
  const UnsurpassedMasterpieceMethod := Charm("unsurpassed-masterpiece-method", "Unsurpassed Masterpiece Method",
    Some("5m"), 3, 1, Effect(AddSuccessesPerEssence, Some(1)), [])
  const SupremeMasterworkFocus1 := Charm("supreme-masterwork-focus-1", "Level 1: Double & Explode Nines",
    Some("5m, 1wp"), 3, 1, Effect(DoubleSuccess, Some(9)), [])
  const SupremeMasterworkFocus2 := Charm("supreme-masterwork-focus-2", "Level 2: Double & Explode Eights",
    Some("5m, 1wp, 1gxp"), 5, 2, Effect(DoubleSuccess, Some(8)), [])
  const SupremeMasterworkFocus3 := Charm("supreme-masterwork-focus-3", "Level 3: Double & Explode Sevens",
    Some("2m, 1wxp"), 5, 3, Effect(DoubleSuccess, Some(7)), [])
  const SupremeMasterworkFocus := Charm("supreme-masterwork-focus", "Supreme Masterwork Focus",
    None, 3, 1, Effect(Custom, None), [SupremeMasterworkFocus1, SupremeMasterworkFocus2, SupremeMasterworkFocus3])
  const FirstMovementOfTheDemiurge := Charm("first-movement-of-the-demiurge", "First Movement of the Demiurge",
    Some("5m"), 4, 2, Effect(RerollFailures, None), [])
  const HundredHandStyle := Charm("hundred-hand-style", "Hundred-Hand Style",
    Some("10m, 1wp"), 4, 2, Effect(Custom, None), [])
  const WordsAsWorkshopMethod := Charm("words-as-workshop-method", "Words-as-Workshop Method",
    Some("10m"), 4, 2, Effect(Custom, None), [])
  const WillForgingDiscipline := Charm("will-forging-discipline", "Will-Forging Discipline",
    Some("1wp per 2 succ."), 5, 3, Effect(AddSuccesses, Some(2)), [])

  const Essence1Charms: seq<Charm> := [
    FlawlessHandiworkMethod, TirelessWorkhorseMethod, CraftsmanNeedsNoTools, DurabilityEnhancingTechnique,
    CrackMendingTechnique, UnsurpassedMasterpieceMethod, SupremeMasterworkFocus]
  const Essence2Charms: seq<Charm> := [FirstMovementOfTheDemiurge, HundredHandStyle, WordsAsWorkshopMethod]
  const Essence3Charms: seq<Charm> := [WillForgingDiscipline]

  const AllCharms: seq<Charm> := Essence1Charms + Essence2Charms + Essence3Charms

  /** Every entry of the catalog in the order the source walks it: each charm, then its tiers. */
  function Flattened(catalog: seq<Charm>): seq<Charm> {
    if catalog == [] then [] else [catalog[0]] + catalog[0].subEffects + Flattened(catalog[1..])
  }

  /** The fourteen catalog entries, tiers included, in walking order. */
  function CatalogEntries(): (entries: seq<Charm>)
    ensures |entries| == 14
  {
    [FlawlessHandiworkMethod, TirelessWorkhorseMethod, CraftsmanNeedsNoTools, DurabilityEnhancingTechnique,
     CrackMendingTechnique, UnsurpassedMasterpieceMethod, SupremeMasterworkFocus,
     SupremeMasterworkFocus1, SupremeMasterworkFocus2, SupremeMasterworkFocus3,
     FirstMovementOfTheDemiurge, HundredHandStyle, WordsAsWorkshopMethod, WillForgingDiscipline]
  }

  function Ids(charms: seq<Charm>): (ids: seq<string>)
    ensures |ids| == |charms|
  {
    seq(|charms|, i requires 0 <= i < |charms| => charms[i].id)
  }

  lemma SimpleNameOfFlawlessHandiworkMethod(name: string)
    requires name == "Flawless Handiwork Method"
    ensures SimpleName(name)
  {
  }

  lemma DashedNameOfFlawlessHandiworkMethod(name: string)
    requires name == "Flawless Handiwork Method"
    ensures Dashed(name) == "flawless-handiwork-method"
  {
  }

  lemma SimpleNameOfTirelessWorkhorseMethod(name: string)
    requires name == "Tireless Workhorse Method"
    ensures SimpleName(name)
  {
  }

  lemma DashedNameOfTirelessWorkhorseMethod(name: string)
    requires name == "Tireless Workhorse Method"
    ensures Dashed(name) == "tireless-workhorse-method"
  {
  }

  lemma SimpleNameOfCraftsmanNeedsNoTools(name: string)
    requires name == "Craftsman Needs No Tools"
    ensures SimpleName(name)
  {
  }

  lemma DashedNameOfCraftsmanNeedsNoTools(name: string)
    requires name == "Craftsman Needs No Tools"
    ensures Dashed(name) == "craftsman-needs-no-tools"
  {
  }

  lemma SimpleNameOfDurabilityEnhancingTechnique(name: string)
    requires name == "Durability-Enhancing Technique"
    ensures SimpleName(name)
  {
  }

  lemma DashedNameOfDurabilityEnhancingTechnique(name: string)
    requires name == "Durability-Enhancing Technique"
    ensures Dashed(name) == "durability-enhancing-technique"
  {
  }

  lemma SimpleNameOfCrackMendingTechnique(name: string)
    requires name == "Crack-Mending Technique"
    ensures SimpleName(name)
  {
  }

  lemma DashedNameOfCrackMendingTechnique(name: string)
    requires name == "Crack-Mending Technique"
    ensures Dashed(name) == "crack-mending-technique"
  {
  }

  lemma SimpleNameOfUnsurpassedMasterpieceMethod(name: string)
    requires name == "Unsurpassed Masterpiece Method"
    ensures SimpleName(name)
  {
  }

  lemma DashedNameOfUnsurpassedMasterpieceMethod(name: string)
    requires name == "Unsurpassed Masterpiece Method"
    ensures Dashed(name) == "unsurpassed-masterpiece-method"
  {
  }

  lemma SimpleNameOfSupremeMasterworkFocus(name: string)
    requires name == "Supreme Masterwork Focus"
    ensures SimpleName(name)
  {
  }

  lemma DashedNameOfSupremeMasterworkFocus(name: string)
    requires name == "Supreme Masterwork Focus"
    ensures Dashed(name) == "supreme-masterwork-focus"
  {
  }

  lemma SimpleNameOfSupremeMasterworkFocus1(name: string)
    requires name == "Supreme Masterwork Focus-1"
    ensures SimpleName(name)
  {
  }

  lemma DashedNameOfSupremeMasterworkFocus1(name: string)
    requires name == "Supreme Masterwork Focus-1"
    ensures Dashed(name) == "supreme-masterwork-focus-1"
  {
  }

  lemma SimpleNameOfSupremeMasterworkFocus2(name: string)
    requires name == "Supreme Masterwork Focus-2"
    ensures SimpleName(name)
  {
  }

  lemma DashedNameOfSupremeMasterworkFocus2(name: string)
    requires name == "Supreme Masterwork Focus-2"
    ensures Dashed(name) == "supreme-masterwork-focus-2"
  {
  }

  lemma SimpleNameOfSupremeMasterworkFocus3(name: string)
    requires name == "Supreme Masterwork Focus-3"
    ensures SimpleName(name)
  {
  }

  lemma DashedNameOfSupremeMasterworkFocus3(name: string)
    requires name == "Supreme Masterwork Focus-3"
    ensures Dashed(name) == "supreme-masterwork-focus-3"
  {
  }

  lemma SimpleNameOfFirstMovementOfTheDemiurge(name: string)
    requires name == "First Movement of the Demiurge"
    ensures SimpleName(name)
  {
  }

  lemma DashedNameOfFirstMovementOfTheDemiurge(name: string)
    requires name == "First Movement of the Demiurge"
    ensures Dashed(name) == "first-movement-of-the-demiurge"
  {
  }

  lemma SimpleNameOfHundredHandStyle(name: string)
    requires name == "Hundred-Hand Style"
    ensures SimpleName(name)
  {
  }

  lemma DashedNameOfHundredHandStyle(name: string)
    requires name == "Hundred-Hand Style"
    ensures Dashed(name) == "hundred-hand-style"
  {
  }

  lemma SimpleNameOfWordsAsWorkshopMethod(name: string)
    requires name == "Words-as-Workshop Method"
    ensures SimpleName(name)
  {
  }

  lemma DashedNameOfWordsAsWorkshopMethod(name: string)
    requires name == "Words-as-Workshop Method"
    ensures Dashed(name) == "words-as-workshop-method"
  {
  }

  lemma SimpleNameOfWillForgingDiscipline(name: string)
    requires name == "Will-Forging Discipline"
    ensures SimpleName(name)
  {
  }

  lemma DashedNameOfWillForgingDiscipline(name: string)
    requires name == "Will-Forging Discipline"
    ensures Dashed(name) == "will-forging-discipline"
  {
  }

  /** The ids of the first seven catalog entries, in walking order, are what `toId` makes of their names. */
  lemma CatalogIdsFirstHalf()
    ensures ToId("Flawless Handiwork Method") == FlawlessHandiworkMethod.id
    ensures ToId("Tireless Workhorse Method") == TirelessWorkhorseMethod.id
    ensures ToId("Craftsman Needs No Tools") == CraftsmanNeedsNoTools.id
    ensures ToId("Durability-Enhancing Technique") == DurabilityEnhancingTechnique.id
    ensures ToId("Crack-Mending Technique") == CrackMendingTechnique.id
    ensures ToId("Unsurpassed Masterpiece Method") == UnsurpassedMasterpieceMethod.id
    ensures ToId("Supreme Masterwork Focus") == SupremeMasterworkFocus.id
  {
    SimpleNameOfFlawlessHandiworkMethod("Flawless Handiwork Method");
    DashedNameOfFlawlessHandiworkMethod("Flawless Handiwork Method");
    SimpleNameId("Flawless Handiwork Method");
    SimpleNameOfTirelessWorkhorseMethod("Tireless Workhorse Method");
    DashedNameOfTirelessWorkhorseMethod("Tireless Workhorse Method");
    SimpleNameId("Tireless Workhorse Method");
    SimpleNameOfCraftsmanNeedsNoTools("Craftsman Needs No Tools");
    DashedNameOfCraftsmanNeedsNoTools("Craftsman Needs No Tools");
    SimpleNameId("Craftsman Needs No Tools");
    SimpleNameOfDurabilityEnhancingTechnique("Durability-Enhancing Technique");
    DashedNameOfDurabilityEnhancingTechnique("Durability-Enhancing Technique");
    SimpleNameId("Durability-Enhancing Technique");
    SimpleNameOfCrackMendingTechnique("Crack-Mending Technique");
    DashedNameOfCrackMendingTechnique("Crack-Mending Technique");
    SimpleNameId("Crack-Mending Technique");
    SimpleNameOfUnsurpassedMasterpieceMethod("Unsurpassed Masterpiece Method");
    DashedNameOfUnsurpassedMasterpieceMethod("Unsurpassed Masterpiece Method");
    SimpleNameId("Unsurpassed Masterpiece Method");
    SimpleNameOfSupremeMasterworkFocus("Supreme Masterwork Focus");
    DashedNameOfSupremeMasterworkFocus("Supreme Masterwork Focus");
    SimpleNameId("Supreme Masterwork Focus");
  }

  /** The ids of the last seven catalog entries, in walking order, are what `toId` makes of their names. */
  lemma CatalogIdsSecondHalf()
    ensures ToId("Supreme Masterwork Focus-1") == SupremeMasterworkFocus1.id
    ensures ToId("Supreme Masterwork Focus-2") == SupremeMasterworkFocus2.id
    ensures ToId("Supreme Masterwork Focus-3") == SupremeMasterworkFocus3.id
    ensures ToId("First Movement of the Demiurge") == FirstMovementOfTheDemiurge.id
    ensures ToId("Hundred-Hand Style") == HundredHandStyle.id
    ensures ToId("Words-as-Workshop Method") == WordsAsWorkshopMethod.id
    ensures ToId("Will-Forging Discipline") == WillForgingDiscipline.id
  {
    SimpleNameOfSupremeMasterworkFocus1("Supreme Masterwork Focus-1");
    DashedNameOfSupremeMasterworkFocus1("Supreme Masterwork Focus-1");
    SimpleNameId("Supreme Masterwork Focus-1");
    SimpleNameOfSupremeMasterworkFocus2("Supreme Masterwork Focus-2");
    DashedNameOfSupremeMasterworkFocus2("Supreme Masterwork Focus-2");
    SimpleNameId("Supreme Masterwork Focus-2");
    SimpleNameOfSupremeMasterworkFocus3("Supreme Masterwork Focus-3");
    DashedNameOfSupremeMasterworkFocus3("Supreme Masterwork Focus-3");
    SimpleNameId("Supreme Masterwork Focus-3");
    SimpleNameOfFirstMovementOfTheDemiurge("First Movement of the Demiurge");
    DashedNameOfFirstMovementOfTheDemiurge("First Movement of the Demiurge");
    SimpleNameId("First Movement of the Demiurge");
    SimpleNameOfHundredHandStyle("Hundred-Hand Style");
    DashedNameOfHundredHandStyle("Hundred-Hand Style");
    SimpleNameId("Hundred-Hand Style");
    SimpleNameOfWordsAsWorkshopMethod("Words-as-Workshop Method");
    DashedNameOfWordsAsWorkshopMethod("Words-as-Workshop Method");
    SimpleNameId("Words-as-Workshop Method");
    SimpleNameOfWillForgingDiscipline("Will-Forging Discipline");
    DashedNameOfWillForgingDiscipline("Will-Forging Discipline");
    SimpleNameId("Will-Forging Discipline");
  }

  /** Each catalog id is what `toId` makes of the charm's name as the catalog spells it. */
  lemma CatalogIds()
    ensures ToId("Flawless Handiwork Method") == FlawlessHandiworkMethod.id
    ensures ToId("Tireless Workhorse Method") == TirelessWorkhorseMethod.id
    ensures ToId("Craftsman Needs No Tools") == CraftsmanNeedsNoTools.id
    ensures ToId("Durability-Enhancing Technique") == DurabilityEnhancingTechnique.id
    ensures ToId("Crack-Mending Technique") == CrackMendingTechnique.id
    ensures ToId("Unsurpassed Masterpiece Method") == UnsurpassedMasterpieceMethod.id
    ensures ToId("Supreme Masterwork Focus") == SupremeMasterworkFocus.id
    ensures ToId("Supreme Masterwork Focus-1") == SupremeMasterworkFocus1.id
    ensures ToId("Supreme Masterwork Focus-2") == SupremeMasterworkFocus2.id
    ensures ToId("Supreme Masterwork Focus-3") == SupremeMasterworkFocus3.id
    ensures ToId("First Movement of the Demiurge") == FirstMovementOfTheDemiurge.id
    ensures ToId("Hundred-Hand Style") == HundredHandStyle.id
    ensures ToId("Words-as-Workshop Method") == WordsAsWorkshopMethod.id
    ensures ToId("Will-Forging Discipline") == WillForgingDiscipline.id
  {
    CatalogIdsFirstHalf();
    CatalogIdsSecondHalf();
  }

  lemma {:induction false} FlattenedAppend(a: seq<Charm>, b: seq<Charm>)
    ensures Flattened(a + b) == Flattened(a) + Flattened(b)
  {
    if a != [] {
      assert (a + b)[0] == a[0] && (a + b)[1..] == a[1..] + b;
      FlattenedAppend(a[1..], b);
    } else {
      assert a + b == b;
    }
  }

  lemma FlattenedOne(c: Charm)
    ensures Flattened([c]) == [c] + c.subEffects
  {
    assert [c][1..] == [];
  }

  lemma FlattenedEssence1()
    ensures Flattened(Essence1Charms) == Essence1Charms[..6] + [SupremeMasterworkFocus] + SupremeMasterworkFocus.subEffects
  {
    var e1 := Essence1Charms;
    var c1, c2, c3, c4, c5, c6, c7 := e1[0], e1[1], e1[2], e1[3], e1[4], e1[5], e1[6];
    assert e1 == [c1] + [c2] + [c3] + [c4] + [c5] + [c6] + [c7];
    FlattenedAppend([c1] + [c2] + [c3] + [c4] + [c5] + [c6], [c7]);
    FlattenedAppend([c1] + [c2] + [c3] + [c4] + [c5], [c6]);
    FlattenedAppend([c1] + [c2] + [c3] + [c4], [c5]);
    FlattenedAppend([c1] + [c2] + [c3], [c4]);
    FlattenedAppend([c1] + [c2], [c3]);
    FlattenedAppend([c1], [c2]);
    FlattenedOne(c1); FlattenedOne(c2); FlattenedOne(c3); FlattenedOne(c4);
    FlattenedOne(c5); FlattenedOne(c6); FlattenedOne(c7);
  }

  lemma FlattenedEssence2And3()
    ensures Flattened(Essence2Charms + Essence3Charms) == Essence2Charms + Essence3Charms
  {
    var e := Essence2Charms + Essence3Charms;
    var d1, d2, d3, d4 := e[0], e[1], e[2], e[3];
    assert e == [d1] + [d2] + [d3] + [d4];
    FlattenedAppend([d1] + [d2] + [d3], [d4]);
    FlattenedAppend([d1] + [d2], [d3]);
    FlattenedAppend([d1], [d2]);
    FlattenedOne(d1); FlattenedOne(d2); FlattenedOne(d3); FlattenedOne(d4);
  }

  /** The catalog in walking order, written out: the tiers come right after Supreme Masterwork Focus. */
  lemma FlattenedCatalog()
    ensures Flattened(AllCharms) == CatalogEntries()
  {
    var e1, e2, e3 := Essence1Charms, Essence2Charms, Essence3Charms;
    assert AllCharms == e1 + (e2 + e3);
    FlattenedAppend(e1, e2 + e3);
    FlattenedEssence1();
    FlattenedEssence2And3();
  }

  /** Two entry ids differ in their first letter, their length or their last letter. */
  predicate IdsDiffer(e: seq<Charm>, i: int, j: int)
    requires 0 <= i < |e| && 0 <= j < |e| && e[i].id != "" && e[j].id != ""
  {
    e[i].id[0] != e[j].id[0] || |e[i].id| != |e[j].id| || e[i].id[|e[i].id| - 1] != e[j].id[|e[j].id| - 1]
  }

  lemma EntryIdsDistinctFrom0To2(i: int, j: int)
    requires 0 <= i <= 2 && i < j < 14
    ensures CatalogEntries()[i].id != CatalogEntries()[j].id
  {
    var e := CatalogEntries();
    assert i in {0, 1, 2};
    assert j in {1, 2, 3, 4, 5, 6, 7, 8, 9, 10, 11, 12, 13};
    assert IdsDiffer(e, i, j);
  }

  lemma EntryIdsDistinctFrom3To6(i: int, j: int)
    requires 3 <= i <= 6 && i < j < 14
    ensures CatalogEntries()[i].id != CatalogEntries()[j].id
  {
    var e := CatalogEntries();
    assert i in {3, 4, 5, 6};
    assert j in {4, 5, 6, 7, 8, 9, 10, 11, 12, 13};
    assert IdsDiffer(e, i, j);
  }

  lemma EntryIdsDistinctFrom7(i: int, j: int)
    requires 7 <= i && i < j < 14
    ensures CatalogEntries()[i].id != CatalogEntries()[j].id
  {
    var e := CatalogEntries();
    assert i in {7, 8, 9, 10, 11, 12};
    assert j in {8, 9, 10, 11, 12, 13};
    assert IdsDiffer(e, i, j);
  }

  /** The catalog ids are pairwise different, so an id names exactly one entry. */
  lemma CatalogIdsDistinct()
    ensures forall i, j :: 0 <= i < j < |Flattened(AllCharms)| ==> Flattened(AllCharms)[i].id != Flattened(AllCharms)[j].id
  {
    FlattenedCatalog();
    var e := CatalogEntries();
    forall i, j | 0 <= i < j < |e|
      ensures e[i].id != e[j].id
    {
      if i <= 2 {
        EntryIdsDistinctFrom0To2(i, j);
      } else if i <= 6 {
        EntryIdsDistinctFrom3To6(i, j);
      } else {
        EntryIdsDistinctFrom7(i, j);
      }
    }
  }

  // ---------------------------------------------------------------------------------------------
  // Catalog entries whose ids are active, in walking order (the `flatMap` over the catalog).
  // ---------------------------------------------------------------------------------------------

  /** The entries of `charms` whose id is in `active`, in order. */
  function ActiveOf(charms: seq<Charm>, active: seq<string>): (r: seq<Charm>)
    ensures |r| <= |charms|
    ensures forall c :: c in r <==> c in charms && c.id in active
  {
    if charms == [] then []
    else (if charms[0].id in active then [charms[0]] else []) + ActiveOf(charms[1..], active)
  }

  /** For each catalog charm: the charm if it is active, then those of its tiers that are active. */
  function ActiveDetails(catalog: seq<Charm>, active: seq<string>): seq<Charm> {
    if catalog == [] then []
    else
      (if catalog[0].id in active then [catalog[0]] else [])
      + ActiveOf(catalog[0].subEffects, active)
      + ActiveDetails(catalog[1..], active)
  }

  lemma {:induction false} ActiveOfAppend(a: seq<Charm>, b: seq<Charm>, active: seq<string>)
    ensures ActiveOf(a + b, active) == ActiveOf(a, active) + ActiveOf(b, active)
  {
    if a != [] {
      assert (a + b)[0] == a[0] && (a + b)[1..] == a[1..] + b;
      ActiveOfAppend(a[1..], b, active);
    } else {
      assert a + b == b;
    }
  }

  /** The active details are the walked catalog filtered by the active ids, order kept. */
  lemma {:induction false} ActiveDetailsFilterFlattened(catalog: seq<Charm>, active: seq<string>)
    ensures ActiveDetails(catalog, active) == ActiveOf(Flattened(catalog), active)
  {
    if catalog != [] {
      var c := catalog[0];
      ActiveDetailsFilterFlattened(catalog[1..], active);
      ActiveOfAppend([c] + c.subEffects, Flattened(catalog[1..]), active);
      ActiveOfAppend([c], c.subEffects, active);
      assert [c][1..] == [];
    }
  }

  /** An entry is among the active details exactly when it is in the walked catalog and active. */
  lemma ActiveDetailsMembers(catalog: seq<Charm>, active: seq<string>, c: Charm)
    ensures c in ActiveDetails(catalog, active) <==> c in Flattened(catalog) && c.id in active
  {
    ActiveDetailsFilterFlattened(catalog, active);
  }

  /** The three tiers of Supreme Masterwork Focus double and explode 9, 8 and 7, at Essence 1, 2 and 3. */
  lemma SupremeMasterworkFocusTiers()
    ensures |SupremeMasterworkFocus.subEffects| == 3
    ensures forall k :: 0 <= k < 3 ==>
      && SupremeMasterworkFocus.subEffects[k].effect == Effect(DoubleSuccess, Some(9 - k))
      && SupremeMasterworkFocus.subEffects[k].minEssence == k + 1
      && SupremeMasterworkFocus.subEffects[k].subEffects == []
  {
  }

  /** Each Essence group holds only charms whose minimum Essence is that group's. */
  lemma EssenceGroups()
    ensures forall c :: c in Essence1Charms ==> c.minEssence == 1
    ensures forall c :: c in Essence2Charms ==> c.minEssence == 2
    ensures forall c :: c in Essence3Charms ==> c.minEssence == 3
    ensures AllCharms == Essence1Charms + Essence2Charms + Essence3Charms
  {
  }
}
