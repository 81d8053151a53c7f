/**
 * The craft roll of dice-logic.ts: a pool of (attribute + Craft) ten-sided dice rolled in waves,
 * where the dice that explode are rolled again as the next wave, with the charm-dependent rules for
 * double successes and explosions, the First Movement of the Demiurge reroll of failed dice, and
 * the automatic successes of active charms.
 *
 * The random number generator is an injected stream of die values read left to right; a roll that
 * needs more dice than the stream holds ends as `Exhausted`.
 */
module DiceLogic {
  import opened Wrappers
  import opened Types
  import opened Charms

  /** A face of a ten-sided die, as `Math.floor(Math.random() * 10) + 1` produces it. */
  type Die = d: int | 1 <= d <= 10 witness 1

  /** The lowest face that counts as a double success, given the active Supreme Masterwork Focus tiers. */
  function DoubleThreshold(active: seq<string>): (t: int)
    ensures 7 <= t <= 10
  {
    if "supreme-masterwork-focus-3" in active then 7
    else if "supreme-masterwork-focus-2" in active then 8
    else if "supreme-masterwork-focus-1" in active then 9
    else 10
  }

  /** The faces that explode: 10 with Flawless Handiwork Method, and 9, 8, 7 with the first, second, third tier. */
  function ExplodingFaces(active: seq<string>): (faces: set<int>)
    ensures faces <= {7, 8, 9, 10}
  {
    (if "flawless-handiwork-method" in active then {10} else {})
    + (if "supreme-masterwork-focus-1" in active then {9} else {})
    + (if "supreme-masterwork-focus-2" in active then {8} else {})
    + (if "supreme-masterwork-focus-3" in active then {7} else {})
  }

  /** `shouldDieExplode`. */
  function ShouldDieExplode(roll: int, active: seq<string>): (r: bool)
    ensures r <==> roll in ExplodingFaces(active)
  {
    if "flawless-handiwork-method" in active && roll == 10 then true
    else if "supreme-masterwork-focus-1" in active && roll == 9 then true
    else if "supreme-masterwork-focus-2" in active && roll == 8 then true
    else if "supreme-masterwork-focus-3" in active && roll == 7 then true
    else false
  }

  /** `calculateSuccesses`: 7 and up is a success, doubled from the threshold the active tiers set. */
  function CalculateSuccesses(roll: int, active: seq<string>): (r: int)
    ensures r == (if roll >= DoubleThreshold(active) then 2 else if roll >= 7 then 1 else 0)
  {
    var smf1 := "supreme-masterwork-focus-1" in active;
    var smf2 := "supreme-masterwork-focus-2" in active;
    var smf3 := "supreme-masterwork-focus-3" in active;
    if roll >= 10 then 2
    else if smf3 && roll >= 7 then 2
    else if smf2 && roll >= 8 then 2
    else if smf1 && roll >= 9 then 2
    else if roll >= 7 then 1
    else 0
  }

  /** Every die that explodes is also a double success. */
  lemma ExplodingDieCountsDouble(roll: int, active: seq<string>)
    requires ShouldDieExplode(roll, active)
    ensures CalculateSuccesses(roll, active) == 2
  {
  }

  /** A higher face never scores fewer successes. */
  lemma SuccessesMonotone(lo: int, hi: int, active: seq<string>)
    requires lo <= hi
    ensures 0 <= CalculateSuccesses(lo, active) <= CalculateSuccesses(hi, active) <= 2
  {
  }

  // ---------------------------------------------------------------------------------------------
  // Waves.
  // ---------------------------------------------------------------------------------------------

  /** Successes of a wave, summed die by die. */
  function WaveSuccesses(wave: seq<Die>, active: seq<string>): int {
    if wave == [] then 0
    else WaveSuccesses(wave[..|wave| - 1], active) + CalculateSuccesses(wave[|wave| - 1], active)
  }

  /** Exploding dice of a wave. */
  function Explosions(wave: seq<Die>, active: seq<string>): (n: nat)
    ensures n <= |wave|
  {
    if wave == [] then 0
    else Explosions(wave[..|wave| - 1], active) + (if ShouldDieExplode(wave[|wave| - 1], active) then 1 else 0)
  }

  /** Successes of all waves. */
  function TotalSuccesses(waves: seq<seq<Die>>, active: seq<string>): int {
    if waves == [] then 0
    else TotalSuccesses(waves[..|waves| - 1], active) + WaveSuccesses(waves[|waves| - 1], active)
  }

  /** All dice of the waves, in the order they were read. */
  function Concat(waves: seq<seq<Die>>): seq<Die> {
    if waves == [] then [] else waves[0] + Concat(waves[1..])
  }

  datatype Chain = Chain(waves: seq<seq<Die>>, rest: seq<Die>)

  /**
   * The waves a roll of `n` dice produces from `source`: `n` dice, then as many as exploded, until a
   * wave has no explosion; `None` when the source runs out first.
   */
  function WaveChain(n: int, active: seq<string>, source: seq<Die>): Option<Chain>
    decreases |source|
  {
    if n <= 0 then Some(Chain([], source))
    else if |source| < n then None
    else
      var wave := source[..n];
      match WaveChain(Explosions(wave, active), active, source[n..])
      case None => None
      case Some(c) => Some(Chain([wave] + c.waves, c.rest))
  }

  /**
   * The well-formed wave histories of a roll of `n` dice: none for no dice; otherwise a first wave
   * of `n` dice followed by the history of its explosions, so that the last wave has no explosion.
   */
  predicate IsWaveHistory(waves: seq<seq<Die>>, n: int, active: seq<string>) {
    if waves == [] then n <= 0
    else n > 0 && |waves[0]| == n && IsWaveHistory(waves[1..], Explosions(waves[0], active), active)
  }

  /** `Some(Chain(prefix ++ waves, rest))`, or `None`. */
  function Prefixed(prefix: seq<seq<Die>>, c: Option<Chain>): Option<Chain> {
    match c
    case None => None
    case Some(ch) => Some(Chain(prefix + ch.waves, ch.rest))
  }

  lemma PrefixedEmpty(c: Option<Chain>)
    ensures Prefixed([], c) == c
  {
    if c.Some? {
      assert [] + c.value.waves == c.value.waves;
    }
  }

  lemma PrefixedAppend(prefix: seq<seq<Die>>, wave: seq<Die>, c: Option<Chain>)
    ensures Prefixed(prefix, Prefixed([wave], c)) == Prefixed(prefix + [wave], c)
  {
    if c.Some? {
      assert prefix + ([wave] + c.value.waves) == prefix + [wave] + c.value.waves;
    }
  }

  /** A chain of `n > 0` dice is the first `n` dice of the source, then the chain of its explosions. */
  lemma WaveChainStep(n: int, active: seq<string>, source: seq<Die>)
    requires 0 < n <= |source|
    ensures WaveChain(n, active, source) ==
      Prefixed([source[..n]], WaveChain(Explosions(source[..n], active), active, source[n..]))
  {
  }

  lemma ConcatCons(wave: seq<Die>, waves: seq<seq<Die>>)
    ensures Concat([wave] + waves) == wave + Concat(waves)
  {
    assert ([wave] + waves)[1..] == waves;
  }

  /**
   * What a completed chain is: the first wave has `n` dice, each later wave as many as the one before
   * exploded, the last has no explosion, and the dice are the next ones of the source, in order.
   */
  lemma {:induction false} WaveChainShape(n: int, active: seq<string>, source: seq<Die>)
    requires WaveChain(n, active, source).Some?
    ensures IsWaveHistory(WaveChain(n, active, source).value.waves, n, active)
    ensures Concat(WaveChain(n, active, source).value.waves) + WaveChain(n, active, source).value.rest == source
    decreases |source|
  {
    if n > 0 {
      var wave := source[..n];
      var e := Explosions(wave, active);
      WaveChainStep(n, active, source);
      WaveChainShape(e, active, source[n..]);
      var c := WaveChain(e, active, source[n..]).value;
      assert ([wave] + c.waves)[1..] == c.waves;
      ConcatCons(wave, c.waves);
      assert source == wave + source[n..];
    }
  }

  /** A source that holds every die a history needs yields exactly that history. */
  lemma {:induction false} WaveChainOfHistory(waves: seq<seq<Die>>, n: int, active: seq<string>, rest: seq<Die>)
    requires IsWaveHistory(waves, n, active)
    ensures WaveChain(n, active, Concat(waves) + rest) == Some(Chain(waves, rest))
    decreases |waves|
  {
    if n > 0 {
      var tail := waves[1..];
      WaveChainOfHistory(tail, Explosions(waves[0], active), active, rest);
      ConcatCons(waves[0], tail);
      var source := Concat(waves) + rest;
      assert source == waves[0] + (Concat(tail) + rest);
      assert source[..n] == waves[0] && source[n..] == Concat(tail) + rest;
      WaveChainStep(n, active, source);
      assert [waves[0]] + tail == waves;
    } else {
      assert Concat(waves) + rest == rest;
    }
  }

  // ---------------------------------------------------------------------------------------------
  // First Movement of the Demiurge.
  // ---------------------------------------------------------------------------------------------

  /** `initialDice.map(die => die < 7 ? rollDie() : die)`: every failed die replaced by the next die. */
  function Rerolled(initial: seq<Die>, source: seq<Die>): Option<Chain>
  {
    if initial == [] then Some(Chain([[]], source))
    else if initial[0] >= 7 then
      match Rerolled(initial[1..], source)
      case None => None
      case Some(c) => Some(Chain([[initial[0]] + c.waves[0]], c.rest))
    else if source == [] then None
    else
      match Rerolled(initial[1..], source[1..])
      case None => None
      case Some(c) => Some(Chain([[source[0]] + c.waves[0]], c.rest))
  }

  /** Failed dice of a wave. */
  function Failures(wave: seq<Die>): nat {
    if wave == [] then 0 else (if wave[0] < 7 then 1 else 0) + Failures(wave[1..])
  }

  /** The dice the reroll takes for the failed dice: the `j`-th failure gets the `j`-th die of the source. */
  function TakenFor(initial: seq<Die>, rerolled: seq<Die>): seq<Die>
    requires |rerolled| == |initial|
  {
    if initial == [] then []
    else (if initial[0] < 7 then [rerolled[0]] else []) + TakenFor(initial[1..], rerolled[1..])
  }

  /**
   * The reroll keeps every success, replaces every failure and reads exactly as many dice as there
   * are failures, in order; it runs out only when the source holds fewer dice than there are failures.
   */
  predicate RerollKeeps(initial: seq<Die>, source: seq<Die>) {
    && (Rerolled(initial, source).None? <==> |source| < Failures(initial))
    && (Rerolled(initial, source).Some? ==>
      var c := Rerolled(initial, source).value;
      && |c.waves| == 1 && |c.waves[0]| == |initial|
      && (forall k :: 0 <= k < |initial| && initial[k] >= 7 ==> c.waves[0][k] == initial[k])
      && TakenFor(initial, c.waves[0]) + c.rest == source
      && |TakenFor(initial, c.waves[0])| == Failures(initial))
  }

  /** A leading success is kept and reads no die. */
  lemma KeptStep(initial: seq<Die>, source: seq<Die>)
    requires initial != [] && initial[0] >= 7
    requires RerollKeeps(initial[1..], source)
    ensures RerollKeeps(initial, source)
  {
    var tail := initial[1..];
    if Rerolled(tail, source).Some? {
      var c := Rerolled(tail, source).value;
      var w := [initial[0]] + c.waves[0];
      assert forall k :: 1 <= k < |initial| ==> w[k] == c.waves[0][k - 1] && initial[k] == tail[k - 1];
      assert w[1..] == c.waves[0];
    }
  }

  /** A leading failure is replaced by the first die of the source. */
  lemma ReplacedStep(initial: seq<Die>, source: seq<Die>)
    requires initial != [] && initial[0] < 7 && source != []
    requires RerollKeeps(initial[1..], source[1..])
    ensures RerollKeeps(initial, source)
  {
    var tail := initial[1..];
    if Rerolled(tail, source[1..]).Some? {
      var c := Rerolled(tail, source[1..]).value;
      var w := [source[0]] + c.waves[0];
      assert forall k :: 1 <= k < |initial| ==> w[k] == c.waves[0][k - 1] && initial[k] == tail[k - 1];
      assert w[1..] == c.waves[0];
      assert source == [source[0]] + source[1..];
    }
  }

  /** `RerollKeeps`, by induction on the initial dice. */
  lemma {:induction false} RerolledKeepsSuccesses(initial: seq<Die>, source: seq<Die>)
    ensures Rerolled(initial, source).None? <==> |source| < Failures(initial)
    ensures Rerolled(initial, source).Some? ==>
      var c := Rerolled(initial, source).value;
      && |c.waves| == 1 && |c.waves[0]| == |initial|
      && (forall k :: 0 <= k < |initial| && initial[k] >= 7 ==> c.waves[0][k] == initial[k])
      && TakenFor(initial, c.waves[0]) + c.rest == source
      && |TakenFor(initial, c.waves[0])| == Failures(initial)
  {
    if initial != [] {
      if initial[0] >= 7 {
        RerolledKeepsSuccesses(initial[1..], source);
        KeptStep(initial, source);
      } else if source != [] {
        RerolledKeepsSuccesses(initial[1..], source[1..]);
        ReplacedStep(initial, source);
      }
    }
    assert RerollKeeps(initial, source);
  }

  /**
   * The main loop after a reroll: it never appends a wave, so it recounts the rerolled wave each
   * round, and each round still draws (and discards) as many dice as the previous round's explosions.
   */
  function RerollRounds(wave: seq<Die>, n: int, active: seq<string>, source: seq<Die>): Option<seq<Die>>
    decreases |source|
  {
    if n <= 0 then Some(source)
    else if |source| < n then None
    else RerollRounds(wave, Explosions(wave, active), active, source[n..])
  }

  /** A rerolled wave with an exploding die never ends the loop: every finite source runs out. */
  lemma {:induction false} RerollWithExplosionNeverEnds(wave: seq<Die>, n: int, active: seq<string>, source: seq<Die>)
    requires Explosions(wave, active) > 0 && n > 0
    ensures RerollRounds(wave, n, active, source) == None
    decreases |source|
  {
    if |source| >= n {
      RerollWithExplosionNeverEnds(wave, Explosions(wave, active), active, source[n..]);
    }
  }

  /** Without an exploding die the loop runs one round, which discards `n` dice. */
  lemma RerollWithoutExplosionEnds(wave: seq<Die>, n: int, active: seq<string>, source: seq<Die>)
    requires Explosions(wave, active) == 0 && n > 0
    ensures RerollRounds(wave, n, active, source) == if |source| < n then None else Some(source[n..])
  {
  }

  // ---------------------------------------------------------------------------------------------
  // The whole roll.
  // ---------------------------------------------------------------------------------------------

  /** `Array.from({ length: n }, rollDie)` draws no dice for a negative length. */
  function Max0(n: int): nat {
    if n > 0 then n else 0
  }

  /** The wave histories of a roll of `pool` dice, with the dice left over. */
  function RollWaves(pool: int, active: seq<string>, source: seq<Die>): Option<Chain> {
    if "first-movement-of-the-demiurge" !in active then WaveChain(pool, active, source)
    else if |source| < Max0(pool) then None
    else
      match Rerolled(source[..Max0(pool)], source[Max0(pool)..])
      case None => None
      case Some(c) =>
        match RerollRounds(c.waves[0], pool, active, c.rest)
        case None => None
        case Some(rest) => Some(Chain(c.waves, rest))
  }

  /** What a roll returns. */
  datatype DiceRoll = DiceRoll(
    diceHistories: seq<seq<Die>>,
    totalSuccesses: int,
    automaticSuccesses: int,
    targetNumber: int,
    activeCharmNames: seq<string>)

  datatype RollOutcome = Completed(roll: DiceRoll, remaining: seq<Die>) | Exhausted

  /** `value || 0` over the active add-successes effects. */
  function AddedSuccesses(details: seq<Charm>): int {
    if details == [] then 0
    else
      (if details[0].effect.kind == AddSuccesses then details[0].effect.value.GetOr(0) else 0)
      + AddedSuccesses(details[1..])
  }

  function Names(details: seq<Charm>): (names: seq<string>)
    ensures |names| == |details|
  {
    seq(|details|, i requires 0 <= i < |details| => details[i].name)
  }

  /** The result of `performDiceRoll`. */
  function RollSpec(character: Character, active: seq<string>, targetNumber: int, source: seq<Die>): RollOutcome {
    match RollWaves(character.DicePool(), active, source)
    case None => Exhausted
    case Some(c) =>
      var details := ActiveDetails(AllCharms, active);
      var auto := AddedSuccesses(details);
      Completed(DiceRoll(c.waves, TotalSuccesses(c.waves, active) + auto, auto, targetNumber, Names(details)), c.rest)
  }

  /** `Array.from({ length: n }, rollDie)`. */
  method RollDice(n: int, source: seq<Die>) returns (dice: seq<Die>, rest: seq<Die>, ok: bool)
    ensures ok <==> Max0(n) <= |source|
    ensures ok ==> dice == source[..Max0(n)] && rest == source[Max0(n)..]
    ensures !ok ==> rest == source
  {
    if |source| < Max0(n) {
      return [], source, false;
    }
    dice, rest, ok := source[..Max0(n)], source[Max0(n)..], true;
  }

  /** The successes and explosions of one wave, die by die. */
  method ScoreWave(wave: seq<Die>, active: seq<string>) returns (successes: int, explosions: nat)
    ensures successes == WaveSuccesses(wave, active)
    ensures explosions == Explosions(wave, active)
  {
    successes, explosions := 0, 0;
    var i := 0;
    while i < |wave|
      invariant 0 <= i <= |wave|
      invariant successes == WaveSuccesses(wave[..i], active)
      invariant explosions == Explosions(wave[..i], active)
    {
      assert wave[..i + 1][..i] == wave[..i];
      successes := successes + CalculateSuccesses(wave[i], active);
      if ShouldDieExplode(wave[i], active) {
        explosions := explosions + 1;
      }
      i := i + 1;
    }
    assert wave[..i] == wave;
  }

  /** The `forEach` that sums the add-successes effects of the active entries. */
  method SumAutomaticSuccesses(details: seq<Charm>) returns (auto: int)
    ensures auto == AddedSuccesses(details)
  {
    auto := 0;
    var i := 0;
    while i < |details|
      invariant 0 <= i <= |details|
      invariant auto + AddedSuccesses(details[i..]) == AddedSuccesses(details)
    {
      assert details[i..][1..] == details[i + 1..];
      if details[i].effect.kind == AddSuccesses {
        auto := auto + details[i].effect.value.GetOr(0);
      }
      i := i + 1;
    }
  }


  /** The main wave loop without the reroll. */
  method WaveLoop(pool: int, active: seq<string>, source: seq<Die>) returns (r: Option<Chain>, total: int)
    ensures r == WaveChain(pool, active, source)
    ensures r.Some? ==> total == TotalSuccesses(r.value.waves, active)
  {
    var allRolls: seq<seq<Die>> := [];
    var src := source;
    var current := pool;
    total := 0;
    PrefixedEmpty(WaveChain(pool, active, source));
    while current > 0
      invariant Prefixed(allRolls, WaveChain(current, active, src)) == WaveChain(pool, active, source)
      invariant total == TotalSuccesses(allRolls, active)
      decreases |src|
    {
      var wave, rest, ok := RollDice(current, src);
      if !ok {
        return None, total;
      }
      WaveChainStep(current, active, src);
      PrefixedAppend(allRolls, wave, WaveChain(Explosions(wave, active), active, rest));
      allRolls := allRolls + [wave];
      var successes, explosions := ScoreWave(allRolls[|allRolls| - 1], active);
      assert allRolls[..|allRolls| - 1] + [wave] == allRolls;
      total := total + successes;
      current := explosions;
      src := rest;
    }
    PrefixedEmpty(Some(Chain([], src)));
    assert allRolls + [] == allRolls;
    return Some(Chain(allRolls, src)), total;
  }

  /** The reroll of failed dice, then the main loop as it runs after a reroll. */
  method RerollLoop(pool: int, active: seq<string>, source: seq<Die>) returns (r: Option<Chain>, total: int)
    requires "first-movement-of-the-demiurge" in active
    ensures r == RollWaves(pool, active, source)
    ensures r.Some? ==> total == TotalSuccesses(r.value.waves, active)
  {
    var initialDice, src, ok := RollDice(pool, source);
    if !ok {
      return None, 0;
    }
    var rr := Rerolled(initialDice, src);
    if rr.None? {
      return None, 0;
    }
    RerolledKeepsSuccesses(initialDice, src);
    var allRolls := rr.value.waves;
    var rest;
    rest, total := MainLoopAfterReroll(allRolls, pool, active, rr.value.rest);
    if rest.None? {
      return None, total;
    }
    assert TotalSuccesses(allRolls, active) == WaveSuccesses(allRolls[0], active);
    return Some(Chain(allRolls, rest.value)), total;
  }

  /**
   * The main loop when `allRolls` holds the one rerolled wave: no wave is appended, so every
   * round scores that wave again, and every round draws as many dice as the last round's explosions.
   */
  method MainLoopAfterReroll(allRolls: seq<seq<Die>>, pool: int, active: seq<string>, source: seq<Die>)
    returns (r: Option<seq<Die>>, total: int)
    requires |allRolls| == 1 && (pool <= 0 ==> allRolls[0] == [])
    ensures r == RerollRounds(allRolls[0], pool, active, source)
    ensures r.Some? ==> total == WaveSuccesses(allRolls[0], active)
  {
    var wave0 := allRolls[0];
    var src := source;
    var current := pool;
    total := 0;
    ghost var rounds := 0;
    while current > 0
      invariant RerollRounds(wave0, current, active, src) == RerollRounds(wave0, pool, active, source)
      invariant rounds == 0 ==> current == pool && total == 0
      invariant rounds == 1 ==> total == WaveSuccesses(wave0, active)
      invariant rounds > 0 ==> current == Explosions(wave0, active)
      invariant rounds > 1 ==> Explosions(wave0, active) > 0
      decreases |src|
    {
      var discarded, rest, ok := RollDice(current, src);
      if !ok {
        return None, total;
      }
      // With exactly one history the wave just drawn is not appended; the last history is scored.
      var successes, explosions := ScoreWave(allRolls[|allRolls| - 1], active);
      total := total + successes;
      current := explosions;
      src := rest;
      rounds := rounds + 1;
    }
    return Some(src), total;
  }

  /** `performDiceRoll`. */
  method PerformDiceRoll(character: Character, active: seq<string>, targetNumber: int, source: seq<Die>)
    returns (r: RollOutcome)
    ensures r == RollSpec(character, active, targetNumber, source)
  {
    var diceToRoll := character.DicePool();
    var waves: Option<Chain>;
    var totalSuccesses: int;
    if "first-movement-of-the-demiurge" in active {
      waves, totalSuccesses := RerollLoop(diceToRoll, active, source);
    } else {
      waves, totalSuccesses := WaveLoop(diceToRoll, active, source);
    }
    if waves.None? {
      return Exhausted;
    }
    var details := ActiveDetails(AllCharms, active);
    var automaticSuccesses := SumAutomaticSuccesses(details);
    r := Completed(
      DiceRoll(waves.value.waves, totalSuccesses + automaticSuccesses, automaticSuccesses, targetNumber, Names(details)),
      waves.value.rest);
  }

  // ---------------------------------------------------------------------------------------------
  // What the roll means.
  // ---------------------------------------------------------------------------------------------

  /** Without the reroll, a completed roll is a well-formed wave history read from the front of the source. */
  lemma RollHistory(character: Character, active: seq<string>, targetNumber: int, source: seq<Die>)
    requires "first-movement-of-the-demiurge" !in active
    requires RollSpec(character, active, targetNumber, source).Completed?
    ensures var r := RollSpec(character, active, targetNumber, source);
      && IsWaveHistory(r.roll.diceHistories, character.DicePool(), active)
      && Concat(r.roll.diceHistories) + r.remaining == source
      && r.roll.totalSuccesses == TotalSuccesses(r.roll.diceHistories, active) + r.roll.automaticSuccesses
  {
    WaveChainShape(character.DicePool(), active, source);
  }

  /**
   * With the reroll, a rerolled first wave holding an exploding die makes the roll run out of dice
   * whatever the source: the loop recounts that wave for ever.
   */
  lemma RerollWithExplosionIsExhausted(character: Character, active: seq<string>, targetNumber: int, source: seq<Die>)
    requires "first-movement-of-the-demiurge" in active
    requires var n := Max0(character.DicePool());
      && n <= |source|
      && Rerolled(source[..n], source[n..]).Some?
      && Explosions(Rerolled(source[..n], source[n..]).value.waves[0], active) > 0
    ensures RollSpec(character, active, targetNumber, source) == Exhausted
  {
    var n := Max0(character.DicePool());
    var c := Rerolled(source[..n], source[n..]).value;
    RerolledKeepsSuccesses(source[..n], source[n..]);
    RerollWithExplosionNeverEnds(c.waves[0], character.DicePool(), active, c.rest);
  }

  lemma {:induction false} AddedSuccessesAppend(a: seq<Charm>, b: seq<Charm>)
    ensures AddedSuccesses(a + b) == AddedSuccesses(a) + AddedSuccesses(b)
  {
    if a != [] {
      assert (a + b)[0] == a[0] && (a + b)[1..] == a[1..] + b;
      AddedSuccessesAppend(a[1..], b);
    } else {
      assert a + b == b;
    }
  }

  /** Entries without an add-successes effect add no automatic successes. */
  lemma {:induction false} NoAddedSuccesses(entries: seq<Charm>, active: seq<string>)
    requires forall k :: 0 <= k < |entries| ==> entries[k].effect.kind != AddSuccesses
    ensures AddedSuccesses(ActiveOf(entries, active)) == 0
  {
    if entries != [] {
      var head := if entries[0].id in active then [entries[0]] else [];
      var tail := entries[1..];
      assert forall k :: 0 <= k < |tail| ==> tail[k] == entries[k + 1];
      NoAddedSuccesses(tail, active);
      AddedSuccessesAppend(head, ActiveOf(tail, active));
    }
  }

  /** Only the last catalog entry, Will-Forging Discipline, has an add-successes effect. */
  lemma CatalogEffects()
    ensures forall k :: 0 <= k < 13 ==> CatalogEntries()[k].effect.kind != AddSuccesses
    ensures CatalogEntries()[13] == WillForgingDiscipline
  {
    var e := CatalogEntries();
    forall k | 0 <= k < 13
      ensures e[k].effect.kind != AddSuccesses
    {
      assert k in {0, 1, 2, 3, 4, 5, 6, 7, 8, 9, 10, 11, 12};
    }
  }

  lemma AutomaticSuccessesOfEntries(active: seq<string>)
    ensures AddedSuccesses(ActiveOf(CatalogEntries(), active)) == if "will-forging-discipline" in active then 2 else 0
  {
    CatalogEffects();
    var e := CatalogEntries();
    var front := e[..13];
    assert e == front + [WillForgingDiscipline];
    assert forall k :: 0 <= k < |front| ==> front[k] == e[k];
    ActiveOfAppend(front, [WillForgingDiscipline], active);
    NoAddedSuccesses(front, active);
    AddedSuccessesAppend(ActiveOf(front, active), ActiveOf([WillForgingDiscipline], active));
  }

  /** With the catalog, only Will-Forging Discipline adds automatic successes, two of them. */
  lemma CatalogAutomaticSuccesses(active: seq<string>)
    ensures AddedSuccesses(ActiveDetails(AllCharms, active)) == if "will-forging-discipline" in active then 2 else 0
  {
    ActiveDetailsFilterFlattened(AllCharms, active);
    FlattenedCatalog();
    AutomaticSuccessesOfEntries(active);
  }
}
