/**
 * The records the core passes around, taken from how the source uses them: the character sheet,
 * the three experience currencies and the eight project types with the names the source tests
 * with string operations.
 */
module Types {
  import opened JsStrings

  datatype Attribute =
    | Intelligence | Wits | Perception | Strength | Dexterity | Stamina
    | Charisma | Manipulation | Appearance

  /** The character sheet; the core reads it and the roll debits motes and willpower. */
  datatype Character = Character(
    intelligence: int, wits: int, perception: int,
    strength: int, dexterity: int, stamina: int,
    charisma: int, manipulation: int, appearance: int,
    craft: int, essence: int,
    personalMotes: int, peripheralMotes: int, willpower: int,
    selectedAttribute: Attribute,
    knownCharms: seq<string>)
  {
    /** `character[attribute]`. */
    function Rating(a: Attribute): int {
      match a
      case Intelligence => intelligence
      case Wits => wits
      case Perception => perception
      case Strength => strength
      case Dexterity => dexterity
      case Stamina => stamina
      case Charisma => charisma
      case Manipulation => manipulation
      case Appearance => appearance
    }

    /** `character[character.selectedAttribute] + character.craft`, the dice of a craft roll. */
    function DicePool(): int {
      Rating(selectedAttribute) + craft
    }
  }

  datatype Experience = Experience(sxp: int, gxp: int, wxp: int)

  datatype ProjectType =
    | BasicProject | MajorProject | SuperiorProject | LegendaryProject
    | BasicRepair | MajorRepair | SuperiorRepair | LegendaryRepair
  {
    /** The string the source stores for the type. */
    function Name(): string {
      match this
      case BasicProject => "basic-project"
      case MajorProject => "major-project"
      case SuperiorProject => "superior-project"
      case LegendaryProject => "legendary-project"
      case BasicRepair => "basic-repair"
      case MajorRepair => "major-repair"
      case SuperiorRepair => "superior-repair"
      case LegendaryRepair => "legendary-repair"
    }

    predicate IsBasic() { this == BasicProject || this == BasicRepair }
    predicate IsMajor() { this == MajorProject || this == MajorRepair }
    predicate IsSuperior() { this == SuperiorProject || this == SuperiorRepair }
    predicate IsLegendary() { this == LegendaryProject || this == LegendaryRepair }
    predicate IsRepair() { this == BasicRepair || this == MajorRepair || this == SuperiorRepair || this == LegendaryRepair }
  }

  lemma {:induction false} IncludesAt(s: string, sub: string, i: nat)
    requires i <= |s| && StartsWith(s[i..], sub)
    ensures Includes(s, sub)
  {
    if i > 0 {
      assert s[1..][i - 1..] == s[i..];
      IncludesAt(s[1..], sub, i - 1);
    }
  }

  /** A string in which the first two characters of `sub` never stand side by side does not include `sub`. */
  lemma {:induction false} NotIncludes(s: string, sub: string)
    requires |sub| >= 2
    requires forall k :: 0 <= k < |s| - 1 ==> !(s[k] == sub[0] && s[k + 1] == sub[1])
    ensures !Includes(s, sub)
  {
    if |s| > 0 {
      assert !StartsWith(s, sub) by {
        if |s| >= 2 { assert !(s[0] == sub[0] && s[1] == sub[1]); }
      }
      var tail := s[1..];
      assert forall k :: 0 <= k < |tail| ==> tail[k] == s[k + 1];
      NotIncludes(tail, sub);
    }
  }

  /**
   * The prefix tests the source applies to a type's name pick out exactly the tier they name, with
   * or without the dash.
   */
  lemma TierPrefixes(t: ProjectType)
    ensures StartsWith(t.Name(), "basic-") <==> t.IsBasic()
    ensures StartsWith(t.Name(), "major-") <==> t.IsMajor()
    ensures StartsWith(t.Name(), "major") <==> t.IsMajor()
    ensures StartsWith(t.Name(), "superior-") <==> t.IsSuperior()
    ensures StartsWith(t.Name(), "superior") <==> t.IsSuperior()
    ensures StartsWith(t.Name(), "legendary") <==> t.IsLegendary()
  {
    var n := t.Name();
    // A prefix test fails as soon as the first characters differ.
    assert "basic-"[0] == 'b' && "major-"[0] == "major"[0] == 'm';
    assert "superior-"[0] == "superior"[0] == 's' && "legendary"[0] == 'l';
    match t
    case BasicProject => assert n[..6] == "basic-" && n[0] == 'b';
    case BasicRepair => assert n[..6] == "basic-" && n[0] == 'b';
    case MajorProject => assert n[..6] == "major-" && n[0] == 'm';
    case MajorRepair => assert n[..6] == "major-" && n[0] == 'm';
    case SuperiorProject => assert n[0] == 's';
    case SuperiorRepair => assert n[0] == 's';
    case LegendaryProject => assert n[0] == 'l';
    case LegendaryRepair => assert n[0] == 'l';
  }

  /** The name of a repair type ends in `repair`. */
  lemma RepairNameIncludesRepair(t: ProjectType)
    requires t.IsRepair()
    ensures Includes(t.Name(), "repair")
  {
    var n := t.Name();
    assert n[|n| - 6..] == "repair";
    IncludesAt(n, "repair", |n| - 6);
  }

  /** No name of a project type has an `r` followed by an `e`. */
  lemma ProjectNameLacksRepair(t: ProjectType)
    requires !t.IsRepair()
    ensures !Includes(t.Name(), "repair")
  {
    var n := t.Name();
    assert forall k :: 0 <= k < |n| - 1 ==> !(n[k] == 'r' && n[k + 1] == 'e');
    NotIncludes(n, "repair");
  }

  /** `type.includes("repair")` holds exactly of the four repair types. */
  lemma RepairSubstring(t: ProjectType)
    ensures Includes(t.Name(), "repair") <==> t.IsRepair()
  {
    if t.IsRepair() {
      RepairNameIncludesRepair(t);
    } else {
      ProjectNameLacksRepair(t);
    }
  }

  /** Different types have different names, so the source's `switch` on the name is a case split on the type. */
  lemma NamesDistinct(t: ProjectType, u: ProjectType)
    ensures t.Name() == u.Name() ==> t == u
  {
  }
}
