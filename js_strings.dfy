/**
 * The JavaScript string built-ins the core relies on: white space as `\s` and `trim` see it,
 * `startsWith`, `endsWith`, `includes`, `split` on one character, `parseInt(s, 10)` and the first
 * match of a regular expression of the form /(\d+)unit/.
 */
module JsStrings {
  import opened Wrappers

  /** A character of the WhiteSpace or LineTerminator classes, the set matched by `\s` and removed by `trim`. */
  predicate IsWhitespace(c: char) {
    c == ' ' || c == '\t' || c == '\n' || c == '\U{B}' || c == '\U{C}' || c == '\r'
    || c == '\U{A0}' || c == '\U{1680}' || ('\U{2000}' <= c <= '\U{200A}')
    || c == '\U{2028}' || c == '\U{2029}' || c == '\U{202F}' || c == '\U{205F}'
    || c == '\U{3000}' || c == '\U{FEFF}'
  }

  /** The ASCII digits, the characters matched by `\d`. */
  predicate IsDigit(c: char) {
    '0' <= c <= '9'
  }

  predicate AllDigits(s: string) {
    forall k :: 0 <= k < |s| ==> IsDigit(s[k])
  }

  /** The decimal value of a string of digits, most significant digit first. */
  function DecimalValue(ds: string): nat
    requires AllDigits(ds)
  {
    if ds == [] then 0 else DecimalValue(ds[..|ds| - 1]) * 10 + ((ds[|ds| - 1] as int) - ('0' as int))
  }

  predicate StartsWith(s: string, prefix: string) {
    prefix <= s
  }

  predicate EndsWith(s: string, suffix: string) {
    |suffix| <= |s| && s[|s| - |suffix|..] == suffix
  }

  /** `s.includes(sub)`: `sub` occurs in `s` at some position. */
  predicate Includes(s: string, sub: string)
    decreases |s|
  {
    StartsWith(s, sub) || (|s| > 0 && Includes(s[1..], sub))
  }

  /** The longest prefix of `s` made of digits. */
  function LeadingDigits(s: string): (ds: string)
    ensures ds <= s && AllDigits(ds)
    ensures |ds| < |s| ==> !IsDigit(s[|ds|])
  {
    if s != [] && IsDigit(s[0]) then [s[0]] + LeadingDigits(s[1..]) else []
  }

  function TrimStart(s: string): (r: string)
    ensures |r| <= |s| && r == s[|s| - |r|..]
    ensures r != [] ==> !IsWhitespace(r[0])
  {
    if s != [] && IsWhitespace(s[0]) then TrimStart(s[1..]) else s
  }

  function TrimEnd(s: string): (r: string)
    ensures r <= s
    ensures r != [] ==> !IsWhitespace(r[|r| - 1])
  {
    if s != [] && IsWhitespace(s[|s| - 1]) then TrimEnd(s[..|s| - 1]) else s
  }

  /** `s.trim()`. */
  function Trim(s: string): string {
    TrimEnd(TrimStart(s))
  }

  /** `s.split(sep)` for a one-character separator: the pieces between the separators, in order. */
  function Split(s: string, sep: char): (parts: seq<string>)
    ensures |parts| >= 1
  {
    if s == [] then [""]
    else
      var rest := Split(s[1..], sep);
      if s[0] == sep then [""] + rest else [[s[0]] + rest[0]] + rest[1..]
  }

  /** Joins pieces with a separator: the inverse of `Split`. */
  function Join(parts: seq<string>, sep: char): string
    requires |parts| >= 1
  {
    if |parts| == 1 then parts[0] else parts[0] + [sep] + Join(parts[1..], sep)
  }

  /** Splitting and joining again gives back the original string. */
  lemma {:induction false} SplitJoin(s: string, sep: char)
    ensures Join(Split(s, sep), sep) == s
  {
    if s != [] {
      SplitJoin(s[1..], sep);
      var rest := Split(s[1..], sep);
      if s[0] != sep {
        if |rest| == 1 {
          assert Join(Split(s, sep), sep) == [s[0]] + rest[0];
        } else {
          assert Join(Split(s, sep), sep) == ([s[0]] + rest[0]) + [sep] + Join(rest[1..], sep);
        }
      }
    }
  }

  /** No piece of a split holds the separator. */
  lemma {:induction false} SplitPiecesLackSeparator(s: string, sep: char)
    ensures forall p :: p in Split(s, sep) ==> sep !in p
  {
    if s != [] {
      SplitPiecesLackSeparator(s[1..], sep);
      var rest := Split(s[1..], sep);
      if s[0] != sep {
        forall p | p in Split(s, sep) ensures sep !in p {
          if p != [s[0]] + rest[0] {
            assert p in rest[1..];
          }
        }
      }
    }
  }

  /** Splitting at a first separator gives the piece before it, then the pieces of the rest. */
  lemma {:induction false} SplitAtFirst(a: string, b: string, sep: char)
    requires sep !in a
    ensures Split(a + [sep] + b, sep) == [a] + Split(b, sep)
  {
    var s := a + [sep] + b;
    if a == [] {
      assert s[1..] == b;
    } else {
      assert s[1..] == a[1..] + [sep] + b;
      SplitAtFirst(a[1..], b, sep);
      assert [a[0]] + a[1..] == a;
    }
  }

  /** A string without the separator splits into itself alone. */
  lemma {:induction false} SplitWithoutSeparator(s: string, sep: char)
    requires sep !in s
    ensures Split(s, sep) == [s]
  {
    if s != [] {
      SplitWithoutSeparator(s[1..], sep);
      assert [s[0]] + s[1..] == s;
    }
  }

  /** Trimming leaves a string alone when it neither starts nor ends with white space. */
  lemma TrimUntouched(s: string)
    requires s != [] ==> !IsWhitespace(s[0]) && !IsWhitespace(s[|s| - 1])
    ensures Trim(s) == s
  {
  }

  /** Trimming skips one leading white-space character. */
  lemma TrimSkipsLeadingBlank(s: string)
    requires s != [] && IsWhitespace(s[0])
    ensures Trim(s) == Trim(s[1..])
  {
  }

  /** A string ends with a suffix only when their last characters agree. */
  lemma EndsWithLastChar(s: string, suffix: string)
    requires suffix != [] && EndsWith(s, suffix)
    ensures s != [] && s[|s| - 1] == suffix[|suffix| - 1]
  {
    assert s[|s| - |suffix|..][|suffix| - 1] == s[|s| - 1];
  }

  /** A digit followed by a non-digit parses as that digit's value. */
  lemma ParseSingleDigit(d: char, rest: string)
    requires IsDigit(d) && (rest == [] || !IsDigit(rest[0]))
    ensures ParseInt([d] + rest) == Some((d as int) - ('0' as int))
  {
    var s := [d] + rest;
    KeptByTrimStart(s);
    KeptBySignStrip(s);
    SingleLeadingDigit(d, rest);
    SingleDigitValue(d);
  }

  lemma KeptByTrimStart(s: string)
    requires s != [] && IsDigit(s[0])
    ensures TrimStart(s) == s
  {
  }

  lemma KeptBySignStrip(s: string)
    requires s != [] && IsDigit(s[0])
    ensures SignStripped(s) == s
  {
  }

  lemma SingleLeadingDigit(d: char, rest: string)
    requires IsDigit(d) && (rest == [] || !IsDigit(rest[0]))
    ensures LeadingDigits([d] + rest) == [d]
  {
    assert ([d] + rest)[1..] == rest;
  }

  lemma SingleDigitValue(d: char)
    requires IsDigit(d)
    ensures DecimalValue([d]) == (d as int) - ('0' as int)
  {
    assert [d][..0] == [];
  }

  /**
   * `parseInt(s, 10)`: leading white space is skipped, then an optional sign and the longest run of
   * digits; `None` stands for NaN, the result when no digit follows.
   */
  function ParseInt(s: string): (r: Option<int>)
    ensures r.None? <==> LeadingDigits(SignStripped(TrimStart(s))) == []
  {
    var t := TrimStart(s);
    var ds := LeadingDigits(SignStripped(t));
    if ds == [] then None
    else
      var v: int := DecimalValue(ds);
      if t[0] == '-' then Some(-v) else Some(v)
  }

  function SignStripped(t: string): string {
    if t != [] && (t[0] == '-' || t[0] == '+') then t[1..] else t
  }

  /**
   * `s.match(/(\d+)unit/)`, the number captured by the leftmost match, or `None` without a match.
   * At each position the `\d+` run is as long as possible; a shorter run cannot be followed by a
   * unit that starts with a non-digit, so the maximal run is the only candidate there.
   */
  function FirstNumberBefore(s: string, unit: string): Option<nat>
  {
    if s == [] then None
    else
      var ds := LeadingDigits(s);
      if ds != [] && StartsWith(s[|ds|..], unit) then Some(DecimalValue(ds))
      else FirstNumberBefore(s[1..], unit)
  }

  /** The regular expression /(\d+)unit/ matches `s` at position `i` with a run of `k` digits. */
  ghost predicate MatchesAt(s: string, unit: string, i: int, k: int) {
    0 <= i && 1 <= k && i + k <= |s| && AllDigits(s[i..i + k]) && StartsWith(s[i + k..], unit)
  }

  lemma {:induction false} DigitRunIsMaximal(s: string, unit: string, k: int)
    requires |unit| > 0 && !IsDigit(unit[0])
    requires MatchesAt(s, unit, 0, k)
    ensures k == |LeadingDigits(s)|
  {
    assert forall j :: 0 <= j < k ==> s[0..k][j] == s[j];
    assert s[k..][0] == unit[0];
  }

  /** At a given position the digit run of a match is unique: the unit's first character ends it. */
  lemma MatchLengthUnique(s: string, unit: string, i: int, k: int, m: int)
    requires |unit| > 0 && !IsDigit(unit[0])
    requires MatchesAt(s, unit, i, k) && MatchesAt(s, unit, i, m)
    ensures k == m
  {
    assert !IsDigit(s[i + k]) by {
      assert s[i + k..][0] == unit[0];
    }
    assert !IsDigit(s[i + m]) by {
      assert s[i + m..][0] == unit[0];
    }
  }

  lemma MatchShift(s: string, unit: string, i: int, k: int)
    requires s != [] && i >= 1
    ensures MatchesAt(s, unit, i, k) <==> MatchesAt(s[1..], unit, i - 1, k)
  {
    if 1 <= k && i + k <= |s| {
      assert s[1..][i - 1..i - 1 + k] == s[i..i + k];
      assert s[1..][i - 1 + k..] == s[i + k..];
    }
  }

  lemma NoMatchAtZero(s: string, unit: string)
    requires |unit| > 0 && !IsDigit(unit[0])
    requires !(LeadingDigits(s) != [] && StartsWith(s[|LeadingDigits(s)|..], unit))
    ensures forall m :: !MatchesAt(s, unit, 0, m)
  {
    forall m | MatchesAt(s, unit, 0, m) ensures false {
      DigitRunIsMaximal(s, unit, m);
    }
  }

  lemma MatchesBeyondZero(s: string, unit: string)
    requires s != []
    requires forall m :: !MatchesAt(s, unit, 0, m)
    ensures forall j, m :: MatchesAt(s, unit, j, m) ==> j >= 1 && MatchesAt(s[1..], unit, j - 1, m)
  {
    forall j, m | MatchesAt(s, unit, j, m) ensures j >= 1 && MatchesAt(s[1..], unit, j - 1, m) {
      MatchShift(s, unit, j, m);
    }
  }

  /**
   * `FirstNumberBefore` is the leftmost-match semantics of /(\d+)unit/: without a match anywhere it
   * finds nothing, and otherwise the number it finds is the captured digit run of the leftmost
   * match (which the lemma returns as position `i` and run length `k`).
   */
  lemma {:induction false} FirstNumberBeforeIsLeftmostMatch(s: string, unit: string) returns (i: int, k: int)
    requires |unit| > 0 && !IsDigit(unit[0])
    ensures FirstNumberBefore(s, unit).None? ==> forall j, m :: !MatchesAt(s, unit, j, m)
    ensures FirstNumberBefore(s, unit).Some? ==>
      MatchesAt(s, unit, i, k) && FirstNumberBefore(s, unit).value == DecimalValue(s[i..i + k])
      && forall j, m :: MatchesAt(s, unit, j, m) ==> i <= j
  {
    if s == [] {
      i, k := 0, 0;
    } else {
      var ds := LeadingDigits(s);
      if ds != [] && StartsWith(s[|ds|..], unit) {
        i, k := 0, |ds|;
        MatchAtZero(s, unit);
      } else {
        var i', k' := FirstNumberBeforeIsLeftmostMatch(s[1..], unit);
        i, k := i' + 1, k';
        LeftmostAfterFirst(s, unit, i', k');
      }
    }
    assert LeftmostMatch(s, unit, i, k);
  }

  /** The property of `FirstNumberBeforeIsLeftmostMatch`, for position `i` and run length `k`. */
  ghost predicate LeftmostMatch(s: string, unit: string, i: int, k: int) {
    && (FirstNumberBefore(s, unit).None? ==> forall j, m :: !MatchesAt(s, unit, j, m))
    && (FirstNumberBefore(s, unit).Some? ==>
      MatchesAt(s, unit, i, k) && FirstNumberBefore(s, unit).value == DecimalValue(s[i..i + k])
      && forall j, m :: MatchesAt(s, unit, j, m) ==> i <= j)
  }

  /** A digit run followed by the unit at the front is a match at position 0, and the first one. */
  lemma MatchAtZero(s: string, unit: string)
    requires LeadingDigits(s) != [] && StartsWith(s[|LeadingDigits(s)|..], unit)
    ensures LeftmostMatch(s, unit, 0, |LeadingDigits(s)|)
  {
    assert s[0..|LeadingDigits(s)|] == LeadingDigits(s);
  }

  /** Without a match at position 0, the leftmost match of `s` is that of `s[1..]`, one position on. */
  lemma LeftmostAfterFirst(s: string, unit: string, i: int, k: int)
    requires s != [] && |unit| > 0 && !IsDigit(unit[0])
    requires !(LeadingDigits(s) != [] && StartsWith(s[|LeadingDigits(s)|..], unit))
    requires LeftmostMatch(s[1..], unit, i, k)
    ensures LeftmostMatch(s, unit, i + 1, k)
  {
    assert FirstNumberBefore(s, unit) == FirstNumberBefore(s[1..], unit);
    NoMatchAtZero(s, unit);
    MatchesBeyondZero(s, unit);
    if FirstNumberBefore(s[1..], unit).Some? {
      MatchShift(s, unit, i + 1, k);
      assert s[1..][i..i + k] == s[i + 1..i + 1 + k];
    }
  }

  /** A single digit followed at once by the unit is the first /(\d+)unit/ match of the string. */
  lemma FirstNumberAtStart(d: char, rest: string, unit: string)
    requires IsDigit(d) && |unit| > 0 && !IsDigit(unit[0]) && StartsWith(rest, unit)
    ensures FirstNumberBefore([d] + rest, unit) == Some((d as int) - ('0' as int))
  {
    var s := [d] + rest;
    assert s[1..] == rest;
    assert rest[0] == unit[0];
    assert LeadingDigits(s) == [d];
    assert [d][..0] == [];
    assert s[|[d]|..] == rest;
    assert DecimalValue([d]) == (d as int) - ('0' as int);
  }
}
