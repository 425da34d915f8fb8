/**
 * Roman-numeral chord functions: parsing a token such as "bIIIm7" into its
 * accidentals, numeral and suffix, writing accidentals back as '#' or 'b',
 * measuring how far a numeral lies from the interval a substitution wants,
 * and the substitution rules of the progression class.
 */
module Progressions {
  import opened Utils
  import opened Notes

  /** The numerals in scale-degree order. */
  const Roman: seq<string> := ["I", "II", "III", "IV", "V", "VI", "VII"]

  /** Semitones from the tonic of each major-scale degree. */
  const NumeralIntervals: seq<int> := [0, 2, 4, 5, 7, 9, 11]

  /** RomanLookup as initialised: each numeral to its degree index. */
  const InitialRomanLookup: map<string, int> :=
    map["I" := 0, "II" := 1, "III" := 2, "IV" := 3, "V" := 4, "VI" := 5, "VII" := 6]

  /**
   * The degree index operator[] reads for a numeral: its entry, or the 0 it
   * inserts for a numeral the table does not hold.
   */
  function RomanIndex(numeral: string): (i: nat)
    ensures i < 7
  {
    if numeral in InitialRomanLookup then InitialRomanLookup[numeral] else 0
  }

  /** ROMAN and RomanLookup are inverse: each numeral finds its own position. */
  lemma RomanIndexOfRoman(i: nat)
    requires i < 7
    ensures Roman[i] in InitialRomanLookup
    ensures RomanIndex(Roman[i]) == i
  {
    if i == 0 {
    } else if i == 1 {
    } else if i == 2 {
    } else if i == 3 {
    } else if i == 4 {
    } else if i == 5 {
    } else {
    }
  }

  /** The parts of a chord function: numeral, net accidentals, accidentals as written back, suffix. */
  datatype ChordTuple = ChordTuple(roman: string, accidentals: int, cleanedAccidentals: string, suffix: string)

  // ---------------------------------------------------------------------
  // cleanAccidentals
  // ---------------------------------------------------------------------

  /**
   * Net accidentals brought within six either way by whole octaves: the
   * count cleanAccidentals is evidently meant to write back, since twelve
   * half steps leave the pitch class where it was.
   */
  function WithinSix(n: int): (m: int)
    ensures -6 <= m <= 6
    ensures -6 <= n <= 6 ==> m == n
  {
    if n > 6 then TruncMod(n + 6, 12) - 6
    else if n < -6 then TruncMod(n - 6, 12) + 6
    else n
  }

  /** WithinSix moves a count by whole octaves only. */
  lemma WithinSixOctave(n: int)
    ensures (WithinSix(n) - n) % 12 == 0
  {
    if n > 6 {
      var q := TruncDiv(n + 6, 12);
      assert WithinSix(n) - n == -12 * q;
      OctaveMultiple(WithinSix(n) - n, -q);
    } else if n < -6 {
      var q := TruncDiv(n - 6, 12);
      assert WithinSix(n) - n == -12 * q;
      OctaveMultiple(WithinSix(n) - n, -q);
    }
  }

  /** A whole number of octaves is a multiple of twelve half steps; kept apart so WithinSixOctave needs no product in its context. */
  lemma OctaveMultiple(d: int, q: int)
    requires d == 12 * q
    ensures d % 12 == 0
  {
  }

  /** m sharps, or -m flats. */
  function AccidentalString(m: int): (acc: string)
    requires -6 <= m <= 6
    ensures |acc| <= 6
    ensures forall k :: 0 <= k < |acc| ==> acc[k] == '#' || acc[k] == 'b'
    ensures NumberOfAccidentals(acc) == m
  {
    CountRepeat('#', '#', if m > 0 then m else 0);
    CountRepeat('#', 'b', if m > 0 then m else 0);
    CountRepeat('b', '#', if m < 0 then -m else 0);
    CountRepeat('b', 'b', if m < 0 then -m else 0);
    if m > 0 then Repeat('#', m)
    else if m < 0 then Repeat('b', -m)
    else ""
  }

  /**
   * cleanAccidentals(n) as written, the form parse and every substitution
   * use: n sharps or |n| flats, a count beyond six either way first reduced
   * with C++'s truncating remainder by 6, which for more than six sharps
   * gives flats ((-n) % 6).
   */
  function CleanAccidentalsAsWritten(n: int): (acc: string)
    ensures |acc| <= 6
    ensures forall k :: 0 <= k < |acc| ==> acc[k] == '#' || acc[k] == 'b'
    ensures -6 <= n <= 6 ==> NumberOfAccidentals(acc) == n
    ensures n > 6 ==> NumberOfAccidentals(acc) == TruncMod(-n, 6)
    ensures n < -6 ==> NumberOfAccidentals(acc) == TruncMod(n, 6)
  {
    AccidentalString(if n > 6 then TruncMod(-n, 6) else if n < -6 then TruncMod(n, 6) else n)
  }

  /**
   * Seven sharps come back as a single flat, a pitch eight half steps away
   * rather than an octave; the corrected version gives five flats.
   */
  lemma CleanAccidentalsAsWrittenMovesPitch()
    ensures NumberOfAccidentals(CleanAccidentalsAsWritten(7)) == -1
    ensures (NumberOfAccidentals(CleanAccidentalsAsWritten(7)) - 7) % 12 != 0
    ensures NumberOfAccidentals(CleanAccidentals(7)) == -5
  {
    assert TruncMod(-7, 6) == -1;
    assert WithinSix(7) == -5;
  }

  /**
   * Through parse, seven sharps on VII read as one flat, so "#######VII"
   * becomes the subtonic bVII with no accidentals.
   */
  lemma SevenSharpsOnSeventh(vii: string, suffix: string)
    requires vii == "VII"
    ensures TupleOf(vii, 7, suffix) == ChordTuple("bVII", 0, "b", suffix)
  {
    assert TruncMod(-7, 6) == -1;
    assert CleanAccidentalsAsWritten(7) == "b";
  }

  /**
   * cleanAccidentals(n) as evidently intended: the accidentals written
   * back, at most six of one kind, denote the same pitch class as n half
   * steps, and n itself when it is within six. The operations below keep
   * the code's form, CleanAccidentalsAsWritten.
   */
  function CleanAccidentals(n: int): (acc: string)
    ensures |acc| <= 6
    ensures forall k :: 0 <= k < |acc| ==> acc[k] == '#' || acc[k] == 'b'
    ensures -6 <= n <= 6 ==> NumberOfAccidentals(acc) == n
  {
    AccidentalString(WithinSix(n))
  }

  /** A cleaned string never mixes sharps and flats. */
  lemma CleanAccidentalsUnmixed(n: int)
    ensures NumberOfSharps(CleanAccidentals(n)) == 0 || NumberOfFlats(CleanAccidentals(n)) == 0
  {
    var m := WithinSix(n);
    if m > 0 {
      CountRepeat('#', 'b', m);
    } else if m < 0 {
      CountRepeat('b', '#', -m);
    }
  }

  /** The accidentals written back denote the same pitch class as the count. */
  lemma CleanAccidentalsOctave(n: int)
    ensures (NumberOfAccidentals(CleanAccidentals(n)) - n) % 12 == 0
  {
    WithinSixOctave(n);
  }

  // ---------------------------------------------------------------------
  // parse
  // ---------------------------------------------------------------------

  predicate IsAccidental(c: char) {
    c == '#' || c == 'b'
  }

  /** The characters of the numeral class [iIvV]. */
  predicate IsNumeral(c: char) {
    c == 'i' || c == 'I' || c == 'v' || c == 'V'
  }

  /** boost::replace_all(s, " ", ""). */
  function RemoveSpaces(s: string): (r: string)
    ensures |r| <= |s|
    ensures ' ' !in r
  {
    if |s| == 0 then ""
    else if s[0] == ' ' then RemoveSpaces(s[1..])
    else [s[0]] + RemoveSpaces(s[1..])
  }

  /** A string without spaces is left as it is. */
  lemma {:induction false} RemoveSpacesOfSpaceless(s: string)
    requires ' ' !in s
    ensures RemoveSpaces(s) == s
  {
    if |s| > 0 {
      assert ' ' !in s[1..];
      RemoveSpacesOfSpaceless(s[1..]);
      assert [s[0]] + s[1..] == s;
    }
  }

  /** The longest prefix made of accidentals. */
  function AccidentalRun(s: string): (r: string)
    ensures |r| <= |s| && r == s[..|r|]
    ensures forall k :: 0 <= k < |r| ==> IsAccidental(r[k])
    ensures |r| < |s| ==> !IsAccidental(s[|r|])
  {
    if |s| == 0 || !IsAccidental(s[0]) then "" else [s[0]] + AccidentalRun(s[1..])
  }

  /**
   * The first match of [#b]*(?=[iIvV]): at the leftmost position where the
   * run of accidentals is followed by a numeral character, that run; the
   * empty string when no position qualifies.
   */
  function AccidentalsBeforeNumeral(s: string): (acc: string)
    ensures |acc| <= |s|
    ensures forall k :: 0 <= k < |acc| ==> IsAccidental(acc[k])
  {
    var run := AccidentalRun(s);
    if |run| < |s| && IsNumeral(s[|run|]) then run
    else if |s| == 0 then ""
    else AccidentalsBeforeNumeral(s[1..])
  }

  /**
   * The first match of (?<!d)[iIvV]*: a match at position 0 always exists
   * (nothing precedes it and the run may be empty), so it is the longest
   * prefix of numeral characters.
   */
  function NumeralRun(s: string): (r: string)
    ensures |r| <= |s| && r == s[..|r|]
    ensures forall k :: 0 <= k < |r| ==> IsNumeral(r[k])
    ensures |r| < |s| ==> !IsNumeral(s[|r|])
  {
    if |s| == 0 || !IsNumeral(s[0]) then "" else [s[0]] + NumeralRun(s[1..])
  }

  /** ::toupper on the numeral characters. */
  function UpperNumerals(s: string): (r: string)
    requires forall k :: 0 <= k < |s| ==> IsNumeral(s[k])
    ensures |r| == |s|
    ensures forall k :: 0 <= k < |r| ==> r[k] == 'I' || r[k] == 'V'
  {
    if |s| == 0 then ""
    else
      assert IsNumeral(s[0]);
      var rest := UpperNumerals(s[1..]);
      var r := [if s[0] == 'i' then 'I' else if s[0] == 'v' then 'V' else s[0]] + rest;
      assert forall k :: 1 <= k < |r| ==> r[k] == rest[k - 1];
      r
  }

  /** Sharps and flats of a string of accidentals account for all its characters. */
  lemma {:induction false} AccidentalsFill(s: string)
    requires forall k :: 0 <= k < |s| ==> IsAccidental(s[k])
    ensures NumberOfSharps(s) + NumberOfFlats(s) == |s|
  {
    if |s| > 0 {
      AccidentalsFill(s[1..]);
    }
  }

  /** A character missing from a string is missing from every suffix of it. */
  lemma NotInSuffix(p: string, i: nat, c: char)
    requires i <= |p| && c !in p
    ensures c !in p[i..]
  {
    forall k | 0 <= k < |p| - i
      ensures p[i..][k] != c
    {
      assert p[i..][k] == p[i + k];
    }
  }

  /**
   * The tuple parse builds from a numeral, a net accidental count and a
   * suffix: a VII written with one flat, or a VI with one sharp, becomes the
   * numeral "bVII" with no accidentals; the cleaned accidentals stay as they
   * were.
   */
  function TupleOf(numeral: string, n: int, suffix: string): ChordTuple {
    var cleaned := CleanAccidentalsAsWritten(n);
    if (numeral == "VII" && cleaned == "b") || (numeral == "VI" && cleaned == "#") then
      ChordTuple("bVII", 0, cleaned, suffix)
    else
      ChordTuple(numeral, n, cleaned, suffix)
  }

  /**
   * parse(progression): remove the spaces, count the accidentals before the
   * numeral, take the numeral run after them upper-cased, and the rest as
   * the suffix, and build the tuple from them.
   */
  function Parse(progression: string): (t: ChordTuple)
    ensures |t.cleanedAccidentals| <= 6
    ensures t.roman == "bVII" || forall k :: 0 <= k < |t.roman| ==> t.roman[k] == 'I' || t.roman[k] == 'V'
    ensures ' ' !in t.suffix
  {
    ParseSpaceless(RemoveSpaces(progression))
  }

  /** parse() on the string with its spaces removed. */
  function ParseSpaceless(p: string): (t: ChordTuple)
    requires ' ' !in p
    ensures |t.cleanedAccidentals| <= 6
    ensures t.roman == "bVII" || forall k :: 0 <= k < |t.roman| ==> t.roman[k] == 'I' || t.roman[k] == 'V'
    ensures ' ' !in t.suffix
  {
    PartsTuple(p, AccidentalsBeforeNumeral(p))
  }

  /** The tuple parse() builds once it has found the accidentals `acc` at the head of `p`. */
  function PartsTuple(p: string, acc: string): (t: ChordTuple)
    requires ' ' !in p && |acc| <= |p|
    requires forall k :: 0 <= k < |acc| ==> IsAccidental(acc[k])
    ensures |t.cleanedAccidentals| <= 6
    ensures t.roman == "bVII" || forall k :: 0 <= k < |t.roman| ==> t.roman[k] == 'I' || t.roman[k] == 'V'
    ensures ' ' !in t.suffix
  {
    AccidentalsFill(acc);
    var accidentals := NumberOfAccidentals(acc);
    var rest := p[NumberOfSharps(acc) + NumberOfFlats(acc)..];
    var roman := UpperNumerals(NumeralRun(rest));
    var suffix := p[|roman| + NumberOfSharps(acc) + NumberOfFlats(acc)..];
    NotInSuffix(p, |roman| + NumberOfSharps(acc) + NumberOfFlats(acc), ' ');
    TupleOf(roman, accidentals, suffix)
  }

  lemma {:induction false} AccidentalRunOfToken(acc: string, rest: string)
    requires forall k :: 0 <= k < |acc| ==> IsAccidental(acc[k])
    requires |rest| >= 1 && !IsAccidental(rest[0])
    ensures AccidentalRun(acc + rest) == acc
  {
    if |acc| > 0 {
      assert (acc + rest)[1..] == acc[1..] + rest;
      AccidentalRunOfToken(acc[1..], rest);
      assert [acc[0]] + acc[1..] == acc;
    }
  }

  lemma {:induction false} NumeralRunOfToken(numeral: string, suffix: string)
    requires forall k :: 0 <= k < |numeral| ==> IsNumeral(numeral[k])
    requires |suffix| == 0 || !IsNumeral(suffix[0])
    ensures NumeralRun(numeral + suffix) == numeral
  {
    if |numeral| > 0 {
      assert (numeral + suffix)[1..] == numeral[1..] + suffix;
      NumeralRunOfToken(numeral[1..], suffix);
      assert [numeral[0]] + numeral[1..] == numeral;
    } else {
      assert numeral + suffix == suffix;
    }
  }

  lemma {:induction false} UpperNumeralsOfUpper(s: string)
    requires forall k :: 0 <= k < |s| ==> s[k] == 'I' || s[k] == 'V'
    ensures UpperNumerals(s) == s
  {
    if |s| > 0 {
      UpperNumeralsOfUpper(s[1..]);
      assert [s[0]] + s[1..] == s;
    }
  }

  /** An upper-case numeral of I and V characters. */
  predicate IsUpperNumeral(numeral: string) {
    |numeral| >= 1 && forall k :: 0 <= k < |numeral| ==> numeral[k] == 'I' || numeral[k] == 'V'
  }

  lemma TokenIsSpaceless(acc: string, numeral: string, suffix: string)
    requires forall k :: 0 <= k < |acc| ==> IsAccidental(acc[k])
    requires IsUpperNumeral(numeral)
    requires ' ' !in suffix
    ensures ' ' !in acc + numeral + suffix
  {
    var s := acc + numeral + suffix;
    forall k | 0 <= k < |s|
      ensures s[k] != ' '
    {
      if k < |acc| {
        assert IsAccidental(acc[k]);
      } else if k < |acc| + |numeral| {
        assert s[k] == numeral[k - |acc|];
      } else {
        assert s[k] == suffix[k - |acc| - |numeral|];
      }
    }
  }

  /** Parse in terms of the pieces it cuts the spaceless string into. */
  lemma ParseOfParts(progression: string, p: string, acc: string, roman: string, suffix: string)
    requires p == RemoveSpaces(progression) && acc == AccidentalsBeforeNumeral(p)
    requires NumberOfSharps(acc) + NumberOfFlats(acc) <= |p|
    requires roman == UpperNumerals(NumeralRun(p[NumberOfSharps(acc) + NumberOfFlats(acc)..]))
    requires |roman| + NumberOfSharps(acc) + NumberOfFlats(acc) <= |p|
    requires suffix == p[|roman| + NumberOfSharps(acc) + NumberOfFlats(acc)..]
    ensures Parse(progression) == TupleOf(roman, NumberOfAccidentals(acc), suffix)
  {
    SpacelessOfParts(p, acc, roman, suffix);
  }

  lemma SpacelessOfParts(p: string, acc: string, roman: string, suffix: string)
    requires ' ' !in p && |acc| <= |p|
    requires forall k :: 0 <= k < |acc| ==> IsAccidental(acc[k])
    requires NumberOfSharps(acc) + NumberOfFlats(acc) <= |p|
    requires roman == UpperNumerals(NumeralRun(p[NumberOfSharps(acc) + NumberOfFlats(acc)..]))
    requires |roman| + NumberOfSharps(acc) + NumberOfFlats(acc) <= |p|
    requires suffix == p[|roman| + NumberOfSharps(acc) + NumberOfFlats(acc)..]
    ensures PartsTuple(p, acc) == TupleOf(roman, NumberOfAccidentals(acc), suffix)
  {
  }

  /**
   * parse() takes a token apart: accidentals, then an upper-case numeral,
   * then a suffix that does not start with a numeral character, give back
   * the numeral, the net accidentals and the suffix.
   */
  lemma ParseToken(acc: string, numeral: string, suffix: string)
    requires forall k :: 0 <= k < |acc| ==> IsAccidental(acc[k])
    requires IsUpperNumeral(numeral)
    requires |suffix| == 0 || !IsNumeral(suffix[0])
    requires ' ' !in suffix
    ensures Parse(acc + numeral + suffix) == TupleOf(numeral, NumberOfAccidentals(acc), suffix)
  {
    var s := acc + numeral + suffix;
    TokenIsSpaceless(acc, numeral, suffix);
    RemoveSpacesOfSpaceless(s);
    AccidentalsOfToken(acc, numeral, suffix);
    NumeralOfToken(acc, numeral, suffix);
    AccidentalsFill(acc);
    ParseOfParts(s, s, acc, numeral, suffix);
  }

  lemma AccidentalsOfToken(acc: string, numeral: string, suffix: string)
    requires forall k :: 0 <= k < |acc| ==> IsAccidental(acc[k])
    requires IsUpperNumeral(numeral)
    ensures AccidentalsBeforeNumeral(acc + numeral + suffix) == acc
  {
    var s := acc + numeral + suffix;
    assert s == acc + (numeral + suffix);
    AccidentalRunOfToken(acc, numeral + suffix);
    assert s[|acc|] == numeral[0];
  }

  lemma NumeralOfToken(acc: string, numeral: string, suffix: string)
    requires forall k :: 0 <= k < |numeral| ==> numeral[k] == 'I' || numeral[k] == 'V'
    requires |suffix| == 0 || !IsNumeral(suffix[0])
    ensures UpperNumerals(NumeralRun((acc + numeral + suffix)[|acc|..])) == numeral
    ensures (acc + numeral + suffix)[|numeral| + |acc|..] == suffix
  {
    var s := acc + numeral + suffix;
    assert s[|acc|..] == numeral + suffix;
    NumeralRunOfToken(numeral, suffix);
    UpperNumeralsOfUpper(numeral);
  }

  /** parse("I") gives (I, 0, ""). */
  lemma ParseTonic()
    ensures Parse("I").roman == "I" && Parse("I").accidentals == 0 && Parse("I").suffix == ""
  {
    ParseToken("", "I", "");
    assert "" + "I" + "" == "I";
  }

  /** parse("bIM7") gives (I, -1, "M7"): one flat before the tonic numeral, whatever the suffix. */
  lemma ParseFlatTonic(suffix: string)
    requires |suffix| == 0 || !IsNumeral(suffix[0])
    requires ' ' !in suffix
    ensures Parse("b" + "I" + suffix) == ChordTuple("I", -1, "b", suffix)
  {
    ParseToken("b", "I", suffix);
  }

  /** A flattened VII is read as the numeral "bVII" without accidentals, its cleaned accidentals kept. */
  lemma ParseFlatSeven(suffix: string)
    requires |suffix| == 0 || !IsNumeral(suffix[0])
    requires ' ' !in suffix
    ensures Parse("b" + "VII" + suffix) == ChordTuple("bVII", 0, "b", suffix)
  {
    ParseToken("b", "VII", suffix);
  }

  // ---------------------------------------------------------------------
  // intervalDiff
  // ---------------------------------------------------------------------

  /** Semitones from the degree of numeral `a` up to that of `b`, within one octave. */
  function Distance(a: string, b: string): (d: int)
    ensures 0 <= d < 12
  {
    var i := NumeralIntervals[RomanIndex(a)];
    var j := NumeralIntervals[RomanIndex(b)];
    if j < i then j + 12 - i else j - i
  }

  /** Going up the distance from `a` lands on `b`'s pitch class. */
  lemma DistanceReaches(a: string, b: string)
    ensures (NumeralIntervals[RomanIndex(a)] + Distance(a, b)) % 12 == NumeralIntervals[RomanIndex(b)]
  {
  }

  /**
   * intervalDiff(a, b, interval): the half steps that bring the distance
   * from `a` up to `b` to `interval`.
   */
  function IntervalDiffOf(a: string, b: string, interval: int): (acc: int)
    ensures Distance(a, b) + acc == interval
  {
    interval - Distance(a, b)
  }

  /** Distinct degrees lie a whole octave apart going up one way and back up the other. */
  lemma DistanceComplement(a: string, b: string)
    requires RomanIndex(a) != RomanIndex(b)
    ensures Distance(a, b) + Distance(b, a) == 12
  {
    var i := RomanIndex(a);
    var j := RomanIndex(b);
    assert NumeralIntervals[i] != NumeralIntervals[j] by {
      assert forall x, y :: 0 <= x < y < 7 ==> NumeralIntervals[x] < NumeralIntervals[y];
    }
  }

  /** Pitch class, in half steps above the tonic, of a numeral raised by `acc` half steps. */
  function PitchClass(numeral: string, acc: int): (pc: int)
    ensures 0 <= pc < 12
    ensures pc == (NumeralIntervals[RomanIndex(numeral)] + acc) % 12
  {
    (NumeralIntervals[RomanIndex(numeral)] + acc) % 12
  }

  /** Reducing mod 12 before adding does not change the class: used by the pitch-class proofs below. */
  lemma ModTwelveShift(x: int, y: int)
    ensures (x % 12 + y) % 12 == (x + y) % 12
  {
    var q := x / 12;
    assert x == 12 * q + x % 12;
    assert x + y == 12 * q + (x % 12 + y);
  }

  /** Accidentals an octave apart give the same pitch class. */
  lemma PitchClassOctave(numeral: string, x: int, y: int)
    requires (x - y) % 12 == 0
    ensures PitchClass(numeral, x) == PitchClass(numeral, y)
  {
    var n := NumeralIntervals[RomanIndex(numeral)];
    var q := (x - y) / 12;
    assert x - y == 12 * q;
    ModTwelveShift(n + y + 12 * q, 0);
    assert (n + x) % 12 == (n + y + 12 * q) % 12;
    assert (n + y + 12 * q) % 12 == (n + y) % 12;
  }

  /**
   * The accidentals intervalDiff gives put the second numeral `interval`
   * half steps above the first, whatever accidentals both share.
   */
  lemma IntervalDiffReaches(a: string, b: string, acc: int, interval: int)
    ensures PitchClass(b, acc + IntervalDiffOf(a, b, interval)) == (PitchClass(a, acc) + interval) % 12
  {
    var i := NumeralIntervals[RomanIndex(a)];
    var j := NumeralIntervals[RomanIndex(b)];
    var d := Distance(a, b);
    DistanceReaches(a, b);
    assert j == i + d || j == i + d - 12;
    ModTwelveShift(i + acc, interval);
    if j == i + d - 12 {
      ModTwelveShift(i + acc + interval - 12, 12);
    }
  }

  /** The pitch class a cleaned accidental string gives a numeral is the one the count gives. */
  lemma CleanedPitchClass(numeral: string, n: int)
    ensures PitchClass(numeral, NumberOfAccidentals(CleanAccidentals(n))) == PitchClass(numeral, n)
  {
    CleanAccidentalsOctave(n);
    PitchClassOctave(numeral, NumberOfAccidentals(CleanAccidentals(n)), n);
  }

  /** intervalDiff("V", "VII", 3) is -1 and intervalDiff("I", "VI", 9) is 0. */
  lemma IntervalDiffExamples()
    ensures IntervalDiffOf(Roman[4], Roman[6], 3) == -1
    ensures IntervalDiffOf(Roman[0], Roman[5], 9) == 0
  {
    RomanIndexOfRoman(4);
    RomanIndexOfRoman(6);
    RomanIndexOfRoman(0);
    RomanIndexOfRoman(5);
  }

  /** RomanLookup[k] on a table: the table itself when it holds k, otherwise the table with k entered as 0. */
  function Entered(table: map<string, int>, k: string): (t: map<string, int>)
    ensures k in t && table.Keys <= t.Keys
  {
    if k in table then table else table[k := 0]
  }

  // ---------------------------------------------------------------------
  // Substitution rules
  // ---------------------------------------------------------------------

  /** substituteHarmonic's table of interchangeable numerals, in order. */
  const HarmonicPairs: seq<(string, string)> :=
    [("I", "III"), ("I", "VI"), ("IV", "II"), ("IV", "VI"), ("V", "VII")]

  /** The other side of a pair holding `roman`, or "" when the pair does not hold it. */
  function Partner(pair: (string, string), roman: string): (p: string)
    ensures p != "" ==> roman == pair.0 || roman == pair.1
  {
    if roman == pair.0 then pair.1 else if roman == pair.1 then pair.0 else ""
  }

  /** The substitutes the pairs give for a parsed chord function, in the pairs' order. */
  function HarmonicSubstitutes(t: ChordTuple, pairs: seq<(string, string)>): (r: seq<string>)
    ensures |r| <= |pairs|
  {
    if |pairs| == 0 then []
    else
      var p := Partner(pairs[|pairs| - 1], t.roman);
      HarmonicSubstitutes(t, pairs[..|pairs| - 1]) + (if p != "" then [t.cleanedAccidentals + p + t.suffix] else [])
  }

  /** The partner numerals of `roman` in the pairs, in order. */
  function Partners(roman: string, pairs: seq<(string, string)>): (r: seq<string>)
    ensures |r| <= |pairs|
  {
    if |pairs| == 0 then []
    else
      var p := Partner(pairs[|pairs| - 1], roman);
      Partners(roman, pairs[..|pairs| - 1]) + (if p != "" then [p] else [])
  }

  /** Each substitute is the cleaned accidentals, one partner numeral and the suffix. */
  lemma {:induction false} SubstitutesArePartners(t: ChordTuple, pairs: seq<(string, string)>)
    ensures |HarmonicSubstitutes(t, pairs)| == |Partners(t.roman, pairs)|
    ensures forall k :: 0 <= k < |Partners(t.roman, pairs)| ==>
              HarmonicSubstitutes(t, pairs)[k] == t.cleanedAccidentals + Partners(t.roman, pairs)[k] + t.suffix
  {
    if |pairs| > 0 {
      SubstitutesArePartners(t, pairs[..|pairs| - 1]);
    }
  }

  /** Whether the pairs of a table hold `x` together with `y`. */
  predicate Paired(x: string, y: string, pairs: seq<(string, string)>) {
    exists k :: 0 <= k < |pairs| && ((pairs[k].0 == x && pairs[k].1 == y) || (pairs[k].0 == y && pairs[k].1 == x))
  }

  /** `y` is a partner of `x` exactly when some pair holds the two; so the relation is symmetric. */
  lemma {:induction false} PartnersArePaired(x: string, y: string, pairs: seq<(string, string)>)
    requires y != "" && x != ""
    requires forall k :: 0 <= k < |pairs| ==> pairs[k].0 != pairs[k].1
    ensures y in Partners(x, pairs) <==> Paired(x, y, pairs)
  {
    if |pairs| > 0 {
      var init := pairs[..|pairs| - 1];
      PartnersArePaired(x, y, init);
      var last := pairs[|pairs| - 1];
      if Paired(x, y, pairs) && !Paired(x, y, init) {
        var k :| 0 <= k < |pairs| && ((pairs[k].0 == x && pairs[k].1 == y) || (pairs[k].0 == y && pairs[k].1 == x));
        assert forall i :: 0 <= i < |init| ==> init[i] == pairs[i];
        assert k == |pairs| - 1;
      }
      if Paired(x, y, init) {
        var k :| 0 <= k < |init| && ((init[k].0 == x && init[k].1 == y) || (init[k].0 == y && init[k].1 == x));
        assert pairs[k] == init[k];
      }
    }
  }

  /** substituteHarmonic applies to a plain or seventh chord, or to any chord when told to ignore the suffix. */
  predicate HarmonicApplies(t: ChordTuple, ignoreSuffix: bool) {
    t.suffix == "" || t.suffix == "7" || ignoreSuffix
  }

  /** What substituteHarmonic returns. */
  function HarmonicSubstitution(chordFunction: string, ignoreSuffix: bool): (r: seq<string>)
    ensures |r| <= 5
    ensures |r| > 0 ==> HarmonicApplies(Parse(chordFunction), ignoreSuffix)
  {
    var t := Parse(chordFunction);
    if HarmonicApplies(t, ignoreSuffix) then HarmonicSubstitutes(t, HarmonicPairs) else []
  }

  /** The substitutes of the first s + 1 pairs: those of the first s, then the partner in pair s, if any. */
  lemma HarmonicSubstitutesStep(t: ChordTuple, pairs: seq<(string, string)>, s: nat)
    requires s < |pairs|
    ensures var p := Partner(pairs[s], t.roman);
            HarmonicSubstitutes(t, pairs[..s + 1]) ==
            HarmonicSubstitutes(t, pairs[..s]) + (if p != "" then [t.cleanedAccidentals + p + t.suffix] else [])
  {
    assert pairs[..s + 1][..s] == pairs[..s];
  }

  /** substituteHarmonic's loop over its table: each pair holding the numeral contributes its other side. */
  method SubstitutePairs(t: ChordTuple, pairs: seq<(string, string)>) returns (result: seq<string>)
    ensures result == HarmonicSubstitutes(t, pairs)
  {
    result := [];
    for s := 0 to |pairs|
      invariant result == HarmonicSubstitutes(t, pairs[..s])
    {
      var substitute := "";
      if t.roman == pairs[s].0 {
        substitute := pairs[s].1;
      } else if t.roman == pairs[s].1 {
        substitute := pairs[s].0;
      }
      if substitute != "" {
        result := result + [t.cleanedAccidentals + substitute + t.suffix];
      }
      HarmonicSubstitutesStep(t, pairs, s);
    }
    assert pairs[..|pairs|] == pairs;
  }

  /**
   * substituteHarmonic(chordFunction, ignore_suffix): each numeral the
   * table pairs with the parsed one, with the accidentals and suffix kept.
   */
  method SubstituteHarmonic(chordFunction: string, ignoreSuffix: bool) returns (result: seq<string>)
    ensures result == HarmonicSubstitution(chordFunction, ignoreSuffix)
  {
    var t := Parse(chordFunction);
    result := [];
    if HarmonicApplies(t, ignoreSuffix) {
      result := SubstitutePairs(t, HarmonicPairs);
    }
  }

  /** The partner relation of substituteHarmonic's table is symmetric. */
  lemma HarmonicPartnersSymmetric(x: string, y: string)
    requires x != "" && y != ""
    ensures y in Partners(x, HarmonicPairs) <==> x in Partners(y, HarmonicPairs)
  {
    assert forall k :: 0 <= k < |HarmonicPairs| ==> HarmonicPairs[k].0 != HarmonicPairs[k].1;
    PartnersArePaired(x, y, HarmonicPairs);
    PartnersArePaired(y, x, HarmonicPairs);
  }

  /** IV pairs with II and VI, in that order. */
  lemma PartnersOfFour()
    ensures Partners("IV", HarmonicPairs) == ["II", "VI"]
  {
    assert HarmonicPairs[..5] == HarmonicPairs;
    assert HarmonicPairs[..5][..4] == HarmonicPairs[..4];
    assert HarmonicPairs[..4][..3] == HarmonicPairs[..3];
    assert HarmonicPairs[..3][..2] == HarmonicPairs[..2];
    assert HarmonicPairs[..2][..1] == HarmonicPairs[..1];
    assert HarmonicPairs[..1][..0] == [];
    assert Partners("IV", HarmonicPairs[..2]) == [];
  }

  /** "IV7" gives ["II7", "VI7"]. */
  lemma HarmonicOfFourSeven()
    ensures HarmonicSubstitution("" + "IV" + "7", false) == ["II" + "7", "VI" + "7"]
  {
    ParseToken("", "IV", "7");
    var t := ChordTuple("IV", 0, "", "7");
    PartnersOfFour();
    SubstitutesArePartners(t, HarmonicPairs);
    assert "" + "II" + "7" == "II" + "7";
    assert "" + "VI" + "7" == "VI" + "7";
  }

  /** substituteMinorForMajor applies to "m" and "m7" chords, to plain II, III and VI, or to any chord when told to ignore the suffix. */
  predicate MinorApplies(t: ChordTuple, ignoreSuffix: bool) {
    t.suffix == "m" || t.suffix == "m7" ||
    (t.suffix == "" && (t.roman == "II" || t.roman == "III" || t.roman == "VI")) || ignoreSuffix
  }

  /** substituteMajorForMinor applies to "M" and "M7" chords, to plain I, IV and V, or to any chord when told to ignore the suffix. */
  predicate MajorApplies(t: ChordTuple, ignoreSuffix: bool) {
    t.suffix == "M" || t.suffix == "M7" ||
    (t.suffix == "" && (t.roman == "I" || t.roman == "IV" || t.roman == "V")) || ignoreSuffix
  }

  /** push_back(x) when the condition holds. */
  function AppendIf(s: seq<string>, condition: bool, x: string): (r: seq<string>)
    ensures |r| == if condition then |s| + 1 else |s|
  {
    if condition then s + [x] else s
  }

  /**
   * The chords one relative substitution pushes for a chord whose suffix is
   * `suffix`, in order: `from` gives `to`, `fromSeventh` gives `toSeventh`,
   * and a bare chord a bare chord; ignoring the suffix pushes all three.
   */
  function RelativeChords(chord: string, suffix: string, ignoreSuffix: bool,
                          from: string, fromSeventh: string, to: string, toSeventh: string): (r: seq<string>)
    ensures |r| <= 3
    ensures ignoreSuffix ==> |r| == 3
  {
    var withMain := AppendIf([], suffix == from || ignoreSuffix, chord + to);
    var withSeventh := AppendIf(withMain, suffix == fromSeventh || ignoreSuffix, chord + toSeventh);
    AppendIf(withSeventh, suffix == "" || ignoreSuffix, chord)
  }

  /**
   * The numeral `steps` degrees up from `t`'s, with its accidentals
   * corrected so that it lies `interval` semitones above.
   */
  function RelativeChord(t: ChordTuple, steps: nat, interval: int): string {
    var newRoman := NumeralAbove(t.roman, steps);
    CleanAccidentalsAsWritten(IntervalDiffOf(t.roman, newRoman, interval) + t.accidentals) + newRoman
  }

  /** The numeral `steps` degrees above `roman`'s, wrapping round the seven degrees. */
  function NumeralAbove(roman: string, steps: nat): (r: string)
    ensures r in Roman
  {
    Roman[(RomanIndex(roman) + steps) % 7]
  }

  /** The numeral and the accidental count computed step by step give RelativeChord. */
  lemma RelativeChordOf(t: ChordTuple, steps: nat, interval: int, newRoman: string, a: int)
    requires newRoman == NumeralAbove(t.roman, steps)
    requires a == IntervalDiffOf(t.roman, newRoman, interval) + t.accidentals
    ensures CleanAccidentalsAsWritten(a) + newRoman == RelativeChord(t, steps, interval)
  {
  }

  /** The relative substitution of `t`. */
  function Relative(t: ChordTuple, ignoreSuffix: bool, steps: nat, interval: int,
                    from: string, fromSeventh: string, to: string, toSeventh: string): (r: seq<string>)
    ensures |r| <= 3
    ensures ignoreSuffix ==> |r| == 3
  {
    RelativeChords(RelativeChord(t, steps, interval), t.suffix, ignoreSuffix, from, fromSeventh, to, toSeventh)
  }

  /** What substituteMinorForMajor returns: the relative major, a third up. */
  function MinorForMajor(chordFunction: string, ignoreSuffix: bool): (r: seq<string>)
    ensures |r| <= 3
    ensures |r| > 0 <==> MinorApplies(Parse(chordFunction), ignoreSuffix)
  {
    var t := Parse(chordFunction);
    if MinorApplies(t, ignoreSuffix) then Relative(t, ignoreSuffix, 2, 3, "m", "m7", "M", "M7") else []
  }

  /** What substituteMajorForMinor returns: the relative minor, a sixth up. */
  function MajorForMinor(chordFunction: string, ignoreSuffix: bool): (r: seq<string>)
    ensures |r| <= 3
    ensures |r| > 0 <==> MajorApplies(Parse(chordFunction), ignoreSuffix)
  {
    var t := Parse(chordFunction);
    if MajorApplies(t, ignoreSuffix) then Relative(t, ignoreSuffix, 5, 9, "M", "M7", "m", "m7") else []
  }

  /** Each of the seven numerals is an upper-case run of I and V. */
  lemma RomanIsUpper(i: nat)
    requires i < 7
    ensures IsUpperNumeral(Roman[i])
  {
    if i == 0 {
    } else if i == 1 {
    } else if i == 2 {
    } else if i == 3 {
    } else if i == 4 {
    } else if i == 5 {
    } else {
    }
  }

  /**
   * Five degrees up is a major sixth, or a minor sixth from III, VI and
   * VII, whose sixths (I, IV, V) are never VI: the relative minor needs no
   * accidental, or one sharp on a numeral other than VI.
   */
  lemma SixthUp(i: nat)
    requires i < 7
    ensures var d := IntervalDiffOf(Roman[i], Roman[(i + 5) % 7], 9);
            d == 0 || (d == 1 && Roman[(i + 5) % 7] != "VI")
  {
    RomanIndexOfRoman(i);
    RomanIndexOfRoman((i + 5) % 7);
    if i == 2 {
      assert Roman[(i + 5) % 7] == Roman[0];
    } else if i == 5 {
      assert Roman[(i + 5) % 7] == Roman[3];
    } else if i == 6 {
      assert Roman[(i + 5) % 7] == Roman[4];
    }
  }

  /** parse() keeps the numeral as read unless it is a flattened VII or a sharpened VI. */
  lemma TupleOfPlain(numeral: string, n: int, suffix: string)
    requires CleanAccidentalsAsWritten(n) == "" || (CleanAccidentalsAsWritten(n) == "#" && numeral != "VI")
    ensures TupleOf(numeral, n, suffix) == ChordTuple(numeral, n, CleanAccidentalsAsWritten(n), suffix)
  {
  }

  /** A major seventh chord has exactly one substitute: the relative minor seventh, a sixth up. */
  lemma MajorForMinorOfMajorSeventh(acc: string, numeral: string)
    requires forall k :: 0 <= k < |acc| ==> IsAccidental(acc[k])
    requires IsUpperNumeral(numeral)
    ensures MajorForMinor(acc + numeral + "M7", false) ==
            [RelativeChord(TupleOf(numeral, NumberOfAccidentals(acc), "M7"), 5, 9) + "m7"]
  {
    ParseToken(acc, numeral, "M7");
  }

  /** A minor seventh chord has exactly one substitute: the relative major seventh, a third up. */
  lemma MinorForMajorOfMinorSeventh(acc: string, numeral: string)
    requires forall k :: 0 <= k < |acc| ==> IsAccidental(acc[k])
    requires IsUpperNumeral(numeral)
    ensures MinorForMajor(acc + numeral + "m7", false) ==
            [RelativeChord(TupleOf(numeral, NumberOfAccidentals(acc), "m7"), 2, 3) + "M7"]
  {
    ParseToken(acc, numeral, "m7");
  }

  /** The relative chord of a chord on degree i lies on degree i + steps. */
  lemma RelativeChordOfDegree(i: nat, t: ChordTuple, steps: nat, interval: int)
    requires i < 7 && t.roman == Roman[i]
    ensures var j := (i + steps) % 7;
            RelativeChord(t, steps, interval) ==
            CleanAccidentalsAsWritten(IntervalDiffOf(Roman[i], Roman[j], interval) + t.accidentals) + Roman[j]
  {
    RomanIndexOfRoman(i);
    var j := (i + steps) % 7;
    RelativeChordOf(t, steps, interval, Roman[j], IntervalDiffOf(Roman[i], Roman[j], interval) + t.accidentals);
  }

  /** A sixth up and a third up come back to the same degree. */
  lemma SixthThenThird(i: nat)
    requires i < 7
    ensures ((i + 5) % 7 + 2) % 7 == i
  {
    if i < 2 {
    } else {
      assert (i + 5) % 7 == i - 2;
    }
  }

  /** No accidentals written before a numeral leave it as it is; the example lemmas below need this string identity spelled out. */
  lemma EmptyPrefix(s: string)
    ensures "" + s == s
  {
  }

  /** The relative minor of the major seventh chord on degree i: five degrees up, at most one sharp. */
  lemma RelativeMinorOfDegree(i: nat)
    requires i < 7
    ensures var j := (i + 5) % 7;
            MajorForMinor(Roman[i] + "M7", false) ==
            [CleanAccidentalsAsWritten(IntervalDiffOf(Roman[i], Roman[j], 9)) + Roman[j] + "m7"]
  {
    RomanIsUpper(i);
    EmptyPrefix(Roman[i]);
    MajorForMinorOfMajorSeventh("", Roman[i]);
    TupleOfPlain(Roman[i], 0, "M7");
    RelativeChordOfDegree(i, TupleOf(Roman[i], 0, "M7"), 5, 9);
  }

  /** No accidental is written as nothing, one as a single sharp. */
  lemma CleanZeroAndOne()
    ensures CleanAccidentalsAsWritten(0) == ""
    ensures CleanAccidentalsAsWritten(1) == "#"
  {
  }

  /** The relative major of a minor seventh chord on degree j, parsed as `t`: two degrees up. */
  lemma RelativeMajorOfParsed(acc: string, j: nat, t: ChordTuple)
    requires j < 7
    requires forall k :: 0 <= k < |acc| ==> IsAccidental(acc[k])
    requires t == TupleOf(Roman[j], NumberOfAccidentals(acc), "m7") && t.roman == Roman[j]
    ensures var up := NumeralAbove(Roman[j], 2);
            MinorForMajor(acc + Roman[j] + "m7", false) ==
            [CleanAccidentalsAsWritten(IntervalDiffOf(Roman[j], up, 3) + t.accidentals) + up + "M7"]
  {
    RomanIsUpper(j);
    var numeral := Roman[j];
    MinorForMajorOfMinorSeventh(acc, numeral);
  }

  /** Two degrees above degree j lies degree (j + 2) mod 7. */
  lemma NumeralTwoAbove(j: nat)
    requires j < 7
    ensures NumeralAbove(Roman[j], 2) == Roman[(j + 2) % 7]
  {
    RomanIndexOfRoman(j);
  }

  /** The relative major of a minor seventh chord on degree j without accidentals: two degrees up. */
  lemma RelativeMajorOfNatural(j: nat)
    requires j < 7
    ensures var i := (j + 2) % 7;
            MinorForMajor(Roman[j] + "m7", false) ==
            [CleanAccidentalsAsWritten(IntervalDiffOf(Roman[j], Roman[i], 3)) + Roman[i] + "M7"]
  {
    EmptyPrefix(Roman[j]);
    CleanZeroAndOne();
    TupleOfPlain(Roman[j], 0, "m7");
    RelativeMajorOfParsed("", j, TupleOf(Roman[j], 0, "m7"));
    NumeralTwoAbove(j);
  }

  /** The relative major of a minor seventh chord on a sharpened degree j other than VI: two degrees up. */
  lemma RelativeMajorOfSharp(j: nat)
    requires j < 7 && Roman[j] != "VI"
    ensures var i := (j + 2) % 7;
            MinorForMajor("#" + Roman[j] + "m7", false) ==
            [CleanAccidentalsAsWritten(IntervalDiffOf(Roman[j], Roman[i], 3) + 1) + Roman[i] + "M7"]
  {
    CleanZeroAndOne();
    assert NumberOfAccidentals("#") == 1;
    TupleOfPlain(Roman[j], 1, "m7");
    RelativeMajorOfParsed("#", j, TupleOf(Roman[j], 1, "m7"));
    NumeralTwoAbove(j);
  }

  /**
   * Taking the relative minor of a major seventh chord on any of the seven
   * degrees, then the relative major of that, gives the chord back.
   */
  lemma RelativeRoundTrip(i: nat)
    requires i < 7
    ensures |MajorForMinor(Roman[i] + "M7", false)| == 1
    ensures MinorForMajor(MajorForMinor(Roman[i] + "M7", false)[0], false) == [Roman[i] + "M7"]
  {
    var j := (i + 5) % 7;
    var d := IntervalDiffOf(Roman[i], Roman[j], 9);
    RelativeMinorOfDegree(i);
    SixthUp(i);
    CleanZeroAndOne();
    if d == 0 {
      EmptyPrefix(Roman[j]);
      RelativeMajorOfNatural(j);
    } else {
      RelativeMajorOfSharp(j);
    }
    SixthThenThird(i);
    RomanIndexOfRoman(i);
    RomanIndexOfRoman(j);
    DistanceComplement(Roman[i], Roman[j]);
    assert IntervalDiffOf(Roman[j], Roman[i], 3) + d == 0;
    EmptyPrefix(Roman[i]);
  }

  /** substituteMinorForMajor("VI") is ["I"]: a plain VI counts as minor, and its relative major is I. */
  lemma MinorForMajorOfSixth(vi: string, i: string)
    requires vi == Roman[5] && i == Roman[0]
    ensures MinorForMajor(vi, false) == [i]
  {
    EmptyPrefix(vi);
    assert "" + vi + "" == vi;
    RomanIsUpper(5);
    ParseToken("", vi, "");
    CleanZeroAndOne();
    TupleOfPlain(vi, 0, "");
    var t := ChordTuple(vi, 0, "", "");
    assert Parse(vi) == t;
    RelativeChordOfDegree(5, t, 2, 3);
    assert (5 + 2) % 7 == 0;
    assert IntervalDiffOf(vi, i, 3) == 0 by {
      RomanIndexOfRoman(5);
      RomanIndexOfRoman(0);
    }
    assert RelativeChord(t, 2, 3) == "" + i;
    EmptyPrefix(i);
  }

  /** substituteMinorForMajor("Vm") is ["bVIIM"]: a minor third above V is the flattened VII. */
  lemma MinorForMajorOfMinorFifth(v: string, vii: string)
    requires v == Roman[4] && vii == Roman[6]
    ensures MinorForMajor(v + "m", false) == ["b" + vii + "M"]
  {
    EmptyPrefix(v);
    RomanIsUpper(4);
    ParseToken("", v, "m");
    CleanZeroAndOne();
    TupleOfPlain(v, 0, "m");
    RelativeChordOfDegree(4, ChordTuple(v, 0, "", "m"), 2, 3);
    RomanIndexOfRoman(4);
    RomanIndexOfRoman(6);
    CleanMinusOne();
  }

  /** substituteMinorForMajor("VIm7") is ["IM7"]. */
  lemma MinorForMajorOfSixthSeventh(vi: string, i: string)
    requires vi == Roman[5] && i == Roman[0]
    ensures MinorForMajor(vi + "m7", false) == [i + "M7"]
  {
    RelativeMajorOfNatural(5);
    assert (5 + 2) % 7 == 0;
    assert MinorForMajor(vi + "m7", false) == [CleanAccidentalsAsWritten(IntervalDiffOf(vi, i, 3)) + i + "M7"];
    assert IntervalDiffOf(vi, i, 3) == 0 by {
      RomanIndexOfRoman(5);
      RomanIndexOfRoman(0);
    }
    CleanZeroAndOne();
    EmptyPrefix(i);
  }

  /** substituteMajorForMinor("I") is ["VI"]: a plain I counts as major, and its relative minor is VI. */
  lemma MajorForMinorOfTonic(i: string, vi: string)
    requires i == Roman[0] && vi == Roman[5]
    ensures MajorForMinor(i, false) == [vi]
  {
    EmptyPrefix(i);
    assert "" + i + "" == i;
    RomanIsUpper(0);
    ParseToken("", i, "");
    CleanZeroAndOne();
    TupleOfPlain(i, 0, "");
    var t := ChordTuple(i, 0, "", "");
    assert Parse(i) == t;
    RelativeChordOfDegree(0, t, 5, 9);
    assert (0 + 5) % 7 == 5;
    assert IntervalDiffOf(i, vi, 9) == 0 by {
      RomanIndexOfRoman(0);
      RomanIndexOfRoman(5);
    }
    assert RelativeChord(t, 5, 9) == "" + vi;
    EmptyPrefix(vi);
  }

  /** substituteMajorForMinor("VM7") is ["IIIm7"]. */
  lemma MajorForMinorOfFifthSeventh(v: string, iii: string)
    requires v == Roman[4] && iii == Roman[2]
    ensures MajorForMinor(v + "M7", false) == [iii + "m7"]
  {
    RelativeMinorOfDegree(4);
    assert (4 + 5) % 7 == 2;
    assert MajorForMinor(v + "M7", false) == [CleanAccidentalsAsWritten(IntervalDiffOf(v, iii, 9)) + iii + "m7"];
    assert IntervalDiffOf(v, iii, 9) == 0 by {
      RomanIndexOfRoman(4);
      RomanIndexOfRoman(2);
    }
    CleanZeroAndOne();
    EmptyPrefix(iii);
  }

  /** substituteDiminishedForDiminished and substituteDiminishedForDominant apply to "dim", "dim7" and plain VII chords. */
  predicate DiminishedApplies(t: ChordTuple, ignoreSuffix: bool) {
    t.suffix == "dim7" || t.suffix == "dim" || (t.suffix == "" && t.roman == "VII") || ignoreSuffix
  }

  /** The numeral a third above `last`. */
  function ThirdAbove(last: string): string {
    Roman[(RomanIndex(last) + 2) % 7]
  }

  /** Accidentals `a` corrected so that the numeral a third above lies a minor third above `last`. */
  function ThirdAboveAccidentals(last: string, a: int): int {
    a + IntervalDiffOf(last, ThirdAbove(last), 3)
  }

  /** The numeral a sixth above `last`. */
  function SixthAbove(last: string): string {
    Roman[(RomanIndex(last) + 5) % 7]
  }

  /** Accidentals `a` corrected so that the numeral a sixth above lies a minor sixth above `last`. */
  function SixthAboveAccidentals(last: string, a: int): int {
    a + IntervalDiffOf(last, SixthAbove(last), 8)
  }

  /**
   * n diminished chords, each a third above the last; the accidentals
   * accumulate so that each lies a minor third above the one before.
   */
  function DiminishedChain(last: string, a: int, suffix: string, n: nat): (r: seq<string>)
    ensures |r| == n
    decreases n
  {
    if n == 0 then []
    else
      var next := ThirdAbove(last);
      var a' := ThirdAboveAccidentals(last, a);
      [CleanAccidentalsAsWritten(a') + next + suffix] + DiminishedChain(next, a', suffix, n - 1)
  }

  /** What substituteDiminishedForDiminished returns; a bare chord counts as "dim". */
  function DiminishedForDiminished(chordFunction: string, ignoreSuffix: bool): (r: seq<string>)
    ensures |r| == 0 || |r| == 3
    ensures |r| == 3 <==> DiminishedApplies(Parse(chordFunction), ignoreSuffix)
  {
    var t := Parse(chordFunction);
    if DiminishedApplies(t, ignoreSuffix) then
      DiminishedChain(t.roman, t.accidentals, if t.suffix == "" then "dim" else t.suffix, 3)
    else []
  }

  /** The dominant seventh a minor sixth above `last` with accidentals `a`. */
  function DominantSeventh(last: string, a: int): string {
    CleanAccidentalsAsWritten(SixthAboveAccidentals(last, a)) + SixthAbove(last) + "dom7"
  }

  /**
   * The chords substituteDiminishedForDominant writes as the code stands: for
   * each numeral of the diminished chain, the dominant seventh a minor sixth
   * above that numeral carrying the input's accidentals `a`, not the
   * accidentals the chain has built up.
   */
  function DominantChainAsWritten(last: string, a: int, n: nat): (r: seq<string>)
    ensures |r| == n
    decreases n
  {
    if n == 0 then []
    else [DominantSeventh(last, a)] + DominantChainAsWritten(ThirdAbove(last), a, n - 1)
  }

  /**
   * The dominant chain as evidently intended: n dominant seventh chords,
   * one a minor sixth above each chord of the diminished chain that starts
   * at `last` with accidentals `a`, that chord's accumulated accidentals
   * included; the dominant whose third, fifth, seventh and flat ninth make
   * up the diminished chord. substituteDiminishedForDominant itself is
   * DominantChainAsWritten.
   */
  function DominantChain(last: string, a: int, n: nat): (r: seq<string>)
    ensures |r| == n
    decreases n
  {
    if n == 0 then []
    else [DominantSeventh(last, a)] + DominantChain(ThirdAbove(last), ThirdAboveAccidentals(last, a), n - 1)
  }

  /**
   * What substituteDiminishedForDominant returns: four dominant sevenths
   * over the numerals of the diminished chain, each with the input's own
   * accidentals.
   */
  function DiminishedForDominant(chordFunction: string, ignoreSuffix: bool): (r: seq<string>)
    ensures |r| == 0 || |r| == 4
    ensures |r| == 4 <==> DiminishedApplies(Parse(chordFunction), ignoreSuffix)
  {
    var t := Parse(chordFunction);
    if DiminishedApplies(t, ignoreSuffix) then DominantChainAsWritten(t.roman, t.accidentals, 4) else []
  }

  /** The first chord of a diminished chain, and the chain that follows it. */
  lemma DiminishedChainStep(last: string, a: int, suffix: string, n: nat, chord: string, next: string, a': int)
    requires n > 0
    requires next == ThirdAbove(last)
    requires a' == ThirdAboveAccidentals(last, a)
    requires chord == CleanAccidentalsAsWritten(a') + next + suffix
    ensures DiminishedChain(last, a, suffix, n) == [chord] + DiminishedChain(next, a', suffix, n - 1)
  {
  }

  /** The first chord of a dominant chain, and the chain that follows it. */
  lemma DominantChainStep(last: string, a: int, n: nat, chord: string, next: string, a': int)
    requires n > 0
    requires next == ThirdAbove(last)
    requires a' == ThirdAboveAccidentals(last, a)
    requires chord == DominantSeventh(last, a)
    ensures DominantChain(last, a, n) == [chord] + DominantChain(next, a', n - 1)
  {
  }

  /**
   * The numeral a third above, with the adjusted count, lies a minor third
   * above `last` with accidentals `a`; written back by cleanAccidentals it
   * still does while the count is within six either way, and always does
   * when written back by the corrected cleaning.
   */
  lemma ThirdAboveIsMinorThird(last: string, a: int)
    ensures PitchClass(ThirdAbove(last), ThirdAboveAccidentals(last, a)) == (PitchClass(last, a) + 3) % 12
    ensures -6 <= ThirdAboveAccidentals(last, a) <= 6 ==>
            PitchClass(ThirdAbove(last), NumberOfAccidentals(CleanAccidentalsAsWritten(ThirdAboveAccidentals(last, a)))) ==
            (PitchClass(last, a) + 3) % 12
    ensures PitchClass(ThirdAbove(last), NumberOfAccidentals(CleanAccidentals(ThirdAboveAccidentals(last, a)))) ==
            (PitchClass(last, a) + 3) % 12
  {
    IntervalDiffReaches(last, ThirdAbove(last), a, 3);
    CleanedPitchClass(ThirdAbove(last), ThirdAboveAccidentals(last, a));
  }

  /**
   * The numeral a sixth above, with the adjusted count, lies a minor sixth
   * above `last` with accidentals `a`; written back by cleanAccidentals it
   * still does while the count is within six either way, and always does
   * when written back by the corrected cleaning.
   */
  lemma SixthAboveIsMinorSixth(last: string, a: int)
    ensures PitchClass(SixthAbove(last), SixthAboveAccidentals(last, a)) == (PitchClass(last, a) + 8) % 12
    ensures -6 <= SixthAboveAccidentals(last, a) <= 6 ==>
            PitchClass(SixthAbove(last), NumberOfAccidentals(CleanAccidentalsAsWritten(SixthAboveAccidentals(last, a)))) ==
            (PitchClass(last, a) + 8) % 12
    ensures PitchClass(SixthAbove(last), NumberOfAccidentals(CleanAccidentals(SixthAboveAccidentals(last, a)))) ==
            (PitchClass(last, a) + 8) % 12
  {
    IntervalDiffReaches(last, SixthAbove(last), a, 8);
    CleanedPitchClass(SixthAbove(last), SixthAboveAccidentals(last, a));
  }

  /**
   * Each chord of a diminished chain carries the count that puts it a minor
   * third above the chord before it, and the chain goes on from there with
   * that count; as written back it lies a minor third above while the count
   * stays within six either way.
   */
  lemma DiminishedChainRisesByMinorThirds(last: string, a: int, suffix: string, n: nat)
    requires n > 0
    ensures DiminishedChain(last, a, suffix, n) ==
            [CleanAccidentalsAsWritten(ThirdAboveAccidentals(last, a)) + ThirdAbove(last) + suffix] +
            DiminishedChain(ThirdAbove(last), ThirdAboveAccidentals(last, a), suffix, n - 1)
    ensures PitchClass(ThirdAbove(last), ThirdAboveAccidentals(last, a)) == (PitchClass(last, a) + 3) % 12
    ensures -6 <= ThirdAboveAccidentals(last, a) <= 6 ==>
            PitchClass(ThirdAbove(last), NumberOfAccidentals(CleanAccidentalsAsWritten(ThirdAboveAccidentals(last, a)))) ==
            (PitchClass(last, a) + 3) % 12
  {
    var next := ThirdAbove(last);
    var a' := ThirdAboveAccidentals(last, a);
    DiminishedChainStep(last, a, suffix, n, CleanAccidentalsAsWritten(a') + next + suffix, next, a');
    ThirdAboveIsMinorThird(last, a);
  }

  /**
   * In the corrected chain each dominant seventh carries the count that puts
   * it a minor sixth above the diminished chord it stands for, and the next
   * one stands for the next chord of the diminished chain, with that
   * chord's accidentals.
   */
  lemma DominantChainRisesByMinorSixths(last: string, a: int, n: nat)
    requires n > 0
    ensures DominantChain(last, a, n) ==
            [DominantSeventh(last, a)] + DominantChain(ThirdAbove(last), ThirdAboveAccidentals(last, a), n - 1)
    ensures DominantSeventh(last, a) == CleanAccidentalsAsWritten(SixthAboveAccidentals(last, a)) + SixthAbove(last) + "dom7"
    ensures PitchClass(SixthAbove(last), SixthAboveAccidentals(last, a)) == (PitchClass(last, a) + 8) % 12
    ensures -6 <= SixthAboveAccidentals(last, a) <= 6 ==>
            PitchClass(SixthAbove(last), NumberOfAccidentals(CleanAccidentalsAsWritten(SixthAboveAccidentals(last, a)))) ==
            (PitchClass(last, a) + 8) % 12
  {
    DominantChainStep(last, a, n, DominantSeventh(last, a), ThirdAbove(last), ThirdAboveAccidentals(last, a));
    SixthAboveIsMinorSixth(last, a);
  }

  /** The first chord of the dominant chain as written, and the chain that follows it. */
  lemma DominantChainAsWrittenStep(last: string, a: int, n: nat)
    requires n > 0
    ensures DominantChainAsWritten(last, a, n) == [DominantSeventh(last, a)] + DominantChainAsWritten(ThirdAbove(last), a, n - 1)
  {
  }

  /**
   * As the code stands, each dominant seventh lies a minor sixth above the
   * numeral of the diminished chain it stands for raised by the input's
   * accidentals `a` alone, and the next one stands for the next numeral of
   * the chain, again with `a`.
   */
  lemma DominantChainAsWrittenRisesByMinorSixths(last: string, a: int, n: nat)
    requires n > 0
    ensures DominantChainAsWritten(last, a, n) ==
            [DominantSeventh(last, a)] + DominantChainAsWritten(ThirdAbove(last), a, n - 1)
    ensures DominantSeventh(last, a) == CleanAccidentalsAsWritten(SixthAboveAccidentals(last, a)) + SixthAbove(last) + "dom7"
    ensures PitchClass(SixthAbove(last), SixthAboveAccidentals(last, a)) == (PitchClass(last, a) + 8) % 12
    ensures -6 <= SixthAboveAccidentals(last, a) <= 6 ==>
            PitchClass(SixthAbove(last), NumberOfAccidentals(CleanAccidentalsAsWritten(SixthAboveAccidentals(last, a)))) ==
            (PitchClass(last, a) + 8) % 12
  {
    DominantChainAsWrittenStep(last, a, n);
    SixthAboveIsMinorSixth(last, a);
  }

  /** Four single-chord steps and an empty tail make a four-chord chain; proved apart so the chain lemmas need not unfold sequence displays. */
  lemma FourChords(s: seq<string>, t: seq<string>, u: seq<string>, v: seq<string>, w: seq<string>, a: string, b: string, c: string, d: string)
    requires s == [a] + t && t == [b] + u && u == [c] + v && v == [d] + w && |w| == 0
    ensures s == [a, b, c, d]
  {
  }

  /** Three single-chord steps and an empty tail make a three-chord chain; proved apart for the same reason. */
  lemma ThreeChords(s: seq<string>, t: seq<string>, u: seq<string>, v: seq<string>, a: string, b: string, c: string)
    requires s == [a] + t && t == [b] + u && u == [c] + v && |v| == 0
    ensures s == [a, b, c]
  {
  }

  /** The numerals VII, II, IV and VI of the lookup table. */
  predicate SeventhSecondFourthSixth(vii: string, ii: string, iv: string, vi: string) {
    vii == Roman[6] && ii == Roman[1] && iv == Roman[3] && vi == Roman[5]
  }

  /** The diminished chain on VII: II, IV, then VI lowered by one half step. */
  lemma ThirdsFromSeventh(vii: string, ii: string, iv: string, vi: string)
    requires SeventhSecondFourthSixth(vii, ii, iv, vi)
    ensures ThirdAbove(vii) == ii && ThirdAboveAccidentals(vii, 0) == 0
    ensures ThirdAbove(ii) == iv && ThirdAboveAccidentals(ii, 0) == 0
    ensures ThirdAbove(iv) == vi && ThirdAboveAccidentals(iv, 0) == -1
  {
    RomanIndexOfRoman(6);
    RomanIndexOfRoman(1);
    RomanIndexOfRoman(3);
    RomanIndexOfRoman(5);
  }

  /** The dominant a minor sixth above VI is IV; above bVI it is bIV, a different pitch. */
  lemma DominantsAboveSixth(iv: string, vi: string)
    requires iv == Roman[3] && vi == Roman[5]
    ensures SixthAbove(vi) == iv
    ensures SixthAboveAccidentals(vi, 0) == 0 && SixthAboveAccidentals(vi, -1) == -1
    ensures PitchClass(iv, 0) != (PitchClass(vi, -1) + 8) % 12
  {
    RomanIndexOfRoman(5);
    RomanIndexOfRoman(3);
  }

  /** A single flat is written as "b". */
  lemma CleanMinusOne()
    ensures CleanAccidentalsAsWritten(-1) == "b"
  {
  }

  /** Three steps of the diminished chain, each a minor third above the last. */
  lemma DiminishedChainOfThree(l0: string, l1: string, l2: string, l3: string, a0: int, a1: int, a2: int, a3: int, suffix: string)
    requires ThirdAbove(l0) == l1 && ThirdAboveAccidentals(l0, a0) == a1
    requires ThirdAbove(l1) == l2 && ThirdAboveAccidentals(l1, a1) == a2
    requires ThirdAbove(l2) == l3 && ThirdAboveAccidentals(l2, a2) == a3
    ensures DiminishedChain(l0, a0, suffix, 3) ==
            [CleanAccidentalsAsWritten(a1) + l1 + suffix, CleanAccidentalsAsWritten(a2) + l2 + suffix, CleanAccidentalsAsWritten(a3) + l3 + suffix]
  {
    DiminishedChainStep(l0, a0, suffix, 3, CleanAccidentalsAsWritten(a1) + l1 + suffix, l1, a1);
    DiminishedChainStep(l1, a1, suffix, 2, CleanAccidentalsAsWritten(a2) + l2 + suffix, l2, a2);
    DiminishedChainStep(l2, a2, suffix, 1, CleanAccidentalsAsWritten(a3) + l3 + suffix, l3, a3);
    ThreeChords(DiminishedChain(l0, a0, suffix, 3), DiminishedChain(l1, a1, suffix, 2),
                DiminishedChain(l2, a2, suffix, 1), DiminishedChain(l3, a3, suffix, 0),
                CleanAccidentalsAsWritten(a1) + l1 + suffix, CleanAccidentalsAsWritten(a2) + l2 + suffix, CleanAccidentalsAsWritten(a3) + l3 + suffix);
  }

  /** Four dominants of the chain as written, all with the starting accidentals. */
  lemma DominantChainAsWrittenOfFour(l0: string, l1: string, l2: string, l3: string, a: int)
    requires ThirdAbove(l0) == l1 && ThirdAbove(l1) == l2 && ThirdAbove(l2) == l3
    ensures DominantChainAsWritten(l0, a, 4) ==
            [DominantSeventh(l0, a), DominantSeventh(l1, a), DominantSeventh(l2, a), DominantSeventh(l3, a)]
  {
    DominantChainAsWrittenStep(l0, a, 4);
    DominantChainAsWrittenStep(l1, a, 3);
    DominantChainAsWrittenStep(l2, a, 2);
    DominantChainAsWrittenStep(l3, a, 1);
    FourChords(DominantChainAsWritten(l0, a, 4), DominantChainAsWritten(l1, a, 3),
               DominantChainAsWritten(l2, a, 2), DominantChainAsWritten(l3, a, 1),
               DominantChainAsWritten(ThirdAbove(l3), a, 0),
               DominantSeventh(l0, a), DominantSeventh(l1, a), DominantSeventh(l2, a), DominantSeventh(l3, a));
  }

  /** Four dominants of the corrected chain, each over the accidentals its diminished chord carries. */
  lemma DominantChainOfFour(l0: string, l1: string, l2: string, l3: string, a0: int, a1: int, a2: int, a3: int)
    requires ThirdAbove(l0) == l1 && ThirdAboveAccidentals(l0, a0) == a1
    requires ThirdAbove(l1) == l2 && ThirdAboveAccidentals(l1, a1) == a2
    requires ThirdAbove(l2) == l3 && ThirdAboveAccidentals(l2, a2) == a3
    ensures DominantChain(l0, a0, 4) ==
            [DominantSeventh(l0, a0), DominantSeventh(l1, a1), DominantSeventh(l2, a2), DominantSeventh(l3, a3)]
  {
    DominantChainStep(l0, a0, 4, DominantSeventh(l0, a0), l1, a1);
    DominantChainStep(l1, a1, 3, DominantSeventh(l1, a1), l2, a2);
    DominantChainStep(l2, a2, 2, DominantSeventh(l2, a2), l3, a3);
    DominantChainStep(l3, a3, 1, DominantSeventh(l3, a3), ThirdAbove(l3), ThirdAboveAccidentals(l3, a3));
    FourChords(DominantChain(l0, a0, 4), DominantChain(l1, a1, 3),
               DominantChain(l2, a2, 2), DominantChain(l3, a3, 1),
               DominantChain(ThirdAbove(l3), ThirdAboveAccidentals(l3, a3), 0),
               DominantSeventh(l0, a0), DominantSeventh(l1, a1), DominantSeventh(l2, a2), DominantSeventh(l3, a3));
  }

  /** The third diminished chord on VII is bVIdim. */
  lemma DiminishedChainOnSeventh(vii: string, ii: string, iv: string, vi: string)
    requires SeventhSecondFourthSixth(vii, ii, iv, vi)
    ensures DiminishedChain(vii, 0, "dim", 3)[2] == "b" + vi + "dim"
  {
    ThirdsFromSeventh(vii, ii, iv, vi);
    DiminishedChainOfThree(vii, ii, iv, vi, 0, 0, 0, -1, "dim");
    CleanMinusOne();
  }

  /** The fourth dominant of the chain on VII as written is IVdom7, built over VI. */
  lemma DominantChainAsWrittenOnSeventh(vii: string, ii: string, iv: string, vi: string)
    requires SeventhSecondFourthSixth(vii, ii, iv, vi)
    ensures DominantChainAsWritten(vii, 0, 4)[3] == CleanAccidentalsAsWritten(0) + iv + "dom7"
  {
    ThirdsFromSeventh(vii, ii, iv, vi);
    DominantsAboveSixth(iv, vi);
    DominantChainAsWrittenOfFour(vii, ii, iv, vi, 0);
  }

  /** The fourth dominant of the corrected chain on VII is bIVdom7, built over bVI. */
  lemma DominantChainOnSeventh(vii: string, ii: string, iv: string, vi: string)
    requires SeventhSecondFourthSixth(vii, ii, iv, vi)
    ensures DominantChain(vii, 0, 4)[3] == "b" + iv + "dom7"
  {
    ThirdsFromSeventh(vii, ii, iv, vi);
    DominantsAboveSixth(iv, vi);
    DominantChainOfFour(vii, ii, iv, vi, 0, 0, 0, -1);
    CleanMinusOne();
  }

  /**
   * substituteDiminishedForDominant("VII") as written: the diminished chain
   * on VII ends on bVI, but the fourth dominant is built on VI without its
   * flat, so it comes out as IVdom7, a half step away from the bIVdom7 a
   * minor sixth above bVI, which the corrected chain gives.
   */
  lemma DominantChainAsWrittenMissesFourthChord(vii: string, ii: string, iv: string, vi: string)
    requires SeventhSecondFourthSixth(vii, ii, iv, vi)
    ensures DiminishedChain(vii, 0, "dim", 3)[2] == "b" + vi + "dim"
    ensures DominantChainAsWritten(vii, 0, 4)[3] == CleanAccidentalsAsWritten(0) + iv + "dom7"
    ensures DominantChain(vii, 0, 4)[3] == "b" + iv + "dom7"
    ensures PitchClass(iv, 0) != (PitchClass(vi, -1) + 8) % 12
  {
    DiminishedChainOnSeventh(vii, ii, iv, vi);
    DominantChainAsWrittenOnSeventh(vii, ii, iv, vi);
    DominantChainOnSeventh(vii, ii, iv, vi);
    DominantsAboveSixth(iv, vi);
  }

  /**
   * substituteDiminishedForDiminished("VII") as the code stands is
   * ["IIdim", "IVdim", "bVIdim"]: the accidentals accumulate from the
   * input's, so II and IV stay natural.
   */
  lemma DiminishedForDiminishedOnSeventh(vii: string, ii: string, iv: string, vi: string)
    requires SeventhSecondFourthSixth(vii, ii, iv, vi)
    ensures DiminishedForDiminished(vii, false) == [ii + "dim", iv + "dim", "b" + vi + "dim"]
  {
    EmptyPrefix(vii);
    assert vii + "" == vii;
    RomanIsUpper(6);
    ParseToken("", vii, "");
    CleanZeroAndOne();
    TupleOfPlain(vii, 0, "");
    ThirdsFromSeventh(vii, ii, iv, vi);
    DiminishedChainOfThree(vii, ii, iv, vi, 0, 0, 0, -1, "dim");
    CleanMinusOne();
    EmptyPrefix(ii);
    EmptyPrefix(iv);
  }

  /** The dominants a minor sixth above VII, II, IV and VI, with no accidentals: V, flat VII, flat II and IV. */
  lemma SixthsFromSeventh(vii: string, ii: string, iv: string, vi: string, v: string)
    requires SeventhSecondFourthSixth(vii, ii, iv, vi) && v == Roman[4]
    ensures SixthAbove(vii) == v && SixthAboveAccidentals(vii, 0) == 0
    ensures SixthAbove(ii) == vii && SixthAboveAccidentals(ii, 0) == -1
    ensures SixthAbove(iv) == ii && SixthAboveAccidentals(iv, 0) == -1
    ensures SixthAbove(vi) == iv && SixthAboveAccidentals(vi, 0) == 0
  {
    RomanIndexOfRoman(6);
    RomanIndexOfRoman(1);
    RomanIndexOfRoman(3);
    RomanIndexOfRoman(5);
    RomanIndexOfRoman(4);
  }

  /**
   * substituteDiminishedForDominant("VII") as the code stands is
   * ["Vdom7", "bVIIdom7", "bIIdom7", "IVdom7"].
   */
  lemma DiminishedForDominantOnSeventh(vii: string, ii: string, iv: string, vi: string, v: string)
    requires SeventhSecondFourthSixth(vii, ii, iv, vi) && v == Roman[4]
    ensures DiminishedForDominant(vii, false) == [v + "dom7", "b" + vii + "dom7", "b" + ii + "dom7", iv + "dom7"]
  {
    EmptyPrefix(vii);
    assert vii + "" == vii;
    RomanIsUpper(6);
    ParseToken("", vii, "");
    CleanZeroAndOne();
    CleanMinusOne();
    TupleOfPlain(vii, 0, "");
    ThirdsFromSeventh(vii, ii, iv, vi);
    SixthsFromSeventh(vii, ii, iv, vi, v);
    DominantChainAsWrittenOfFour(vii, ii, iv, vi, 0);
    EmptyPrefix(v);
    EmptyPrefix(iv);
  }

  /** DominantSeventh, from the degree five above `last` and the correction intervalDiff gives. */
  lemma DominantSeventhOf(last: string, a: int, dom: string, d: int, chord: string)
    requires dom == Roman[(RomanIndex(last) + 5) % 7]
    requires d == IntervalDiffOf(last, dom, 8)
    requires chord == CleanAccidentalsAsWritten(d + a) + dom + "dom7"
    ensures chord == DominantSeventh(last, a)
  {
  }

  /** ThirdAbove and ThirdAboveAccidentals, from the degree two above `last` and the correction intervalDiff gives. */
  lemma ThirdAboveOf(last: string, a: int, next: string, e: int, a': int)
    requires next == Roman[(RomanIndex(last) + 2) % 7]
    requires e == IntervalDiffOf(last, next, 3)
    requires a' == a + e
    ensures next == ThirdAbove(last) && a' == ThirdAboveAccidentals(last, a)
  {
  }

  /** Pushing the head of the remaining chords moves it from the remainder to the result: the step the class loops' invariants need. */
  lemma PushHead(result: seq<string>, chord: string, rest: seq<string>)
    ensures result + ([chord] + rest) == (result + [chord]) + rest
  {
  }

  /** Asking twice for the same numeral enters it once. */
  lemma EnteredTwice(table: map<string, int>, r: string)
    ensures Entered(Entered(table, r), r) == Entered(table, r)
  {
  }

  /** Asking again for a numeral already entered, or for one of the seven, leaves the table as it is. */
  lemma EnteredAgain(table: map<string, int>, r: string, k: string)
    requires k in InitialRomanLookup && InitialRomanLookup.Keys <= table.Keys
    ensures Entered(Entered(Entered(table, r), r), k) == Entered(table, r)
  {
  }

  /**
   * The progression class's shared state: the RomanLookup map, which
   * operator[] extends with a 0 entry for every unknown numeral it is asked
   * for.
   */
  class Progression {
    var romanLookup: map<string, int>

    /** Every entry is the degree index of its numeral, and the seven numerals are present. */
    predicate Valid()
      reads this
    {
      (forall k :: k in romanLookup ==> romanLookup[k] == RomanIndex(k)) &&
      (forall k :: k in InitialRomanLookup ==> k in romanLookup)
    }

    constructor ()
      ensures romanLookup == InitialRomanLookup
      ensures Valid()
    {
      romanLookup := InitialRomanLookup;
    }

    /** RomanLookup[numeral]. */
    method Lookup(numeral: string) returns (i: int)
      requires Valid()
      modifies this
      ensures Valid()
      ensures i == RomanIndex(numeral)
      ensures romanLookup == Entered(old(romanLookup), numeral)
    {
      if numeral !in romanLookup {
        romanLookup := romanLookup[numeral := 0];
      }
      i := romanLookup[numeral];
    }

    /** intervalDiff(a, b, interval): step the second degree down, then up, until the distance is right. */
    method IntervalDiff(a: string, b: string, interval: int) returns (acc: int)
      requires Valid()
      modifies this
      ensures Valid()
      ensures acc == IntervalDiffOf(a, b, interval)
      ensures romanLookup == Entered(Entered(old(romanLookup), a), b)
    {
      var ia := Lookup(a);
      var ib := Lookup(b);
      var i := NumeralIntervals[ia];
      var j := NumeralIntervals[ib];
      acc := 0;
      if j < i {
        j := j + 12;
      }
      while j - i > interval
        invariant j - i == Distance(a, b) + acc
        decreases j - i - interval
      {
        acc := acc - 1;
        j := j - 1;
      }
      while j - i < interval
        invariant j - i == Distance(a, b) + acc
        invariant j - i <= interval
        decreases interval - (j - i)
      {
        acc := acc + 1;
        j := j + 1;
      }
    }

    /** The shared body of the minor-for-major and major-for-minor substitutions. */
    method SubstituteRelative(t: ChordTuple, ignoreSuffix: bool, steps: nat, interval: int,
                              from: string, fromSeventh: string, to: string, toSeventh: string)
      returns (result: seq<string>)
      requires Valid()
      modifies this
      ensures Valid()
      ensures result == Relative(t, ignoreSuffix, steps, interval, from, fromSeventh, to, toSeventh)
      ensures romanLookup == Entered(old(romanLookup), t.roman)
    {
      var i := Lookup(t.roman);
      var newRoman := Roman[(i + steps) % 7];
      RomanIndexOfRoman((i + steps) % 7);
      var a := IntervalDiff(t.roman, newRoman, interval);
      EnteredAgain(old(romanLookup), t.roman, newRoman);
      a := a + t.accidentals;
      var chord := CleanAccidentalsAsWritten(a) + newRoman;
      RelativeChordOf(t, steps, interval, newRoman, a);
      result := [];
      if t.suffix == from || ignoreSuffix {
        result := result + [chord + to];
      }
      if t.suffix == fromSeventh || ignoreSuffix {
        result := result + [chord + toSeventh];
      }
      if t.suffix == "" || ignoreSuffix {
        result := result + [chord];
      }
      assert result == RelativeChords(chord, t.suffix, ignoreSuffix, from, fromSeventh, to, toSeventh);
    }

    /** substituteMinorForMajor(chordFunction, ignore_suffix). */
    method SubstituteMinorForMajor(chordFunction: string, ignoreSuffix: bool) returns (result: seq<string>)
      requires Valid()
      modifies this
      ensures Valid()
      ensures result == MinorForMajor(chordFunction, ignoreSuffix)
      ensures var t := Parse(chordFunction);
              romanLookup == if MinorApplies(t, ignoreSuffix) then Entered(old(romanLookup), t.roman) else old(romanLookup)
    {
      var t := Parse(chordFunction);
      result := [];
      if MinorApplies(t, ignoreSuffix) {
        result := SubstituteRelative(t, ignoreSuffix, 2, 3, "m", "m7", "M", "M7");
      }
    }

    /** substituteMajorForMinor(chordFunction, ignore_suffix). */
    method SubstituteMajorForMinor(chordFunction: string, ignoreSuffix: bool) returns (result: seq<string>)
      requires Valid()
      modifies this
      ensures Valid()
      ensures result == MajorForMinor(chordFunction, ignoreSuffix)
      ensures var t := Parse(chordFunction);
              romanLookup == if MajorApplies(t, ignoreSuffix) then Entered(old(romanLookup), t.roman) else old(romanLookup)
    {
      var t := Parse(chordFunction);
      result := [];
      if MajorApplies(t, ignoreSuffix) {
        result := SubstituteRelative(t, ignoreSuffix, 5, 9, "M", "M7", "m", "m7");
      }
    }

    /**
     * The numeral a third above `last`, and the accidentals `a` corrected so
     * that it lies a minor third above: the step both diminished loops take.
     */
    method ThirdStep(last: string, a: int) returns (next: string, a': int)
      requires Valid()
      modifies this
      ensures Valid()
      ensures next == ThirdAbove(last) && next in InitialRomanLookup
      ensures a' == ThirdAboveAccidentals(last, a)
      ensures romanLookup == Entered(old(romanLookup), last)
    {
      var i := Lookup(last);
      next := Roman[(i + 2) % 7];
      RomanIndexOfRoman((i + 2) % 7);
      var d := IntervalDiff(last, next, 3);
      EnteredAgain(old(romanLookup), last, next);
      a' := a + d;
      ThirdAboveOf(last, a, next, d, a');
    }

    /** One pass of substituteDiminishedForDiminished's loop: the next diminished chord. */
    method DiminishedStep(last: string, a: int, suffix: string) returns (chord: string, next: string, a': int)
      requires Valid()
      modifies this
      ensures Valid()
      ensures next == ThirdAbove(last) && next in InitialRomanLookup
      ensures a' == ThirdAboveAccidentals(last, a)
      ensures chord == CleanAccidentalsAsWritten(a') + next + suffix
      ensures romanLookup == Entered(old(romanLookup), last)
    {
      next, a' := ThirdStep(last, a);
      chord := CleanAccidentalsAsWritten(a') + next + suffix;
    }

    /** substituteDiminishedForDiminished's loop: three chords, each a minor third above the last. */
    method SubstituteDiminishedChain(t: ChordTuple, suffix: string) returns (result: seq<string>)
      requires Valid()
      modifies this
      ensures Valid()
      ensures result == DiminishedChain(t.roman, t.accidentals, suffix, 3)
      ensures romanLookup == Entered(old(romanLookup), t.roman)
    {
      result := [];
      var last := t.roman;
      var a := t.accidentals;
      ghost var left: nat := 3;
      for x := 0 to 3
        invariant left == 3 - x
        invariant Valid()
        invariant x == 0 ==> last == t.roman && romanLookup == old(romanLookup)
        invariant x > 0 ==> last in InitialRomanLookup && romanLookup == Entered(old(romanLookup), t.roman)
        invariant result + DiminishedChain(last, a, suffix, left) == DiminishedChain(t.roman, t.accidentals, suffix, 3)
      {
        var chord, next, a' := DiminishedStep(last, a, suffix);
        DiminishedChainStep(last, a, suffix, left, chord, next, a');
        PushHead(result, chord, DiminishedChain(next, a', suffix, left - 1));
        result := result + [chord];
        last, a, left := next, a', left - 1;
      }
    }

    /** substituteDiminishedForDiminished(chordFunction, ignore_suffix). */
    method SubstituteDiminishedForDiminished(chordFunction: string, ignoreSuffix: bool) returns (result: seq<string>)
      requires Valid()
      modifies this
      ensures Valid()
      ensures result == DiminishedForDiminished(chordFunction, ignoreSuffix)
      ensures var t := Parse(chordFunction);
              romanLookup == if DiminishedApplies(t, ignoreSuffix) then Entered(old(romanLookup), t.roman) else old(romanLookup)
    {
      var t := Parse(chordFunction);
      result := [];
      if DiminishedApplies(t, ignoreSuffix) {
        result := SubstituteDiminishedChain(t, if t.suffix == "" then "dim" else t.suffix);
      }
    }

    /** The dominant seventh a minor sixth above `last` with accidentals `a`. */
    method DominantOf(last: string, a: int) returns (chord: string)
      requires Valid()
      modifies this
      ensures Valid()
      ensures chord == DominantSeventh(last, a)
      ensures romanLookup == Entered(old(romanLookup), last)
    {
      var i := Lookup(last);
      var dom := Roman[(i + 5) % 7];
      RomanIndexOfRoman((i + 5) % 7);
      var d := IntervalDiff(last, dom, 8);
      EnteredAgain(old(romanLookup), last, dom);
      chord := CleanAccidentalsAsWritten(d + a) + dom + "dom7";
      DominantSeventhOf(last, a, dom, d, chord);
    }

    /**
     * One pass of substituteDiminishedForDominant's loop: the numeral a third
     * above `last`, and the dominant seventh a minor sixth above `last` with
     * the accidentals `a` it is given.
     */
    method DominantStep(last: string, a: int) returns (chord: string, next: string)
      requires Valid()
      modifies this
      ensures Valid()
      ensures chord == DominantSeventh(last, a)
      ensures next == ThirdAbove(last) && next in InitialRomanLookup
      ensures romanLookup == Entered(old(romanLookup), last)
    {
      var i := Lookup(last);
      next := Roman[(i + 2) % 7];
      RomanIndexOfRoman((i + 2) % 7);
      chord := DominantOf(last, a);
      EnteredTwice(old(romanLookup), last);
    }

    /**
     * substituteDiminishedForDominant's loop: four dominant sevenths, one
     * for each numeral of the diminished chain, each computed from the
     * input's accidentals.
     */
    method SubstituteDominantChain(t: ChordTuple) returns (result: seq<string>)
      requires Valid()
      modifies this
      ensures Valid()
      ensures result == DominantChainAsWritten(t.roman, t.accidentals, 4)
      ensures romanLookup == Entered(old(romanLookup), t.roman)
    {
      result := [];
      var last := t.roman;
      ghost var left: nat := 4;
      for x := 0 to 4
        invariant left == 4 - x
        invariant Valid()
        invariant x == 0 ==> last == t.roman && romanLookup == old(romanLookup)
        invariant x > 0 ==> last in InitialRomanLookup && romanLookup == Entered(old(romanLookup), t.roman)
        invariant result + DominantChainAsWritten(last, t.accidentals, left) == DominantChainAsWritten(t.roman, t.accidentals, 4)
      {
        var chord, next := DominantStep(last, t.accidentals);
        DominantChainAsWrittenStep(last, t.accidentals, left);
        PushHead(result, chord, DominantChainAsWritten(next, t.accidentals, left - 1));
        result := result + [chord];
        last, left := next, left - 1;
      }
    }

    /** substituteDiminishedForDominant(chordFunction, ignore_suffix). */
    method SubstituteDiminishedForDominant(chordFunction: string, ignoreSuffix: bool) returns (result: seq<string>)
      requires Valid()
      modifies this
      ensures Valid()
      ensures result == DiminishedForDominant(chordFunction, ignoreSuffix)
      ensures var t := Parse(chordFunction);
              romanLookup == if DiminishedApplies(t, ignoreSuffix) then Entered(old(romanLookup), t.roman) else old(romanLookup)
    {
      var t := Parse(chordFunction);
      result := [];
      if DiminishedApplies(t, ignoreSuffix) {
        result := SubstituteDominantChain(t);
      }
    }
  }
}
