/**
 * Spelled notes: a name (letter plus the raw accidental string) and an octave
 * field, with Ableton's octave numbering (C-2 is semitone 0, C3 is 60).
 *
 * `Pitch` is a note as a value; the class `Note` holds the two mutable fields
 * and its mutators are specified by the functions on `Pitch` below.
 */
module Notes {
  import opened Utils
  import opened Wrappers

  datatype Pitch = Pitch(name: string, octave: int)

  /** Pitches whose name has at least one character, as every name the engine builds. */
  type NamedPitch = p: Pitch | |p.name| >= 1 witness Pitch("C", 3)

  // ---------------------------------------------------------------------
  // Tables and C++ integer arithmetic
  // ---------------------------------------------------------------------

  /** The sharp spellings "C,C#,D,D#,E,F,F#,G,G#,A,A#,B", also used by set(int). */
  const SharpNames: seq<string> := ["C", "C#", "D", "D#", "E", "F", "F#", "G", "G#", "A", "A#", "B"]

  /** The flat spellings "C,Db,D,Eb,E,F,Gb,G,Ab,A,Bb,B". */
  const FlatNames: seq<string> := ["C", "Db", "D", "Eb", "E", "F", "Gb", "G", "Ab", "A", "Bb", "B"]

  /** "C,,D,,E,F,,G,,A,,B" split at the commas: a letter's index is its semitone. */
  const NoteDictionary: seq<string> := ["C", "", "D", "", "E", "F", "", "G", "", "A", "", "B"]

  /** C++ `/` on int: rounds toward zero. */
  function TruncDiv(a: int, m: int): (q: int)
    requires m > 0
    ensures a >= 0 ==> q == a / m
    ensures a < 0 ==> q == -((-a) / m)
  {
    if a >= 0 then a / m else -((-a) / m)
  }

  /** C++ `%` on int: takes the sign of the dividend. */
  function TruncMod(a: int, m: int): (r: int)
    requires m > 0
    ensures a == TruncDiv(a, m) * m + r
    ensures -m < r < m
    ensures a >= 0 ==> 0 <= r
    ensures a <= 0 ==> r <= 0
  {
    if a >= 0 then a % m else -((-a) % m)
  }

  /** std::find over a table: the first index holding `x`, or the table size. */
  function IndexOf(table: seq<string>, x: string): (k: nat)
    ensures k <= |table|
    ensures k < |table| ==> table[k] == x
  {
    if |table| == 0 then 0
    else if table[0] == x then 0
    else 1 + IndexOf(table[1..], x)
  }

  /** No entry before the one found holds `x`. */
  lemma {:induction false} IndexOfFirst(table: seq<string>, x: string)
    ensures forall j :: 0 <= j < IndexOf(table, x) ==> table[j] != x
  {
    if |table| > 0 && table[0] != x {
      IndexOfFirst(table[1..], x);
      assert forall j :: 1 <= j < |table| ==> table[j] == table[1..][j - 1];
    }
  }

  /** The first index holding `x` (or the size, when none does) is what std::find returns. */
  lemma IndexOfIs(table: seq<string>, x: string, k: nat)
    requires k <= |table|
    requires k < |table| ==> table[k] == x
    requires forall j :: 0 <= j < k ==> table[j] != x
    ensures IndexOf(table, x) == k
  {
    IndexOfFirst(table, x);
  }

  /** The first character of a name, or "" for the empty name (std::string::substr(0, 1)). */
  function Root(name: string): (r: string)
    ensures |r| == if |name| == 0 then 0 else 1
    ensures |name| >= 1 ==> r == [name[0]]
  {
    if |name| == 0 then "" else name[..1]
  }

  /** The semitone of a letter, as an independent reference for the dictionary lookup; 12 for a non-letter. */
  function LetterValue(c: char): (v: nat)
    ensures v <= 12
  {
    match c
    case 'C' => 0
    case 'D' => 2
    case 'E' => 4
    case 'F' => 5
    case 'G' => 7
    case 'A' => 9
    case 'B' => 11
    case _ => 12
  }

  predicate IsLetter(c: char) {
    c in "CDEFGAB"
  }

  /** A letter followed only by '#' and 'b' characters. */
  predicate IsSpelled(name: string) {
    |name| >= 1 && IsLetter(name[0]) &&
    forall i :: 1 <= i < |name| ==> name[i] == '#' || name[i] == 'b'
  }

  // ---------------------------------------------------------------------
  // Conversions (toInt, getAbsoluteOctave, getDiatonicName)
  // ---------------------------------------------------------------------

  /**
   * The index toInt() finds for the name's first character in the note
   * dictionary: the letter's semitone, 12 for a character that is not a letter,
   * and 1 for the empty name (whose root "" matches the dictionary's first gap).
   * LetterIndexIsDictionaryLookup shows it is that lookup.
   */
  function LetterIndex(name: string): (k: nat)
    ensures k <= 12
  {
    if |name| == 0 then 1 else LetterValue(name[0])
  }

  /** toInt(): (octave + 2) * 12 + letter + net accidentals. */
  function ToInt(p: Pitch): int {
    (p.octave + 2) * 12 + LetterIndex(p.name) + NumberOfAccidentals(p.name)
  }

  /** toInt(true): (letter + accidentals) % 12 with C++'s remainder, so "Cb" gives -1. */
  function RelativeInt(p: Pitch): (r: int)
    ensures -12 < r < 12
    ensures (ToInt(p) - r) % 12 == 0
  {
    TruncMod(LetterIndex(p.name) + NumberOfAccidentals(p.name), 12)
  }

  /** getAbsoluteOctave(): getInt() / 12 - 2 with C++ division (floor() of an int quotient changes nothing). */
  function AbsoluteOctave(p: Pitch): int {
    TruncDiv(ToInt(p), 12) - 2
  }

  /** The one-character entries of the three tables are the letters, each at its semitone. */
  lemma TableShape(j: nat)
    requires j < 12
    ensures |NoteDictionary[j]| <= 1
    ensures |NoteDictionary[j]| == 1 ==> LetterValue(NoteDictionary[j][0]) == j
    ensures |SharpNames[j]| == 1 ==> SharpNames[j] == NoteDictionary[j]
    ensures |FlatNames[j]| == 1 ==> FlatNames[j] == NoteDictionary[j]
  {
  }

  /** Each letter sits at its semitone in the three tables. */
  lemma LetterInTables(c: char)
    requires IsLetter(c)
    ensures LetterValue(c) < 12
    ensures NoteDictionary[LetterValue(c)] == [c]
    ensures SharpNames[LetterValue(c)] == [c]
    ensures FlatNames[LetterValue(c)] == [c]
  {
    if c == 'C' {
    } else if c == 'D' {
    } else if c == 'E' {
    } else if c == 'F' {
    } else if c == 'G' {
    } else if c == 'A' {
    } else {
      assert c == 'B';
    }
  }

  /** Looking a one-character root up in any of the three tables gives the letter's semitone (12 when absent). */
  lemma RootIndex(c: char)
    ensures IndexOf(NoteDictionary, [c]) == LetterValue(c)
    ensures IndexOf(SharpNames, [c]) == LetterValue(c)
    ensures IndexOf(FlatNames, [c]) == LetterValue(c)
  {
    var v := LetterValue(c);
    forall j | 0 <= j < v
      ensures NoteDictionary[j] != [c] && SharpNames[j] != [c] && FlatNames[j] != [c]
    {
      TableShape(j);
    }
    if IsLetter(c) {
      LetterInTables(c);
    } else {
      assert v == 12;
    }
    IndexOfIs(NoteDictionary, [c], v);
    IndexOfIs(SharpNames, [c], v);
    IndexOfIs(FlatNames, [c], v);
  }

  /** toInt's std::find over the dictionary split at its commas. */
  lemma LetterIndexIsDictionaryLookup(name: string)
    ensures LetterIndex(name) == IndexOf(NoteDictionary, Root(name))
  {
    if |name| == 0 {
      IndexOfIs(NoteDictionary, "", 1);
    } else {
      assert Root(name) == [name[0]];
      RootIndex(name[0]);
    }
  }

  lemma RelativeIntOfCFlat()
    ensures RelativeInt(Pitch("Cb", 3)) == -1
  {
  }

  /** B# with octave field 3 is semitone 72, which getAbsoluteOctave reports as octave 4. */
  lemma AbsoluteOctaveOfBSharp()
    ensures ToInt(Pitch("B#", 3)) == 72
    ensures AbsoluteOctave(Pitch("B#", 3)) == 4
  {
  }

  /** For semitones from 0 up, the absolute octave is the octave the semitone lies in. */
  lemma AbsoluteOctaveBounds(p: Pitch)
    requires ToInt(p) >= 0
    ensures (AbsoluteOctave(p) + 2) * 12 <= ToInt(p) < (AbsoluteOctave(p) + 3) * 12
  {
  }

  /** Sharp- and flat-table entries: their semitone is their index. */
  lemma TableEntriesSpellTheirIndex(k: nat)
    requires k < 12
    ensures IsSpelled(SharpNames[k]) && |SharpNames[k]| <= 2
    ensures IsSpelled(FlatNames[k]) && |FlatNames[k]| <= 2
    ensures LetterValue(SharpNames[k][0]) + NumberOfAccidentals(SharpNames[k]) == k
    ensures LetterValue(FlatNames[k][0]) + NumberOfAccidentals(FlatNames[k]) == k
    ensures NumberOfAccidentals(SharpNames[k]) in {0, 1}
    ensures NumberOfAccidentals(FlatNames[k]) in {0, -1}
  {
    SharpEntrySpellsIndex(k);
    FlatEntrySpellsIndex(k);
  }

  lemma SharpEntrySpellsIndex(k: nat)
    requires k < 12
    ensures IsSpelled(SharpNames[k]) && |SharpNames[k]| <= 2
    ensures LetterValue(SharpNames[k][0]) + NumberOfAccidentals(SharpNames[k]) == k
    ensures NumberOfAccidentals(SharpNames[k]) in {0, 1}
  {
  }

  lemma FlatEntrySpellsIndex(k: nat)
    requires k < 12
    ensures IsSpelled(FlatNames[k]) && |FlatNames[k]| <= 2
    ensures LetterValue(FlatNames[k][0]) + NumberOfAccidentals(FlatNames[k]) == k
    ensures NumberOfAccidentals(FlatNames[k]) in {0, -1}
  {
  }

  /** The index getDiatonicName computes into the flat table is not negative. */
  predicate DiatonicNameDefined(name: string) {
    |name| == 1 || NumberOfAccidentals(name) >= 0 ||
    LetterIndex(name) + 12 + NumberOfAccidentals(name) >= 0
  }

  /**
   * getDiatonicName(): respells a name with at most one accidental, taking the
   * sharp table when the net accidentals are positive and the flat table when
   * they are negative. The root's index in either table is LetterIndex
   * (RootIndex shows that std::find gives the same index in all three tables).
   */
  function DiatonicName(name: string): (r: string)
    requires DiatonicNameDefined(name)
  {
    if |name| == 1 then name
    else
      var diff := NumberOfAccidentals(name);
      var uid := LetterIndex(name);
      if diff > 0 then
        SharpNames[(diff + uid) % 12]
      else if diff < 0 then
        FlatNames[(uid + 12 + diff) % 12]
      else Root(name)
  }

  /** With net sharps the name becomes the sharp-table entry (letter + accidentals) mod 12. */
  lemma DiatonicNameOfSharpened(name: string)
    requires |name| >= 2 && NumberOfAccidentals(name) > 0
    ensures DiatonicName(name) == SharpNames[(LetterValue(name[0]) + NumberOfAccidentals(name)) % 12]
  {
  }

  /** With net flats the name becomes the flat-table entry (letter + accidentals) mod 12. */
  lemma DiatonicNameOfFlattened(name: string)
    requires |name| >= 2 && NumberOfAccidentals(name) < 0 && DiatonicNameDefined(name)
    ensures LetterValue(name[0]) + 12 + NumberOfAccidentals(name) >= 0
    ensures DiatonicName(name) == FlatNames[(LetterValue(name[0]) + NumberOfAccidentals(name)) % 12]
  {
    var x := LetterValue(name[0]) + NumberOfAccidentals(name);
    assert (x + 12) % 12 == x % 12;
  }

  /**
   * A name with accidentals is respelled as the table entry whose semitone is
   * (letter + accidentals) mod 12, with one '#' when the accidentals are net
   * sharp, one 'b' when net flat, or none; a one-character name is unchanged
   * and a name whose accidentals cancel becomes its bare letter.
   */
  lemma DiatonicNameSpelling(name: string)
    requires DiatonicNameDefined(name)
    ensures |name| == 1 ==> DiatonicName(name) == name
    ensures |name| != 1 && NumberOfAccidentals(name) == 0 ==> DiatonicName(name) == Root(name)
    ensures |name| >= 2 && NumberOfAccidentals(name) != 0 ==>
              var r := DiatonicName(name);
              IsSpelled(r) && |r| <= 2 &&
              LetterValue(r[0]) + NumberOfAccidentals(r) ==
                (LetterValue(name[0]) + NumberOfAccidentals(name)) % 12 &&
              (NumberOfAccidentals(name) > 0 ==> NumberOfAccidentals(r) in {0, 1}) &&
              (NumberOfAccidentals(name) < 0 ==> NumberOfAccidentals(r) in {0, -1})
  {
    if |name| >= 2 && NumberOfAccidentals(name) != 0 {
      var k := (LetterValue(name[0]) + NumberOfAccidentals(name)) % 12;
      TableEntriesSpellTheirIndex(k);
      if NumberOfAccidentals(name) > 0 {
        DiatonicNameOfSharpened(name);
      } else {
        DiatonicNameOfFlattened(name);
      }
    }
  }

  lemma DiatonicNameOfCTripleSharp()
    ensures DiatonicName("C###") == "D#"
  {
    DiatonicNameOfSharpened("C###");
  }

  /** "B#" is respelled "C", which is why getShorthand takes the octave from the semitone. */
  lemma DiatonicNameOfBSharp()
    ensures DiatonicName("B#") == "C"
  {
    DiatonicNameOfSharpened("B#");
  }

  // ---------------------------------------------------------------------
  // Names: validity and shorthand parsing (isValidName, fromShorthand)
  // ---------------------------------------------------------------------

  predicate IsNoteLetter(c: char) {
    c in "abcdefgABCDEFG"
  }

  /** isValidName(): a regex search that succeeds as soon as a note letter occurs anywhere. */
  function IsValidName(s: string): (b: bool)
    ensures b <==> exists i :: 0 <= i < |s| && IsNoteLetter(s[i])
  {
    if |s| == 0 then false
    else if IsNoteLetter(s[0]) then true
    else
      var rest := IsValidName(s[1..]);
      assert forall i :: 1 <= i < |s| ==> s[i] == s[1..][i - 1];
      rest
  }

  /** ::toupper on ASCII letters. */
  function ToUpper(c: char): (u: char)
    ensures 'a' <= c <= 'z' ==> u as int == c as int - 32
    ensures !('a' <= c <= 'z') ==> u == c
  {
    if 'a' <= c <= 'z' then (c as int - 32) as char else c
  }

  /**
   * fromShorthand() reads the first character of the first '-' piece (the
   * piece must not be empty) or of the string itself, and the last character
   * of a string without '-'.
   */
  predicate ShorthandReadable(s: string) {
    |s| >= 1 && ('-' in s ==> s[0] != '-')
  }

  /**
   * fromShorthand(): with a '-', the part after the first '-' is a negative
   * octave when it starts with a digit; otherwise one trailing digit is the
   * octave; the first character of the name is upper-cased.
   */
  function FromShorthand(p: Pitch, s: string): (r: NamedPitch)
    requires ShorthandReadable(s)
  {
    CountPositive(s, '-');
    if Count(s, '-') > 0 then
      SplitAtLeastTwo(s, '-');
      SplitFirstPiece(s, "-");
      var parts := Split(s, "-");
      var octave := if |parts[1]| >= 1 && IsDigit(parts[1][0]) then -(LeadingNumber(parts[1]) as int) else p.octave;
      Pitch([ToUpper(parts[0][0])] + parts[0][1..], octave)
    else if IsDigit(s[|s| - 1]) then
      Pitch([ToUpper(s[0])] + (if |s| >= 2 then s[1..|s| - 1] else ""), DigitValue(s[|s| - 1]))
    else
      Pitch([ToUpper(s[0])] + s[1..], p.octave)
  }

  /** A plain spelled name is taken as it is and the octave is kept. */
  lemma FromShorthandOfSpelled(p: Pitch, s: string)
    requires IsSpelled(s)
    ensures ShorthandReadable(s) && FromShorthand(p, s) == Pitch(s, p.octave)
  {
    assert '-' !in s;
    CountPositive(s, '-');
    assert !IsDigit(s[|s| - 1]);
    assert [s[0]] + s[1..] == s;
  }

  /** A spelled name followed by one digit: that digit is the octave. */
  lemma FromShorthandWithDigit(p: Pitch, name: string, d: nat)
    requires IsSpelled(name) && d < 10
    ensures ShorthandReadable(name + [DigitChar(d)])
    ensures FromShorthand(p, name + [DigitChar(d)]) == Pitch(name, d)
  {
    var s := name + [DigitChar(d)];
    assert '-' !in s;
    CountPositive(s, '-');
    assert s[1..|s| - 1] == name[1..];
    assert [name[0]] + name[1..] == name;
  }

  /** A spelled name, '-' and a decimal number: the negated number is the octave. */
  lemma FromShorthandWithNegativeOctave(p: Pitch, name: string, n: nat)
    requires IsSpelled(name)
    ensures ShorthandReadable(name + "-" + NatToString(n))
    ensures FromShorthand(p, name + "-" + NatToString(n)) == Pitch(name, -(n as int))
  {
    var s := name + "-" + NatToString(n);
    assert s[|name|] == '-';
    assert '-' !in name;
    assert '-' !in NatToString(n);
    SplitAfterPiece(name, '-', NatToString(n));
    SplitNoSeparator(NatToString(n), '-');
    assert name + ['-'] + NatToString(n) == s;
    LeadingNumberOfNatToString(n);
    assert [name[0]] + name[1..] == name;
    CountPositive(s, '-');
  }

  lemma FromShorthandOctaveExample(p: Pitch)
    ensures FromShorthand(p, "C#3") == Pitch("C#", 3)
  {
    FromShorthandWithDigit(p, "C#", 3);
    assert "C#" + [DigitChar(3)] == "C#3";
  }

  lemma FromShorthandNegativeOctaveExample(p: Pitch)
    ensures FromShorthand(p, "Bbb-2") == Pitch("Bbb", -2)
  {
    FromShorthandWithNegativeOctave(p, "Bbb", 2);
    assert "Bbb" + "-" + NatToString(2) == "Bbb-2";
  }

  lemma FromShorthandLowerCaseExample(p: Pitch)
    ensures FromShorthand(p, "c#") == Pitch("C#", p.octave)
  {
    CountPositive("c#", '-');
    assert "c#"[1..] == "#";
  }

  // ---------------------------------------------------------------------
  // Edits as functions of the note value
  // ---------------------------------------------------------------------

  /** The last character of a non-empty name, as a one-character string. */
  function Last(name: string): string
    requires |name| >= 1
  {
    if |name| == 1 then name else name[|name| - 1..]
  }

  lemma LastChar(name: string)
    requires |name| >= 1
    ensures Last(name) == [name[|name| - 1]]
  {
  }

  /** augment(i): drop one trailing 'b', or else append i '#'. */
  function Augmented(p: Pitch, i: int): (r: Pitch)
    requires |p.name| >= 1
    ensures r.octave == p.octave
  {
    if Last(p.name) == "b" then Pitch(p.name[..|p.name| - 1], p.octave)
    else Pitch(p.name + Repeat('#', if i > 0 then i else 0), p.octave)
  }

  /** diminish(i): drop one trailing '#', or else append i 'b'. */
  function Diminished(p: Pitch, i: int): (r: Pitch)
    requires |p.name| >= 1
    ensures r.octave == p.octave
  {
    if Last(p.name) == "#" then Pitch(p.name[..|p.name| - 1], p.octave)
    else Pitch(p.name + Repeat('b', if i > 0 then i else 0), p.octave)
  }

  /** All accidentals '#', or all of them 'b'. */
  predicate HasUniformAccidentals(name: string) {
    IsSpelled(name) &&
    ((forall i :: 1 <= i < |name| ==> name[i] == '#') || (forall i :: 1 <= i < |name| ==> name[i] == 'b'))
  }

  /**
   * augment raises a note with a letter root by one semitone when it drops a 'b'
   * and by i semitones when it appends, keeping the letter.
   */
  lemma AugmentedRaises(p: Pitch, i: int)
    requires IsSpelled(p.name)
    ensures |Augmented(p, i).name| >= 1 && Augmented(p, i).name[0] == p.name[0]
    ensures Last(p.name) == "b" ==> ToInt(Augmented(p, i)) == ToInt(p) + 1
    ensures Last(p.name) != "b" ==> ToInt(Augmented(p, i)) == ToInt(p) + (if i > 0 then i else 0)
  {
    var n := p.name;
    var r := Augmented(p, i);
    if Last(n) == "b" {
      assert |n| >= 2;
      assert n == n[..|n| - 1] + "b";
      AccidentalsAppend(n[..|n| - 1], "b");
    } else {
      var k := if i > 0 then i else 0;
      AccidentalsAppend(n, Repeat('#', k));
      CountRepeat('#', '#', k);
      CountRepeat('#', 'b', k);
    }
  }

  /** diminish lowers a note with a letter root by one semitone or by i semitones, keeping the letter. */
  lemma DiminishedLowers(p: Pitch, i: int)
    requires IsSpelled(p.name)
    ensures |Diminished(p, i).name| >= 1 && Diminished(p, i).name[0] == p.name[0]
    ensures Last(p.name) == "#" ==> ToInt(Diminished(p, i)) == ToInt(p) - 1
    ensures Last(p.name) != "#" ==> ToInt(Diminished(p, i)) == ToInt(p) - (if i > 0 then i else 0)
  {
    var n := p.name;
    var r := Diminished(p, i);
    if Last(n) == "#" {
      assert |n| >= 2;
      assert n == n[..|n| - 1] + "#";
      AccidentalsAppend(n[..|n| - 1], "#");
    } else {
      var k := if i > 0 then i else 0;
      AccidentalsAppend(n, Repeat('b', k));
      CountRepeat('b', '#', k);
      CountRepeat('b', 'b', k);
    }
  }

  /** augment then diminish restores a name whose accidentals are all '#' or all 'b'. */
  lemma AugmentThenDiminish(p: Pitch)
    requires HasUniformAccidentals(p.name)
    ensures |Augmented(p, 1).name| >= 1 && Diminished(Augmented(p, 1), 1) == p
  {
    var n := p.name;
    LastChar(n);
    if n[|n| - 1] == 'b' {
      var m := n[..|n| - 1];
      assert Last(n) == "b";
      assert Augmented(p, 1) == Pitch(m, p.octave);
      LastChar(m);
      assert m[|m| - 1] != '#' by {
        if |m| >= 2 {
          assert m[|m| - 1] == n[|n| - 2];
        }
      }
      assert Last(m) != "#";
      assert Repeat('b', 1) == "b";
      assert Diminished(Pitch(m, p.octave), 1) == Pitch(m + "b", p.octave);
      assert m + "b" == n;
    } else {
      assert Last(n) != "b";
      assert Repeat('#', 1) == "#";
      assert Augmented(p, 1) == Pitch(n + "#", p.octave);
      LastChar(n + "#");
      assert Last(n + "#") == "#";
      assert (n + "#")[..|n|] == n;
    }
  }

  /** diminish then augment restores a name whose accidentals are all '#' or all 'b'. */
  lemma DiminishThenAugment(p: Pitch)
    requires HasUniformAccidentals(p.name)
    ensures |Diminished(p, 1).name| >= 1 && Augmented(Diminished(p, 1), 1) == p
  {
    var n := p.name;
    LastChar(n);
    if n[|n| - 1] == '#' {
      var m := n[..|n| - 1];
      assert |m| >= 1;
      LastChar(m);
      assert m[|m| - 1] != 'b' by {
        if |m| >= 2 {
          assert m[|m| - 1] == n[|n| - 2];
        }
      }
      assert Repeat('#', 1) == "#";
      assert m + "#" == n;
    } else {
      assert Repeat('b', 1) == "b";
      LastChar(n + "b");
      assert (n + "b")[..|n|] == n;
    }
  }

  lemma DiminishFlat()
    ensures Diminished(Pitch("Bb", 3), 1).name == "Bbb"
    ensures Augmented(Pitch("Bbb", 3), 2).name == "Bb"
  {
    assert Repeat('b', 1) == "b";
  }

  /**
   * set(int note, absolute): for a note whose name is valid, take the sharp
   * spelling of note % 12 and octave note / 12 - 2; relative mode accepts only
   * 0..11 and resets the octave to 3.
   */
  function WithInt(p: Pitch, note: int, absolute: bool): (r: Pitch)
    requires absolute && IsValidName(p.name) ==> note >= 0
  {
    if !IsValidName(p.name) then p
    else if absolute then Pitch(SharpNames[note % 12], note / 12 - 2)
    else if note < 0 || note > 11 then p
    else Pitch(SharpNames[note], 3)
  }

  /** After set(k), toInt() == k, with at most one '#' and no 'b'. */
  lemma WithIntToInt(p: Pitch, k: int)
    requires IsValidName(p.name) && k >= 0
    ensures ToInt(WithInt(p, k, true)) == k
    ensures IsSpelled(WithInt(p, k, true).name) && |WithInt(p, k, true).name| <= 2
    ensures NumberOfAccidentals(WithInt(p, k, true).name) in {0, 1}
    ensures NumberOfFlats(WithInt(p, k, true).name) == 0
  {
    var r := WithInt(p, k, true);
    TableEntriesSpellTheirIndex(k % 12);
    assert NumberOfFlats(SharpNames[k % 12]) == 0;
  }

  /** transpose(d): set(toInt() + d). */
  function Transposed(p: Pitch, d: int): (r: Pitch)
    requires IsValidName(p.name) ==> ToInt(p) + d >= 0
  {
    WithInt(p, ToInt(p) + d, true)
  }

  /** transpose(d) raises toInt by exactly d and respells with at most one '#'. */
  lemma TransposedRaises(p: Pitch, d: int)
    requires IsValidName(p.name) && ToInt(p) + d >= 0
    ensures ToInt(Transposed(p, d)) == ToInt(p) + d
    ensures IsSpelled(Transposed(p, d).name) && NumberOfAccidentals(Transposed(p, d).name) in {0, 1}
  {
    var k := ToInt(p) + d;
    assert Transposed(p, d) == WithInt(p, k, true);
    WithIntToInt(p, k);
  }

  /** std::clamp(o, -2, 8). */
  function ClampOctave(o: int): (c: int)
    ensures -2 <= c <= 8
    ensures -2 <= o <= 8 ==> c == o
  {
    if o < -2 then -2 else if o > 8 then 8 else o
  }

  /** changeOctave(diff, limit). */
  function OctaveChanged(p: Pitch, diff: int, limit: bool): (r: Pitch)
    ensures r.name == p.name
  {
    var o := p.octave + diff;
    Pitch(p.name, if limit then ClampOctave(o) else o)
  }

  /** setOctave(oct, limit). */
  function OctaveSet(p: Pitch, oct: int, limit: bool): (r: Pitch)
    ensures r.name == p.name
  {
    Pitch(p.name, if limit then ClampOctave(oct) else oct)
  }

  /** Changing the octave field by d moves toInt by 12·d; limited, the octave stays in [-2, 8]. */
  lemma OctaveChangedShifts(p: Pitch, d: int)
    ensures ToInt(OctaveChanged(p, d, false)) == ToInt(p) + 12 * d
    ensures -2 <= OctaveChanged(p, d, true).octave <= 8
    ensures -2 <= p.octave + d <= 8 ==> OctaveChanged(p, d, true) == OctaveChanged(p, d, false)
  {
  }

  /** limitToOctaves(min, max): raise to min, then lower to max. */
  function LimitedToOctaves(p: Pitch, minOct: int, maxOct: int): (r: Pitch)
    ensures r.name == p.name
  {
    var q := if p.octave < minOct then OctaveChanged(p, minOct - p.octave, false) else p;
    if q.octave > maxOct then OctaveChanged(q, maxOct - q.octave, false) else q
  }

  /** For min <= max the octave ends up in [min, max], and an octave already inside is kept. */
  lemma LimitedToOctavesRange(p: Pitch, minOct: int, maxOct: int)
    requires minOct <= maxOct
    ensures minOct <= LimitedToOctaves(p, minOct, maxOct).octave <= maxOct
    ensures minOct <= p.octave <= maxOct ==> LimitedToOctaves(p, minOct, maxOct) == p
  {
  }

  // ---------------------------------------------------------------------
  // Factories and comparisons
  // ---------------------------------------------------------------------

  /** The state a constructed note ends in: set(name, oct) on the default note "" / 3. */
  function Constructed(name: string, oct: int): Pitch
    requires IsValidName(name) ==> ShorthandReadable(name)
  {
    if !IsValidName(name) then Pitch("", 3)
    else FromShorthand(Pitch(name, oct), name)
  }

  /** Note::create(): a note for a valid name, otherwise none. */
  function Create(name: string, oct: int): (r: Option<Pitch>)
    requires IsValidName(name) ==> ShorthandReadable(name)
    ensures r.Some? <==> IsValidName(name)
    ensures r.Some? ==> |r.value.name| >= 1
  {
    if IsValidName(name) then Some(FromShorthand(Pitch(name, oct), name)) else None
  }

  lemma CreateSpelled(name: string, oct: int)
    requires IsSpelled(name)
    ensures IsValidName(name) && ShorthandReadable(name)
    ensures Create(name, oct) == Some(Pitch(name, oct))
  {
    assert IsNoteLetter(name[0]);
    FromShorthandOfSpelled(Pitch(name, oct), name);
  }

  /** Note::fromInt(): none below 0, else the sharp spelling with octave val / 12 - 2. */
  function FromInt(val: int): (r: Option<Pitch>)
  {
    if val < 0 then None
    else
      var n := SharpNames[val % 12];
      assert IsNoteLetter(n[0]);
      match Create(n, 3)
      case Some(note) => Some(OctaveSet(note, val / 12 - 2, false))
      case None => None
  }

  /** fromInt(v) is none exactly for v < 0, and otherwise getInt() == v. */
  lemma FromIntToInt(val: int)
    ensures FromInt(val).None? <==> val < 0
    ensures FromInt(val).Some? ==> ToInt(FromInt(val).value) == val
  {
    if val >= 0 {
      var n := SharpNames[val % 12];
      TableEntriesSpellTheirIndex(val % 12);
      CreateSpelled(n, 3);
    }
  }

  /** Note::compare: orders by semitone. */
  function Compare(a: Pitch, b: Pitch): (less: bool)
    ensures less <==> ToInt(a) < ToInt(b)
  {
    ToInt(a) < ToInt(b)
  }

  /** The first index whose note has `name`, or -1. */
  function FirstNameIndex(list: seq<Pitch>, name: string): (k: int)
    ensures -1 <= k < |list|
    ensures k >= 0 ==> list[k].name == name
    ensures forall j :: 0 <= j < |list| && (k == -1 || j < k) ==> list[j].name != name
  {
    if |list| == 0 then -1
    else if list[0].name == name then 0
    else
      var k := FirstNameIndex(list[1..], name);
      if k == -1 then -1 else k + 1
  }

  /** Note::getNoteId(): scan for the first note with the same name. */
  method NoteId(list: seq<Pitch>, n: Pitch) returns (k: int)
    ensures -1 <= k < |list|
    ensures k >= 0 ==> list[k].name == n.name
    ensures forall j :: 0 <= j < |list| && (k == -1 || j < k) ==> list[j].name != n.name
    ensures k == FirstNameIndex(list, n.name)
  {
    var i := 0;
    while i < |list|
      invariant 0 <= i <= |list|
      invariant forall j :: 0 <= j < i ==> list[j].name != n.name
    {
      if n.name == list[i].name {
        FirstIndexUnique(list, n.name, i);
        return i;
      }
      i := i + 1;
    }
    FirstIndexUnique(list, n.name, -1);
    return -1;
  }

  lemma FirstIndexUnique(list: seq<Pitch>, name: string, k: int)
    requires -1 <= k < |list|
    requires k >= 0 ==> list[k].name == name
    requires forall j :: 0 <= j < |list| && (k == -1 || j < k) ==> list[j].name != name
    ensures k == FirstNameIndex(list, name)
  {
  }

  // ---------------------------------------------------------------------
  // Sorting by semitone (std::sort with Note::comparePtr)
  // ---------------------------------------------------------------------

  predicate AscendingBy<T>(s: seq<T>, key: T -> int) {
    forall i, j :: 0 <= i < j < |s| ==> key(s[i]) <= key(s[j])
  }

  predicate StrictlyAscendingBy<T>(s: seq<T>, key: T -> int) {
    forall i, j :: 0 <= i < j < |s| ==> key(s[i]) < key(s[j])
  }

  /** Keys that rise at every step rise strictly between any two positions. */
  lemma {:induction false} StrictlyAscendingBySteps<T>(s: seq<T>, key: T -> int)
    requires forall i :: 0 <= i < |s| - 1 ==> key(s[i]) < key(s[i + 1])
    ensures StrictlyAscendingBy(s, key)
  {
    if |s| > 1 {
      StrictlyAscendingBySteps(s[1..], key);
      forall j | 1 <= j < |s|
        ensures key(s[0]) < key(s[j])
      {
        assert s[j] == s[1..][j - 1];
        if j > 1 {
          assert key(s[1..][0]) < key(s[1..][j - 1]);
        }
      }
      forall i, j | 0 <= i < j < |s|
        ensures key(s[i]) < key(s[j])
      {
        if i > 0 {
          assert s[i] == s[1..][i - 1] && s[j] == s[1..][j - 1];
        }
      }
    }
  }

  /** Putting an element no greater than all others in front keeps a sequence ascending. */
  lemma AscendingCons<T>(y: T, s: seq<T>, key: T -> int)
    requires AscendingBy(s, key)
    requires forall k :: 0 <= k < |s| ==> key(y) <= key(s[k])
    ensures AscendingBy([y] + s, key)
  {
    var r := [y] + s;
    forall i, j | 0 <= i < j < |r|
      ensures key(r[i]) <= key(r[j])
    {
      if i > 0 {
        assert r[i] == s[i - 1] && r[j] == s[j - 1];
      }
    }
  }

  function InsertBy<T>(x: T, s: seq<T>, key: T -> int): (r: seq<T>)
    requires AscendingBy(s, key)
    ensures |r| == |s| + 1
    ensures multiset(r) == multiset(s) + multiset{x}
    ensures r[0] == x || (|s| > 0 && r[0] == s[0])
    ensures AscendingBy(r, key)
  {
    if |s| == 0 || key(x) <= key(s[0]) then
      AscendingCons(x, s, key);
      [x] + s
    else
      var t := InsertBy(x, s[1..], key);
      assert s == [s[0]] + s[1..];
      assert key(s[0]) <= key(t[0]) by {
        if |s| > 1 {
          assert key(s[0]) <= key(s[1]);
        }
      }
      assert forall k :: 0 <= k < |t| ==> key(t[0]) <= key(t[k]);
      AscendingCons(s[0], t, key);
      [s[0]] + t
  }

  /** A stable insertion sort by an integer key. */
  function SortedBy<T>(s: seq<T>, key: T -> int): (r: seq<T>)
    ensures AscendingBy(r, key)
    ensures multiset(r) == multiset(s)
    ensures |r| == |s|
  {
    if |s| == 0 then []
    else
      assert s == [s[0]] + s[1..];
      InsertBy(s[0], SortedBy(s[1..], key), key)
  }

  /** The first element of an ascending sequence has the least key. */
  lemma FirstIsLeast<T>(s: seq<T>, key: T -> int, x: T)
    requires AscendingBy(s, key) && x in multiset(s)
    ensures key(s[0]) <= key(x)
  {
    var j :| 0 <= j < |s| && s[j] == x;
    if j > 0 {
      assert key(s[0]) <= key(s[j]);
    }
  }

  /** In a strictly ascending sequence only the first element has the least key. */
  lemma OnlyFirstIsLeast<T>(s: seq<T>, key: T -> int, x: T)
    requires StrictlyAscendingBy(s, key) && x in multiset(s) && key(x) <= key(s[0])
    ensures x == s[0]
  {
    var j :| 0 <= j < |s| && s[j] == x;
    if j > 0 {
      assert false;
    }
  }

  lemma MultisetTail<T>(s: seq<T>)
    requires |s| > 0
    ensures multiset(s[1..]) == multiset(s) - multiset{s[0]}
  {
    assert s == [s[0]] + s[1..];
  }

  lemma TailsAscend<T>(a: seq<T>, b: seq<T>, key: T -> int)
    requires |a| > 0 && |b| > 0
    requires AscendingBy(a, key) && StrictlyAscendingBy(b, key)
    ensures AscendingBy(a[1..], key) && StrictlyAscendingBy(b[1..], key)
  {
  }

  /**
   * When the keys are pairwise distinct the sorted order is unique: any
   * ascending arrangement equals the strictly ascending one.
   */
  lemma {:induction false} SortedIsUnique<T>(a: seq<T>, b: seq<T>, key: T -> int)
    requires AscendingBy(a, key) && StrictlyAscendingBy(b, key)
    requires multiset(a) == multiset(b)
    ensures a == b
  {
    assert |a| == |multiset(a)| == |multiset(b)| == |b|;
    if |a| > 0 {
      assert a[0] in multiset(a) && b[0] in multiset(b);
      FirstIsLeast(a, key, b[0]);
      OnlyFirstIsLeast(b, key, a[0]);
      assert a[0] == b[0];
      MultisetTail(a);
      MultisetTail(b);
      TailsAscend(a, b, key);
      SortedIsUnique(a[1..], b[1..], key);
      assert a == [a[0]] + a[1..] && b == [b[0]] + b[1..];
    }
  }

  /** std::sort with Note::comparePtr: ascending toInt. */
  function SortedByInt(s: seq<Pitch>): (r: seq<Pitch>)
    ensures AscendingBy(r, ToInt)
    ensures multiset(r) == multiset(s)
    ensures |r| == |s|
  {
    SortedBy(s, ToInt)
  }

  /** Every note has a non-empty name. */
  predicate AllNamed(s: seq<Pitch>) {
    forall i :: 0 <= i < |s| ==> |s[i].name| >= 1
  }

  /** Sorting only rearranges, so it keeps every name non-empty. */
  lemma SortedKeepsNamed(s: seq<Pitch>)
    requires AllNamed(s)
    ensures AllNamed(SortedByInt(s))
  {
    var r := SortedByInt(s);
    forall i | 0 <= i < |r|
      ensures |r[i].name| >= 1
    {
      assert r[i] in multiset(r);
      assert r[i] in multiset(s);
    }
  }

  /** Sorting notes whose semitones already ascend strictly changes nothing. */
  lemma SortedByIntOfStrictlyAscending(s: seq<Pitch>)
    requires StrictlyAscendingBy(s, ToInt)
    ensures SortedByInt(s) == s
  {
    SortedIsUnique(SortedByInt(s), s, ToInt);
  }

  // ---------------------------------------------------------------------
  // The mutable note
  // ---------------------------------------------------------------------

  function Abs(x: int): nat {
    if x < 0 then -x else x
  }

  class Note {
    var name: string
    var octave: int

    /** The note's current value. */
    function Value(): Pitch
      reads this
    {
      Pitch(name, octave)
    }

    /** Note(name, oct): start from "" / 3 and set(name, oct). */
    constructor (name0: string, oct0: int)
      requires IsValidName(name0) ==> ShorthandReadable(name0)
      ensures Value() == Constructed(name0, oct0)
    {
      name := "";
      octave := 3;
      new;
      Set(name0, oct0);
    }

    /** The copy constructor behind copy(). */
    constructor CopyOf(p: Pitch)
      ensures Value() == p
    {
      name := p.name;
      octave := p.octave;
    }

    predicate IsValid()
      reads this
    {
      IsValidName(name)
    }

    /** copy(): a new note with the same fields, or null for an invalid name. */
    method Copy() returns (n: Note?)
      ensures n == null <==> !IsValidName(name)
      ensures n != null ==> fresh(n) && n.Value() == Value()
    {
      if IsValid() {
        n := new Note.CopyOf(Value());
      } else {
        n := null;
      }
    }

    /** set(name, oct): ignored for an invalid name, else store both and parse the shorthand. */
    method Set(name0: string, oct0: int)
      requires IsValidName(name0) ==> ShorthandReadable(name0)
      modifies this
      ensures !IsValidName(name0) ==> Value() == old(Value())
      ensures IsValidName(name0) ==> Value() == FromShorthand(Pitch(name0, oct0), name0)
    {
      if !IsValidName(name0) {
        return;
      }
      name := name0;
      octave := oct0;
      FromShorthandInPlace(name0);
    }

    /** fromShorthand(s): rewrite name and octave from a shorthand such as "c#3" or "Bbb-2". */
    method FromShorthandInPlace(s: string)
      requires ShorthandReadable(s)
      modifies this
      ensures Value() == FromShorthand(old(Value()), s)
    {
      CountPositive(s, '-');
      name := "";
      if Count(s, '-') > 0 {
        SplitAtLeastTwo(s, '-');
        SplitFirstPiece(s, "-");
        var soct := Split(s, "-");
        if |soct[1]| >= 1 && IsDigit(soct[1][0]) {
          octave := -(LeadingNumber(soct[1]) as int);
        }
        name := name + [ToUpper(soct[0][0])];
        name := name + soct[0][1..];
      } else if IsDigit(s[|s| - 1]) {
        octave := DigitValue(s[|s| - 1]);
        name := name + [ToUpper(s[0])];
        name := name + (if |s| >= 2 then s[1..|s| - 1] else "");
      } else {
        name := name + [ToUpper(s[0])];
        name := name + s[1..];
      }
    }

    /** augment(i). */
    method Augment(i: int)
      requires |name| >= 1
      modifies this
      ensures Value() == Augmented(old(Value()), i)
    {
      var last := if |name| == 1 then name else name[|name| - 1..];
      if last == "b" {
        name := name[..|name| - 1];
      } else {
        var ii := 0;
        ghost var start := name;
        while ii < i
          invariant 0 <= ii <= (if i > 0 then i else 0)
          invariant name == start + Repeat('#', ii)
          invariant octave == old(octave)
        {
          name := name + "#";
          ii := ii + 1;
        }
      }
    }

    /** diminish(i). */
    method Diminish(i: int)
      requires |name| >= 1
      modifies this
      ensures Value() == Diminished(old(Value()), i)
    {
      var last := if |name| == 1 then name else [name[|name| - 1]];
      if last == "#" {
        name := name[..|name| - 1];
      } else {
        var ii := 0;
        ghost var start := name;
        while ii < i
          invariant 0 <= ii <= (if i > 0 then i else 0)
          invariant name == start + Repeat('b', ii)
          invariant octave == old(octave)
        {
          name := name + "b";
          ii := ii + 1;
        }
      }
    }

    /** set(int note, absolute). */
    method SetInt(note: int, absolute: bool)
      requires absolute && IsValidName(name) ==> note >= 0
      modifies this
      ensures Value() == WithInt(old(Value()), note, absolute)
    {
      if !IsValidName(name) {
        return;
      }
      if absolute {
        name := SharpNames[note % 12];
        octave := note / 12 - 2;
      } else {
        if note < 0 || note > 11 {
          return;
        } else {
          name := SharpNames[note];
          octave := 3;
        }
      }
    }

    /** transpose(interval). */
    method Transpose(interval: int)
      requires IsValidName(name) ==> ToInt(Value()) + interval >= 0
      modifies this
      ensures Value() == Transposed(old(Value()), interval)
    {
      var dif := ToInt(Value()) + interval;
      SetInt(dif, true);
    }

    /** changeOctave(diff, limit). */
    method ChangeOctave(diff: int, limit: bool)
      modifies this
      ensures Value() == OctaveChanged(old(Value()), diff, limit)
    {
      octave := octave + diff;
      if limit {
        octave := ClampOctave(octave);
      }
    }

    /** setOctave(oct, limit). */
    method SetOctave(oct: int, limit: bool)
      modifies this
      ensures Value() == OctaveSet(old(Value()), oct, limit)
    {
      octave := oct;
      if limit {
        octave := ClampOctave(octave);
      }
    }

    method OctaveUp()
      modifies this
      ensures Value() == OctaveChanged(old(Value()), 1, false)
    {
      ChangeOctave(1, false);
    }

    method OctaveDown()
      modifies this
      ensures Value() == OctaveChanged(old(Value()), -1, false)
    {
      ChangeOctave(-1, false);
    }

    /** limitToOctaves(minOct, maxOct). */
    method LimitToOctaves(minOct: int, maxOct: int)
      modifies this
      ensures Value() == LimitedToOctaves(old(Value()), minOct, maxOct)
    {
      if octave < minOct {
        ChangeOctave(minOct - octave, false);
      }
      if octave > maxOct {
        ChangeOctave(maxOct - octave, false);
      }
    }

    /**
     * getNearestOctave(ref): a copy moved by whole octaves towards ref until
     * one more octave would not bring it closer. It ends within 6 semitones of
     * ref (the interval (-6, 6] when it started above, [-6, 6) otherwise), is
     * never farther than it started, and keeps its name.
     */
    method GetNearestOctave(ref: Note) returns (n: Note)
      requires IsValidName(name)
      ensures fresh(n)
      ensures n.name == name
      ensures ToInt(n.Value()) == ToInt(Value()) + 12 * (n.octave - octave)
      ensures var d0 := ToInt(Value()) - ToInt(ref.Value());
              var d := ToInt(n.Value()) - ToInt(ref.Value());
              (d0 > 0 ==> -6 < d <= 6) && (d0 <= 0 ==> -6 <= d < 6) && Abs(d) <= Abs(d0)
    {
      n := new Note.CopyOf(Value());
      var mid := ToInt(ref.Value());
      if ToInt(n.Value()) - mid > 0 {
        n.LowerToward(mid);
      } else {
        n.RaiseToward(mid);
      }
    }

    /** The octave-down loop of getNearestOctave for a note above the reference semitone mid. */
    method LowerToward(mid: int)
      requires ToInt(Value()) - mid > 0
      modifies this
      ensures name == old(name)
      ensures ToInt(Value()) == ToInt(old(Value())) + 12 * (octave - old(octave))
      ensures var x0 := ToInt(old(Value())) - mid;
              var x := ToInt(Value()) - mid;
              -6 < x <= 6 && x <= x0 && (x == x0 || x0 > 6)
    {
      ghost var x0 := ToInt(Value()) - mid;
      ghost var x := x0;
      var currDist := ToInt(Value()) - mid;
      var octDownDist := Abs(ToInt(OctaveChanged(Value(), -1, false)) - mid);
      var cont := true;
      ghost var first := true;
      while octDownDist < currDist && cont
        invariant name == old(name)
        invariant x == ToInt(Value()) - mid == x0 + 12 * (octave - old(octave))
        invariant x <= x0 && (x == x0 || x0 > 6)
        invariant first ==> cont && x == x0 && octDownDist == Abs(x0 - 12) && currDist == x0
        invariant !first && cont ==> x > -6 && octDownDist == Abs(x) && currDist == x + 12 && octDownDist < currDist
        invariant !cont ==> -6 < x <= 6
        decreases x + 6 + (if cont then 12 else 0)
      {
        currDist := ToInt(Value()) - mid;
        OctaveDown();
        x := x - 12;
        octDownDist := Abs(ToInt(Value()) - mid);
        if octDownDist >= currDist {
          OctaveUp();
          x := x + 12;
          cont := false;
        }
        first := false;
      }
    }

    /** The octave-up loop of getNearestOctave for a note at or below the reference semitone mid. */
    method RaiseToward(mid: int)
      requires ToInt(Value()) - mid <= 0
      modifies this
      ensures name == old(name)
      ensures ToInt(Value()) == ToInt(old(Value())) + 12 * (octave - old(octave))
      ensures var x0 := ToInt(old(Value())) - mid;
              var x := ToInt(Value()) - mid;
              -6 <= x < 6 && x >= x0 && (x == x0 || x0 < -6)
    {
      ghost var x0 := ToInt(Value()) - mid;
      ghost var x := x0;
      var currDist := Abs(ToInt(Value()) - mid);
      var octUpDist := Abs(ToInt(OctaveChanged(Value(), 1, false)) - mid);
      var cont := true;
      ghost var first := true;
      while octUpDist < currDist && cont
        invariant name == old(name)
        invariant x == ToInt(Value()) - mid == x0 + 12 * (octave - old(octave))
        invariant x >= x0 && (x == x0 || x0 < -6)
        invariant first ==> cont && x == x0 && octUpDist == Abs(x0 + 12) && currDist == -x0
        invariant !first && cont ==> x < 6 && octUpDist == Abs(x) && currDist == Abs(x - 12) && octUpDist < currDist
        invariant !cont ==> -6 <= x < 6
        decreases -x + 6 + (if cont then 12 else 0)
      {
        currDist := Abs(ToInt(Value()) - mid);
        OctaveUp();
        x := x + 12;
        octUpDist := Abs(ToInt(Value()) - mid);
        if octUpDist >= currDist {
          OctaveDown();
          x := x - 12;
          cont := false;
        }
        first := false;
      }
    }
  }
}
