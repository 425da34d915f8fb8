/**
 * Diatonic keys: the seven notes of a major key built from the cycle of
 * fifths, sorted by semitone, rotated so that the tonic comes first and
 * memoised in a cache keyed by name and octave.
 */
module Diatonic {
  import opened Utils
  import opened Wrappers
  import opened Notes

  /** The cycle "F,C,G,D,A,E,B" split at the commas. */
  const Fifths: seq<string> := ["F", "C", "G", "D", "A", "E", "B"]

  /** Position of a root letter in the cycle; 7 (the size, as std::find reports) when absent. */
  function FifthOf(c: char): (k: nat)
    ensures k <= 7
    ensures k < 7 ==> Fifths[k] == [c]
  {
    match c
    case 'F' => 0
    case 'C' => 1
    case 'G' => 2
    case 'D' => 3
    case 'A' => 4
    case 'E' => 5
    case 'B' => 6
    case _ => 7
  }

  /** FifthOf is the std::find of the root (the first character) in the cycle. */
  lemma FifthOfIsFind(name: string)
    requires |name| >= 1
    ensures IndexOf(Fifths, Root(name)) == FifthOf(name[0])
  {
    var c := name[0];
    var k := FifthOf(c);
    forall j | 0 <= j < k
      ensures Fifths[j] != [c]
    {
      assert Fifths[j][0] != c;
    }
    if k == 7 {
      forall j | 0 <= j < 7
        ensures Fifths[j] != [c]
      {
        assert Fifths[j][0] != c;
      }
    }
    IndexOfIs(Fifths, Root(name), k);
  }

  // ---------------------------------------------------------------------
  // Building the seven notes
  // ---------------------------------------------------------------------

  /** Every letter of the cycle is an upper-case note letter. */
  lemma FifthIsLetter(j: nat)
    requires j < 7
    ensures |Fifths[j]| == 1 && IsLetter(Fifths[j][0])
  {
  }

  lemma LetterIsNoteLetter(c: char)
    requires IsLetter(c)
    ensures IsNoteLetter(c)
  {
  }

  /** The cycle index before k, wrapping from the end: (k - 1) % 7. */
  function FifthBefore(k: nat): (j: nat)
    requires 1 <= k <= 7
    ensures j < 7
    ensures k < 7 ==> j == k - 1
  {
    (k - 1) % 7
  }

  /**
   * The i-th name getNotes() creates. With the root at cycle index k != 0:
   * the letter before it, the letters from it to the end, then the letters
   * before the one preceding it with an extra '#'. With k == 0 (F): the
   * first six letters and "Bb". The key's own accidentals follow every
   * letter.
   */
  function KeyName(name: string, i: nat): (r: string)
    requires |name| >= 1 && i < 7
    ensures |r| >= 1 && IsLetter(r[0])
  {
    var k := FifthOf(name[0]);
    var acc := name[1..];
    var j := if k == 0 then (if i < 6 then i else 6)
      else if i == 0 then FifthBefore(k)
      else if i < 8 - k then k + i - 1
      else i - (8 - k);
    FifthIsLetter(j);
    if k == 0 then
      (if i < 6 then Fifths[i] + acc else "Bb" + acc)
    else if i == 0 then Fifths[FifthBefore(k)] + acc
    else if i < 8 - k then Fifths[k + i - 1] + acc
    else Fifths[i - (8 - k)] + acc + "#"
  }

  /** Note::create(name, oct) for a name that starts with a note letter, so it is never null. */
  function CreatedNote(name: string, oct: int): (r: Pitch)
    requires |name| >= 1 && IsNoteLetter(name[0])
    ensures |r.name| >= 1
  {
    assert IsValidName(name);
    Create(name, oct).value
  }

  /** The i-th note as Note::create() makes it from the i-th name. */
  function CreatedAt(key: NamedPitch, i: nat): Pitch
    requires i < 7
  {
    var n := KeyName(key.name, i);
    LetterIsNoteLetter(n[0]);
    CreatedNote(n, key.octave)
  }

  /** The seven notes of the key before sorting, each set to the key's octave field. */
  function BuiltNotes(key: NamedPitch): (r: seq<Pitch>)
    ensures |r| == 7
    ensures forall i :: 0 <= i < 7 ==> r[i] == OctaveSet(CreatedAt(key, i), key.octave, false)
  {
    seq(7, i requires 0 <= i < 7 => OctaveSet(CreatedAt(key, i), key.octave, false))
  }

  /** The first n created notes, in push order. */
  function CreatedPrefix(key: NamedPitch, n: nat): (r: seq<Pitch>)
    requires n <= 7
    ensures |r| == n
  {
    seq(n, i requires 0 <= i < n => CreatedAt(key, i))
  }

  /** Creating the note named `name` at position i extends the prefix by one. */
  lemma PushCreated(key: NamedPitch, i: nat, name: string)
    requires i < 7 && KeyName(key.name, i) == name
    ensures |name| >= 1 && IsNoteLetter(name[0])
    ensures CreatedPrefix(key, i) + [CreatedNote(name, key.octave)] == CreatedPrefix(key, i + 1)
  {
    LetterIsNoteLetter(name[0]);
  }

  /** The push_back loops of getNotes() followed by the loop that sets every octave. */
  method Build(key: NamedPitch) returns (result: seq<Pitch>)
    ensures result == BuiltNotes(key)
  {
    var created;
    if FifthOf(key.name[0]) != 0 {
      created := CreateFromCycle(key);
    } else {
      created := CreateFromF(key);
    }
    result := SetOctaves(created, key.octave);
  }

  /** The push_back loops for a root other than F: the letter before it, the letters from it on, then the sharpened ones. */
  method CreateFromCycle(key: NamedPitch) returns (result: seq<Pitch>)
    requires FifthOf(key.name[0]) != 0
    ensures result == CreatedPrefix(key, 7)
  {
    var k := FifthOf(key.name[0]);
    var acc := key.name[1..];
    var oct := key.octave;
    PushCreated(key, 0, Fifths[FifthBefore(k)] + acc);
    result := [CreatedNote(Fifths[FifthBefore(k)] + acc, oct)];
    for x := k to 7
      invariant result == CreatedPrefix(key, 1 + x - k)
    {
      ghost var i := 1 + x - k;
      PushCreated(key, i, Fifths[x] + acc);
      result := result + [CreatedNote(Fifths[x] + acc, oct)];
      assert result == CreatedPrefix(key, i + 1);
    }
    result := PushSharpened(key, result);
  }

  /** The last push_back loop for a root other than F: the letters before the one preceding it, with an extra '#'. */
  method PushSharpened(key: NamedPitch, created: seq<Pitch>) returns (result: seq<Pitch>)
    requires FifthOf(key.name[0]) != 0
    requires created == CreatedPrefix(key, 8 - FifthOf(key.name[0]))
    ensures result == CreatedPrefix(key, 7)
  {
    var k := FifthOf(key.name[0]);
    var acc := key.name[1..];
    result := created;
    for x := 0 to k - 1
      invariant result == CreatedPrefix(key, 8 - k + x)
    {
      ghost var i := 8 - k + x;
      PushCreated(key, i, Fifths[x] + acc + "#");
      result := result + [CreatedNote(Fifths[x] + acc + "#", key.octave)];
      assert result == CreatedPrefix(key, i + 1);
    }
  }

  /** The push_back loops for the root F: the first six letters of the cycle, then Bb. */
  method CreateFromF(key: NamedPitch) returns (result: seq<Pitch>)
    requires FifthOf(key.name[0]) == 0
    ensures result == CreatedPrefix(key, 7)
  {
    var acc := key.name[1..];
    var oct := key.octave;
    result := [];
    for x := 0 to 6
      invariant result == CreatedPrefix(key, x)
    {
      PushCreated(key, x, Fifths[x] + acc);
      result := result + [CreatedNote(Fifths[x] + acc, oct)];
    }
    PushCreated(key, 6, "Bb" + acc);
    result := result + [CreatedNote("Bb" + acc, oct)];
  }

  /** The loop of getNotes() that sets the octave field of every created note. */
  method SetOctaves(created: seq<Pitch>, oct: int) returns (result: seq<Pitch>)
    ensures |result| == |created|
    ensures forall j :: 0 <= j < |created| ==> result[j] == OctaveSet(created[j], oct, false)
  {
    result := created;
    for i := 0 to |created|
      invariant |result| == |created|
      invariant forall j :: 0 <= j < i ==> result[j] == OctaveSet(created[j], oct, false)
      invariant forall j :: i <= j < |created| ==> result[j] == created[j]
    {
      result := result[i := OctaveSet(result[i], oct, false)];
    }
  }

  /**
   * Rotation left by t: the notes from t on, then the first t notes one
   * octave higher (changeOctave(1)).
   */
  function RotatedUp(s: seq<Pitch>, t: nat): (r: seq<Pitch>)
    requires t <= |s|
    ensures |r| == |s|
    ensures forall i :: 0 <= i < |s| - t ==> r[i] == s[t + i]
    ensures forall i :: |s| - t <= i < |s| ==> r[i] == OctaveChanged(s[i - (|s| - t)], 1, false)
  {
    s[t..] + seq(t, i requires 0 <= i < t => OctaveChanged(s[i], 1, false))
  }

  /** The loop that appends the notes before the tonic, each raised one octave. */
  method RotateToTonic(sorted: seq<Pitch>, tonic: nat) returns (keySorted: seq<Pitch>)
    requires tonic <= |sorted|
    ensures keySorted == RotatedUp(sorted, tonic)
  {
    keySorted := sorted[tonic..];
    for i := 0 to tonic
      invariant |keySorted| == |sorted| - tonic + i
      invariant forall j :: 0 <= j < |keySorted| ==> keySorted[j] == RotatedUp(sorted, tonic)[j]
    {
      keySorted := keySorted + [OctaveChanged(sorted[i], 1, false)];
    }
  }

  /** getNotes() on a cache miss: sort by semitone, find the tonic by name and rotate to it. */
  function KeyNotes(key: NamedPitch): (r: seq<Pitch>)
    ensures |r| == 0 || |r| == 7
    ensures AllNamed(r)
  {
    SortedKeepsNamed(BuiltNotes(key));
    var sorted := SortedByInt(BuiltNotes(key));
    var t := FirstNameIndex(sorted, key.name);
    if t > -1 then RotatedUp(sorted, t) else []
  }

  /** The body of getNotes() after a cache miss, up to the result it saves. */
  method ComputeKey(key: NamedPitch) returns (keySorted: seq<Pitch>)
    ensures keySorted == KeyNotes(key)
  {
    var result := Build(key);
    var sorted := SortedByInt(result);
    var tonic := NoteId(sorted, key);
    keySorted := [];
    if tonic > -1 {
      keySorted := RotateToTonic(sorted, tonic);
    }
  }

  // ---------------------------------------------------------------------
  // Keys whose name is a letter followed only by '#' and 'b'
  // ---------------------------------------------------------------------

  /** The cycle index of each letter, taken in the order C, D, E, F, G, A, B. */
  const LetterFifths: seq<nat> := [1, 3, 5, 0, 2, 4, 6]

  /** Position of a letter in C, D, E, F, G, A, B. */
  function LetterPosition(c: char): (i: nat)
    requires IsLetter(c)
    ensures i < 7 && LetterFifths[i] == FifthOf(c)
  {
    match c
    case 'C' => 0
    case 'D' => 1
    case 'E' => 2
    case 'F' => 3
    case 'G' => 4
    case 'A' => 5
    case _ => 6
  }

  /** Reading the cycle in letter order gives back each position. */
  lemma LetterPositionOfFifth(j: nat)
    requires j < 7
    ensures IsLetter(Fifths[LetterFifths[j]][0])
    ensures LetterPosition(Fifths[LetterFifths[j]][0]) == j
  {
  }

  /**
   * The name built on cycle letter f when the root sits at cycle index k:
   * the letter and the key's accidentals, one more '#' on the letters the
   * build raises, and "Bb" in place of B in the key of F.
   */
  function SpelledName(f: nat, k: nat, acc: string): (n: string)
    requires f < 7
    ensures |n| >= 1 && n[0] == Fifths[f][0]
  {
    if k == 0 && f == 6 then "Bb" + acc
    else if k != 0 && f < k - 1 then Fifths[f] + acc + "#"
    else Fifths[f] + acc
  }

  /** The cycle letter pushed at position i when the root sits at cycle index k. */
  function PushOrder(k: nat, i: nat): (f: nat)
    requires i < 7
    ensures f < 7
  {
    if k == 0 then i else (i + k - 1) % 7
  }

  lemma KeyNameByLetter(name: string, i: nat)
    requires |name| >= 1 && i < 7
    ensures KeyName(name, i) == SpelledName(PushOrder(FifthOf(name[0]), i), FifthOf(name[0]), name[1..])
  {
    var k := FifthOf(name[0]);
    if k == 0 {
    } else if i == 0 {
      assert PushOrder(k, i) == k - 1;
    } else if i < 8 - k {
      assert PushOrder(k, i) == k + i - 1;
    } else {
      assert PushOrder(k, i) == i - (8 - k);
    }
  }

  predicate AccidentalsOnly(acc: string) {
    forall i :: 0 <= i < |acc| ==> acc[i] == '#' || acc[i] == 'b'
  }

  lemma SpelledNameIsSpelled(f: nat, k: nat, acc: string)
    requires f < 7 && AccidentalsOnly(acc)
    ensures IsSpelled(SpelledName(f, k, acc))
  {
    FifthIsLetter(f);
  }

  /** The note on cycle letter f in the key, at the key's octave field. */
  function Tone(key: NamedPitch, f: nat): Pitch
    requires f < 7
  {
    Pitch(SpelledName(f, FifthOf(key.name[0]), key.name[1..]), key.octave)
  }

  /** Both orders of two runs hold the same values. */
  lemma MultisetSwapRuns<T>(a: seq<T>, b: seq<T>)
    ensures multiset(a + b) == multiset(b + a)
  {
  }

  /** Exchanging two adjacent runs inside a sequence keeps its values. */
  lemma SwapInside<T>(x: seq<T>, a: seq<T>, b: seq<T>, y: seq<T>)
    ensures multiset(x + a + b + y) == multiset(x + b + a + y)
  {
    assert multiset(x + a + b + y) == multiset(x) + multiset(a) + multiset(b) + multiset(y);
    assert multiset(x + b + a + y) == multiset(x) + multiset(b) + multiset(a) + multiset(y);
  }

  lemma Regroup1<T>(s: seq<T>)
    requires |s| == 7
    ensures s == [] + [s[0]] + [s[1]] + s[2..]
  {
  }

  lemma Regroup2<T>(s: seq<T>)
    requires |s| == 7
    ensures [] + [s[1]] + [s[0]] + s[2..] == [s[1]] + [s[0], s[2]] + [s[3]] + s[4..]
  {
  }

  lemma Regroup3<T>(s: seq<T>)
    requires |s| == 7
    ensures [s[1]] + [s[3]] + [s[0], s[2]] + s[4..] == [s[1], s[3]] + [s[0], s[2], s[4]] + [s[5]] + s[6..]
  {
  }

  lemma Regroup4<T>(s: seq<T>)
    requires |s| == 7
    ensures [s[1], s[3]] + [s[5]] + [s[0], s[2], s[4]] + s[6..] == [s[1], s[3], s[5], s[0], s[2], s[4], s[6]]
  {
  }

  /** Cycle order F C G D A E B and letter order C D E F G A B hold the same values. */
  lemma CycleToLetterOrder<T>(s: seq<T>)
    requires |s| == 7
    ensures multiset(s) == multiset([s[1], s[3], s[5], s[0], s[2], s[4], s[6]])
  {
    Regroup1(s);
    SwapInside([], [s[0]], [s[1]], s[2..]);
    Regroup2(s);
    SwapInside([s[1]], [s[0], s[2]], [s[3]], s[4..]);
    Regroup3(s);
    SwapInside([s[1], s[3]], [s[0], s[2], s[4]], [s[5]], s[6..]);
    Regroup4(s);
  }

  /** The key's notes in cycle order F, C, G, D, A, E, B. */
  function CycleOrdered(key: NamedPitch): (r: seq<Pitch>)
    ensures |r| == 7
    ensures forall f :: 0 <= f < 7 ==> r[f] == Tone(key, f)
  {
    seq(7, f requires 0 <= f < 7 => Tone(key, f))
  }

  /** The key's notes in letter order C, D, E, F, G, A, B. */
  function LetterOrdered(key: NamedPitch): (r: seq<Pitch>)
    ensures |r| == 7
    ensures forall i :: 0 <= i < 7 ==> r[i] == Tone(key, LetterFifths[i])
  {
    seq(7, i requires 0 <= i < 7 => Tone(key, LetterFifths[i]))
  }

  /** Each built note of a spelled key is the tone on the cycle letter pushed at its position. */
  lemma BuiltAt(key: NamedPitch, i: nat)
    requires IsSpelled(key.name) && i < 7
    ensures BuiltNotes(key)[i] == CycleOrdered(key)[PushOrder(FifthOf(key.name[0]), i)]
  {
    var k := FifthOf(key.name[0]);
    KeyNameByLetter(key.name, i);
    SpelledNameIsSpelled(PushOrder(k, i), k, key.name[1..]);
    CreateSpelled(KeyName(key.name, i), key.octave);
  }

  /** Seven values read in push order are the cycle rotated to start before the root. */
  lemma PushOrderIsRotation<T>(b: seq<T>, c: seq<T>, k: nat)
    requires |b| == 7 && |c| == 7 && k < 7
    requires forall i :: 0 <= i < 7 ==> b[i] == c[PushOrder(k, i)]
    ensures b == if k == 0 then c else c[k - 1..] + c[..k - 1]
  {
  }

  /** A rotation of the cycle order holds the same values as the letter order. */
  lemma RotationIsRearranged<T>(b: seq<T>, c: seq<T>, k: nat)
    requires |c| == 7 && 0 < k < 7
    requires b == c[k - 1..] + c[..k - 1]
    ensures multiset(b) == multiset([c[1], c[3], c[5], c[0], c[2], c[4], c[6]])
  {
    assert c == c[..k - 1] + c[k - 1..];
    MultisetSwapRuns(c[..k - 1], c[k - 1..]);
    CycleToLetterOrder(c);
  }

  /** For a spelled key the built notes are a rearrangement of the letter-ordered notes. */
  lemma BuiltIsRearranged(key: NamedPitch)
    requires IsSpelled(key.name)
    ensures multiset(BuiltNotes(key)) == multiset(LetterOrdered(key))
  {
    var k := FifthOf(key.name[0]);
    var c := CycleOrdered(key);
    var b := BuiltNotes(key);
    forall i | 0 <= i < 7
      ensures b[i] == c[PushOrder(k, i)]
    {
      BuiltAt(key, i);
    }
    PushOrderIsRotation(b, c, k);
    assert LetterOrdered(key) == [c[1], c[3], c[5], c[0], c[2], c[4], c[6]];
    if k == 0 {
      CycleToLetterOrder(c);
    } else {
      RotationIsRearranged(b, c, k);
    }
  }

  /** The semitone offset the spelling adds on letter f: '#' raised, B flattened in F. */
  function Bump(f: nat, k: nat): int {
    if k == 0 && f == 6 then -1 else if k != 0 && f < k - 1 then 1 else 0
  }

  lemma LetterHasNoAccidentals(c: char)
    requires IsLetter(c)
    ensures NumberOfAccidentals([c]) == 0
  {
  }

  /** toInt of a tone: the key's octave and accidentals, the letter, and the bump. */
  lemma ToneValue(key: NamedPitch, f: nat)
    requires f < 7
    ensures ToInt(Tone(key, f)) ==
      (key.octave + 2) * 12 + NumberOfAccidentals(key.name[1..]) + LetterValue(Fifths[f][0]) + Bump(f, FifthOf(key.name[0]))
  {
    var k := FifthOf(key.name[0]);
    var acc := key.name[1..];
    FifthIsLetter(f);
    LetterHasNoAccidentals(Fifths[f][0]);
    if k == 0 && f == 6 {
      AccidentalsAppend("Bb", acc);
    } else if k != 0 && f < k - 1 {
      AccidentalsAppend(Fifths[f], acc);
      AccidentalsAppend(Fifths[f] + acc, "#");
    } else {
      AccidentalsAppend(Fifths[f], acc);
    }
  }

  /** Letter by letter the key rises, and its last letter is less than an octave above the first. */
  lemma LetterOrderedSteps(key: NamedPitch)
    ensures forall i :: 0 <= i < 6 ==> ToInt(LetterOrdered(key)[i]) < ToInt(LetterOrdered(key)[i + 1])
    ensures ToInt(LetterOrdered(key)[6]) < ToInt(LetterOrdered(key)[0]) + 12
  {
    var k := FifthOf(key.name[0]);
    var l := LetterOrdered(key);
    forall i | 0 <= i < 7
      ensures ToInt(l[i]) == (key.octave + 2) * 12 + NumberOfAccidentals(key.name[1..])
        + [0, 2, 4, 5, 7, 9, 11][i] + Bump(LetterFifths[i], k)
    {
      ToneValue(key, LetterFifths[i]);
    }
  }

  /** Sorting a spelled key's built notes by semitone puts them in letter order. */
  lemma SortedIsLetterOrdered(key: NamedPitch)
    requires IsSpelled(key.name)
    ensures SortedByInt(BuiltNotes(key)) == LetterOrdered(key)
    ensures StrictlyAscendingBy(LetterOrdered(key), ToInt)
  {
    LetterOrderedSteps(key);
    StrictlyAscendingBySteps(LetterOrdered(key), ToInt);
    BuiltIsRearranged(key);
    SortedIsUnique(SortedByInt(BuiltNotes(key)), LetterOrdered(key), ToInt);
  }

  /** In letter order the tonic is found at its letter's position. */
  lemma TonicPosition(key: NamedPitch)
    requires IsSpelled(key.name)
    ensures FirstNameIndex(LetterOrdered(key), key.name) == LetterPosition(key.name[0])
    ensures LetterOrdered(key)[LetterPosition(key.name[0])] == key
  {
    var c := key.name[0];
    var t := LetterPosition(c);
    var l := LetterOrdered(key);
    assert key.name == [c] + key.name[1..];
    assert l[t] == Tone(key, FifthOf(c));
    forall j | 0 <= j < t
      ensures l[j].name != key.name
    {
      LetterPositionOfFifth(j);
      assert l[j].name[0] == Fifths[LetterFifths[j]][0];
    }
    FirstIndexUnique(l, key.name, t);
  }

  /**
   * Rotating a strictly ascending run that spans less than an octave, with
   * the wrapped notes raised an octave, ascends strictly from the new first
   * note and stays below the octave above it.
   */
  lemma RotatedUpAscends(l: seq<Pitch>, t: nat)
    requires t < |l|
    requires StrictlyAscendingBy(l, ToInt)
    requires ToInt(l[|l| - 1]) < ToInt(l[0]) + 12
    ensures StrictlyAscendingBy(RotatedUp(l, t), ToInt)
    ensures forall i :: 0 <= i < |l| ==>
      ToInt(l[t]) <= ToInt(RotatedUp(l, t)[i]) < ToInt(l[t]) + 12
  {
    RotatedUpInts(l, t);
    RotatedUpWithinOctave(l, t);
    RotatedUpStrictlyAscends(l, t);
  }

  /** The wrapped notes sound an octave higher; the others keep their semitone. */
  lemma RotatedUpInts(l: seq<Pitch>, t: nat)
    requires t <= |l|
    ensures forall i :: 0 <= i < |l| ==>
      ToInt(RotatedUp(l, t)[i]) == if i < |l| - t then ToInt(l[t + i]) else ToInt(l[i - (|l| - t)]) + 12
  {
    var r := RotatedUp(l, t);
    var n := |l|;
    forall i | 0 <= i < n
      ensures ToInt(r[i]) == if i < n - t then ToInt(l[t + i]) else ToInt(l[i - (n - t)]) + 12
    {
      if i >= n - t {
        OctaveChangedShifts(l[i - (n - t)], 1);
      }
    }
  }

  lemma RotatedUpWithinOctave(l: seq<Pitch>, t: nat)
    requires t < |l|
    requires StrictlyAscendingBy(l, ToInt)
    requires ToInt(l[|l| - 1]) < ToInt(l[0]) + 12
    requires forall i :: 0 <= i < |l| ==>
      ToInt(RotatedUp(l, t)[i]) == if i < |l| - t then ToInt(l[t + i]) else ToInt(l[i - (|l| - t)]) + 12
    ensures forall i :: 0 <= i < |l| ==>
      ToInt(l[t]) <= ToInt(RotatedUp(l, t)[i]) < ToInt(l[t]) + 12
  {
    var r := RotatedUp(l, t);
    var n := |l|;
    forall i | 0 <= i < n
      ensures ToInt(l[t]) <= ToInt(r[i]) < ToInt(l[t]) + 12
    {
      if i < n - t {
        if t + i < n - 1 {
          assert ToInt(l[t + i]) < ToInt(l[n - 1]);
        }
        if 0 < t {
          assert ToInt(l[0]) < ToInt(l[t]);
        }
      } else {
        if 0 < i - (n - t) {
          assert ToInt(l[0]) < ToInt(l[i - (n - t)]);
        }
        if t < n - 1 {
          assert ToInt(l[t]) < ToInt(l[n - 1]);
        }
      }
    }
  }

  lemma RotatedUpStrictlyAscends(l: seq<Pitch>, t: nat)
    requires t < |l|
    requires StrictlyAscendingBy(l, ToInt)
    requires ToInt(l[|l| - 1]) < ToInt(l[0]) + 12
    requires forall i :: 0 <= i < |l| ==>
      ToInt(RotatedUp(l, t)[i]) == if i < |l| - t then ToInt(l[t + i]) else ToInt(l[i - (|l| - t)]) + 12
    ensures StrictlyAscendingBy(RotatedUp(l, t), ToInt)
  {
    var r := RotatedUp(l, t);
    var n := |l|;
    forall i, j | 0 <= i < j < n
      ensures ToInt(r[i]) < ToInt(r[j])
    {
      if j < n - t {
        assert ToInt(l[t + i]) < ToInt(l[t + j]);
      } else if i >= n - t {
        assert ToInt(l[i - (n - t)]) < ToInt(l[j - (n - t)]);
      } else {
        if t + i < n - 1 {
          assert ToInt(l[t + i]) < ToInt(l[n - 1]);
        }
        if 0 < j - (n - t) {
          assert ToInt(l[0]) < ToInt(l[j - (n - t)]);
        }
      }
    }
  }

  /** For a spelled key, getNotes() is the letter-ordered key rotated to the tonic. */
  lemma KeyNotesOfSpelled(key: NamedPitch)
    requires IsSpelled(key.name)
    ensures KeyNotes(key) == RotatedUp(LetterOrdered(key), LetterPosition(key.name[0]))
  {
    SortedIsLetterOrdered(key);
    TonicPosition(key);
  }

  /**
   * A spelled key gives seven notes: the tonic itself first, then strictly
   * rising semitones, all below the tonic's octave above.
   */
  lemma KeyNotesAscendFromTonic(key: NamedPitch)
    requires IsSpelled(key.name)
    ensures |KeyNotes(key)| == 7 && KeyNotes(key)[0] == key
    ensures StrictlyAscendingBy(KeyNotes(key), ToInt)
    ensures forall i :: 0 <= i < 7 ==> ToInt(key) <= ToInt(KeyNotes(key)[i]) < ToInt(key) + 12
  {
    KeyNotesOfSpelled(key);
    SortedIsLetterOrdered(key);
    TonicPosition(key);
    LetterOrderedSteps(key);
    RotatedUpAscends(LetterOrdered(key), LetterPosition(key.name[0]));
  }

  /** The tones of a key named by a bare letter: the letters, raised or flattened by the bump. */
  lemma BareLetterTone(key: NamedPitch, f: nat)
    requires |key.name| == 1 && f < 7
    ensures var k := FifthOf(key.name[0]);
      Tone(key, f).name == if k == 0 && f == 6 then "Bb" else if k != 0 && f < k - 1 then Fifths[f] + "#" else Fifths[f]
  {
    assert key.name[1..] == "";
  }

  /** The key of F: F, G, A, Bb, then C, D, E an octave higher. */
  lemma KeyOfF(o: int)
    ensures KeyNotes(Pitch("F", o)) ==
      [Pitch("F", o), Pitch("G", o), Pitch("A", o), Pitch("Bb", o),
       Pitch("C", o + 1), Pitch("D", o + 1), Pitch("E", o + 1)]
  {
    var key := Pitch("F", o);
    assert key.name[0] == 'F' && LetterPosition('F') == 3;
    assert IsSpelled(key.name);
    KeyNotesOfSpelled(key);
    LettersOfF(o);
    RotatedFromF(LetterOrdered(key), o);
  }

  lemma RotatedFromF(l: seq<Pitch>, o: int)
    requires l == [Pitch("C", o), Pitch("D", o), Pitch("E", o), Pitch("F", o),
                   Pitch("G", o), Pitch("A", o), Pitch("Bb", o)]
    ensures RotatedUp(l, 3) ==
      [Pitch("F", o), Pitch("G", o), Pitch("A", o), Pitch("Bb", o),
       Pitch("C", o + 1), Pitch("D", o + 1), Pitch("E", o + 1)]
  {
  }

  lemma LettersOfF(o: int)
    ensures LetterOrdered(Pitch("F", o)) ==
      [Pitch("C", o), Pitch("D", o), Pitch("E", o), Pitch("F", o),
       Pitch("G", o), Pitch("A", o), Pitch("Bb", o)]
  {
    var key := Pitch("F", o);
    var l := LetterOrdered(key);
    forall i | 0 <= i < 7
      ensures l[i] == [Pitch("C", o), Pitch("D", o), Pitch("E", o), Pitch("F", o),
                       Pitch("G", o), Pitch("A", o), Pitch("Bb", o)][i]
    {
      BareLetterTone(key, LetterFifths[i]);
    }
  }

  /** The key of C: the seven natural letters in one octave. */
  lemma KeyOfC(o: int)
    ensures KeyNotes(Pitch("C", o)) ==
      [Pitch("C", o), Pitch("D", o), Pitch("E", o), Pitch("F", o),
       Pitch("G", o), Pitch("A", o), Pitch("B", o)]
  {
    var key := Pitch("C", o);
    assert IsSpelled(key.name);
    KeyNotesOfSpelled(key);
    LettersOfC(o);
    RotatedFromC(LetterOrdered(key), o);
  }

  lemma RotatedFromC(l: seq<Pitch>, o: int)
    requires l == [Pitch("C", o), Pitch("D", o), Pitch("E", o), Pitch("F", o),
                   Pitch("G", o), Pitch("A", o), Pitch("B", o)]
    ensures RotatedUp(l, 0) == l
  {
  }

  lemma LettersOfC(o: int)
    ensures LetterOrdered(Pitch("C", o)) ==
      [Pitch("C", o), Pitch("D", o), Pitch("E", o), Pitch("F", o),
       Pitch("G", o), Pitch("A", o), Pitch("B", o)]
  {
    var key := Pitch("C", o);
    var l := LetterOrdered(key);
    forall i | 0 <= i < 7
      ensures l[i] == [Pitch("C", o), Pitch("D", o), Pitch("E", o), Pitch("F", o),
                       Pitch("G", o), Pitch("A", o), Pitch("B", o)][i]
    {
      BareLetterTone(key, LetterFifths[i]);
    }
  }

  /** The net accidentals of a tone: the key's own, moved by the bump. */
  lemma ToneAccidentals(key: NamedPitch, f: nat)
    requires IsSpelled(key.name) && f < 7
    ensures NumberOfAccidentals(Tone(key, f).name) ==
      NumberOfAccidentals(key.name) + Bump(f, FifthOf(key.name[0]))
  {
    var acc := key.name[1..];
    assert key.name == [key.name[0]] + acc;
    AccidentalsAppend([key.name[0]], acc);
    LetterHasNoAccidentals(key.name[0]);
    FifthIsLetter(f);
    LetterHasNoAccidentals(Fifths[f][0]);
    var k := FifthOf(key.name[0]);
    if k == 0 && f == 6 {
      AccidentalsAppend("Bb", acc);
    } else if k != 0 && f < k - 1 {
      AccidentalsAppend(Fifths[f], acc);
      AccidentalsAppend(Fifths[f] + acc, "#");
    } else {
      AccidentalsAppend(Fifths[f], acc);
    }
  }

  /**
   * Every note of a spelled key carries the tonic's net accidentals, one
   * more (a raised letter), or, only in a key on F, one fewer (the Bb).
   */
  lemma KeyNotesAccidentals(key: NamedPitch)
    requires IsSpelled(key.name)
    ensures forall i :: 0 <= i < |KeyNotes(key)| ==> AccidentalsNearTonic(key, KeyNotes(key)[i].name)
  {
    var l := LetterOrdered(key);
    var t := LetterPosition(key.name[0]);
    KeyNotesOfSpelled(key);
    LetterOrderedAccidentals(key);
    RotatedUpKeepsNames(l, t, key);
  }

  lemma LetterOrderedAccidentals(key: NamedPitch)
    requires IsSpelled(key.name)
    ensures forall j :: 0 <= j < |LetterOrdered(key)| ==> AccidentalsNearTonic(key, LetterOrdered(key)[j].name)
  {
    var l := LetterOrdered(key);
    forall j | 0 <= j < |l|
      ensures AccidentalsNearTonic(key, l[j].name)
    {
      ToneAccidentals(key, LetterFifths[j]);
    }
  }

  /** A note's net accidentals are the tonic's, one more, or, in a key on F only, one fewer. */
  predicate AccidentalsNearTonic(key: NamedPitch, name: string) {
    var d := NumberOfAccidentals(name) - NumberOfAccidentals(key.name);
    (d == 0 || d == 1 || d == -1) && (d == -1 ==> key.name[0] == 'F')
  }

  lemma RotatedUpKeepsNames(l: seq<Pitch>, t: nat, key: NamedPitch)
    requires t <= |l|
    requires forall j :: 0 <= j < |l| ==> AccidentalsNearTonic(key, l[j].name)
    ensures forall i :: 0 <= i < |l| ==> AccidentalsNearTonic(key, RotatedUp(l, t)[i].name)
  {
    forall i | 0 <= i < |l|
      ensures AccidentalsNearTonic(key, RotatedUp(l, t)[i].name)
    {
      if i < |l| - t {
        assert RotatedUp(l, t)[i] == l[t + i];
      } else {
        assert RotatedUp(l, t)[i].name == l[i - (|l| - t)].name;
      }
    }
  }

  /** Notes up to the tonic's letter keep the key's octave field; the wrapped ones are one higher. */
  lemma KeyNotesOctaves(key: NamedPitch)
    requires IsSpelled(key.name)
    ensures |KeyNotes(key)| == 7
    ensures forall i :: 0 <= i < 7 ==>
      KeyNotes(key)[i].octave == if i < 7 - LetterPosition(key.name[0]) then key.octave else key.octave + 1
  {
    KeyNotesOfSpelled(key);
  }

  /** In the key of C, D is the second note and one step from D is E. */
  lemma StepFromDInC(o: int)
    ensures var notes := KeyNotes(Pitch("C", o));
      |notes| == 7 && FirstNameIndex(notes, "D") == 1 && NoteAfter(notes, Pitch("D", o), 1) == Pitch("E", o)
  {
    KeyOfC(o);
    StepFromDInNaturals(KeyNotes(Pitch("C", o)), o);
  }

  lemma StepFromDInNaturals(notes: seq<Pitch>, o: int)
    requires notes == [Pitch("C", o), Pitch("D", o), Pitch("E", o), Pitch("F", o),
                       Pitch("G", o), Pitch("A", o), Pitch("B", o)]
    ensures FirstNameIndex(notes, "D") == 1 && NoteAfter(notes, Pitch("D", o), 1) == Pitch("E", o)
  {
    assert notes[0].name[0] != 'D';
    FirstIndexUnique(notes, "D", 1);
  }

  // ---------------------------------------------------------------------
  // The key cache
  // ---------------------------------------------------------------------

  /** The cache key: the name followed by std::to_string of the octave field. */
  function CacheKey(key: Pitch): (k: string)
    ensures |k| > |key.name| && k[..|key.name|] == key.name
  {
    key.name + IntToString(key.octave)
  }

  /** A name holding no digit and no '-': its end is visible inside a cache key. */
  predicate PlainName(name: string) {
    forall i :: 0 <= i < |name| ==> !IsDigit(name[i]) && name[i] != '-'
  }

  /** Two plain names never share a cache key unless name and octave both agree. */
  lemma CacheKeyInjective(a: Pitch, b: Pitch)
    requires PlainName(a.name) && PlainName(b.name)
    requires CacheKey(a) == CacheKey(b)
    ensures a == b
  {
    var s := CacheKey(a);
    if |a.name| < |b.name| {
      assert false;
    } else if |b.name| < |a.name| {
      assert false;
    }
    assert a.name == s[..|a.name|] == b.name;
    assert IntToString(a.octave) == s[|a.name|..] == IntToString(b.octave);
    IntToStringInjective(a.octave, b.octave);
  }

  /** Names with digits collide: "C1" in octave 2 and "C" in octave 12 share the key "C12". */
  lemma CacheKeyCollision()
    ensures Pitch("C1", 2) != Pitch("C", 12)
    ensures CacheKey(Pitch("C1", 2)) == CacheKey(Pitch("C", 12))
  {
    assert IntToString(2) == "2";
    assert NatToString(12) == NatToString(1) + [DigitChar(2)];
    assert IntToString(12) == "12";
  }

  /** Every saved entry is empty (tonic not found) or a full key of seven notes. */
  predicate SizesValid(m: map<string, seq<Pitch>>) {
    forall k :: k in m ==> |m[k]| == 0 || |m[k]| == 7
  }

  /** Every non-empty entry saved under a plain name's key holds that key's notes. */
  ghost predicate EntriesConsistent(m: map<string, seq<Pitch>>) {
    forall key: Pitch ::
      |key.name| >= 1 && PlainName(key.name) && CacheKey(key) in m ==>
        m[CacheKey(key)] == [] || m[CacheKey(key)] == KeyNotes(key)
  }

  /** Saving a plain key's own notes keeps the cache consistent. */
  lemma SaveKeepsConsistent(m: map<string, seq<Pitch>>, key: NamedPitch)
    requires EntriesConsistent(m) && PlainName(key.name)
    ensures EntriesConsistent(m[CacheKey(key) := KeyNotes(key)])
  {
    var m' := m[CacheKey(key) := KeyNotes(key)];
    forall key': Pitch | |key'.name| >= 1 && PlainName(key'.name) && CacheKey(key') in m'
      ensures m'[CacheKey(key')] == [] || m'[CacheKey(key')] == KeyNotes(key')
    {
      if CacheKey(key') == CacheKey(key) {
        CacheKeyInjective(key', key);
      }
    }
  }

  /** The note n steps after the first note named like `start`, counting round the seven. */
  function NoteAfter(notes: seq<Pitch>, start: Pitch, n: int): (r: Pitch)
    requires |notes| == 7
    requires var t := FirstNameIndex(notes, start.name); t >= 0 && t + n >= 0
    ensures r in notes
  {
    notes[(FirstNameIndex(notes, start.name) + n) % 7]
  }

  /** The scan of interval() over the notes of the key. */
  method StepInKey(notesInKey: seq<Pitch>, start: Pitch, n: int) returns (r: Pitch)
    requires |notesInKey| == 7
    requires var t := FirstNameIndex(notesInKey, start.name); t >= 0 && t + n >= 0
    ensures r == NoteAfter(notesInKey, start, n)
  {
    var i := 0;
    while i < |notesInKey|
      invariant 0 <= i <= FirstNameIndex(notesInKey, start.name)
    {
      if notesInKey[i].name == start.name {
        return notesInKey[(i + n) % 7];
      }
      i := i + 1;
    }
    assert false;
  }

  /** The static _keyCache: key string to the notes saved for it. */
  class KeyCache {
    var entries: map<string, seq<Pitch>>

    constructor ()
      ensures entries == map[]
      ensures Valid() && Consistent()
    {
      entries := map[];
    }

    predicate Valid()
      reads this
    {
      SizesValid(entries)
    }

    ghost predicate Consistent()
      reads this
    {
      EntriesConsistent(entries)
    }

    /** What getNotes(key) returns in the current state. */
    function Lookup(key: NamedPitch): (r: seq<Pitch>)
      reads this
      ensures Consistent() && PlainName(key.name) ==> r == KeyNotes(key)
    {
      var k := CacheKey(key);
      if k in entries && |entries[k]| > 0 then entries[k] else KeyNotes(key)
    }

    /**
     * getNotes(): a non-empty cached entry is returned as it is; otherwise
     * the key is built, sorted and rotated, saved under its cache key and
     * returned.
     */
    method GetNotes(key: NamedPitch) returns (r: seq<Pitch>)
      modifies this
      ensures r == old(Lookup(key))
      ensures Lookup(key) == r
      ensures var k := CacheKey(key);
        entries == if k in old(entries) && |old(entries)[k]| > 0 then old(entries) else old(entries)[k := r]
      ensures old(Valid()) ==> Valid()
      ensures old(Consistent()) && PlainName(key.name) ==> Consistent() && r == KeyNotes(key)
    {
      var k := CacheKey(key);
      if k in entries && |entries[k]| > 0 {
        r := entries[k];
        return;
      }
      var keySorted := ComputeKey(key);
      if Consistent() && PlainName(key.name) {
        SaveKeepsConsistent(entries, key);
      }
      entries := entries[k := keySorted];
      r := keySorted;
    }

    /**
     * interval(key, start, n): the note n steps after `start` in the key,
     * counting round the seven notes. The source has no return when `start`
     * is not in the key, and a negative sum would index before the start.
     */
    method Interval(key: NamedPitch, start: Pitch, n: int) returns (r: Pitch)
      requires Valid()
      requires var t := FirstNameIndex(Lookup(key), start.name); t >= 0 && t + n >= 0
      modifies this
      ensures r == NoteAfter(old(Lookup(key)), start, n)
      ensures Valid()
    {
      var notesInKey := GetNotes(key);
      r := StepInKey(notesInKey, start, n);
    }
  }
}
