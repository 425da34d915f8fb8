/**
 * Scales: rotation and octave normalisation of note lists, the builders of
 * the modes, minor scales and fixed-size scales, indexing and searching a
 * scale, and the chord-to-scale lookup table.
 *
 * The Interval component is not part of this model: the builders take it as
 * a parameter `iv` that names the note a given interval above a note.
 */
module Scales {
  import opened Utils
  import opened Wrappers
  import opened Notes
  import opened Diatonic

  /** The intervals the builders ask of the Interval component. */
  datatype IntervalName =
    | MinorSecond | MajorSecond | MinorThird | MajorThird | PerfectFourth | MinorFifth
    | PerfectFifth | MinorSixth | MajorSixth | MinorSeventh | MajorSeventh

  /** Interval::minorSecond(note) ... Interval::majorSeventh(note), as one function. */
  type Intervals = (IntervalName, Pitch) -> NamedPitch

  // ---------------------------------------------------------------------
  // Primitives: moving octaves and rotating
  // ---------------------------------------------------------------------

  /** changeOctave(diff) applied to every note. */
  function ChangedOctaves(ns: seq<Pitch>, diff: int): (r: seq<Pitch>)
    ensures |r| == |ns|
    ensures forall i :: 0 <= i < |ns| ==>
      r[i].name == ns[i].name && ToInt(r[i]) == ToInt(ns[i]) + 12 * diff
  {
    seq(|ns|, i requires 0 <= i < |ns| => OctaveChanged(ns[i], diff, false))
  }

  /** Moving every note by no octave changes nothing. */
  lemma ChangedOctavesByZero(ns: seq<Pitch>)
    ensures ChangedOctaves(ns, 0) == ns
  {
  }

  /** A note at or above C-2 moved to octave oct (>= -2) by whole octaves reports absolute octave oct. */
  lemma AbsoluteOctaveAfterShift(x: int, oct: int)
    requires x >= 0 && oct >= -2
    ensures var y := x + 12 * (oct - (TruncDiv(x, 12) - 2)); TruncDiv(y, 12) - 2 == oct
  {
    var q := x / 12;
    assert TruncDiv(x, 12) == q;
    var y := x + 12 * (oct - (q - 2));
    assert y == x % 12 + 12 * (oct + 2);
    assert y >= 0;
    assert y / 12 == oct + 2;
  }

  /**
   * setOctave(nts, oct): every note moved by the same number of octaves, the
   * one that brings the first note's absolute octave to oct; nothing for an
   * empty list.
   */
  function OctaveShifted(ns: seq<Pitch>, oct: int): (r: seq<Pitch>)
    ensures |r| == |ns|
    ensures forall i :: 0 <= i < |ns| ==> r[i].name == ns[i].name
    ensures forall i, j :: 0 <= i < |ns| && 0 <= j < |ns| ==>
      ToInt(r[i]) - ToInt(r[j]) == ToInt(ns[i]) - ToInt(ns[j])
    ensures |ns| > 0 && ToInt(ns[0]) >= 0 && oct >= -2 ==> AbsoluteOctave(r[0]) == oct
    ensures AllNamed(ns) ==> AllNamed(r)
  {
    if |ns| == 0 then ns
    else
      var r := ChangedOctaves(ns, oct - AbsoluteOctave(ns[0]));
      if ToInt(ns[0]) >= 0 && oct >= -2 then
        AbsoluteOctaveAfterShift(ToInt(ns[0]), oct);
        r
      else r
  }

  /** Moving a list to the octave its first note is already in changes nothing. */
  lemma OctaveShiftedToOwnOctave(ns: seq<Pitch>)
    requires |ns| > 0
    ensures OctaveShifted(ns, AbsoluteOctave(ns[0])) == ns
  {
    ChangedOctavesByZero(ns);
  }

  /** A list whose first note already reports octave oct is left unchanged by setOctave(oct). */
  lemma OctaveShiftedAtOctave(ns: seq<Pitch>, oct: int)
    requires |ns| > 0 && AbsoluteOctave(ns[0]) == oct
    ensures OctaveShifted(ns, oct) == ns
  {
    ChangedOctavesByZero(ns);
  }

  /**
   * offset(s, amount): with more than `amount` notes, the notes sorted by
   * semitone and rotated left by `amount`, the wrapped notes an octave
   * higher; otherwise the list as it is.
   */
  function Offset(s: seq<Pitch>, amount: nat): (r: seq<Pitch>)
    ensures |r| == |s|
    ensures |s| <= amount ==> r == s
    ensures AllNamed(s) ==> AllNamed(r)
  {
    if |s| <= amount then s
    else
      if AllNamed(s) then
        SortedKeepsNamed(s);
        RotatedUp(SortedByInt(s), amount)
      else RotatedUp(SortedByInt(s), amount)
  }

  /**
   * Rotating notes that already ascend strictly within an octave: the result
   * starts at the note `amount`, ascends strictly and stays below the octave
   * above its first note.
   */
  lemma OffsetOfAscending(s: seq<Pitch>, amount: nat)
    requires amount < |s|
    requires StrictlyAscendingBy(s, ToInt) && ToInt(s[|s| - 1]) < ToInt(s[0]) + 12
    ensures forall i :: 0 <= i < |s| - amount ==> Offset(s, amount)[i] == s[i + amount]
    ensures forall i :: |s| - amount <= i < |s| ==>
      Offset(s, amount)[i].name == s[i - (|s| - amount)].name &&
      ToInt(Offset(s, amount)[i]) == ToInt(s[i - (|s| - amount)]) + 12
    ensures StrictlyAscendingBy(Offset(s, amount), ToInt)
    ensures forall i :: 0 <= i < |s| ==>
      ToInt(s[amount]) <= ToInt(Offset(s, amount)[i]) < ToInt(s[amount]) + 12
  {
    SortedByIntOfStrictlyAscending(s);
    RotatedUpAscends(s, amount);
    forall i | |s| - amount <= i < |s|
      ensures ToInt(Offset(s, amount)[i]) == ToInt(s[i - (|s| - amount)]) + 12
    {
      OctaveChangedShifts(s[i - (|s| - amount)], 1);
    }
  }

  /** The copy loop, std::sort and the loop that appends the wrapped notes an octave up. */
  method OffsetNotes(orgscale: seq<Pitch>, amount: nat) returns (scale: seq<Pitch>)
    ensures scale == Offset(orgscale, amount)
  {
    if !(|orgscale| > amount) {
      return orgscale;
    }
    var copyScale: seq<Pitch> := [];
    for i := 0 to |orgscale|
      invariant copyScale == orgscale[..i]
    {
      copyScale := copyScale + [orgscale[i]];
    }
    assert copyScale == orgscale;
    copyScale := SortedByInt(copyScale);
    scale := copyScale[amount..];
    for i := 0 to amount
      invariant |scale| == |copyScale| - amount + i
      invariant forall j :: 0 <= j < |scale| ==> scale[j] == RotatedUp(copyScale, amount)[j]
    {
      scale := scale + [OctaveChanged(copyScale[i], 1, false)];
    }
  }

  // ---------------------------------------------------------------------
  // Indexing and searching a scale
  // ---------------------------------------------------------------------

  // The solver does not find these facts about products and quotients by
  // itself inside the index proofs below (getNote's rounds, the closest-note
  // search), so each is proved once here and called where it is needed.

  /** A product of non-negative numbers is non-negative. */
  lemma MulNonnegative(n: int, m: int)
    requires n >= 0 && m >= 0
    ensures n * m >= 0
  {
  }

  /** Multiplication distributes over addition. */
  lemma Distributes(n: int, a: int, k: int)
    ensures n * (a + k) == n * a + n * k
  {
  }

  /** n·a + n <= n·b when a < b and n is positive. */
  lemma MulStep(n: int, a: int, b: int)
    requires n > 0 && a < b
    ensures n * a + n <= n * b
  {
    Distributes(n, a, b - a);
    Distributes(n, 1, b - a - 1);
    MulNonnegative(n, b - a - 1);
  }

  /** Euclidean quotient and remainder are the unique ones. */
  lemma DivModOf(i: int, n: int, q: int, r: int)
    requires n > 0 && 0 <= r < n && i == n * q + r
    ensures i / n == q && i % n == r
  {
    var q0 := i / n;
    var r0 := i % n;
    assert i == n * q0 + r0;
    if q0 < q {
      MulStep(n, q0, q);
    } else if q < q0 {
      MulStep(n, q, q0);
    }
  }

  /** ceil((float)a / (float)b) for a >= 0 and b > 0, computed on integers. */
  function CeilDiv(a: nat, b: nat): (q: nat)
    requires b > 0
    ensures q * b >= a && (q == 0 || (q - 1) * b < a)
  {
    var q := (a + b - 1) / b;
    var r := (a + b - 1) % b;
    assert a + b - 1 == b * q + r;
    assert (q - 1) * b == q * b - b;
    q
  }

  /**
   * getNote(i) on a non-empty note list: the note at i counted round the
   * list (Euclidean remainder), moved by the number of whole rounds
   * (floor quotient) in octaves.
   */
  function NoteAt(notes: seq<Pitch>, i: int): (r: Pitch)
    requires |notes| > 0 && i >= -|notes|
    ensures r == OctaveChanged(notes[i % |notes|], i / |notes|, false)
    ensures ToInt(r) == ToInt(notes[i % |notes|]) + 12 * (i / |notes|)
  {
    var n := |notes|;
    var r := if i < 0 then
      OctaveChanged(notes[(n + i) % n], -(CeilDiv(-i, n) as int), false)
    else if i >= n then
      OctaveChanged(notes[i % n], i / n, false)
    else
      OctaveChanged(notes[i], 0, false);
    NoteAtArith(n, i);
    OctaveChangedShifts(notes[i % n], i / n);
    r
  }

  lemma NoteAtArith(n: int, i: int)
    requires n > 0 && i >= -n
    ensures i < 0 ==> CeilDiv(-i, n) == 1 && (n + i) % n == i % n && i / n == -1
    ensures 0 <= i < n ==> i % n == i && i / n == 0
  {
    if i < 0 {
      DivModOf(-i + n - 1, n, 1, -i - 1);
      DivModOf(n + i, n, 0, n + i);
      DivModOf(i, n, -1, n + i);
    } else if i < n {
      DivModOf(i, n, 0, i);
    }
  }

  /** One more round of the list is the same note exactly an octave higher. */
  lemma NoteAtNextRound(notes: seq<Pitch>, i: int)
    requires |notes| > 0 && i >= -|notes|
    ensures NoteAt(notes, i + |notes|).name == NoteAt(notes, i).name
    ensures ToInt(NoteAt(notes, i + |notes|)) == ToInt(NoteAt(notes, i)) + 12
  {
    var n := |notes|;
    DivModOf(i + n, n, i / n + 1, i % n);
  }

  /** getInt() % 12 with C++'s remainder. */
  function PitchClass(p: Pitch): (c: int)
    ensures -12 < c < 12
  {
    TruncMod(ToInt(p), 12)
  }

  /** The first index whose note has the pitch class of p, or -1. */
  function DegreeOf(notes: seq<Pitch>, p: Pitch): (k: int)
    ensures -1 <= k < |notes|
    ensures k >= 0 ==> PitchClass(notes[k]) == PitchClass(p)
    ensures forall j :: 0 <= j < |notes| && (k == -1 || j < k) ==> PitchClass(notes[j]) != PitchClass(p)
  {
    if |notes| == 0 then -1
    else if PitchClass(notes[0]) == PitchClass(p) then 0
    else
      var k := DegreeOf(notes[1..], p);
      if k == -1 then -1 else k + 1
  }

  /** Every note of the list is found, at its own index or an earlier one of the same class. */
  lemma DegreeOfMember(notes: seq<Pitch>, j: nat)
    requires j < |notes|
    ensures 0 <= DegreeOf(notes, notes[j]) <= j
  {
  }

  /** For notes at or above C-2 the degree does not depend on the octave. */
  lemma DegreeIgnoresOctave(notes: seq<Pitch>, p: Pitch, d: int)
    requires ToInt(p) >= 0 && ToInt(p) + 12 * d >= 0
    ensures DegreeOf(notes, OctaveChanged(p, d, false)) == DegreeOf(notes, p)
  {
    OctaveChangedShifts(p, d);
    var x := ToInt(p);
    assert (x + 12 * d) % 12 == x % 12;
    assert PitchClass(OctaveChanged(p, d, false)) == PitchClass(p);
    DegreeOfSameClass(notes, OctaveChanged(p, d, false), p);
  }

  lemma {:induction false} DegreeOfSameClass(notes: seq<Pitch>, p: Pitch, q: Pitch)
    requires PitchClass(p) == PitchClass(q)
    ensures DegreeOf(notes, p) == DegreeOf(notes, q)
  {
    if |notes| > 0 {
      DegreeOfSameClass(notes[1..], p, q);
    }
  }

  /** The lowest semitone value in a non-empty list. */
  function MinInt(ns: seq<Pitch>): (m: int)
    requires |ns| > 0
    ensures forall i :: 0 <= i < |ns| ==> m <= ToInt(ns[i])
  {
    if |ns| == 1 then ToInt(ns[0])
    else
      var m := MinInt(ns[1..]);
      if ToInt(ns[0]) < m then ToInt(ns[0]) else m
  }

  /** A wrapped note still below start lies in a round the search has a bound for. */
  lemma SearchBound(ns: seq<Pitch>, start: int, k: nat)
    requires |ns| > 0 && ToInt(NoteAt(ns, k)) < start
    ensures k < SearchBudget(|ns|, start, MinInt(ns))
  {
    var n := |ns|;
    var q := k / n;
    var x := ToInt(ns[k % n]);
    assert ToInt(NoteAt(ns, k)) == x + 12 * q;
    assert MinInt(ns) <= x;
    DivFacts(k, n);
    RoundBound(|ns|, k, q, k % n, start, MinInt(ns));
  }

  /** The quotient and remainder of k by n recombine to k, and k >= 0 has a non-negative quotient. */
  lemma DivFacts(k: int, n: int)
    requires n > 0
    ensures k == n * (k / n) + k % n && 0 <= k % n < n
    ensures k >= 0 ==> k / n >= 0
  {
  }

  /** A bound on the indices the search visits: one round per semitone between the lowest note and start. */
  function SearchBudget(n: int, start: int, m: int): int {
    n * (start - m + 1)
  }

  lemma RoundBound(n: int, k: int, q: int, r: int, start: int, m: int)
    requires n > 0 && k == n * q + r && 0 <= r < n && q >= 0 && 12 * q < start - m
    ensures k < SearchBudget(n, start, m)
  {
    MulStep(n, q, start - m + 1);
  }

  /** The first index from k on whose wrapped note reaches start. */
  function Reaching(ns: seq<Pitch>, start: int, k: nat): (j: nat)
    requires |ns| > 0
    ensures j >= k && ToInt(NoteAt(ns, j)) >= start
    ensures forall i :: k <= i < j ==> ToInt(NoteAt(ns, i)) < start
    decreases SearchBudget(|ns|, start, MinInt(ns)) - k
  {
    if ToInt(NoteAt(ns, k)) >= start then k
    else
      SearchBound(ns, start, k);
      Reaching(ns, start, k + 1)
  }

  /** How many octaves a first note at semitone x is lowered before it is at or below start. */
  function Drops(x: int, start: int): (d: nat)
    ensures x - 12 * d <= start
    ensures d > 0 ==> x - 12 * (d - 1) > start
    decreases x - start
  {
    if x <= start then 0 else Drops(x - 12, start) + 1
  }

  lemma ChangedOctavesTwice(ns: seq<Pitch>, a: int, b: int)
    ensures ChangedOctaves(ChangedOctaves(ns, a), b) == ChangedOctaves(ns, a + b)
  {
  }

  /** The copy of the scale the search walks: moved to the note's octave, then lowered. */
  function SearchStack(notes: seq<Pitch>, note: Pitch): (stack: seq<Pitch>)
    requires |notes| > 0
    ensures |stack| == |notes| && ToInt(stack[0]) <= ToInt(note)
  {
    var shifted := OctaveShifted(notes, AbsoluteOctave(note));
    ChangedOctaves(shifted, -(Drops(ToInt(shifted[0]), ToInt(note)) as int))
  }

  /** The search copy, from the octave-shifted notes and the lowering that follows. */
  lemma SearchStackOf(notes: seq<Pitch>, note: Pitch, shifted: seq<Pitch>, stack: seq<Pitch>)
    requires |notes| > 0 && shifted == OctaveShifted(notes, AbsoluteOctave(note))
    requires |shifted| > 0 && stack == ChangedOctaves(shifted, -(Drops(ToInt(shifted[0]), ToInt(note)) as int))
    ensures stack == SearchStack(notes, note)
  {
  }

  /**
   * The choice getClosestNote makes on the lowered copy: the first wrapped
   * note reaching start is taken when equal or when `higher`, and otherwise
   * the note before it.
   */
  function Picked(stack: seq<Pitch>, start: int, higher: bool): (k: int)
    requires |stack| > 0 && ToInt(stack[0]) <= start
    ensures k >= 0
    ensures higher ==> ToInt(NoteAt(stack, k)) >= start
    ensures !higher ==> ToInt(NoteAt(stack, k)) <= start
  {
    var k := Reaching(stack, start, 0);
    if ToInt(NoteAt(stack, k)) == start || higher then k
    else
      NoteAtArith(|stack|, 0);
      k - 1
  }

  /** getClosestNote(note, higher) on a valid scale: the picked note of the search copy. */
  function ClosestNote(notes: seq<Pitch>, note: Pitch, higher: bool): (r: Pitch)
    requires |notes| > 1
    ensures exists j, d :: 0 <= j < |notes| && r == OctaveChanged(notes[j], d, false)
    ensures higher ==> ToInt(r) >= ToInt(note)
    ensures !higher ==> ToInt(r) <= ToInt(note)
  {
    var stack := SearchStack(notes, note);
    var k := Picked(stack, ToInt(note), higher);
    ClosestIsScaleNote(notes, note, k);
    NoteAt(stack, k)
  }

  /** Every wrapped note of the search copy is a scale note moved by whole octaves. */
  lemma ClosestIsScaleNote(notes: seq<Pitch>, note: Pitch, k: int)
    requires |notes| > 0 && k >= -|notes|
    ensures exists j, d :: 0 <= j < |notes| && NoteAt(SearchStack(notes, note), k) == OctaveChanged(notes[j], d, false)
  {
    var oct := AbsoluteOctave(note);
    var e := oct - AbsoluteOctave(notes[0]);
    var shifted := OctaveShifted(notes, oct);
    var down := -(Drops(ToInt(shifted[0]), ToInt(note)) as int);
    assert shifted == ChangedOctaves(notes, e);
    ChangedOctavesTwice(notes, e, down);
    var stack := ChangedOctaves(notes, e + down);
    var j := k % |notes|;
    assert NoteAt(stack, k) == OctaveChanged(notes[j], e + down + k / |notes|, false);
  }

  /** Notes ascending strictly within one octave. */
  predicate AscendsWithinOctave(ns: seq<Pitch>) {
    |ns| > 0 && StrictlyAscendingBy(ns, ToInt) && ToInt(ns[|ns| - 1]) < ToInt(ns[0]) + 12
  }

  /** Walking a list that ascends within an octave round and round never goes down. */
  lemma NoteAtMonotone(ns: seq<Pitch>, a: int, b: int)
    requires AscendsWithinOctave(ns) && 0 <= a <= b
    ensures ToInt(NoteAt(ns, a)) <= ToInt(NoteAt(ns, b))
  {
    var n := |ns|;
    DivFacts(a, n);
    DivFacts(b, n);
    var qa, qb := a / n, b / n;
    if qb < qa {
      MulStep(n, qb, qa);
    }
    if qa < qb {
      assert ToInt(ns[a % n]) < ToInt(ns[0]) + 12;
      assert ToInt(ns[0]) <= ToInt(ns[b % n]);
    } else if a % n < b % n {
      assert ToInt(ns[a % n]) < ToInt(ns[b % n]);
    }
  }

  /** The pitch m octaves above list note j is a wrapped note (the one at index n·m + j). */
  lemma NoteAtRound(ns: seq<Pitch>, j: nat, m: nat) returns (i: nat)
    requires j < |ns|
    ensures ToInt(NoteAt(ns, i)) == ToInt(ns[j]) + 12 * m
  {
    MulNonnegative(|ns|, m);
    i := |ns| * m + j;
    DivModOf(i, |ns|, m, j);
  }

  /** The search copy ascends like the scale, and each of its notes is the scale note moved by one fixed number of octaves. */
  lemma SearchStackShape(notes: seq<Pitch>, note: Pitch) returns (c: int)
    requires AscendsWithinOctave(notes)
    ensures AscendsWithinOctave(SearchStack(notes, note))
    ensures forall j :: 0 <= j < |notes| ==> ToInt(SearchStack(notes, note)[j]) == ToInt(notes[j]) + 12 * c
  {
    var e := AbsoluteOctave(note) - AbsoluteOctave(notes[0]);
    var shifted := OctaveShifted(notes, AbsoluteOctave(note));
    var down := -(Drops(ToInt(shifted[0]), ToInt(note)) as int);
    assert shifted == ChangedOctaves(notes, e);
    ChangedOctavesTwice(notes, e, down);
    c := e + down;
  }

  /** With a list ascending within an octave, the first wrapped note reaching start is the lowest such pitch. */
  lemma ReachingIsLowest(stack: seq<Pitch>, start: int, j: nat, m: int)
    requires AscendsWithinOctave(stack) && ToInt(stack[0]) <= start && j < |stack|
    requires ToInt(stack[j]) + 12 * m >= start
    ensures ToInt(NoteAt(stack, Reaching(stack, start, 0))) <= ToInt(stack[j]) + 12 * m
  {
    var k := Reaching(stack, start, 0);
    if m >= 0 {
      var i := NoteAtRound(stack, j, m);
      NoteAtMonotone(stack, k, i);
    }
  }

  /** ... and the wrapped note before it is the highest pitch below start. */
  lemma BeforeReachingIsHighest(stack: seq<Pitch>, start: int, k: int, j: nat, m: int)
    requires AscendsWithinOctave(stack) && j < |stack| && k > 0
    requires ToInt(NoteAt(stack, k)) >= start
    requires ToInt(stack[j]) + 12 * m < start
    ensures ToInt(NoteAt(stack, k - 1)) >= ToInt(stack[j]) + 12 * m
  {
    if m >= 0 {
      var i := NoteAtRound(stack, j, m);
      BelowIsBefore(stack, i, k, start);
      NoteAtMonotone(stack, i, k - 1);
    } else {
      BelowFirstRound(stack, j, m, k - 1);
    }
  }

  lemma BelowIsBefore(ns: seq<Pitch>, i: int, k: int, start: int)
    requires AscendsWithinOctave(ns) && 0 <= i && 0 <= k
    requires ToInt(NoteAt(ns, k)) >= start > ToInt(NoteAt(ns, i))
    ensures i < k
  {
    if i >= k {
      NoteAtMonotone(ns, k, i);
    }
  }

  lemma BelowFirstRound(ns: seq<Pitch>, j: nat, m: int, i: int)
    requires AscendsWithinOctave(ns) && j < |ns| && m < 0 && i >= 0
    ensures ToInt(NoteAt(ns, i)) >= ToInt(ns[j]) + 12 * m
  {
    NoteAtArith(|ns|, 0);
    NoteAtMonotone(ns, 0, i);
    assert ToInt(ns[j]) < ToInt(ns[0]) + 12;
  }

  /** Looking upwards, the picked note is the lowest pitch of the lowered copy at or above start. */
  lemma PickedHigher(stack: seq<Pitch>, start: int, j: nat, m: int)
    requires AscendsWithinOctave(stack) && ToInt(stack[0]) <= start && j < |stack|
    requires ToInt(stack[j]) + 12 * m >= start
    ensures ToInt(NoteAt(stack, Picked(stack, start, true))) <= ToInt(stack[j]) + 12 * m
  {
    assert Picked(stack, start, true) == Reaching(stack, start, 0);
    ReachingIsLowest(stack, start, j, m);
  }

  /** Looking downwards, the picked note is the highest pitch of the lowered copy at or below start. */
  lemma PickedLower(stack: seq<Pitch>, start: int, j: nat, m: int)
    requires AscendsWithinOctave(stack) && ToInt(stack[0]) <= start && j < |stack|
    requires ToInt(stack[j]) + 12 * m <= start
    ensures ToInt(NoteAt(stack, Picked(stack, start, false))) >= ToInt(stack[j]) + 12 * m
  {
    var k := Reaching(stack, start, 0);
    var p := ToInt(stack[j]) + 12 * m;
    if ToInt(NoteAt(stack, k)) == start {
      assert Picked(stack, start, false) == k;
    } else if p == start {
      ReachingIsLowest(stack, start, j, m);
      assert false;
    } else {
      NoteAtArith(|stack|, 0);
      assert Picked(stack, start, false) == k - 1;
      BeforeReachingIsHighest(stack, start, k, j, m);
    }
  }

  /**
   * On a scale that ascends within an octave getClosestNote finds, among all
   * octave copies of the scale's notes, the lowest at or above the note
   * (higher) or the highest at or below it (otherwise); an exact match is
   * therefore always returned.
   */
  lemma ClosestOfAscending(notes: seq<Pitch>, note: Pitch, higher: bool, j: nat, m: int)
    requires |notes| > 1 && AscendsWithinOctave(notes) && j < |notes|
    ensures var r := ClosestNote(notes, note, higher); var p := ToInt(OctaveChanged(notes[j], m, false));
      (higher && p >= ToInt(note) ==> ToInt(r) <= p) &&
      (!higher && p <= ToInt(note) ==> ToInt(r) >= p)
  {
    var stack := SearchStack(notes, note);
    var c := SearchStackShape(notes, note);
    OctaveChangedShifts(notes[j], m);
    var p := ToInt(notes[j]) + 12 * m;
    assert ToInt(stack[j]) + 12 * (m - c) == p;
    if higher && p >= ToInt(note) {
      PickedHigher(stack, ToInt(note), j, m - c);
    } else if !higher && p <= ToInt(note) {
      PickedLower(stack, ToInt(note), j, m - c);
    }
  }

  /**
   * getDegreeClosestToNote(degree, note): the degree's note put in the
   * note's octave, or that an octave up or down, whichever is nearest to the
   * note in semitones; ties go to the same octave, then to the one above.
   */
  function DegreeClosest(notes: seq<Pitch>, degree: int, note: Pitch): (r: Pitch)
    requires |notes| > 0 && degree >= -|notes|
    ensures var s := OctaveSet(NoteAt(notes, degree), AbsoluteOctave(note), false);
      var up := OctaveChanged(s, 1, false);
      var down := OctaveChanged(s, -1, false);
      (r == s || r == up || r == down) &&
      Abs(ToInt(note) - ToInt(r)) <= Abs(ToInt(note) - ToInt(s)) &&
      Abs(ToInt(note) - ToInt(r)) <= Abs(ToInt(note) - ToInt(up)) &&
      Abs(ToInt(note) - ToInt(r)) <= Abs(ToInt(note) - ToInt(down)) &&
      (r == up ==> Abs(ToInt(note) - ToInt(up)) < Abs(ToInt(note) - ToInt(s))) &&
      (r == down ==> Abs(ToInt(note) - ToInt(down)) < Abs(ToInt(note) - ToInt(s)) &&
                     Abs(ToInt(note) - ToInt(down)) < Abs(ToInt(note) - ToInt(up)))
  {
    var startNote := ToInt(note);
    var searchNote := OctaveSet(NoteAt(notes, degree), AbsoluteOctave(note), false);
    var above := OctaveChanged(searchNote, 1, false);
    var below := OctaveChanged(searchNote, -1, false);
    var dif1 := Abs(startNote - ToInt(searchNote));
    var dif2 := Abs(startNote - ToInt(above));
    var dif3 := Abs(startNote - ToInt(below));
    if dif1 <= dif2 && dif1 <= dif3 then searchNote
    else if dif2 <= dif1 && dif2 <= dif3 then above
    else below
  }

  /** A scale: a name and its notes, which its methods change in place. */
  class Scale {
    var notes: seq<Pitch>
    var name: string

    constructor (name0: string, notes0: seq<Pitch>)
      ensures name == name0 && notes == notes0
    {
      name := name0;
      notes := notes0;
    }

    /** copy(): a new scale holding copies of the notes. */
    method Copy() returns (s: Scale)
      ensures fresh(s) && s.name == name && s.notes == notes
    {
      s := new Scale(name, []);
      for i := 0 to |notes|
        invariant s.notes == notes[..i] && s.name == name
      {
        s.notes := s.notes + [notes[i]];
      }
      assert notes[..|notes|] == notes;
    }

    /** isValid(): more than one note. */
    predicate IsValid()
      reads this
    {
      |notes| > 1
    }

    /** changeOctave(diff): every note moved by diff octaves. */
    method ChangeOctave(diff: int)
      modifies this
      ensures notes == ChangedOctaves(old(notes), diff) && name == old(name)
    {
      for i := 0 to |notes|
        invariant |notes| == |old(notes)| && name == old(name)
        invariant forall j :: 0 <= j < i ==> notes[j] == OctaveChanged(old(notes)[j], diff, false)
        invariant forall j :: i <= j < |notes| ==> notes[j] == old(notes)[j]
      {
        notes := notes[i := OctaveChanged(notes[i], diff, false)];
      }
    }

    /** setOctave(oct): every note moved so that the first reports absolute octave oct. */
    method SetOctave(oct: int)
      modifies this
      ensures notes == OctaveShifted(old(notes), oct) && name == old(name)
    {
      if |notes| > 0 {
        var firstNoteOct := AbsoluteOctave(notes[0]);
        var diff := oct - firstNoteOct;
        ChangeOctave(diff);
      }
    }

    method OctaveUp()
      modifies this
      ensures notes == ChangedOctaves(old(notes), 1) && name == old(name)
    {
      ChangeOctave(1);
    }

    method OctaveDown()
      modifies this
      ensures notes == ChangedOctaves(old(notes), -1) && name == old(name)
    {
      ChangeOctave(-1);
    }

    /** getNote(i): nothing for an invalid scale, else the note at i counted round the scale. */
    function GetNote(i: int): (r: Option<Pitch>)
      reads this
      requires IsValid() ==> i >= -|notes|
      ensures r.Some? <==> IsValid()
      ensures r.Some? ==> r.value == NoteAt(notes, i)
    {
      if IsValid() then Some(NoteAt(notes, i)) else None
    }

    /** getDegree(n): the scan for the first note of the same pitch class. */
    method GetDegree(n: Pitch) returns (k: int)
      ensures k == if IsValid() then DegreeOf(notes, n) else -1
    {
      if IsValid() {
        var i := 0;
        while i < |notes|
          invariant 0 <= i <= |notes|
          invariant forall j :: 0 <= j < i ==> PitchClass(notes[j]) != PitchClass(n)
        {
          if PitchClass(n) == PitchClass(notes[i]) {
            DegreeOfFirst(notes, n, i);
            return i;
          }
          i := i + 1;
        }
        DegreeOfFirst(notes, n, -1);
      }
      return -1;
    }

    /** getClosestNote(note, higher): the search on a moved copy of the scale. */
    method GetClosestNote(note: Pitch, higher: bool) returns (r: Pitch)
      ensures r == if IsValid() then ClosestNote(notes, note, higher) else note
    {
      if IsValid() {
        var stack := LoweredCopy(note);
        r := stack.SearchUp(ToInt(note), higher);
        return;
      }
      return note;
    }

    /** The copy getClosestNote searches: moved to the note's octave, then lowered until it starts at or below the note. */
    method LoweredCopy(note: Pitch) returns (stack: Scale)
      requires IsValid()
      ensures fresh(stack) && stack.IsValid()
      ensures stack.notes == SearchStack(notes, note)
    {
      var startNote := ToInt(note);
      var startOct := AbsoluteOctave(note);
      ghost var shifted := OctaveShifted(notes, startOct);
      stack := Copy();
      stack.SetOctave(startOct);
      assert stack.notes == shifted;
      stack.LowerTo(startNote);
      SearchStackOf(notes, note, shifted, stack.notes);
    }

    /** The loop of getClosestNote that lowers the copy an octave at a time. */
    method LowerTo(startNote: int)
      requires IsValid()
      modifies this
      ensures IsValid() && name == old(name)
      ensures notes == ChangedOctaves(old(notes), -(Drops(ToInt(old(notes)[0]), startNote) as int))
    {
      ghost var shifted := notes;
      ghost var total := Drops(ToInt(shifted[0]), startNote);
      ghost var lowered: int := 0;
      while ToInt(GetNote(0).value) > startNote
        invariant IsValid() && name == old(name)
        invariant 0 <= lowered <= total
        invariant notes == ChangedOctaves(shifted, -lowered)
        invariant Drops(ToInt(notes[0]), startNote) == total - lowered
        decreases total - lowered
      {
        OctaveDown();
        ChangedOctavesTwice(shifted, -lowered, -1);
        lowered := lowered + 1;
      }
    }

    /** The loop of getClosestNote that walks up the lowered copy. */
    method SearchUp(startNote: int, higher: bool) returns (r: Pitch)
      requires IsValid() && ToInt(notes[0]) <= startNote
      ensures r == NoteAt(notes, Picked(notes, startNote, higher))
    {
      ghost var k := Reaching(notes, startNote, 0);
      var currNote := 0;
      while true
        invariant 0 <= currNote <= k
        decreases k - currNote
      {
        var current := GetNote(currNote).value;
        if ToInt(current) == startNote {
          return current;
        }
        if ToInt(current) > startNote {
          if higher {
            return current;
          }
          var previous := GetNote(currNote - 1).value;
          return previous;
        }
        currNote := currNote + 1;
      }
    }

    /** getDegreeClosestToNote(degree, note); an invalid scale gives the note back. */
    function GetDegreeClosestToNote(degree: int, note: Pitch): (r: Pitch)
      reads this
      requires IsValid() ==> degree >= -|notes|
      ensures !IsValid() ==> r == note
      ensures IsValid() ==> r == DegreeClosest(notes, degree, note)
    {
      if IsValid() then DegreeClosest(notes, degree, note) else note
    }
  }

  lemma DegreeOfFirst(notes: seq<Pitch>, p: Pitch, k: int)
    requires -1 <= k < |notes|
    requires k >= 0 ==> PitchClass(notes[k]) == PitchClass(p)
    requires forall j :: 0 <= j < |notes| && (k == -1 || j < k) ==> PitchClass(notes[j]) != PitchClass(p)
    ensures k == DegreeOf(notes, p)
  {
  }

  // ---------------------------------------------------------------------
  // Builders: the diatonic modes
  // ---------------------------------------------------------------------

  /** diatonic(note) and ionian(note): the key's notes moved to the note's absolute octave. */
  function Ionian(note: NamedPitch): (r: seq<Pitch>)
    ensures |r| == 0 || |r| == 7
    ensures AllNamed(r)
  {
    OctaveShifted(KeyNotes(note), AbsoluteOctave(note))
  }

  /** On a spelled note the ionian scale is exactly the key's notes: the tonic already sets the octave. */
  lemma IonianOfSpelled(note: NamedPitch)
    requires IsSpelled(note.name)
    ensures Ionian(note) == KeyNotes(note)
    ensures |Ionian(note)| == 7 && Ionian(note)[0] == note
    ensures StrictlyAscendingBy(Ionian(note), ToInt)
    ensures ToInt(Ionian(note)[6]) < ToInt(note) + 12
  {
    KeyNotesAscendFromTonic(note);
    OctaveShiftedAtOctave(KeyNotes(note), AbsoluteOctave(note));
  }

  /**
   * The common shape of dorian ... locrian: the ionian scale on a fixed
   * interval above the note, rotated by a fixed amount, moved to the note's
   * octave.
   */
  function Mode(iv: Intervals, note: Pitch, interval: IntervalName, amount: nat): (r: seq<Pitch>)
    ensures |r| == 0 || |r| == 7
    ensures AllNamed(r)
  {
    OctaveShifted(Offset(Ionian(iv(interval, note)), amount), AbsoluteOctave(note))
  }

  function Dorian(iv: Intervals, note: Pitch): seq<Pitch> { Mode(iv, note, MinorSeventh, 1) }
  function Phrygian(iv: Intervals, note: Pitch): seq<Pitch> { Mode(iv, note, MinorSixth, 2) }
  function Lydian(iv: Intervals, note: Pitch): seq<Pitch> { Mode(iv, note, PerfectFifth, 3) }
  function Mixolydian(iv: Intervals, note: Pitch): seq<Pitch> { Mode(iv, note, PerfectFourth, 4) }
  function Aeolian(iv: Intervals, note: Pitch): seq<Pitch> { Mode(iv, note, MinorThird, 5) }
  function Locrian(iv: Intervals, note: Pitch): seq<Pitch> { Mode(iv, note, MinorSecond, 6) }

  /** Moving a list by whole octaves keeps strict ascent and the span of the list. */
  lemma OctaveShiftedAscends(ns: seq<Pitch>, oct: int)
    requires |ns| > 0 && StrictlyAscendingBy(ns, ToInt)
    ensures StrictlyAscendingBy(OctaveShifted(ns, oct), ToInt)
    ensures ToInt(OctaveShifted(ns, oct)[|ns| - 1]) - ToInt(OctaveShifted(ns, oct)[0]) ==
      ToInt(ns[|ns| - 1]) - ToInt(ns[0])
  {
  }

  /** Reading seven positions round from `amount`. */
  lemma RoundIndex(i: int, amount: nat)
    requires 0 <= i < 7 && amount < 7
    ensures (i + amount) % 7 == if i < 7 - amount then i + amount else i - (7 - amount)
  {
  }

  /** The key of a spelled note rotated by `amount`: read round from `amount`, ascending within an octave. */
  lemma OffsetOfKey(t: NamedPitch, amount: nat)
    requires amount < 7 && IsSpelled(t.name)
    ensures var key := KeyNotes(t); var o := Offset(key, amount);
      |key| == 7 && |o| == 7 &&
      (forall i :: 0 <= i < 7 ==> o[i].name == key[(i + amount) % 7].name) &&
      StrictlyAscendingBy(o, ToInt) && ToInt(o[6]) - ToInt(o[0]) < 12 && ToInt(o[0]) >= ToInt(t)
  {
    var key := KeyNotes(t);
    KeyNotesAscendFromTonic(t);
    OffsetOfAscending(key, amount);
    forall i | 0 <= i < 7
      ensures Offset(key, amount)[i].name == key[(i + amount) % 7].name
    {
      RoundIndex(i, amount);
    }
  }

  /**
   * A mode whose interval note is spelled and at or above C-2: seven notes,
   * the key of the interval note read round from position `amount`, strictly
   * ascending within one octave, the first in the note's absolute octave.
   */
  lemma ModeOfSpelled(iv: Intervals, note: Pitch, interval: IntervalName, amount: nat)
    requires amount < 7
    requires IsSpelled(iv(interval, note).name) && ToInt(iv(interval, note)) >= 0
    ensures var key := KeyNotes(iv(interval, note)); var r := Mode(iv, note, interval, amount);
      |r| == 7 && |key| == 7 &&
      (forall i :: 0 <= i < 7 ==> r[i].name == key[(i + amount) % 7].name) &&
      StrictlyAscendingBy(r, ToInt) && ToInt(r[6]) - ToInt(r[0]) < 12 &&
      (AbsoluteOctave(note) >= -2 ==> AbsoluteOctave(r[0]) == AbsoluteOctave(note))
  {
    var t := iv(interval, note);
    IonianOfSpelled(t);
    OffsetOfKey(t, amount);
    OctaveShiftedAscends(Offset(KeyNotes(t), amount), AbsoluteOctave(note));
  }

  // ---------------------------------------------------------------------
  // Builders: single-degree alterations
  // ---------------------------------------------------------------------

  /** scale[i]->augment() or scale[i]->diminish() on one note of a list. */
  function Altered(s: seq<Pitch>, i: nat, raise: bool): (r: seq<Pitch>)
    requires i < |s| && |s[i].name| >= 1
    ensures |r| == |s|
    ensures forall j :: 0 <= j < |s| && j != i ==> r[j] == s[j]
  {
    s[i := if raise then Augmented(s[i], 1) else Diminished(s[i], 1)]
  }

  /** On a spelled note the alteration keeps the letter and moves exactly one semitone. */
  lemma AlteredMovesOneSemitone(s: seq<Pitch>, i: nat, raise: bool)
    requires i < |s| && IsSpelled(s[i].name)
    ensures |Altered(s, i, raise)[i].name| >= 1 && Altered(s, i, raise)[i].name[0] == s[i].name[0]
    ensures ToInt(Altered(s, i, raise)[i]) == ToInt(s[i]) + (if raise then 1 else -1)
  {
    if raise {
      AugmentedRaises(s[i], 1);
    } else {
      DiminishedLowers(s[i], 1);
    }
  }

  /** setOctave after altering a degree other than the first changes nothing when the list already starts in oct. */
  lemma AlteredStaysInOctave(s: seq<Pitch>, i: nat, raise: bool, oct: int)
    requires 0 < i < |s| && |s[i].name| >= 1 && AbsoluteOctave(s[0]) == oct
    ensures OctaveShifted(Altered(s, i, raise), oct) == Altered(s, i, raise)
  {
    OctaveShiftedAtOctave(Altered(s, i, raise), oct);
  }

  /** naturalMinor(note): the key a minor third up, rotated by five, moved to the note's octave. */
  function NaturalMinor(iv: Intervals, note: Pitch): (r: seq<Pitch>)
    ensures |r| == 0 || |r| == 7
    ensures AllNamed(r)
  {
    OctaveShifted(Offset(KeyNotes(iv(MinorThird, note)), 5), AbsoluteOctave(note))
  }

  /**
   * A natural minor whose minor third is spelled and at or above C-2: the
   * aeolian mode, so seven notes, the key a minor third up read round from
   * its sixth degree, strictly ascending within one octave, the first in
   * the note's absolute octave.
   */
  lemma NaturalMinorOfSpelled(iv: Intervals, note: Pitch)
    requires IsSpelled(iv(MinorThird, note).name) && ToInt(iv(MinorThird, note)) >= 0
    ensures NaturalMinor(iv, note) == Aeolian(iv, note)
    ensures var key := KeyNotes(iv(MinorThird, note)); var r := NaturalMinor(iv, note);
      |r| == 7 && |key| == 7 &&
      (forall i :: 0 <= i < 7 ==> r[i].name == key[(i + 5) % 7].name) &&
      StrictlyAscendingBy(r, ToInt) && ToInt(r[6]) - ToInt(r[0]) < 12 &&
      (AbsoluteOctave(note) >= -2 ==> AbsoluteOctave(r[0]) == AbsoluteOctave(note))
  {
    IonianOfSpelled(iv(MinorThird, note));
    ModeOfSpelled(iv, note, MinorThird, 5);
  }

  /** harmonicMinor(note): the natural minor with its seventh degree raised. */
  function HarmonicMinor(iv: Intervals, note: Pitch): (r: seq<Pitch>)
    requires |NaturalMinor(iv, note)| == 7
    ensures |r| == 7 && forall j :: 0 <= j < 6 ==> r[j] == NaturalMinor(iv, note)[j]
  {
    Altered(NaturalMinor(iv, note), 6, true)
  }

  /** melodicMinor(note): the harmonic minor with its sixth degree raised, moved to the note's octave. */
  function MelodicMinor(iv: Intervals, note: Pitch): (r: seq<Pitch>)
    requires |NaturalMinor(iv, note)| == 7
    ensures |r| == 7
    ensures forall j :: 0 <= j < 5 ==> r[j].name == NaturalMinor(iv, note)[j].name
  {
    OctaveShifted(Altered(HarmonicMinor(iv, note), 5, true), AbsoluteOctave(note))
  }

  /** The modes of the melodic minor: a mode with one degree altered, moved to the note's octave. */
  function AlteredMode(base: seq<Pitch>, i: nat, raise: bool, note: Pitch): (r: seq<Pitch>)
    requires |base| == 7 && AllNamed(base) && i < 7
    ensures |r| == 7
  {
    OctaveShifted(Altered(base, i, raise), AbsoluteOctave(note))
  }

  function MelodicMinorII(iv: Intervals, note: Pitch): seq<Pitch>
    requires |Phrygian(iv, note)| == 7
  {
    AlteredMode(Phrygian(iv, note), 5, true, note)
  }

  function MelodicMinorIII(iv: Intervals, note: Pitch): seq<Pitch>
    requires |Lydian(iv, note)| == 7
  {
    AlteredMode(Lydian(iv, note), 4, true, note)
  }

  function MelodicMinorIV(iv: Intervals, note: Pitch): seq<Pitch>
    requires |Lydian(iv, note)| == 7
  {
    AlteredMode(Lydian(iv, note), 6, false, note)
  }

  function MelodicMinorV(iv: Intervals, note: Pitch): seq<Pitch>
    requires |Mixolydian(iv, note)| == 7
  {
    AlteredMode(Mixolydian(iv, note), 5, false, note)
  }

  function MelodicMinorVI(iv: Intervals, note: Pitch): seq<Pitch>
    requires |Locrian(iv, note)| == 7
  {
    AlteredMode(Locrian(iv, note), 1, true, note)
  }

  function MelodicMinorVII(iv: Intervals, note: Pitch): seq<Pitch>
    requires |Locrian(iv, note)| == 7
  {
    AlteredMode(Locrian(iv, note), 3, false, note)
  }

  /**
   * Each melodic-minor mode on a note at or above C-2 whose mode is spelled
   * differs from its mode in exactly the one degree, moved one semitone.
   */
  lemma AlteredModeOfSpelled(iv: Intervals, note: Pitch, interval: IntervalName, amount: nat, i: nat, raise: bool)
    requires amount < 7 && 0 < i < 7
    requires IsSpelled(iv(interval, note).name) && ToInt(iv(interval, note)) >= 0 && ToInt(note) >= 0
    requires |Mode(iv, note, interval, amount)| == 7 && IsSpelled(Mode(iv, note, interval, amount)[i].name)
    ensures var base := Mode(iv, note, interval, amount); var r := AlteredMode(base, i, raise, note);
      |r| == 7 && (forall j :: 0 <= j < 7 && j != i ==> r[j] == base[j]) &&
      ToInt(r[i]) == ToInt(base[i]) + (if raise then 1 else -1)
  {
    ModeOfSpelled(iv, note, interval, amount);
    var base := Mode(iv, note, interval, amount);
    AbsoluteOctaveBounds(note);
    AlteredStaysInOctave(base, i, raise, AbsoluteOctave(note));
    AlteredMovesOneSemitone(base, i, raise);
  }

  /** lydianDiminished(note): the ionian with the third lowered and the fourth raised, moved to the note's octave. */
  function LydianDiminished(note: NamedPitch): (r: seq<Pitch>)
    requires |Ionian(note)| == 7
    ensures |r| == 7
  {
    OctaveShifted(Altered(Altered(Ionian(note), 2, false), 3, true), AbsoluteOctave(note))
  }

  /** Apart from the lowered third and the raised fourth, the lydian diminished keeps the ionian's names and steps. */
  lemma LydianDiminishedSteps(note: NamedPitch, j: nat)
    requires |Ionian(note)| == 7
    requires j < 7 && j != 2 && j != 3
    ensures LydianDiminished(note)[j].name == Ionian(note)[j].name
    ensures ToInt(LydianDiminished(note)[j]) - ToInt(LydianDiminished(note)[0]) ==
            ToInt(Ionian(note)[j]) - ToInt(Ionian(note)[0])
  {
    var altered := Altered(Altered(Ionian(note), 2, false), 3, true);
    assert altered[j] == Ionian(note)[j] && altered[0] == Ionian(note)[0];
  }

  /** hindu(note): the ionian with the sixth degree lowered. */
  function Hindu(note: NamedPitch): (r: seq<Pitch>)
    requires |Ionian(note)| == 7
    ensures |r| == 7
    ensures forall j :: 0 <= j < 7 && j != 5 ==> r[j] == Ionian(note)[j]
  {
    Altered(Ionian(note), 5, false)
  }

  // ---------------------------------------------------------------------
  // Builders: fixed-size scales
  // ---------------------------------------------------------------------

  /** The note followed by the notes the given intervals above it. */
  function Stacked(iv: Intervals, note: Pitch, intervals: seq<IntervalName>): (r: seq<Pitch>)
    ensures |r| == |intervals| + 1 && r[0] == note
    ensures forall i :: 0 <= i < |intervals| ==> r[i + 1] == iv(intervals[i], note)
  {
    [note] + seq(|intervals|, i requires 0 <= i < |intervals| => iv(intervals[i], note))
  }

  /** A stacked list moved to its own root's octave is unchanged. */
  lemma StackedInOwnOctave(iv: Intervals, note: Pitch, intervals: seq<IntervalName>)
    ensures OctaveShifted(Stacked(iv, note, intervals), AbsoluteOctave(note)) == Stacked(iv, note, intervals)
  {
    OctaveShiftedAtOctave(Stacked(iv, note, intervals), AbsoluteOctave(note));
  }

  /** pentatonicMinor(note): root, minor third, perfect fourth, perfect fifth, minor seventh. */
  function PentatonicMinor(iv: Intervals, note: Pitch): (r: seq<Pitch>)
    ensures r == Stacked(iv, note, [MinorThird, PerfectFourth, PerfectFifth, MinorSeventh])
    ensures |r| == 5
  {
    StackedInOwnOctave(iv, note, [MinorThird, PerfectFourth, PerfectFifth, MinorSeventh]);
    OctaveShifted(Stacked(iv, note, [MinorThird, PerfectFourth, PerfectFifth, MinorSeventh]), AbsoluteOctave(note))
  }

  /** pentatonicMajor(note): root, major second, major third, perfect fifth, major sixth. */
  function PentatonicMajor(iv: Intervals, note: Pitch): (r: seq<Pitch>)
    ensures r == Stacked(iv, note, [MajorSecond, MajorThird, PerfectFifth, MajorSixth])
    ensures |r| == 5
  {
    StackedInOwnOctave(iv, note, [MajorSecond, MajorThird, PerfectFifth, MajorSixth]);
    OctaveShifted(Stacked(iv, note, [MajorSecond, MajorThird, PerfectFifth, MajorSixth]), AbsoluteOctave(note))
  }

  /** pentatonicDominant(note): root, major second, major third, perfect fifth, minor seventh. */
  function PentatonicDominant(iv: Intervals, note: Pitch): (r: seq<Pitch>)
    ensures r == Stacked(iv, note, [MajorSecond, MajorThird, PerfectFifth, MinorSeventh])
    ensures |r| == 5
  {
    StackedInOwnOctave(iv, note, [MajorSecond, MajorThird, PerfectFifth, MinorSeventh]);
    OctaveShifted(Stacked(iv, note, [MajorSecond, MajorThird, PerfectFifth, MinorSeventh]), AbsoluteOctave(note))
  }

  /** The roots of the pentatonics on other degrees, bII ... VII, a semitone apart. */
  datatype Degree = FlatII | II | FlatIII | III | IV | FlatV | V | FlatVI | VI | FlatVII | VII

  function Semitones(d: Degree): (n: nat)
    ensures 1 <= n <= 11
  {
    match d
    case FlatII => 1 case II => 2 case FlatIII => 3 case III => 4 case IV => 5 case FlatV => 6
    case V => 7 case FlatVI => 8 case VI => 9 case FlatVII => 10 case VII => 11
  }

  /** Different degrees are different distances from the root. */
  lemma SemitonesInjective(a: Degree, b: Degree)
    requires Semitones(a) == Semitones(b)
    ensures a == b
  {
  }

  /** pentatonicMinorbII ... pentatonicMinorVII: the minor pentatonic on the transposed root. */
  function PentatonicMinorOn(iv: Intervals, note: Pitch, d: Degree): (r: seq<Pitch>)
    requires IsValidName(note.name) ==> ToInt(note) + Semitones(d) >= 0
    ensures |r| == 5 && r[0] == Transposed(note, Semitones(d))
  {
    PentatonicMinor(iv, Transposed(note, Semitones(d)))
  }

  /** pentatonicDominantbII ... pentatonicDominantVII: the dominant pentatonic on the transposed root. */
  function PentatonicDominantOn(iv: Intervals, note: Pitch, d: Degree): (r: seq<Pitch>)
    requires IsValidName(note.name) ==> ToInt(note) + Semitones(d) >= 0
    ensures |r| == 5 && r[0] == Transposed(note, Semitones(d))
  {
    PentatonicDominant(iv, Transposed(note, Semitones(d)))
  }

  /** On a valid note the transposed pentatonic starts exactly the degree's semitones above it. */
  lemma PentatonicOnRoot(iv: Intervals, note: Pitch, d: Degree)
    requires IsValidName(note.name) && ToInt(note) + Semitones(d) >= 0
    ensures ToInt(PentatonicMinorOn(iv, note, d)[0]) == ToInt(note) + Semitones(d)
    ensures ToInt(PentatonicDominantOn(iv, note, d)[0]) == ToInt(note) + Semitones(d)
  {
    TransposedRaises(note, Semitones(d));
  }

  /** blues(note): the minor pentatonic with the minor fifth inserted before the perfect fifth. */
  function Blues(iv: Intervals, note: Pitch): (r: seq<Pitch>)
    ensures |r| == 6 && r[3] == iv(MinorFifth, note)
    ensures r[..3] == PentatonicMinor(iv, note)[..3] && r[4..] == PentatonicMinor(iv, note)[3..]
  {
    var p := PentatonicMinor(iv, note);
    p[..3] + [iv(MinorFifth, note)] + p[3..]
  }

  /** Successive major seconds, each above the one before. */
  function WholeSteps(iv: Intervals, from: Pitch, k: nat): (r: seq<Pitch>)
    ensures |r| == k
    decreases k
    ensures k > 0 ==> r[0] == iv(MajorSecond, from)
    ensures forall i :: 0 < i < k ==> r[i] == iv(MajorSecond, r[i - 1])
  {
    if k == 0 then [] else [iv(MajorSecond, from)] + WholeSteps(iv, iv(MajorSecond, from), k - 1)
  }

  /** wholeNote(note): the note and five successive major seconds. */
  function WholeNote(iv: Intervals, note: Pitch): (r: seq<Pitch>)
    ensures |r| == 6 && r[0] == note
    ensures forall i :: 0 < i < 6 ==> r[i] == iv(MajorSecond, r[i - 1])
  {
    [note] + WholeSteps(iv, note, 5)
  }

  lemma {:induction false} WholeStepsLast(iv: Intervals, from: Pitch, k: nat)
    ensures WholeSteps(iv, from, k + 1) == WholeSteps(iv, from, k) + [iv(MajorSecond, if k == 0 then from else WholeSteps(iv, from, k)[k - 1])]
    decreases k
  {
    if k > 0 {
      WholeStepsLast(iv, iv(MajorSecond, from), k - 1);
    }
  }

  /** The loop of wholeNote. */
  method WholeNoteScale(iv: Intervals, note: Pitch) returns (scale: seq<Pitch>)
    ensures scale == WholeNote(iv, note)
  {
    scale := [note];
    var nCopy := note;
    for i := 0 to 5
      invariant scale == [note] + WholeSteps(iv, note, i)
      invariant nCopy == scale[|scale| - 1]
    {
      WholeStepsLast(iv, note, i);
      nCopy := iv(MajorSecond, nCopy);
      scale := scale + [nCopy];
    }
  }

  /** wholeStepHalfStep(n): the major second and minor third above n. */
  function WholeStepHalfStep(iv: Intervals, n: Pitch): seq<Pitch> {
    [iv(MajorSecond, n), iv(MinorThird, n)]
  }

  /** k rounds of wholeStepHalfStep, each starting from the last note of the one before. */
  function DiminishedSteps(iv: Intervals, from: Pitch, k: nat): (r: seq<Pitch>)
    ensures |r| == 2 * k
    ensures k > 0 ==> r[..2] == WholeStepHalfStep(iv, from) && r[2..] == DiminishedSteps(iv, r[1], k - 1)
    decreases k
  {
    if k == 0 then [] else WholeStepHalfStep(iv, from) + DiminishedSteps(iv, iv(MinorThird, from), k - 1)
  }

  lemma {:induction false} DiminishedStepsLast(iv: Intervals, from: Pitch, k: nat)
    ensures DiminishedSteps(iv, from, k + 1) ==
      DiminishedSteps(iv, from, k) + WholeStepHalfStep(iv, if k == 0 then from else DiminishedSteps(iv, from, k)[2 * k - 1])
    decreases k
  {
    if k > 0 {
      var next := iv(MinorThird, from);
      DiminishedStepsLast(iv, next, k - 1);
      assert DiminishedSteps(iv, from, k)[2 * k - 1] == (if k == 1 then next else DiminishedSteps(iv, next, k - 1)[2 * k - 3]);
      assert DiminishedSteps(iv, from, k + 1) == WholeStepHalfStep(iv, from) + DiminishedSteps(iv, next, k);
    }
  }

  /**
   * diminished(note): the note, three rounds of whole step and half step,
   * then the major seventh appended and the note before it replaced by the
   * major sixth.
   */
  function Diminished8(iv: Intervals, note: Pitch): (r: seq<Pitch>)
    ensures |r| == 8 && r[0] == note
    ensures r[6] == iv(MajorSixth, note) && r[7] == iv(MajorSeventh, note)
    ensures r[1] == iv(MajorSecond, note) && r[2] == iv(MinorThird, note)
    ensures r[3] == iv(MajorSecond, r[2]) && r[4] == iv(MinorThird, r[2]) && r[5] == iv(MajorSecond, r[4])
  {
    var steps := DiminishedSteps(iv, note, 3);
    var second := DiminishedSteps(iv, steps[1], 2);
    var third := DiminishedSteps(iv, second[1], 1);
    assert steps[2..] == second && second[2..] == third;
    var scale := [note] + steps + [iv(MajorSeventh, note)];
    scale[6 := iv(MajorSixth, note)]
  }

  /** The loops of diminished. */
  method DiminishedScale(iv: Intervals, note: Pitch) returns (scale: seq<Pitch>)
    ensures scale == Diminished8(iv, note)
  {
    scale := DiminishedRounds(iv, note);
    DiminishedFinish(iv, note, scale);
    var n := iv(MajorSeventh, note);
    scale := scale + [n];
    scale := scale[|scale| - 2 := iv(MajorSixth, note)];
  }

  /** The first loop of diminished: the note, then three rounds of whole step and half step. */
  method DiminishedRounds(iv: Intervals, note: Pitch) returns (scale: seq<Pitch>)
    ensures scale == [note] + DiminishedSteps(iv, note, 3)
  {
    scale := [note];
    var n := note;
    for i := 0 to 3
      invariant scale == [note] + DiminishedSteps(iv, note, i)
      invariant n == scale[|scale| - 1]
    {
      DiminishedStepsLast(iv, note, i);
      var step := WholeStepHalfStep(iv, n);
      scale := scale + step;
      n := scale[|scale| - 1];
    }
  }

  /** The last two steps of diminished: append the major seventh, put the major sixth before it. */
  lemma DiminishedFinish(iv: Intervals, note: Pitch, steps: seq<Pitch>)
    requires steps == [note] + DiminishedSteps(iv, note, 3)
    ensures |steps| == 7
    ensures (steps + [iv(MajorSeventh, note)])[6 := iv(MajorSixth, note)] == Diminished8(iv, note)
  {
  }

  /** augmented(note): root, minor third, major third, perfect fifth, minor sixth, major seventh. */
  function AugmentedScale(iv: Intervals, note: Pitch): (r: seq<Pitch>)
    ensures |r| == 6 && r[0] == note
    ensures r[1] == iv(MinorThird, note) && r[2] == iv(MajorThird, note) && r[3] == iv(PerfectFifth, note)
    ensures r[4] == iv(MinorSixth, note) && r[5] == iv(MajorSeventh, note)
  {
    Stacked(iv, note, [MinorThird, MajorThird, PerfectFifth, MinorSixth, MajorSeventh])
  }

  /**
   * chromatic(note): the note, then eleven copies set to its semitone value
   * plus 1 ... 11 (set(int) respells them from the sharp table).
   */
  function Chromatic(note: Pitch): (r: seq<Pitch>)
    requires IsValidName(note.name) ==> ToInt(note) + 1 >= 0
    ensures |r| == 12 && r[0] == note
  {
    [note] + seq(11, i requires 0 <= i < 11 => WithInt(note, ToInt(note) + i + 1, true))
  }

  /** On a valid note, chromatic note i is exactly i semitones above the root. */
  lemma ChromaticSteps(note: Pitch)
    requires IsValidName(note.name) && ToInt(note) + 1 >= 0
    ensures forall i :: 0 <= i < 12 ==> ToInt(Chromatic(note)[i]) == ToInt(note) + i
  {
    forall i | 1 <= i < 12
      ensures ToInt(Chromatic(note)[i]) == ToInt(note) + i
    {
      WithIntToInt(note, ToInt(note) + i);
    }
  }

  /** The loop of chromatic. */
  method ChromaticScale(note: Pitch) returns (scale: seq<Pitch>)
    requires IsValidName(note.name) ==> ToInt(note) + 1 >= 0
    ensures scale == Chromatic(note)
  {
    scale := [note];
    for i := 1 to 12
      invariant |scale| == i
      invariant forall j :: 0 <= j < i ==> scale[j] == Chromatic(note)[j]
    {
      var n := note;
      n := WithInt(n, ToInt(note) + i, true);
      scale := scale + [n];
    }
  }

  /** bebopDominant(note): the mixolydian with the note an octave up, diminished, appended. */
  function BebopDominant(iv: Intervals, note: Pitch): (r: seq<Pitch>)
    requires |note.name| >= 1
    ensures |r| == |Mixolydian(iv, note)| + 1 && r[..|r| - 1] == Mixolydian(iv, note)
    ensures r[|r| - 1] == Diminished(OctaveChanged(note, 1, false), 1)
  {
    Mixolydian(iv, note) + [Diminished(OctaveChanged(note, 1, false), 1)]
  }

  /** bebopMinor and flamenco: the third degree raised and inserted after itself as an extra note. */
  function WithAddedThird(s: seq<Pitch>): (r: seq<Pitch>)
    requires |s| >= 3 && |s[2].name| >= 1
    ensures |r| == |s| + 1
    ensures r[..3] == s[..3] && r[3] == Augmented(s[2], 1) && r[4..] == s[3..]
  {
    s[..3] + [Augmented(s[2], 1)] + s[3..]
  }

  /** With a spelled third the added note is the same letter one semitone higher. */
  lemma AddedThirdIsRaised(s: seq<Pitch>)
    requires |s| >= 3 && IsSpelled(s[2].name)
    ensures WithAddedThird(s)[3].name[0] == s[2].name[0]
    ensures ToInt(WithAddedThird(s)[3]) == ToInt(s[2]) + 1
  {
    AugmentedRaises(s[2], 1);
  }

  function BebopMinor(iv: Intervals, note: Pitch): (r: seq<Pitch>)
    requires |Dorian(iv, note)| == 7
    ensures |r| == 8
    ensures r[..3] == Dorian(iv, note)[..3] && r[4..] == Dorian(iv, note)[3..]
  {
    WithAddedThird(Dorian(iv, note))
  }

  function Flamenco(iv: Intervals, note: Pitch): (r: seq<Pitch>)
    requires |Phrygian(iv, note)| == 7
    ensures |r| == 8
    ensures r[..3] == Phrygian(iv, note)[..3] && r[4..] == Phrygian(iv, note)[3..]
  {
    WithAddedThird(Phrygian(iv, note))
  }

  /** inSen(note): the minor pentatonic with its second note replaced by the minor second. */
  function InSen(iv: Intervals, note: Pitch): (r: seq<Pitch>)
    ensures |r| == 5 && r[1] == iv(MinorSecond, note)
    ensures forall j :: 0 <= j < 5 && j != 1 ==> r[j] == PentatonicMinor(iv, note)[j]
  {
    PentatonicMinor(iv, note)[1 := iv(MinorSecond, note)]
  }

  /** hirajoshi(note): in-sen with the last note replaced by the minor sixth. */
  function Hirajoshi(iv: Intervals, note: Pitch): (r: seq<Pitch>)
    ensures |r| == 5 && r[1] == iv(MinorSecond, note) && r[4] == iv(MinorSixth, note)
    ensures forall j :: 0 <= j < 4 && j != 1 ==> r[j] == PentatonicMinor(iv, note)[j]
  {
    PentatonicMinor(iv, note)[1 := iv(MinorSecond, note)][4 := iv(MinorSixth, note)]
  }
}
