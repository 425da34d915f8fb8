/**
 * String helpers shared by the harmony engine: counting accidental characters
 * and splitting a string at any of a set of separator characters.
 */
module Utils {

  /** Number of occurrences of `c` in `s`. */
  function Count(s: string, c: char): (n: nat)
    ensures n <= |s|
  {
    if |s| == 0 then 0
    else (if s[0] == c then 1 else 0) + Count(s[1..], c)
  }

  lemma {:induction false} CountPositive(s: string, c: char)
    ensures Count(s, c) > 0 <==> c in s
  {
    if |s| > 0 {
      CountPositive(s[1..], c);
      assert s == [s[0]] + s[1..];
    }
  }

  lemma {:induction false} CountAppend(a: string, b: string, c: char)
    ensures Count(a + b, c) == Count(a, c) + Count(b, c)
  {
    if |a| == 0 {
      assert a + b == b;
    } else {
      assert (a + b)[1..] == a[1..] + b;
      CountAppend(a[1..], b, c);
    }
  }

  /** Number of '#' characters. */
  function NumberOfSharps(s: string): (n: nat)
    ensures n <= |s|
  {
    Count(s, '#')
  }

  /** Number of lower-case 'b' characters; an upper-case 'B' is a letter, not a flat. */
  function NumberOfFlats(s: string): (n: nat)
    ensures n <= |s|
  {
    Count(s, 'b')
  }

  /** Net accidentals: sharps minus flats. */
  function NumberOfAccidentals(s: string): (n: int)
    ensures -|s| <= n <= |s|
  {
    NumberOfSharps(s) - NumberOfFlats(s)
  }

  /** Sharps and flats are disjoint characters, so together they never exceed the length. */
  lemma {:induction false} SharpsAndFlatsFit(s: string)
    ensures NumberOfSharps(s) + NumberOfFlats(s) <= |s|
  {
    if |s| > 0 {
      SharpsAndFlatsFit(s[1..]);
    }
  }

  lemma AccidentalsAppend(a: string, b: string)
    ensures NumberOfAccidentals(a + b) == NumberOfAccidentals(a) + NumberOfAccidentals(b)
  {
    CountAppend(a, b, '#');
    CountAppend(a, b, 'b');
  }

  /** `n` copies of `c`. */
  function Repeat(c: char, n: nat): (r: string)
    ensures |r| == n
    ensures forall i :: 0 <= i < n ==> r[i] == c
  {
    if n == 0 then "" else Repeat(c, n - 1) + [c]
  }

  lemma {:induction false} CountRepeat(c: char, d: char, n: nat)
    ensures Count(Repeat(c, n), d) == if c == d then n else 0
  {
    if n > 0 {
      CountRepeat(c, d, n - 1);
      CountAppend(Repeat(c, n - 1), [c], d);
    }
  }

  /**
   * Split `s` at every character that occurs in `separators`, keeping empty
   * pieces: k separator characters give k + 1 pieces, and "" gives [""].
   */
  function Split(s: string, separators: string): (pieces: seq<string>)
    ensures |pieces| >= 1
    decreases |s|
  {
    if |s| == 0 then [""]
    else
      var rest := Split(s[1..], separators);
      if s[0] in separators then [""] + rest
      else [[s[0]] + rest[0]] + rest[1..]
  }

  /** Number of characters of `s` that are separators. */
  function SeparatorCount(s: string, separators: string): (n: nat)
    ensures n <= |s|
  {
    if |s| == 0 then 0
    else (if s[0] in separators then 1 else 0) + SeparatorCount(s[1..], separators)
  }

  /** One more piece than there are separator characters. */
  lemma {:induction false} SplitCount(s: string, separators: string)
    ensures |Split(s, separators)| == SeparatorCount(s, separators) + 1
  {
    if |s| > 0 {
      SplitCount(s[1..], separators);
    }
  }

  /** No piece contains a separator character. */
  lemma {:induction false} SplitPiecesHaveNoSeparator(s: string, separators: string)
    ensures forall k, j :: 0 <= k < |Split(s, separators)| && 0 <= j < |Split(s, separators)[k]| ==>
              Split(s, separators)[k][j] !in separators
  {
    if |s| > 0 {
      SplitPiecesHaveNoSeparator(s[1..], separators);
    }
  }

  /** Pieces joined back with a single separator character. */
  function Join(pieces: seq<string>, sep: char): (s: string)
    requires |pieces| >= 1
    ensures |s| >= |pieces| - 1
  {
    if |pieces| == 1 then pieces[0] else pieces[0] + [sep] + Join(pieces[1..], sep)
  }

  /** Splitting at a single separator and joining with it gives back the input. */
  lemma {:induction false} JoinSplit(s: string, sep: char)
    ensures Join(Split(s, [sep]), sep) == s
  {
    if |s| > 0 {
      JoinSplit(s[1..], sep);
      var rest := Split(s[1..], [sep]);
      if s[0] != sep {
        if |rest| == 1 {
        } else {
          assert ([[s[0]] + rest[0]] + rest[1..])[1..] == rest[1..];
        }
      } else {
        assert ([""] + rest)[1..] == rest;
      }
    }
  }

  /** A leading piece free of separators is split off as one piece. */
  lemma {:induction false} SplitAfterPiece(a: string, sep: char, b: string)
    requires sep !in a
    ensures Split(a + [sep] + b, [sep]) == [a] + Split(b, [sep])
  {
    if |a| == 0 {
      assert a + [sep] + b == [sep] + b;
      assert ([sep] + b)[1..] == b;
    } else {
      assert (a + [sep] + b)[1..] == a[1..] + [sep] + b;
      SplitAfterPiece(a[1..], sep, b);
      assert [a[0]] + a[1..] == a;
    }
  }

  /** Joining pieces free of the separator and splitting again gives the pieces back. */
  lemma {:induction false} SplitJoin(pieces: seq<string>, sep: char)
    requires |pieces| >= 1
    requires forall k :: 0 <= k < |pieces| ==> sep !in pieces[k]
    ensures Split(Join(pieces, sep), [sep]) == pieces
  {
    if |pieces| == 1 {
      SplitNoSeparator(pieces[0], sep);
    } else {
      SplitJoin(pieces[1..], sep);
      SplitAfterPiece(pieces[0], sep, Join(pieces[1..], sep));
      assert [pieces[0]] + pieces[1..] == pieces;
    }
  }

  /** A string free of separators is a single piece. */
  lemma {:induction false} SplitNoSeparator(a: string, sep: char)
    requires sep !in a
    ensures Split(a, [sep]) == [a]
  {
    if |a| > 0 {
      SplitNoSeparator(a[1..], sep);
      assert [a[0]] + a[1..] == a;
    }
  }

  // Decimal numbers, as std::to_string writes them and std::stoi reads them.

  predicate IsDigit(c: char) {
    '0' <= c <= '9'
  }

  function DigitChar(d: nat): (c: char)
    requires d < 10
    ensures IsDigit(c)
  {
    "0123456789"[d]
  }

  function DigitValue(c: char): (d: nat)
    requires IsDigit(c)
    ensures d < 10
  {
    (c as int) - ('0' as int)
  }

  /** Decimal digits of `n`, most significant first, no leading zeros. */
  function NatToString(n: nat): (s: string)
    ensures |s| >= 1
    ensures forall i :: 0 <= i < |s| ==> IsDigit(s[i])
  {
    if n < 10 then [DigitChar(n)] else NatToString(n / 10) + [DigitChar(n % 10)]
  }

  /** std::to_string of an int: a '-' before the digits of a negative number. */
  function IntToString(i: int): (s: string)
    ensures |s| >= 1
    ensures IsDigit(s[0]) || s[0] == '-'
    ensures i < 0 <==> s[0] == '-'
  {
    if i < 0 then "-" + NatToString(-i) else NatToString(i)
  }

  /** Value of a string of decimal digits. */
  function DigitsValue(s: string): nat
    requires forall i :: 0 <= i < |s| ==> IsDigit(s[i])
  {
    if |s| == 0 then 0 else DigitsValue(s[..|s| - 1]) * 10 + DigitValue(s[|s| - 1])
  }

  /** The longest prefix of `s` made of digits. */
  function LeadingDigits(s: string): (d: string)
    ensures |d| <= |s| && d == s[..|d|]
    ensures forall i :: 0 <= i < |d| ==> IsDigit(s[i])
    ensures |d| < |s| ==> !IsDigit(s[|d|])
  {
    if |s| == 0 || !IsDigit(s[0]) then "" else [s[0]] + LeadingDigits(s[1..])
  }

  /** std::stoi on a string that starts with a digit: the value of its leading digits. */
  function LeadingNumber(s: string): nat {
    DigitsValue(LeadingDigits(s))
  }

  /** Reading back the digits std::to_string writes gives the number. */
  lemma {:induction false} DigitsValueOfNatToString(n: nat)
    ensures DigitsValue(NatToString(n)) == n
  {
    if n >= 10 {
      DigitsValueOfNatToString(n / 10);
      var s := NatToString(n);
      assert s[..|s| - 1] == NatToString(n / 10);
    }
  }

  lemma {:induction false} LeadingDigitsOfDigits(s: string)
    requires forall i :: 0 <= i < |s| ==> IsDigit(s[i])
    ensures LeadingDigits(s) == s
  {
    if |s| > 0 {
      LeadingDigitsOfDigits(s[1..]);
    }
  }

  /** std::stoi(std::to_string(n)) == n for every natural n. */
  lemma LeadingNumberOfNatToString(n: nat)
    ensures LeadingNumber(NatToString(n)) == n
  {
    LeadingDigitsOfDigits(NatToString(n));
    DigitsValueOfNatToString(n);
  }

  /** Different integers are written differently. */
  lemma IntToStringInjective(a: int, b: int)
    requires IntToString(a) == IntToString(b)
    ensures a == b
  {
    if a < 0 {
      NegativeDigits(a);
      NegativeDigits(b);
    } else {
      DigitsValueOfNatToString(a);
      DigitsValueOfNatToString(b);
    }
  }

  lemma NegativeDigits(a: int)
    requires a < 0
    ensures IntToString(a)[1..] == NatToString(-a)
    ensures DigitsValue(IntToString(a)[1..]) == -a
  {
    DigitsValueOfNatToString(-a);
  }

  /** The first piece of a split starts with the first character when that is not a separator. */
  lemma SplitFirstPiece(s: string, separators: string)
    requires |s| >= 1 && s[0] !in separators
    ensures |Split(s, separators)[0]| >= 1 && Split(s, separators)[0][0] == s[0]
    ensures Split(s, separators)[0][1..] == Split(s[1..], separators)[0]
  {
  }

  /** A split of a string holding a separator has at least two pieces. */
  lemma SplitAtLeastTwo(s: string, sep: char)
    requires sep in s
    ensures |Split(s, [sep])| >= 2
  {
    SplitCount(s, [sep]);
    SeparatorCountPositive(s, sep);
  }

  lemma {:induction false} SeparatorCountPositive(s: string, sep: char)
    requires sep in s
    ensures SeparatorCount(s, [sep]) >= 1
  {
    if s[0] != sep {
      assert sep in s[1..];
      SeparatorCountPositive(s[1..], sep);
    }
  }
}
