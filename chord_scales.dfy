/**
 * The chord-symbol table of the scale class: for each chord symbol, the
 * comma-separated names of the scales that fit it, and getScalesForChord,
 * which reads the table through operator[] and so adds an empty entry for a
 * symbol it does not hold.
 */
module ChordScaleTable {
  import opened Utils

  /**
   * ChordScaleLookup as initialised, in the source's order, written in three
   * parts (triads to suspended chords, sevenths to ninths, the rest). The
   * repeated "dim" entry is written once; both copies hold "diminished".
   */
  const InitialTable: map<string, string> := TriadChords + SeventhChords + ExtendedChords

  const TriadChords: map<string, string> := map[
      "m" := "dorian,aeolian",
      "M" := "ionian",
      "" := "ionian",
      "dim" := "diminished",
      "aug" := "augmented,pentatonicMinorbIII",
      "+" := "augmented,pentatonicMinorbIII",
      "M7+5" := "melodicMinorIII,augmented,hindu",
      "M7+" := "melodicMinorIII,augmented,hindu",
      "m7+" := "aeolian,dorian,phrygian,pentatonicMinorbIII",
      "m7+5" := "aeolian,dorian,phrygian,pentatonicMinorbIII",
      "7+" := "melodicMinorVII,melodicMinorV,pentatonicMinorbIII,wholenote",
      "7+5" := "melodicMinorVII,melodicMinorV,pentatonicMinorbIII,wholenote",
      "7#5" := "melodicMinorVII,melodicMinorV,pentatonicMinorbIII,wholenote",
      "sus47" := "pentatonicMinorV,dorian,aeolian,phrygian,mixolydian",
      "sus4" := "pentatonicMinorV,harmonicMinor,melodicMinor,pentatonicMinor,blues,aeolian,dorian,phrygian,mixolydian",
      "sus2" := "harmonicMinor,melodicMinor,pentatonicMinor,blues",
      "sus" := "ionian,harmonicMinor,melodicMinor,pentatonicMinor,blues,aeolian,dorian,phrygian,mixolydian",
      "11" := "mixolydian",
      "sus4b9" := "melodicMinorII"
    ]

  const SeventhChords: map<string, string> := map[
      "susb9" := "melodicMinorII",
      "sus9" := "pentatonicMinorV,dorian,aeolian,phrygian,mixolydian",
      "sus49" := "pentatonicMinorV,dorian,aeolian,phrygian,mixolydian",
      "m7" := "dorian,aeolian,pentatonicMinor,pentatonicMinorII,pentatonicMinorV",
      "M7" := "ionian,lydian,pentatonicMinorVII,pentatonicDominantII",
      "dom7" := "mixolydian,pentatonicMajor,pentatonicDominant,pentatonicDominantII,pentatonicMinorV",
      "7" := "mixolydian,pentatonicMajor,pentatonicDominant,pentatonicDominantII,pentatonicMinorV",
      "m7b5" := "locrian,melodicMinorVI,pentatonicDominantbVI",
      "dim7" := "diminished",
      "mM7" := "melodicMinor,harmonicMinor",
      "m6" := "melodicMinor",
      "M6" := "ionian,lydian",
      "6" := "ionian,lydian",
      "6/7" := "",
      "67" := "",
      "6/9" := "pentatonicMajor",
      "69" := "pentatonicMajor",
      "9" := "mixolydian,bebopDominant",
      "7b9" := "flamenco"
    ]

  const ExtendedChords: map<string, string> := map[
      "7#9" := "halfDiminished",
      "M9" := "lydian",
      "m9" := "aeolian,dorian",
      "9#11" := "lydian",
      "m6/9" := "dorian",
      "m6/9/11" := "dorian",
      "7#11" := "melodicMinorIV",
      "m11" := "dorian,pentatonicMinorV,pentatonicMinorIV,pentatonicMinorIII,pentatonicMinor,blues",
      "M7#11" := "lydian",
      "M13" := "",
      "m13" := "melodicMinor,bebopMinor",
      "13" := "mixolydian,melodicMinorIV,bebopDominant,pentatonicMajor,blues",
      "7b5" := "melodicMinorIV",
      "7+#9" := "melodicMinorVII",
      "7+b9" := "melodicMinorVII",
      "hendrix" := "blues,pentatonicMinorbIII",
      "7b12" := "blues",
      "5" := "pentatonicMinor,blues,aeolian,pentatonicMajor,pentatonicMinorIII,pentatonicMinorIV,pentatonicMinorV",
      "7b9b5" := "melodicMinorVII,pentatonicMinorbIII",
      "m7b9" := "phrygian",
      "m11b5" := "melodicMinorVI",
      "7#9b13" := "melodicMinorVII,pentatonicMinorbIII"
    ]

  /** A key of the joined table is a key of one part; later parts take precedence. */
  lemma LookupThroughParts(k: string)
    ensures k in InitialTable <==> k in TriadChords || k in SeventhChords || k in ExtendedChords
    ensures k in ExtendedChords ==> InitialTable[k] == ExtendedChords[k]
    ensures k !in ExtendedChords && k in SeventhChords ==> InitialTable[k] == SeventhChords[k]
    ensures k !in ExtendedChords && k !in SeventhChords && k in TriadChords ==> InitialTable[k] == TriadChords[k]
  {
  }

  /**
   * getScalesForChord(symbol) on a table: the listed names split at the
   * commas, or the single empty name for a symbol the table does not hold.
   */
  function ScalesFor(table: map<string, string>, sym: string): (names: seq<string>)
    ensures |names| >= 1
    ensures sym !in table ==> names == [""]
    ensures sym in table ==> Join(names, ',') == table[sym]
    ensures forall k, j :: 0 <= k < |names| && 0 <= j < |names[k]| ==> names[k][j] != ','
  {
    var listed := if sym in table then table[sym] else "";
    JoinSplit(listed, ',');
    SplitPiecesHaveNoSeparator(listed, ",");
    Split(listed, ",")
  }

  /** The global table; the static map of the source becomes the state of one object. */
  class ChordScales {
    var table: map<string, string>

    constructor ()
      ensures table == InitialTable
    {
      table := InitialTable;
    }

    /**
     * getScalesForChord(chordSymbol): the scale names the table lists for
     * the symbol; an unknown symbol is entered with an empty list.
     */
    method ScalesForChord(sym: string) returns (names: seq<string>)
      modifies this
      ensures names == ScalesFor(old(table), sym)
      ensures table == if sym in old(table) then old(table) else old(table)[sym := ""]
    {
      if sym !in table {
        table := table[sym := ""];
      }
      names := Split(table[sym], ",");
    }
  }

  /** A symbol once looked up gives the same names on every later lookup. */
  lemma LookupIsStable(table: map<string, string>, sym: string)
    ensures var after := if sym in table then table else table[sym := ""];
            ScalesFor(after, sym) == ScalesFor(table, sym)
  {
  }

  /** The altered chord "7b9b5" lists the superlocrian mode and a pentatonic. */
  lemma SevenFlatNineFlatFive()
    ensures ScalesFor(InitialTable, "7b9b5") == ["melodicMinorVII", "pentatonicMinorbIII"]
  {
    LookupThroughParts("7b9b5");
    SevenFlatNineFlatFiveEntry();
    SevenFlatNineFlatFiveSplit();
  }

  lemma SevenFlatNineFlatFiveSplit()
    ensures Split("melodicMinorVII,pentatonicMinorbIII", ",") == ["melodicMinorVII", "pentatonicMinorbIII"]
  {
    SevenFlatNineFlatFiveNames();
    SplitTwo("melodicMinorVII,pentatonicMinorbIII", "melodicMinorVII", "pentatonicMinorbIII");
  }

  lemma SevenFlatNineFlatFiveEntry()
    ensures "7b9b5" in ExtendedChords
    ensures ExtendedChords["7b9b5"] == "melodicMinorVII,pentatonicMinorbIII"
  {
  }

  lemma SevenFlatNineFlatFiveNames()
    ensures "melodicMinorVII,pentatonicMinorbIII" == "melodicMinorVII" + [','] + "pentatonicMinorbIII"
  {
  }

  /** Two comma-free names joined by a comma split back into the two. */
  lemma SplitTwo(s: string, a: string, b: string)
    requires s == a + [','] + b
    requires ',' !in a && ',' !in b
    ensures Split(s, ",") == [a, b]
  {
    SplitAfterPiece(a, ',', b);
    SplitNoSeparator(b, ',');
  }

  /** The empty chord symbol, a plain major triad, suggests the ionian mode. */
  lemma MajorTriadIsIonian()
    ensures ScalesFor(InitialTable, "") == ["ionian"]
  {
    LookupThroughParts("");
    MajorTriadEntry();
    EmptySymbolIsNoLaterKey();
    SplitNoSeparator("ionian", ',');
  }

  lemma MajorTriadEntry()
    ensures "" in TriadChords && TriadChords[""] == "ionian"
  {
  }

  lemma EmptySymbolIsNoLaterKey()
    ensures "" !in SeventhChords && "" !in ExtendedChords
  {
  }
}
