# MusicTheory harmony engine in Dafny

This project models the symbolic pitch and harmony engine of the MusicTheory
C++ library, the headers under `MusicTheory/include/MusicTheory/harmony/`:

- **`utils.h`** (`utils.dfy`, module `Utils`). Counts `#` and `b` characters and splits a string at separator characters.
- **`Note.h`** (`note.dfy`, module `Notes`). A note is a name and an octave field. The name is a letter followed by a raw accidental string such as `"Bbb"` or `"C#b#"`.
  - The value datatype `Pitch` carries the pure conversions:
    - the semitone number `toInt`;
    - the absolute octave;
    - the canonical respelling `getDiatonicName`;
    - the name check `isValidName`;
    - shorthand parsing.
  - `class Note` holds the two fields. Its methods make the in-place edits (`augment`, `diminish`, `set`, `transpose`, the octave operations), and each is tied to a pure function of the old value.
  - `getNearestOctave` is the source's hill-climbing loop.
- **`Diatonic.h`** (`diatonic.dfy`, module `Diatonic`). Builds the seven notes of a major key from the cycle of fifths `F C G D A E B`.
  - It then sets every note to the key's octave, sorts by semitone, and rotates so the tonic comes first, raising the wrapped notes one octave.
  - `class KeyCache` is the global `_keyCache` map. `Interval` steps through a key.
- **`Scale.h`**:
  - **`scale.dfy`** (module `Scales`):
    - the rotation primitive `offset` and octave normalisation;
    - the mode builders, the single-degree alterations and the fixed-size builders;
    - `class Scale`, with indexing and search: `getNote`, `getDegree`, `getClosestNote`, `getDegreeClosestToNote`.
  - **`scale_tables.dfy`** (module `ScaleTables`): the named getters, the `ScaleLookup` name table, `getScaleFromString` and `create(fullName)`.
  - **`chord_scales.dfy`** (module `ChordScaleTable`): the chord-symbol table `ChordScaleLookup` and `getScalesForChord(string)`.
- **`Progression.h`** (`progression.dfy`, module `Progressions`):
  - roman-numeral parsing with the `bVII` rewrite;
  - `cleanAccidentals` and `intervalDiff`;
  - the four substitution families;
  - `class Progression`, which holds the global `RomanLookup` map that `operator[]` extends.
- **`wrappers.dfy`** (module `Wrappers`). The `Option` type that stands for a `nullptr` result.

**Modelling choices:**
- The `Interval` component is not part of this model. Its `minorSecond` … `majorSeventh` and `minorFifth` builders enter as a function parameter `iv` of type `Intervals`, and nothing is assumed about it. Properties of the scale builders are therefore stated structurally:
  - length;
  - which index was altered;
  - rotation;
  - the octave of the first note;
  - which interval each note came from.
- The source copies notes before every transformation, so the builders work on sequences of values. An in-place `scale[i]->augment()` is a sequence update.
- C++ truncating `/` and `%` are written out (`TruncDiv`, `TruncMod`). `std::sort` by semitone is an insertion sort, and for spelled keys there are no ties to break.

**The operations follow the code, also where it is evidently wrong.** `parse` and every substitution write accidentals with `cleanAccidentals` as written (`CleanAccidentalsAsWritten`). `substituteDiminishedForDominant` and its class loop start each round from the input's accidentals (`DominantChainAsWritten`). The intended forms, `CleanAccidentals` and `DominantChain`, are only the corrected halves of the two rows under "## Findings". The documented examples of `substituteMinorForMajor` and `substituteMajorForMinor` (Progression.h:390-396, 444-447) are stated as lemmas (`MinorForMajorOfSixth` … `MajorForMinorOfFifthSeventh`), and the code agrees with them.

**Where the documentation and the code disagree, the model follows the code:**
- The doc comment of `substituteDiminishedForDiminished` (Progression.h:488-494):
  - It promises `IIdim, bIVdim, bbVIdim` for `"VII"`; the code gives `IIdim, IVdim, bVIdim` (`DiminishedForDiminishedOnSeventh`).
  - It names `"VI"` as the bare numeral the rule recognises; the code tests `"VII"`.
- In `parse` (Progression.h:306), `tuple.cleanedAccidentals==""` is a comparison, not an assignment. After the `bVII` rewrite the cleaned accidentals stay `"b"` (`ParseFlatSeven`).
- `create(fullName)` asks for the name as `getName()` writes it (Scale.h:202-205). For whole-tone scales this fails:
  - `getWholeNote` names its scale `"wholeNote"` (Scale.h:1586);
  - the name table's key is `"wholenote"` (Scale.h:2404);
  - so `create("C wholeNote")` gives no scale (`CreateWholeNoteFails`).
- `getHalfDiminished` builds melodic-minor VI (Scale.h:926-932). The name `"halfDiminished"` in the name table leads to `getLocrian` (`HalfDiminishedIsLocrian`).

## Model

| member | source | states |
|---|---|---|
| Utils.Count | MusicTheory/include/MusicTheory/harmony/utils.h:13-21 | occurrences of one character never exceed the string's length |
| Utils.CountPositive | MusicTheory/include/MusicTheory/harmony/utils.h:13-21 | the count is positive exactly when the character occurs |
| Utils.CountAppend | MusicTheory/include/MusicTheory/harmony/utils.h:13-21 | counting distributes over concatenation |
| Utils.CountRepeat | MusicTheory/include/MusicTheory/harmony/utils.h:18-21 | a run of n copies of c holds n occurrences of c and none of any other character |
| Utils.NumberOfSharps | MusicTheory/include/MusicTheory/harmony/utils.h:13-16 | the number of `#` is at most the length |
| Utils.NumberOfFlats | MusicTheory/include/MusicTheory/harmony/utils.h:18-21 | the number of lower-case `b` is at most the length |
| Utils.NumberOfAccidentals | MusicTheory/include/MusicTheory/harmony/utils.h:23-28 | sharps minus flats lies within ±length |
| Utils.SharpsAndFlatsFit | MusicTheory/include/MusicTheory/harmony/utils.h:13-21 | sharps plus flats never exceed the length |
| Utils.AccidentalsAppend | MusicTheory/include/MusicTheory/harmony/utils.h:23-28 | the net count of a concatenation is the sum, so appending `#` adds exactly 1 and `"#b"` nets 0 |
| Utils.Split | MusicTheory/include/MusicTheory/harmony/utils.h:30-35 | splitting always yields at least one piece (`""` gives `[""]`) |
| Utils.SplitCount | MusicTheory/include/MusicTheory/harmony/utils.h:30-35 | there is one more piece than there are separator characters in s |
| Utils.SplitPiecesHaveNoSeparator | MusicTheory/include/MusicTheory/harmony/utils.h:30-35 | no piece contains a separator character |
| Utils.JoinSplit | MusicTheory/include/MusicTheory/harmony/utils.h:30-35 | joining the pieces with the single separator reproduces s |
| Utils.SplitJoin | MusicTheory/include/MusicTheory/harmony/utils.h:30-35 | splitting a join of separator-free pieces gives back the pieces |
| Utils.SplitAfterPiece | MusicTheory/include/MusicTheory/harmony/utils.h:30-35 | a separator-free prefix followed by the separator becomes the first piece |
| Utils.SplitNoSeparator | MusicTheory/include/MusicTheory/harmony/utils.h:30-35 | a string without the separator is one piece |
| Utils.SplitAtLeastTwo | MusicTheory/include/MusicTheory/harmony/utils.h:30-35 | a string containing the separator splits into at least two pieces |
| Utils.IntToString | MusicTheory/include/MusicTheory/harmony/Diatonic.h:75 | std::to_string: non-empty, starts with a digit or `-`, and with `-` exactly for negatives |
| Utils.IntToStringInjective | MusicTheory/include/MusicTheory/harmony/Diatonic.h:75 | distinct octaves give distinct decimal strings |
| Utils.LeadingNumberOfNatToString | MusicTheory/include/MusicTheory/harmony/Note.h:773-779 | std::stoi of a written natural number reads that number back |
| Utils.LeadingNumber | MusicTheory/include/MusicTheory/harmony/Note.h:778-786 | no contract of its own: std::stoi, stated by LeadingNumberOfNatToString |
| Notes.TruncDiv | MusicTheory/include/MusicTheory/harmony/Note.h:578-581 | C++ integer division: the Euclidean quotient for a ≥ 0 and minus the quotient of −a otherwise |
| Notes.TruncMod | MusicTheory/include/MusicTheory/harmony/Note.h:425-450 | C++ remainder: a = q·m + r with \|r\| < m and r taking the sign of a |
| Notes.IndexOf | MusicTheory/include/MusicTheory/harmony/Note.h:435-438 | std::find position: at most the table size, and the entry there is the one sought |
| Notes.IndexOfFirst | MusicTheory/include/MusicTheory/harmony/Note.h:435-438 | no earlier entry equals the one sought |
| Notes.Root | MusicTheory/include/MusicTheory/harmony/Note.h:435 | substr(0,1): the first character, or empty for an empty name |
| Notes.LetterValue | MusicTheory/include/MusicTheory/harmony/Note.h:32-34 | the note-dictionary index of a character, at most 12 (12 for a non-letter) |
| Notes.LetterIndex | MusicTheory/include/MusicTheory/harmony/Note.h:435-438 | the root's index is at most 12 |
| Notes.LetterIndexIsDictionaryLookup | MusicTheory/include/MusicTheory/harmony/Note.h:435-438 | the letter index is the std::find position of the root in the note dictionary |
| Notes.TableShape | MusicTheory/include/MusicTheory/harmony/Note.h:32-34 | the dictionary holds letters at their semitone, and the sharp and flat tables agree with it on bare letters |
| Notes.LetterInTables | MusicTheory/include/MusicTheory/harmony/Note.h:32-34 | every letter A–G sits at its semitone in all three tables |
| Notes.RootIndex | MusicTheory/include/MusicTheory/harmony/Note.h:32-34 | each table finds any one-character name at its letter value |
| Notes.RelativeInt | MusicTheory/include/MusicTheory/harmony/Note.h:425-450 | toInt(relative) lies strictly within ±12 and differs from the absolute toInt by a multiple of 12 |
| Notes.ToInt | MusicTheory/include/MusicTheory/harmony/Note.h:425-450 | no contract of its own: (octave + 2)·12 + letter + net accidentals, stated by RelativeInt, AugmentedRaises, TransposedRaises and WithIntToInt |
| Notes.RelativeIntOfCFlat | MusicTheory/include/MusicTheory/harmony/Note.h:425-450 | the relative form of `Cb` is −1 |
| Notes.AbsoluteOctaveOfBSharp | MusicTheory/include/MusicTheory/harmony/Note.h:578-581 | `B#` in octave field 3 has toInt 72 and absolute octave 4 |
| Notes.AbsoluteOctaveBounds | MusicTheory/include/MusicTheory/harmony/Note.h:578-581 | for a non-negative semitone, the absolute octave brackets it: (o+2)·12 ≤ toInt < (o+3)·12 |
| Notes.AbsoluteOctave | MusicTheory/include/MusicTheory/harmony/Note.h:578-581 | no contract of its own: stated by AbsoluteOctaveBounds and AbsoluteOctaveOfBSharp |
| Notes.TableEntriesSpellTheirIndex | MusicTheory/include/MusicTheory/harmony/Note.h:32-33 | entry k of the sharp and flat tables is a spelled name of at most one accidental whose pitch is k |
| Notes.SharpEntrySpellsIndex | MusicTheory/include/MusicTheory/harmony/Note.h:32 | entry k of the sharp table spells semitone k with 0 or 1 sharp |
| Notes.FlatEntrySpellsIndex | MusicTheory/include/MusicTheory/harmony/Note.h:33 | entry k of the flat table spells semitone k with 0 or 1 flat |
| Notes.DiatonicNameOfSharpened | MusicTheory/include/MusicTheory/harmony/Note.h:589-623 | with net sharps, getDiatonicName is the sharp-table entry of (letter + accidentals) mod 12 |
| Notes.DiatonicNameOfFlattened | MusicTheory/include/MusicTheory/harmony/Note.h:589-623 | with net flats (at most 12 + letter), it is the flat-table entry of (letter + accidentals) mod 12 |
| Notes.DiatonicNameSpelling | MusicTheory/include/MusicTheory/harmony/Note.h:589-623 | one-character names come back unchanged, net-zero names as the bare letter, others as a table entry of the same pitch class |
| Notes.DiatonicName | MusicTheory/include/MusicTheory/harmony/Note.h:589-623 | no contract of its own: stated by DiatonicNameSpelling and the two branch lemmas |
| Notes.DiatonicNameOfCTripleSharp | MusicTheory/include/MusicTheory/harmony/Note.h:589-623 | `C###` respells as `D#` |
| Notes.DiatonicNameOfBSharp | MusicTheory/include/MusicTheory/harmony/Note.h:589-623 | `B#` respells as `C` |
| Notes.IsValidName | MusicTheory/include/MusicTheory/harmony/Note.h:674-689 | the regex search succeeds exactly when some character is in a–g or A–G |
| Notes.ToUpper | MusicTheory/include/MusicTheory/harmony/Note.h:781 | ::toupper: lower-case ASCII letters move down by 32, everything else is unchanged |
| Notes.FromShorthandOfSpelled | MusicTheory/include/MusicTheory/harmony/Note.h:769-800 | a spelled name without an octave becomes the name and keeps the octave |
| Notes.FromShorthandWithDigit | MusicTheory/include/MusicTheory/harmony/Note.h:784-789 | one trailing digit is read as the octave and removed from the name |
| Notes.FromShorthandWithNegativeOctave | MusicTheory/include/MusicTheory/harmony/Note.h:773-783 | `name-n` gives the name and octave −n |
| Notes.FromShorthandOctaveExample | MusicTheory/include/MusicTheory/harmony/Note.h:784-789 | `"C#3"` gives `C#`, octave 3 |
| Notes.FromShorthandNegativeOctaveExample | MusicTheory/include/MusicTheory/harmony/Note.h:773-783 | `"Bbb-2"` gives `Bbb`, octave −2 |
| Notes.FromShorthandLowerCaseExample | MusicTheory/include/MusicTheory/harmony/Note.h:790-794 | `"c#"` gives `C#` with the octave unchanged |
| Notes.FromShorthand | MusicTheory/include/MusicTheory/harmony/Note.h:769-795 | no contract of its own: stated by FromShorthandOfSpelled, FromShorthandWithDigit and FromShorthandWithNegativeOctave |
| Notes.Augmented | MusicTheory/include/MusicTheory/harmony/Note.h:195-213 | augment never touches the octave |
| Notes.Diminished | MusicTheory/include/MusicTheory/harmony/Note.h:221-239 | diminish never touches the octave |
| Notes.AugmentedRaises | MusicTheory/include/MusicTheory/harmony/Note.h:195-213 | keeps the letter; removing a trailing `b` raises by exactly 1 whatever i is, otherwise appending i sharps raises by max(i,0) |
| Notes.DiminishedLowers | MusicTheory/include/MusicTheory/harmony/Note.h:221-239 | keeps the letter; removing a trailing `#` lowers by exactly 1, otherwise appending i flats lowers by max(i,0) |
| Notes.AugmentThenDiminish | MusicTheory/include/MusicTheory/harmony/Note.h:195-239 | diminish after augment restores a name whose accidentals are all `#` or all `b` |
| Notes.DiminishThenAugment | MusicTheory/include/MusicTheory/harmony/Note.h:195-239 | augment after diminish restores such a name |
| Notes.DiminishFlat | MusicTheory/include/MusicTheory/harmony/Note.h:195-239 | diminish of `Bb` is `Bbb`, and augment(2) of `Bbb` removes only one flat |
| Notes.WithIntToInt | MusicTheory/include/MusicTheory/harmony/Note.h:146-178 | after set(k), k ≥ 0, toInt is k and the name is a sharp-table spelling with no flats |
| Notes.WithInt | MusicTheory/include/MusicTheory/harmony/Note.h:146-178 | no contract of its own: stated by WithIntToInt |
| Notes.TransposedRaises | MusicTheory/include/MusicTheory/harmony/Note.h:395-398 | transpose(d) raises toInt by exactly d and leaves at most one `#` |
| Notes.Transposed | MusicTheory/include/MusicTheory/harmony/Note.h:395-398 | no contract of its own: stated by TransposedRaises |
| Notes.ClampOctave | MusicTheory/include/MusicTheory/harmony/Note.h:264-271 | the limited octave lies in [−2, 8] and in-range octaves are kept |
| Notes.OctaveChanged | MusicTheory/include/MusicTheory/harmony/Note.h:264-271 | changeOctave keeps the name |
| Notes.OctaveSet | MusicTheory/include/MusicTheory/harmony/Note.h:273-281 | setOctave keeps the name |
| Notes.OctaveChangedShifts | MusicTheory/include/MusicTheory/harmony/Note.h:264-271 | changeOctave(d) moves toInt by exactly 12·d; with limit the octave is clamped to [−2, 8] |
| Notes.LimitedToOctaves | MusicTheory/include/MusicTheory/harmony/Note.h:307-315 | limitToOctaves keeps the name |
| Notes.LimitedToOctavesRange | MusicTheory/include/MusicTheory/harmony/Note.h:307-315 | with min ≤ max the octave ends in [min, max], and an in-range note is unchanged |
| Notes.Create | MusicTheory/include/MusicTheory/harmony/Note.h:92-101 | a note exists exactly when the name is valid, and then its name is non-empty |
| Notes.CreateSpelled | MusicTheory/include/MusicTheory/harmony/Note.h:92-101 | a spelled name creates exactly that name in the given octave |
| Notes.FromIntToInt | MusicTheory/include/MusicTheory/harmony/Note.h:691-706 | fromInt is null exactly for negative values and otherwise has getInt() == v |
| Notes.FromInt | MusicTheory/include/MusicTheory/harmony/Note.h:691-706 | no contract of its own: stated by FromIntToInt |
| Notes.Compare | MusicTheory/include/MusicTheory/harmony/Note.h:733-736 | a sorts before b exactly when its toInt is smaller |
| Notes.FirstNameIndex | MusicTheory/include/MusicTheory/harmony/Note.h:709-718 | the first index whose name is equal, or −1 when there is none |
| Notes.NoteId | MusicTheory/include/MusicTheory/harmony/Note.h:709-718 | the search loop returns the first index with an equal name, or −1 |
| Notes.FirstIndexUnique | MusicTheory/include/MusicTheory/harmony/Note.h:709-718 | any index with the first-match property is the getNoteId result |
| Notes.InsertBy | MusicTheory/include/MusicTheory/harmony/Diatonic.h:164 | inserting into an ascending sequence keeps it ascending and adds exactly that element |
| Notes.SortedBy | MusicTheory/include/MusicTheory/harmony/Diatonic.h:164 | the sort is ascending and a permutation of its input |
| Notes.SortedIsUnique | MusicTheory/include/MusicTheory/harmony/Diatonic.h:164 | an ascending permutation of a strictly ascending sequence is that sequence, so without ties the sort's result is fixed |
| Notes.SortedByInt | MusicTheory/include/MusicTheory/harmony/Diatonic.h:164 | sorting by toInt is ascending and a permutation |
| Notes.SortedKeepsNamed | MusicTheory/include/MusicTheory/harmony/Scale.h:1868 | sorting keeps every name non-empty |
| Notes.SortedByIntOfStrictlyAscending | MusicTheory/include/MusicTheory/harmony/Scale.h:1868 | sorting a strictly ascending sequence leaves it as it is |
| Notes.Note.constructor | MusicTheory/include/MusicTheory/harmony/Note.h:65-70 | the constructor stores what set(name, oct) makes of its arguments |
| Notes.Constructed | MusicTheory/include/MusicTheory/harmony/Note.h:65-70 | no contract of its own: the value Note.constructor's ensures names |
| Notes.Note.CopyOf | MusicTheory/include/MusicTheory/harmony/Note.h:79-90 | a copy has the same name and octave |
| Notes.Note.Copy | MusicTheory/include/MusicTheory/harmony/Note.h:79-90 | null exactly for an invalid name, otherwise a fresh note with the same value |
| Notes.Note.Set | MusicTheory/include/MusicTheory/harmony/Note.h:112-143 | an invalid name leaves the note unchanged; otherwise the shorthand is parsed into name and octave |
| Notes.Note.FromShorthandInPlace | MusicTheory/include/MusicTheory/harmony/Note.h:769-800 | the fields become the parsed shorthand |
| Notes.Note.Augment | MusicTheory/include/MusicTheory/harmony/Note.h:195-213 | the new value is Augmented of the old |
| Notes.Note.Diminish | MusicTheory/include/MusicTheory/harmony/Note.h:221-239 | the new value is Diminished of the old |
| Notes.Note.SetInt | MusicTheory/include/MusicTheory/harmony/Note.h:146-178 | the new value is the respelling of the semitone, absolute or relative |
| Notes.Note.Transpose | MusicTheory/include/MusicTheory/harmony/Note.h:395-398 | the new value is the old one transposed |
| Notes.Note.ChangeOctave | MusicTheory/include/MusicTheory/harmony/Note.h:264-271 | the octave moves by diff, clamped when limited |
| Notes.Note.SetOctave | MusicTheory/include/MusicTheory/harmony/Note.h:273-281 | the octave becomes oct, clamped when limited |
| Notes.Note.OctaveUp | MusicTheory/include/MusicTheory/harmony/Note.h:287-289 | one octave up, unclamped |
| Notes.Note.OctaveDown | MusicTheory/include/MusicTheory/harmony/Note.h:297-299 | one octave down, unclamped |
| Notes.Note.LimitToOctaves | MusicTheory/include/MusicTheory/harmony/Note.h:307-315 | the octave becomes the clamped one |
| Notes.Note.GetNearestOctave | MusicTheory/include/MusicTheory/harmony/Note.h:324-362 | terminates with a fresh copy of the same name, moved by whole octaves to within 6 semitones of the reference and never farther than the original |
| Notes.Note.LowerToward | MusicTheory/include/MusicTheory/harmony/Note.h:328-342 | the octave-down loop ends in (−6, 6] of the reference, moving only when the start was more than 6 above |
| Notes.Note.RaiseToward | MusicTheory/include/MusicTheory/harmony/Note.h:343-360 | the octave-up loop ends in [−6, 6) of the reference, moving only when the start was more than 6 below |
| Diatonic.FifthOf | MusicTheory/include/MusicTheory/harmony/Diatonic.h:96-98 | the index of the root letter in the cycle of fifths, 7 when absent |
| Diatonic.FifthOfIsFind | MusicTheory/include/MusicTheory/harmony/Diatonic.h:96-98 | FifthOf is the std::find position of the root in the split fifths string |
| Diatonic.FifthBefore | MusicTheory/include/MusicTheory/harmony/Diatonic.h:106 | (k − 1) % 7 for k from 1 to 7 |
| Diatonic.KeyName | MusicTheory/include/MusicTheory/harmony/Diatonic.h:103-128 | the i-th name pushed starts with a letter |
| Diatonic.KeyNameByLetter | MusicTheory/include/MusicTheory/harmony/Diatonic.h:103-128 | the i-th pushed name is the fifth at push position i with the key's accidentals, plus `#` for the wrapped letters, or `Bb` in the F family |
| Diatonic.SpelledNameIsSpelled | MusicTheory/include/MusicTheory/harmony/Diatonic.h:103-128 | every pushed name is a letter followed by accidentals |
| Diatonic.CreatedNote | MusicTheory/include/MusicTheory/harmony/Diatonic.h:107 | Note::create of a pushed name gives a named note |
| Diatonic.BuiltNotes | MusicTheory/include/MusicTheory/harmony/Diatonic.h:100-161 | seven notes, each the created note set to the key's octave field |
| Diatonic.CreatedPrefix | MusicTheory/include/MusicTheory/harmony/Diatonic.h:100-128 | the first n notes pushed |
| Diatonic.PushCreated | MusicTheory/include/MusicTheory/harmony/Diatonic.h:100-128 | pushing the i-th created note extends the prefix by one |
| Diatonic.Build | MusicTheory/include/MusicTheory/harmony/Diatonic.h:100-161 | the push loops and the octave loop produce BuiltNotes |
| Diatonic.CreateFromCycle | MusicTheory/include/MusicTheory/harmony/Diatonic.h:103-119 | for a tonic other than F, the three loops push all seven names in order |
| Diatonic.PushSharpened | MusicTheory/include/MusicTheory/harmony/Diatonic.h:115-118 | the wrap-around loop appends the letters before the tonic's predecessor with a `#` |
| Diatonic.CreateFromF | MusicTheory/include/MusicTheory/harmony/Diatonic.h:120-128 | the F family pushes F C G D A E and then `Bb` |
| Diatonic.SetOctaves | MusicTheory/include/MusicTheory/harmony/Diatonic.h:157-161 | each note's octave field is set to the key's |
| Diatonic.RotatedUp | MusicTheory/include/MusicTheory/harmony/Diatonic.h:167-178 | the notes from the tonic on come first, then the earlier ones raised one octave |
| Diatonic.RotateToTonic | MusicTheory/include/MusicTheory/harmony/Diatonic.h:167-178 | the rotation loop produces RotatedUp |
| Diatonic.KeyNotes | MusicTheory/include/MusicTheory/harmony/Diatonic.h:72-198 | getNotes gives seven named notes, or none when the tonic is not found |
| Diatonic.ComputeKey | MusicTheory/include/MusicTheory/harmony/Diatonic.h:86-185 | build, sort, find the tonic and rotate produce KeyNotes |
| Diatonic.LetterPosition | MusicTheory/include/MusicTheory/harmony/Diatonic.h:96-98 | a letter's place in C D E F G A B, consistent with its fifths index |
| Diatonic.LetterPositionOfFifth | MusicTheory/include/MusicTheory/harmony/Diatonic.h:96-98 | letter order and fifths order are inverse |
| Diatonic.CycleToLetterOrder | MusicTheory/include/MusicTheory/harmony/Diatonic.h:164 | reordering fifths into letters is a permutation |
| Diatonic.CycleOrdered | MusicTheory/include/MusicTheory/harmony/Diatonic.h:103-128 | the key's tones listed in fifths order |
| Diatonic.LetterOrdered | MusicTheory/include/MusicTheory/harmony/Diatonic.h:164 | the key's tones listed in letter order |
| Diatonic.BuiltAt | MusicTheory/include/MusicTheory/harmony/Diatonic.h:103-128 | the i-th built note is the tone at push position i |
| Diatonic.PushOrderIsRotation | MusicTheory/include/MusicTheory/harmony/Diatonic.h:103-118 | the push order is the fifths cycle rotated to start one before the tonic |
| Diatonic.BuiltIsRearranged | MusicTheory/include/MusicTheory/harmony/Diatonic.h:100-164 | the built notes are a permutation of the key's tones in letter order |
| Diatonic.ToneValue | MusicTheory/include/MusicTheory/harmony/Diatonic.h:103-161 | each tone's semitone is the letter's plus the key's accidentals, plus one for `#`-wrapped letters or minus one for `Bb` |
| Diatonic.LetterOrderedSteps | MusicTheory/include/MusicTheory/harmony/Diatonic.h:164 | in letter order the tones rise strictly and span less than an octave |
| Diatonic.SortedIsLetterOrdered | MusicTheory/include/MusicTheory/harmony/Diatonic.h:164 | sorting the built notes gives the letter order, which is strictly ascending |
| Diatonic.TonicPosition | MusicTheory/include/MusicTheory/harmony/Diatonic.h:167 | getNoteId finds the tonic, by exact name, at its letter's position |
| Diatonic.RotatedUpAscends | MusicTheory/include/MusicTheory/harmony/Diatonic.h:167-178 | rotating a strictly ascending sequence within an octave keeps it ascending and within one octave of the new first note |
| Diatonic.RotatedUpInts | MusicTheory/include/MusicTheory/harmony/Diatonic.h:167-178 | rotated notes keep their semitone, and the wrapped ones gain 12 |
| Diatonic.RotatedUpWithinOctave | MusicTheory/include/MusicTheory/harmony/Diatonic.h:167-178 | after rotation every note lies within one octave above the tonic |
| Diatonic.RotatedUpStrictlyAscends | MusicTheory/include/MusicTheory/harmony/Diatonic.h:167-178 | the rotation is strictly ascending |
| Diatonic.KeyNotesOfSpelled | MusicTheory/include/MusicTheory/harmony/Diatonic.h:86-185 | for a spelled key, getNotes is the letter-ordered tones rotated to the tonic |
| Diatonic.KeyNotesAscendFromTonic | MusicTheory/include/MusicTheory/harmony/Diatonic.h:157-178 | seven notes, first exactly the tonic, strictly ascending and below the tonic's octave above |
| Diatonic.KeyOfF | MusicTheory/include/MusicTheory/harmony/Diatonic.h:65-67 | F gives F, G, A, Bb, C, D, E, the last three one octave up |
| Diatonic.KeyOfC | MusicTheory/include/MusicTheory/harmony/Diatonic.h:103-178 | C gives the seven naturals C to B in C's octave |
| Diatonic.ToneAccidentals | MusicTheory/include/MusicTheory/harmony/Diatonic.h:106-126 | each tone's net accidentals are the key's, one more, or (for `Bb`) one fewer |
| Diatonic.KeyNotesAccidentals | MusicTheory/include/MusicTheory/harmony/Diatonic.h:106-126 | every note of a key carries the tonic's net accidentals, one more, or (in the F family only) one fewer |
| Diatonic.KeyNotesOctaves | MusicTheory/include/MusicTheory/harmony/Diatonic.h:157-178 | the notes from the tonic up to B keep the key's octave field; the letters wrapped past B are one octave higher |
| Diatonic.StepFromDInC | MusicTheory/include/MusicTheory/harmony/Diatonic.h:47-60 | one step after D in C major is E |
| Diatonic.CacheKey | MusicTheory/include/MusicTheory/harmony/Diatonic.h:75 | the cache key is the name followed by the decimal octave |
| Diatonic.CacheKeyInjective | MusicTheory/include/MusicTheory/harmony/Diatonic.h:75 | for names without digits or `-`, different keys never share a cache entry |
| Diatonic.CacheKeyCollision | MusicTheory/include/MusicTheory/harmony/Diatonic.h:75 | a name ending in a digit can collide: `C1` in octave 2 and `C` in octave 12 share `"C12"` |
| Diatonic.SaveKeepsConsistent | MusicTheory/include/MusicTheory/harmony/Diatonic.h:189 | saving a computed key keeps every cache entry empty or equal to that key's notes |
| Diatonic.NoteAfter | MusicTheory/include/MusicTheory/harmony/Diatonic.h:47-60 | the note n steps after start, wrapping mod 7, is one of the key's notes |
| Diatonic.StepInKey | MusicTheory/include/MusicTheory/harmony/Diatonic.h:52-57 | the search loop returns NoteAfter |
| Diatonic.KeyCache.constructor | MusicTheory/include/MusicTheory/harmony/Diatonic.h:31 | the cache starts empty and consistent |
| Diatonic.KeyCache.GetNotes | MusicTheory/include/MusicTheory/harmony/Diatonic.h:72-198 | returns what the cache held or computes and saves it; the cache stays consistent, and the result is KeyNotes |
| Diatonic.KeyCache.Interval | MusicTheory/include/MusicTheory/harmony/Diatonic.h:47-60 | the note n steps after start in the key, with the cache kept valid |
| Diatonic.KeyCache.Lookup | MusicTheory/include/MusicTheory/harmony/Diatonic.h:77-84 | on a consistent cache, what the lookup returns for a plain name, cached or computed, is the key's notes |
| Scales.ChangedOctaves | MusicTheory/include/MusicTheory/harmony/Scale.h:1906-1910 | every note moves the same number of octaves, names kept |
| Scales.ChangedOctavesByZero | MusicTheory/include/MusicTheory/harmony/Scale.h:1906-1910 | moving by zero octaves changes nothing |
| Scales.ChangedOctavesTwice | MusicTheory/include/MusicTheory/harmony/Scale.h:1906-1910 | two moves compose into one |
| Scales.AbsoluteOctaveAfterShift | MusicTheory/include/MusicTheory/harmony/Scale.h:1881-1889 | shifting a non-negative semitone by the octave difference reaches the target octave |
| Scales.OctaveShifted | MusicTheory/include/MusicTheory/harmony/Scale.h:1881-1889 | setOctave keeps names and all pairwise semitone distances, and puts the first note in the target octave |
| Scales.OctaveShiftedToOwnOctave | MusicTheory/include/MusicTheory/harmony/Scale.h:1881-1889 | setting a scale to its own octave changes nothing |
| Scales.OctaveShiftedAtOctave | MusicTheory/include/MusicTheory/harmony/Scale.h:1881-1889 | setting a scale to the octave it is already in changes nothing |
| Scales.OctaveShiftedAscends | MusicTheory/include/MusicTheory/harmony/Scale.h:1881-1889 | setOctave keeps a scale strictly ascending and keeps its span |
| Scales.Offset | MusicTheory/include/MusicTheory/harmony/Scale.h:1854-1877 | offset keeps the length, names every note, and returns the input when it has no more notes than the amount |
| Scales.OffsetOfAscending | MusicTheory/include/MusicTheory/harmony/Scale.h:1854-1877 | for an ascending scale within an octave, the result is the scale rotated left by the amount with the wrapped notes one octave up, and is ascending |
| Scales.OffsetNotes | MusicTheory/include/MusicTheory/harmony/Scale.h:1854-1877 | the copy, sort and two loops produce Offset |
| Scales.CeilDiv | MusicTheory/include/MusicTheory/harmony/Scale.h:2026 | the rounded-up quotient |
| Scales.NoteAt | MusicTheory/include/MusicTheory/harmony/Scale.h:2022-2047 | getNote(i) for i ≥ −size is notes[i mod size] moved by the wrap count in octaves |
| Scales.NoteAtArith | MusicTheory/include/MusicTheory/harmony/Scale.h:2025-2032 | the float ceil and floor in getNote agree with Euclidean division for i ≥ −size |
| Scales.NoteAtNextRound | MusicTheory/include/MusicTheory/harmony/Scale.h:2022-2047 | getNote(i + size) has the same name as getNote(i) and is exactly 12 semitones higher |
| Scales.PitchClass | MusicTheory/include/MusicTheory/harmony/Scale.h:2057 | getInt() % 12 with C++ remainder lies strictly within ±12 |
| Scales.DegreeOf | MusicTheory/include/MusicTheory/harmony/Scale.h:2054-2071 | the first index with an equal getInt() % 12, or −1 |
| Scales.DegreeOfMember | MusicTheory/include/MusicTheory/harmony/Scale.h:2054-2071 | a scale note's degree is found at or before its own index |
| Scales.DegreeIgnoresOctave | MusicTheory/include/MusicTheory/harmony/Scale.h:2054-2071 | moving a note by octaves within non-negative semitones does not change its degree |
| Scales.DegreeOfSameClass | MusicTheory/include/MusicTheory/harmony/Scale.h:2054-2071 | notes with the same remainder have the same degree |
| Scales.DegreeOfFirst | MusicTheory/include/MusicTheory/harmony/Scale.h:2054-2071 | any index with the first-match property is the degree |
| Scales.MinInt | MusicTheory/include/MusicTheory/harmony/Scale.h:2081-2105 | the lowest semitone of the scale |
| Scales.SearchBound | MusicTheory/include/MusicTheory/harmony/Scale.h:2087-2105 | an index whose note is still below the start lies within the search budget, so the scan terminates |
| Scales.Reaching | MusicTheory/include/MusicTheory/harmony/Scale.h:2087-2105 | the first index from k whose note reaches the start |
| Scales.Drops | MusicTheory/include/MusicTheory/harmony/Scale.h:2081-2083 | the number of octave drops that bring the first note to or below the start, and no more |
| Scales.SearchStack | MusicTheory/include/MusicTheory/harmony/Scale.h:2078-2083 | the copied, octave-set and lowered stack keeps the size and starts at or below the note |
| Scales.SearchStackOf | MusicTheory/include/MusicTheory/harmony/Scale.h:2078-2083 | the stack is the octave-set scale lowered by the number of drops |
| Scales.Picked | MusicTheory/include/MusicTheory/harmony/Scale.h:2087-2105 | the index used is never negative; its note is at or above the start (flag true) or at or below it (flag false) |
| Scales.ClosestNote | MusicTheory/include/MusicTheory/harmony/Scale.h:2073-2114 | the result is a scale note moved by octaves, at or above the note (flag true) or at or below it (flag false) |
| Scales.ClosestIsScaleNote | MusicTheory/include/MusicTheory/harmony/Scale.h:2078-2105 | every stack entry is some scale note moved by octaves |
| Scales.NoteAtMonotone | MusicTheory/include/MusicTheory/harmony/Scale.h:2022-2047 | for a scale ascending within an octave, getNote is monotone in its index |
| Scales.NoteAtRound | MusicTheory/include/MusicTheory/harmony/Scale.h:2022-2047 | every octave copy of every scale note is some getNote(i) |
| Scales.SearchStackShape | MusicTheory/include/MusicTheory/harmony/Scale.h:2078-2083 | the stack is the scale moved by a whole number of octaves and ascends the same way |
| Scales.ReachingIsLowest | MusicTheory/include/MusicTheory/harmony/Scale.h:2087-2098 | the first stack note at or above the start is no higher than any octave copy at or above it |
| Scales.BeforeReachingIsHighest | MusicTheory/include/MusicTheory/harmony/Scale.h:2099-2102 | the note before it is no lower than any octave copy below the start |
| Scales.BelowIsBefore | MusicTheory/include/MusicTheory/harmony/Scale.h:2087-2105 | in an ascending stack, a note below the start comes before any note at or above it |
| Scales.BelowFirstRound | MusicTheory/include/MusicTheory/harmony/Scale.h:2087-2105 | octave copies below the scale lie below every stack note |
| Scales.PickedHigher | MusicTheory/include/MusicTheory/harmony/Scale.h:2093-2098 | with the flag set, the picked note is the lowest octave copy of a scale note at or above the start |
| Scales.PickedLower | MusicTheory/include/MusicTheory/harmony/Scale.h:2099-2102 | with the flag clear, the picked note is the highest octave copy of a scale note at or below the start |
| Scales.ClosestOfAscending | MusicTheory/include/MusicTheory/harmony/Scale.h:2073-2114 | for a scale ascending within an octave, the result is the exact match or the next higher note (flag true) or the preceding one (flag false) among all octave copies |
| Scales.DegreeClosest | MusicTheory/include/MusicTheory/harmony/Scale.h:2120-2153 | among the degree's note in the note's octave, above and below, the one at least distance, ties going to the same octave and then above |
| Scales.Scale.constructor | MusicTheory/include/MusicTheory/harmony/Scale.h:182-199 | a scale holds its name and notes |
| Scales.Scale.Copy | MusicTheory/include/MusicTheory/harmony/Scale.h:219-226 | a fresh scale with the same name and notes |
| Scales.Scale.ChangeOctave | MusicTheory/include/MusicTheory/harmony/Scale.h:1912-1916 | every note moves diff octaves, the name is kept |
| Scales.Scale.SetOctave | MusicTheory/include/MusicTheory/harmony/Scale.h:1891-1893 | the notes become the octave-set notes |
| Scales.Scale.OctaveUp | MusicTheory/include/MusicTheory/harmony/Scale.h:1919-1921 | every note one octave up |
| Scales.Scale.OctaveDown | MusicTheory/include/MusicTheory/harmony/Scale.h:1929-1931 | every note one octave down |
| Scales.Scale.GetNote | MusicTheory/include/MusicTheory/harmony/Scale.h:2022-2047 | a note exactly when the scale is valid (more than one note), and then NoteAt |
| Scales.Scale.GetDegree | MusicTheory/include/MusicTheory/harmony/Scale.h:2054-2071 | the loop returns DegreeOf on a valid scale and −1 otherwise |
| Scales.Scale.GetClosestNote | MusicTheory/include/MusicTheory/harmony/Scale.h:2073-2114 | the two while-loops return ClosestNote on a valid scale, otherwise a copy of the note |
| Scales.Scale.LoweredCopy | MusicTheory/include/MusicTheory/harmony/Scale.h:2078-2083 | the copied stack, set to the note's octave and lowered, is SearchStack |
| Scales.Scale.LowerTo | MusicTheory/include/MusicTheory/harmony/Scale.h:2081-2083 | the octave-down loop lowers by exactly Drops octaves |
| Scales.Scale.SearchUp | MusicTheory/include/MusicTheory/harmony/Scale.h:2084-2105 | the scan returns the picked note |
| Scales.Scale.GetDegreeClosestToNote | MusicTheory/include/MusicTheory/harmony/Scale.h:2120-2153 | DegreeClosest on a valid scale, otherwise the note itself |
| Scales.Ionian | MusicTheory/include/MusicTheory/harmony/Scale.h:457-480 | seven named notes, or none for an unknown key |
| Scales.IonianOfSpelled | MusicTheory/include/MusicTheory/harmony/Scale.h:457-480 | for a spelled tonic, ionian is the key starting on the tonic, strictly ascending within an octave |
| Scales.Mode | MusicTheory/include/MusicTheory/harmony/Scale.h:502-650 | a mode has seven named notes, or none for an unknown key |
| Scales.ModeOfSpelled | MusicTheory/include/MusicTheory/harmony/Scale.h:502-650 | the mode is the key of the fixed interval rotated by the fixed amount, with the first note in the input's octave |
| Scales.Dorian | MusicTheory/include/MusicTheory/harmony/Scale.h:502-508 | no contract of its own: Mode with the minor seventh rotated by 1, stated by Mode and ModeOfSpelled |
| Scales.Phrygian | MusicTheory/include/MusicTheory/harmony/Scale.h:529-535 | no contract of its own: Mode with the minor sixth rotated by 2, stated by Mode and ModeOfSpelled |
| Scales.Lydian | MusicTheory/include/MusicTheory/harmony/Scale.h:558-563 | no contract of its own: Mode with the perfect fifth rotated by 3, stated by Mode and ModeOfSpelled |
| Scales.Mixolydian | MusicTheory/include/MusicTheory/harmony/Scale.h:584-590 | no contract of its own: Mode with the perfect fourth rotated by 4, stated by Mode and ModeOfSpelled |
| Scales.Aeolian | MusicTheory/include/MusicTheory/harmony/Scale.h:617-622 | no contract of its own: Mode with the minor third rotated by 5, stated by Mode and ModeOfSpelled |
| Scales.Locrian | MusicTheory/include/MusicTheory/harmony/Scale.h:644-649 | no contract of its own: Mode with the minor second rotated by 6, stated by Mode and ModeOfSpelled |
| Scales.OffsetOfKey | MusicTheory/include/MusicTheory/harmony/Scale.h:502-508 | rotating a key's notes by an amount keeps names in rotated order |
| Scales.RoundIndex | MusicTheory/include/MusicTheory/harmony/Scale.h:1869-1875 | the rotated index wraps mod 7 |
| Scales.Altered | MusicTheory/include/MusicTheory/harmony/Scale.h:708-712 | only the altered index changes |
| Scales.AlteredMovesOneSemitone | MusicTheory/include/MusicTheory/harmony/Scale.h:708-712 | the altered note keeps its letter and moves one semitone up or down |
| Scales.AlteredStaysInOctave | MusicTheory/include/MusicTheory/harmony/Scale.h:744-749 | re-setting the octave after altering a later degree changes nothing |
| Scales.NaturalMinor | MusicTheory/include/MusicTheory/harmony/Scale.h:675-680 | seven named notes, or none for an unknown key |
| Scales.NaturalMinorOfSpelled | MusicTheory/include/MusicTheory/harmony/Scale.h:675-680 | for a spelled relative major, natural minor is aeolian: the key a minor third up rotated by five, strictly ascending within an octave, with the first note in the input's octave |
| Scales.HarmonicMinor | MusicTheory/include/MusicTheory/harmony/Scale.h:708-712 | natural minor with only index 6 changed |
| Scales.MelodicMinor | MusicTheory/include/MusicTheory/harmony/Scale.h:744-749 | seven notes; the first five keep the natural minor's names |
| Scales.AlteredMode | MusicTheory/include/MusicTheory/harmony/Scale.h:767-950 | a mode with one index altered and the octave re-set has seven notes |
| Scales.AlteredModeOfSpelled | MusicTheory/include/MusicTheory/harmony/Scale.h:767-950 | for a spelled key, melodic-minor modes II to VII change exactly the named index by one semitone and leave the other six notes identical |
| Scales.MelodicMinorII | MusicTheory/include/MusicTheory/harmony/Scale.h:767-772 | no contract of its own: phrygian with index 5 raised, stated by AlteredModeOfSpelled |
| Scales.MelodicMinorIII | MusicTheory/include/MusicTheory/harmony/Scale.h:803-808 | no contract of its own: lydian with index 4 raised, stated by AlteredModeOfSpelled |
| Scales.MelodicMinorIV | MusicTheory/include/MusicTheory/harmony/Scale.h:837-842 | no contract of its own: lydian with index 6 lowered, stated by AlteredModeOfSpelled |
| Scales.MelodicMinorV | MusicTheory/include/MusicTheory/harmony/Scale.h:872-877 | no contract of its own: mixolydian with index 5 lowered, stated by AlteredModeOfSpelled |
| Scales.MelodicMinorVI | MusicTheory/include/MusicTheory/harmony/Scale.h:906-912 | no contract of its own: locrian with index 1 raised, stated by AlteredModeOfSpelled |
| Scales.MelodicMinorVII | MusicTheory/include/MusicTheory/harmony/Scale.h:945-950 | no contract of its own: locrian with index 3 lowered, stated by AlteredModeOfSpelled |
| Scales.LydianDiminished | MusicTheory/include/MusicTheory/harmony/Scale.h:984-990 | seven notes |
| Scales.LydianDiminishedSteps | MusicTheory/include/MusicTheory/harmony/Scale.h:984-990 | every degree other than the third and fourth keeps the ionian's name and its distance from the root |
| Scales.Hindu | MusicTheory/include/MusicTheory/harmony/Scale.h:1735-1739 | seven notes, identical to the ionian except the sixth degree |
| Scales.Stacked | MusicTheory/include/MusicTheory/harmony/Scale.h:1012-1069 | the root followed by one interval of the root per listed interval |
| Scales.StackedInOwnOctave | MusicTheory/include/MusicTheory/harmony/Scale.h:1012-1069 | setting the root's octave leaves a stacked scale unchanged |
| Scales.PentatonicMinor | MusicTheory/include/MusicTheory/harmony/Scale.h:1012-1021 | five notes: root, m3, P4, P5, m7 |
| Scales.PentatonicMajor | MusicTheory/include/MusicTheory/harmony/Scale.h:1037-1046 | five notes: root, M2, M3, P5, M6 |
| Scales.PentatonicDominant | MusicTheory/include/MusicTheory/harmony/Scale.h:1060-1069 | five notes: root, M2, M3, P5, m7 |
| Scales.Semitones | MusicTheory/include/MusicTheory/harmony/Scale.h:1098-1520 | each degree is 1 to 11 semitones above the root |
| Scales.SemitonesInjective | MusicTheory/include/MusicTheory/harmony/Scale.h:1098-1520 | distinct degrees have distinct offsets |
| Scales.PentatonicMinorOn | MusicTheory/include/MusicTheory/harmony/Scale.h:1098-1320 | five notes starting on the root transposed by the degree |
| Scales.PentatonicDominantOn | MusicTheory/include/MusicTheory/harmony/Scale.h:1329-1520 | five notes starting on the root transposed by the degree |
| Scales.PentatonicOnRoot | MusicTheory/include/MusicTheory/harmony/Scale.h:1098-1520 | their first note is exactly that many semitones above the root |
| Scales.Blues | MusicTheory/include/MusicTheory/harmony/Scale.h:1526-1530 | six notes: the pentatonic minor with the diminished fifth inserted at index 3 |
| Scales.WholeSteps | MusicTheory/include/MusicTheory/harmony/Scale.h:1575-1578 | k notes, each a major second above the previous |
| Scales.WholeNote | MusicTheory/include/MusicTheory/harmony/Scale.h:1569-1580 | six notes from the root, each a major second above the previous |
| Scales.WholeStepsLast | MusicTheory/include/MusicTheory/harmony/Scale.h:1575-1578 | one more loop round appends one major second |
| Scales.WholeNoteScale | MusicTheory/include/MusicTheory/harmony/Scale.h:1569-1580 | the loop produces WholeNote |
| Scales.DiminishedSteps | MusicTheory/include/MusicTheory/harmony/Scale.h:1771-1775 | 2k notes, each pair the major second and minor third of the last note |
| Scales.DiminishedStepsLast | MusicTheory/include/MusicTheory/harmony/Scale.h:1771-1775 | one more round appends one pair |
| Scales.Diminished8 | MusicTheory/include/MusicTheory/harmony/Scale.h:1765-1783 | eight notes: root, M2, m3, then steps from the third, and the last two the major sixth and major seventh of the root |
| Scales.DiminishedScale | MusicTheory/include/MusicTheory/harmony/Scale.h:1765-1783 | the loop and final updates produce Diminished8 |
| Scales.DiminishedRounds | MusicTheory/include/MusicTheory/harmony/Scale.h:1768-1775 | the three rounds give the root and six stepped notes |
| Scales.DiminishedFinish | MusicTheory/include/MusicTheory/harmony/Scale.h:1777-1781 | appending the major seventh and replacing index 6 by the major sixth gives Diminished8 |
| Scales.AugmentedScale | MusicTheory/include/MusicTheory/harmony/Scale.h:1814-1829 | six notes: root, m3, M3, P5, m6, M7 |
| Scales.Chromatic | MusicTheory/include/MusicTheory/harmony/Scale.h:1683-1692 | twelve notes starting on the root, for a root at semitone −1 or above |
| Scales.ChromaticSteps | MusicTheory/include/MusicTheory/harmony/Scale.h:1683-1692 | note i has toInt = start + i, for a root at semitone −1 or above |
| Scales.ChromaticScale | MusicTheory/include/MusicTheory/harmony/Scale.h:1683-1692 | the loop produces Chromatic, for a root at semitone −1 or above |
| Scales.BebopDominant | MusicTheory/include/MusicTheory/harmony/Scale.h:1611-1617 | mixolydian followed by the root an octave up, diminished |
| Scales.WithAddedThird | MusicTheory/include/MusicTheory/harmony/Scale.h:1639-1644 | one more note: the augmented third inserted at index 3, everything else shifted |
| Scales.AddedThirdIsRaised | MusicTheory/include/MusicTheory/harmony/Scale.h:1639-1644 | the inserted note keeps the third's letter and is one semitone above it |
| Scales.BebopMinor | MusicTheory/include/MusicTheory/harmony/Scale.h:1639-1644 | eight notes: the dorian with one note inserted after the third degree |
| Scales.Flamenco | MusicTheory/include/MusicTheory/harmony/Scale.h:1664-1669 | eight notes: the phrygian with one note inserted after the third degree |
| Scales.InSen | MusicTheory/include/MusicTheory/harmony/Scale.h:1700-1704 | the pentatonic minor with index 1 replaced by the minor second |
| Scales.Hirajoshi | MusicTheory/include/MusicTheory/harmony/Scale.h:1717-1722 | the pentatonic minor with indices 1 and 4 replaced by the minor second and minor sixth |
| ScaleTables.SizeOfGroup | MusicTheory/include/MusicTheory/harmony/Scale.h:457-1843 | builder sizes: key-based modes 7 (bebop dominant 8), alterations 7 (bebop minor and flamenco 8), pentatonics 5 |
| ScaleTables.KeyBuild | MusicTheory/include/MusicTheory/harmony/Scale.h:457-690 | a key-based builder gives its size, or seven fewer for an unknown key |
| ScaleTables.AlterationBuild | MusicTheory/include/MusicTheory/harmony/Scale.h:708-1002 | an alteration gives its size |
| ScaleTables.PentatonicBuild | MusicTheory/include/MusicTheory/harmony/Scale.h:1012-1520 | five notes, none exactly when the transposed root would be negative |
| ScaleTables.SymmetricBuild | MusicTheory/include/MusicTheory/harmony/Scale.h:1526-1843 | its size; none exactly for chromatic on a root below semitone −1 |
| ScaleTables.Build | MusicTheory/include/MusicTheory/harmony/Scale.h:457-1843 | every builder's size |
| ScaleTables.BuildFailures | MusicTheory/include/MusicTheory/harmony/Scale.h:457-1843 | key-based builders always give a scale; pentatonics on a degree fail only below semitone 0, and chromatic only below semitone −1 |
| ScaleTables.KeyBuildSucceeds | MusicTheory/include/MusicTheory/harmony/Scale.h:457-690 | key-based builders always give a scale |
| ScaleTables.PentatonicBuildFailures | MusicTheory/include/MusicTheory/harmony/Scale.h:1012-1520 | a pentatonic fails exactly when the transposed root is negative |
| ScaleTables.SymmetricBuildFailures | MusicTheory/include/MusicTheory/harmony/Scale.h:1526-1843 | a fixed-size builder fails exactly for chromatic on a root below semitone −1 |
| ScaleTables.Get | MusicTheory/include/MusicTheory/harmony/Scale.h:482-488 | null for a missing or invalid note, otherwise a scale carrying the getter's name |
| ScaleTables.ScaleName | MusicTheory/include/MusicTheory/harmony/Scale.h:482-1843 | no contract of its own: the name each getter writes, which Get's ensures states the scale carries |
| ScaleTables.IsValidScale | MusicTheory/include/MusicTheory/harmony/Scale.h:256-262 | valid only for an existing scale |
| ScaleTables.BuiltScalesAreValid | MusicTheory/include/MusicTheory/harmony/Scale.h:256-262 | every scale a getter other than a key-based one returns is valid |
| ScaleTables.FromString | MusicTheory/include/MusicTheory/harmony/Scale.h:2266-2278 | an unknown name gives no scale, a known one a scale named by its getter |
| ScaleTables.FromStringOfListed | MusicTheory/include/MusicTheory/harmony/Scale.h:2266-2278 | a listed name calls its getter |
| ScaleTables.Create | MusicTheory/include/MusicTheory/harmony/Scale.h:206-217 | not exactly two space-separated parts gives the empty scale; an unknown scale name gives none |
| ScaleTables.CreateOfFullName | MusicTheory/include/MusicTheory/harmony/Scale.h:206-217 | `root name` looks the name up with the root in octave 3 |
| ScaleTables.CreateDorian | MusicTheory/include/MusicTheory/harmony/Scale.h:206-217 | `root dorian` gives getDorian of the root, and a scale |
| ScaleTables.SpelledRootBuilds | MusicTheory/include/MusicTheory/harmony/Scale.h:482-488 | key-based getters and whole-note on a spelled root give a scale |
| ScaleTables.CreateWholeNoteFails | MusicTheory/include/MusicTheory/harmony/Scale.h:1583-1589 | create with the name getWholeNote writes gives none, although getWholeNote itself succeeds |
| ScaleTables.WholeNoteSpelling | MusicTheory/include/MusicTheory/harmony/Scale.h:2404 | `wholeNote` is not a key of the table, `wholenote` is |
| ScaleTables.WholeNoteKeys | MusicTheory/include/MusicTheory/harmony/Scale.h:2404 | the same, part by part |
| ScaleTables.HalfDiminishedIsLocrian | MusicTheory/include/MusicTheory/harmony/Scale.h:2345-2405 | the name `halfDiminished` leads to getLocrian |
| ScaleTables.HalfDiminishedKeys | MusicTheory/include/MusicTheory/harmony/Scale.h:2345-2405 | the same, part by part |
| ScaleTables.DorianIsListed | MusicTheory/include/MusicTheory/harmony/Scale.h:2349 | `dorian` leads to getDorian |
| ScaleTables.DorianKeys | MusicTheory/include/MusicTheory/harmony/Scale.h:2349 | the same, part by part |
| ScaleTables.LookupThroughParts | MusicTheory/include/MusicTheory/harmony/Scale.h:2345-2405 | the name table is the union of its three parts, later parts taking precedence |
| ScaleTables.UnlistedName | MusicTheory/include/MusicTheory/harmony/Scale.h:2345-2405 | a name in no part is not in the table |
| ScaleTables.OtherNameListed | MusicTheory/include/MusicTheory/harmony/Scale.h:2345-2405 | a name in the last part leads to its getter |
| ScaleTables.ModeNameListed | MusicTheory/include/MusicTheory/harmony/Scale.h:2345-2405 | a name only in the first part leads to its getter |
| ChordScaleTable.LookupThroughParts | MusicTheory/include/MusicTheory/harmony/Scale.h:71-177 | the chord table is the union of its three parts, later parts taking precedence |
| ChordScaleTable.ScalesFor | MusicTheory/include/MusicTheory/harmony/Scale.h:2239-2243 | an unknown symbol gives `[""]`; a known one gives the pieces that, joined with commas, are the table entry and contain no comma |
| ChordScaleTable.ChordScales.constructor | MusicTheory/include/MusicTheory/harmony/Scale.h:71-177 | the table starts as written in the source |
| ChordScaleTable.ChordScales.ScalesForChord | MusicTheory/include/MusicTheory/harmony/Scale.h:2239-2243 | the result is ScalesFor, and an unknown symbol is inserted with an empty entry |
| ChordScaleTable.LookupIsStable | MusicTheory/include/MusicTheory/harmony/Scale.h:2239-2243 | after the insertion a repeated lookup gives the same result and leaves the table alone |
| ChordScaleTable.SevenFlatNineFlatFive | MusicTheory/include/MusicTheory/harmony/Scale.h:168 | `7b9b5` gives melodicMinorVII and pentatonicMinorbIII |
| ChordScaleTable.SevenFlatNineFlatFiveEntry | MusicTheory/include/MusicTheory/harmony/Scale.h:168 | the table entry for `7b9b5` |
| ChordScaleTable.SplitTwo | MusicTheory/include/MusicTheory/harmony/Scale.h:2241 | two comma-free names joined by a comma split back into the two |
| ChordScaleTable.MajorTriadIsIonian | MusicTheory/include/MusicTheory/harmony/Scale.h:75 | the empty symbol gives ionian |
| ChordScaleTable.MajorTriadEntry | MusicTheory/include/MusicTheory/harmony/Scale.h:75 | the triad entry for the empty symbol |
| ChordScaleTable.EmptySymbolIsNoLaterKey | MusicTheory/include/MusicTheory/harmony/Scale.h:71-177 | no later part overrides the empty symbol |
| Progressions.RomanIndex | MusicTheory/include/MusicTheory/harmony/Progression.h:25-34 | RomanLookup[numeral] is a degree below 7 (an unknown numeral reads as operator[]'s default 0) |
| Progressions.RomanIndexOfRoman | MusicTheory/include/MusicTheory/harmony/Progression.h:20-34 | ROMAN and RomanLookup are inverse |
| Progressions.WithinSix | MusicTheory/include/MusicTheory/harmony/Progression.h:1133-1154 | the intended reduction: within ±6, unchanged when already there |
| Progressions.WithinSixOctave | MusicTheory/include/MusicTheory/harmony/Progression.h:1133-1154 | the reduction moves by whole octaves |
| Progressions.AccidentalString | MusicTheory/include/MusicTheory/harmony/Progression.h:1143-1151 | m sharps or \|m\| flats, never mixed, with net value m |
| Progressions.CleanAccidentalsAsWritten | MusicTheory/include/MusicTheory/harmony/Progression.h:1133-1154 | the source's cleanAccidentals: at most 6 characters, only `#` and `b`; net value n for \|n\| ≤ 6, (−n)%6 for n > 6 and n%6 for n < −6, C++ remainder |
| Progressions.CleanAccidentalsAsWrittenMovesPitch | MusicTheory/include/MusicTheory/harmony/Progression.h:1136-1137 | for 7 the source writes one flat, which is not 7 semitones up to the octave; the corrected form writes 5 flats |
| Progressions.CleanAccidentals | MusicTheory/include/MusicTheory/harmony/Progression.h:1133-1154 | at most 6 characters, all `#` or `b`, and exactly n for \|n\| ≤ 6 |
| Progressions.CleanAccidentalsUnmixed | MusicTheory/include/MusicTheory/harmony/Progression.h:1133-1154 | never both `#` and `b` |
| Progressions.CleanAccidentalsOctave | MusicTheory/include/MusicTheory/harmony/Progression.h:1133-1154 | the written accidentals differ from n by a whole number of octaves |
| Progressions.RemoveSpaces | MusicTheory/include/MusicTheory/harmony/Progression.h:261 | the result has no spaces and is no longer |
| Progressions.RemoveSpacesOfSpaceless | MusicTheory/include/MusicTheory/harmony/Progression.h:261 | a string without spaces is unchanged |
| Progressions.AccidentalRun | MusicTheory/include/MusicTheory/harmony/Progression.h:269 | the longest prefix of `#` and `b` |
| Progressions.AccidentalsBeforeNumeral | MusicTheory/include/MusicTheory/harmony/Progression.h:269-276 | the first run of `#`/`b` followed by a numeral letter, all accidentals |
| Progressions.NumeralRun | MusicTheory/include/MusicTheory/harmony/Progression.h:286-290 | the longest prefix of `i`, `I`, `v`, `V` |
| Progressions.UpperNumerals | MusicTheory/include/MusicTheory/harmony/Progression.h:292 | upper-casing keeps the length and leaves only `I` and `V` |
| Progressions.AccidentalsFill | MusicTheory/include/MusicTheory/harmony/Progression.h:279-284 | an all-accidental run's sharps and flats add up to its length |
| Progressions.Parse | MusicTheory/include/MusicTheory/harmony/Progression.h:260-311 | cleaned accidentals at most 6 long, written with the source's cleaning (CleanAccidentalsAsWritten); roman is `bVII` or only `I`/`V`; the suffix has no spaces |
| Progressions.ParseSpaceless | MusicTheory/include/MusicTheory/harmony/Progression.h:262-311 | the same as Parse, for a string already without spaces |
| Progressions.PartsTuple | MusicTheory/include/MusicTheory/harmony/Progression.h:279-311 | the same as Parse, from the accidental run found |
| Progressions.ParseOfParts | MusicTheory/include/MusicTheory/harmony/Progression.h:260-311 | parse is the tuple of numeral, net accidentals and suffix read from the parts |
| Progressions.SpacelessOfParts | MusicTheory/include/MusicTheory/harmony/Progression.h:279-311 | the same, from the parts after space removal |
| Progressions.ParseToken | MusicTheory/include/MusicTheory/harmony/Progression.h:260-311 | accidentals + upper numeral + suffix parses to (numeral, net accidentals, suffix) |
| Progressions.AccidentalsOfToken | MusicTheory/include/MusicTheory/harmony/Progression.h:269-276 | the accidental run before the numeral is the token's accidentals |
| Progressions.NumeralOfToken | MusicTheory/include/MusicTheory/harmony/Progression.h:284-296 | the numeral and the suffix are read back |
| Progressions.AccidentalRunOfToken | MusicTheory/include/MusicTheory/harmony/Progression.h:269 | the run stops at the first non-accidental |
| Progressions.NumeralRunOfToken | MusicTheory/include/MusicTheory/harmony/Progression.h:286-290 | the numeral run stops at the suffix |
| Progressions.TokenIsSpaceless | MusicTheory/include/MusicTheory/harmony/Progression.h:261 | a token of accidentals, numeral and space-free suffix has no spaces |
| Progressions.ParseTonic | MusicTheory/include/MusicTheory/harmony/Progression.h:253-254 | `"I"` gives (I, 0, "") |
| Progressions.ParseFlatTonic | MusicTheory/include/MusicTheory/harmony/Progression.h:255-256 | `"bI…"` gives (I, −1, "b", suffix), so `"bIM7"` gives (I, −1, "M7") |
| Progressions.ParseFlatSeven | MusicTheory/include/MusicTheory/harmony/Progression.h:303-308 | `"bVII…"` becomes roman `bVII` with accidentals 0, the cleaned accidentals staying `"b"` |
| Progressions.SevenSharpsOnSeventh | MusicTheory/include/MusicTheory/harmony/Progression.h:299-308 | seven net sharps on VII are cleaned to `"b"` as written, so the `bVII` rewrite fires: (bVII, 0, "b", suffix) |
| Progressions.TupleOfPlain | MusicTheory/include/MusicTheory/harmony/Progression.h:299-308 | without the rewrite's condition the tuple is the plain one |
| Progressions.TupleOf | MusicTheory/include/MusicTheory/harmony/Progression.h:299-308 | no contract of its own: the tuple with the source's cleaning and the `bVII` rewrite, stated by ParseFlatSeven, TupleOfPlain and SevenSharpsOnSeventh |
| Progressions.Distance | MusicTheory/include/MusicTheory/harmony/Progression.h:1164-1170 | the upward semitone distance between two numerals, in [0, 12) |
| Progressions.DistanceReaches | MusicTheory/include/MusicTheory/harmony/Progression.h:1164-1170 | going up by the distance from the first numeral reaches the second |
| Progressions.DistanceComplement | MusicTheory/include/MusicTheory/harmony/Progression.h:1164-1170 | distinct numerals' distances each way add to 12 |
| Progressions.IntervalDiffOf | MusicTheory/include/MusicTheory/harmony/Progression.h:1161-1180 | intervalDiff is what must be added to the distance to reach the interval |
| Progressions.PitchClass | MusicTheory/include/MusicTheory/harmony/Progression.h:21 | the pitch class of a numeral with accidentals, in [0, 12) |
| Progressions.PitchClassOctave | MusicTheory/include/MusicTheory/harmony/Progression.h:21 | accidentals an octave apart give the same pitch class |
| Progressions.IntervalDiffReaches | MusicTheory/include/MusicTheory/harmony/Progression.h:1161-1180 | the second numeral with the added accidentals is exactly the interval above the first |
| Progressions.CleanedPitchClass | MusicTheory/include/MusicTheory/harmony/Progression.h:1133-1154 | writing accidentals back with the corrected cleaning keeps the pitch class |
| Progressions.IntervalDiffExamples | MusicTheory/include/MusicTheory/harmony/Progression.h:1161-1180 | (V, VII, 3) gives −1 and (I, VI, 9) gives 0 |
| Progressions.Entered | MusicTheory/include/MusicTheory/harmony/Progression.h:1164-1165 | operator[] leaves the key present and keeps all earlier keys |
| Progressions.EnteredTwice | MusicTheory/include/MusicTheory/harmony/Progression.h:1164-1165 | a second lookup of the same numeral changes nothing |
| Progressions.EnteredAgain | MusicTheory/include/MusicTheory/harmony/Progression.h:1164-1165 | looking up a standard numeral changes nothing |
| Progressions.Partner | MusicTheory/include/MusicTheory/harmony/Progression.h:366-370 | a non-empty partner comes from a pair containing the numeral |
| Progressions.HarmonicSubstitutes | MusicTheory/include/MusicTheory/harmony/Progression.h:363-379 | at most one result per pair |
| Progressions.Partners | MusicTheory/include/MusicTheory/harmony/Progression.h:363-379 | at most one partner per pair |
| Progressions.SubstitutesArePartners | MusicTheory/include/MusicTheory/harmony/Progression.h:363-379 | each result is the cleaned accidentals, a partner and the suffix, in table order |
| Progressions.PartnersArePaired | MusicTheory/include/MusicTheory/harmony/Progression.h:363-379 | y is a partner of x exactly when some pair holds both |
| Progressions.HarmonicSubstitution | MusicTheory/include/MusicTheory/harmony/Progression.h:345-384 | at most five results, and none unless the suffix test of Progression.h:362 (HarmonicApplies) holds |
| Progressions.HarmonicApplies | MusicTheory/include/MusicTheory/harmony/Progression.h:362 | no contract of its own: the suffix test, which HarmonicSubstitution's ensures uses |
| Progressions.HarmonicSubstitutesStep | MusicTheory/include/MusicTheory/harmony/Progression.h:363-379 | one loop round appends the pair's chord when it has a partner |
| Progressions.SubstitutePairs | MusicTheory/include/MusicTheory/harmony/Progression.h:363-379 | the loop produces HarmonicSubstitutes |
| Progressions.SubstituteHarmonic | MusicTheory/include/MusicTheory/harmony/Progression.h:345-384 | the method produces HarmonicSubstitution |
| Progressions.HarmonicPartnersSymmetric | MusicTheory/include/MusicTheory/harmony/Progression.h:349-354 | substitution partners are symmetric |
| Progressions.PartnersOfFour | MusicTheory/include/MusicTheory/harmony/Progression.h:349-354 | IV's partners are II and VI |
| Progressions.HarmonicOfFourSeven | MusicTheory/include/MusicTheory/harmony/Progression.h:345-384 | `"IV7"` gives `["II7", "VI7"]` |
| Progressions.AppendIf | MusicTheory/include/MusicTheory/harmony/Progression.h:418-431 | one more entry exactly when the condition holds |
| Progressions.RelativeChords | MusicTheory/include/MusicTheory/harmony/Progression.h:418-431 | at most three results, exactly three when the suffix is ignored |
| Progressions.NumeralAbove | MusicTheory/include/MusicTheory/harmony/Progression.h:414-415 | ROMAN[(i + steps) % 7] is a numeral |
| Progressions.RelativeChordOf | MusicTheory/include/MusicTheory/harmony/Progression.h:414-419 | the chord is the cleaned accidentals followed by the numeral the given steps above |
| Progressions.RelativeChord | MusicTheory/include/MusicTheory/harmony/Progression.h:414-419 | no contract of its own: stated by RelativeChordOf and RelativeChordOfDegree |
| Progressions.Relative | MusicTheory/include/MusicTheory/harmony/Progression.h:401-485 | at most three results, three when the suffix is ignored; each chord written with the source's cleaning (CleanAccidentalsAsWritten) |
| Progressions.MinorForMajor | MusicTheory/include/MusicTheory/harmony/Progression.h:401-437 | at most three results, and some result exactly when the suffix test of Progression.h:412 (MinorApplies) holds |
| Progressions.MajorForMinor | MusicTheory/include/MusicTheory/harmony/Progression.h:451-485 | at most three results, and some result exactly when the suffix test of Progression.h:460 (MajorApplies) holds |
| Progressions.MinorApplies | MusicTheory/include/MusicTheory/harmony/Progression.h:412 | no contract of its own: the suffix test, which MinorForMajor's ensures uses |
| Progressions.MajorApplies | MusicTheory/include/MusicTheory/harmony/Progression.h:460 | no contract of its own: the suffix test, which MajorForMinor's ensures uses |
| Progressions.RomanIsUpper | MusicTheory/include/MusicTheory/harmony/Progression.h:20 | every ROMAN entry is written with `I` and `V` only |
| Progressions.SixthUp | MusicTheory/include/MusicTheory/harmony/Progression.h:462-464 | five degrees up, a major sixth needs no correction or one sharp, and a sharp never lands on VI |
| Progressions.MajorForMinorOfMajorSeventh | MusicTheory/include/MusicTheory/harmony/Progression.h:451-485 | an M7 token has exactly one substitute: the relative chord five degrees (a major sixth) up, as m7 |
| Progressions.MinorForMajorOfMinorSeventh | MusicTheory/include/MusicTheory/harmony/Progression.h:401-437 | an m7 token has exactly one substitute: the relative chord two degrees (a minor third) up, as M7 |
| Progressions.RelativeChordOfDegree | MusicTheory/include/MusicTheory/harmony/Progression.h:414-419 | for degree i, the chord uses ROMAN[(i + steps) % 7] |
| Progressions.RelativeMinorOfDegree | MusicTheory/include/MusicTheory/harmony/Progression.h:462-479 | the relative minor of a natural degree is its sixth with the right accidental |
| Progressions.CleanZeroAndOne | MusicTheory/include/MusicTheory/harmony/Progression.h:1133-1154 | 0 writes nothing, 1 writes `#` |
| Progressions.RelativeMajorOfParsed | MusicTheory/include/MusicTheory/harmony/Progression.h:401-437 | an m7 token with accidentals gives the M7 chord two numerals up with adjusted accidentals |
| Progressions.NumeralTwoAbove | MusicTheory/include/MusicTheory/harmony/Progression.h:415 | two numerals above degree j is ROMAN[(j + 2) % 7] |
| Progressions.RelativeMajorOfNatural | MusicTheory/include/MusicTheory/harmony/Progression.h:401-437 | the relative major of a natural m7 degree |
| Progressions.RelativeMajorOfSharp | MusicTheory/include/MusicTheory/harmony/Progression.h:401-437 | the relative major of a `#`-prefixed m7 degree |
| Progressions.RelativeRoundTrip | MusicTheory/include/MusicTheory/harmony/Progression.h:387-485 | major-for-minor of `XM7` gives one chord, and minor-for-major of it gives back `XM7` (so IM7 → VIm7 → IM7) |
| Progressions.MinorForMajorOfSixth | MusicTheory/include/MusicTheory/harmony/Progression.h:390-392 | the documented example: `"VI"` gives `["I"]` |
| Progressions.MinorForMajorOfMinorFifth | MusicTheory/include/MusicTheory/harmony/Progression.h:393-394 | the documented example: `"Vm"` gives `["bVIIM"]` |
| Progressions.MinorForMajorOfSixthSeventh | MusicTheory/include/MusicTheory/harmony/Progression.h:395-396 | the documented example: `"VIm7"` gives `["IM7"]` |
| Progressions.MajorForMinorOfTonic | MusicTheory/include/MusicTheory/harmony/Progression.h:444-445 | the documented example: `"I"` gives `["VI"]` |
| Progressions.MajorForMinorOfFifthSeventh | MusicTheory/include/MusicTheory/harmony/Progression.h:446-447 | the documented example: `"VM7"` gives `["IIIm7"]` |
| Progressions.DiminishedChain | MusicTheory/include/MusicTheory/harmony/Progression.h:515-522 | n chords, each written with the source's cleaning (CleanAccidentalsAsWritten) (DiminishedChainStep gives each round) |
| Progressions.DiminishedForDiminished | MusicTheory/include/MusicTheory/harmony/Progression.h:498-525 | three results exactly when the suffix test of Progression.h:507 (DiminishedApplies) holds, otherwise none |
| Progressions.DiminishedApplies | MusicTheory/include/MusicTheory/harmony/Progression.h:507 | no contract of its own: the suffix test, which the ensures of DiminishedForDiminished and DiminishedForDominant use |
| Progressions.DiminishedChainStep | MusicTheory/include/MusicTheory/harmony/Progression.h:515-522 | each round emits the chord two numerals up with accumulated accidentals |
| Progressions.ThirdAboveIsMinorThird | MusicTheory/include/MusicTheory/harmony/Progression.h:516-519 | two numerals up with the counted accidentals is exactly a minor third up in pitch class; so is the written chord when the count is within ±6 (as written) and always with the corrected cleaning |
| Progressions.DiminishedChainRisesByMinorThirds | MusicTheory/include/MusicTheory/harmony/Progression.h:515-522 | the first chord is the numeral a minor third above the given one, written with the source's cleaning, and the rest follow from it |
| Progressions.DiminishedChainOfThree | MusicTheory/include/MusicTheory/harmony/Progression.h:515-522 | the three chords written out |
| Progressions.DiminishedChainOnSeventh | MusicTheory/include/MusicTheory/harmony/Progression.h:498-525 | from VII the third chord is `bVIdim`, not the doc comment's `bbVIdim` |
| Progressions.ThirdsFromSeventh | MusicTheory/include/MusicTheory/harmony/Progression.h:516-518 | VII → II → IV → VI with accidentals 0, 0, −1 |
| Progressions.DiminishedForDiminishedOnSeventh | MusicTheory/include/MusicTheory/harmony/Progression.h:498-525 | `"VII"` gives `["IIdim", "IVdim", "bVIdim"]`, where the doc comment at Progression.h:492-493 shows `bIVdim` and `bbVIdim` |
| Progressions.ThirdAbove | MusicTheory/include/MusicTheory/harmony/Progression.h:516-517 | no contract of its own: two numerals up, stated by ThirdAboveOf and ThirdAboveIsMinorThird |
| Progressions.ThirdAboveAccidentals | MusicTheory/include/MusicTheory/harmony/Progression.h:518 | no contract of its own: stated by ThirdAboveOf and ThirdAboveIsMinorThird |
| Progressions.DominantChainAsWritten | MusicTheory/include/MusicTheory/harmony/Progression.h:548-557 | the source's loop: n chords, one per round (the next lemma states that the accidentals are not carried) |
| Progressions.DominantChainAsWrittenStep | MusicTheory/include/MusicTheory/harmony/Progression.h:548-557 | each round uses the input accidentals again |
| Progressions.DominantChainAsWrittenOfFour | MusicTheory/include/MusicTheory/harmony/Progression.h:548-557 | the four chords as written |
| Progressions.DominantChainAsWrittenOnSeventh | MusicTheory/include/MusicTheory/harmony/Progression.h:548-557 | from VII the fourth dominant comes out as `IVdom7` |
| Progressions.DominantChainAsWrittenMissesFourthChord | MusicTheory/include/MusicTheory/harmony/Progression.h:548-557 | IVdom7 is not a minor sixth above the fourth diminished chord bVIdim; the accumulated form gives bIVdom7 |
| Progressions.DominantChainAsWrittenRisesByMinorSixths | MusicTheory/include/MusicTheory/harmony/Progression.h:548-557 | each round of the source's loop emits the dominant a minor sixth above the current numeral with the input's accidentals, then moves two numerals up keeping those accidentals |
| Progressions.DominantChain | MusicTheory/include/MusicTheory/harmony/Progression.h:532-560 | the corrected loop of the second Findings row: n chords |
| Progressions.DiminishedForDominant | MusicTheory/include/MusicTheory/harmony/Progression.h:532-560 | the source's loop (DominantChainAsWritten of four): four results exactly when the suffix test of Progression.h:542 holds, otherwise none |
| Progressions.DominantChainStep | MusicTheory/include/MusicTheory/harmony/Progression.h:548-557 | each corrected round emits the dominant of the current chord and moves up a third with accumulated accidentals |
| Progressions.SixthAboveIsMinorSixth | MusicTheory/include/MusicTheory/harmony/Progression.h:552-554 | five numerals up with the counted accidentals is exactly a minor sixth up in pitch class; so is the written chord when the count is within ±6 (as written) and always with the corrected cleaning |
| Progressions.DominantChainRisesByMinorSixths | MusicTheory/include/MusicTheory/harmony/Progression.h:548-557 | in the corrected chain every dominant is a minor sixth above its diminished chord, and the next round carries the gathered accidentals |
| Progressions.DominantChainOfFour | MusicTheory/include/MusicTheory/harmony/Progression.h:548-557 | the four corrected chords written out |
| Progressions.DominantChainOnSeventh | MusicTheory/include/MusicTheory/harmony/Progression.h:548-557 | from VII the corrected fourth dominant is `bIVdom7` |
| Progressions.DominantsAboveSixth | MusicTheory/include/MusicTheory/harmony/Progression.h:552-553 | from VI the dominant numeral is IV, and IV natural is not a minor sixth above bVI |
| Progressions.SixthsFromSeventh | MusicTheory/include/MusicTheory/harmony/Progression.h:552-553 | five numerals up from VII, II, IV and VI are V, VII, II and IV, with intervalDiff 0, −1, −1 and 0 |
| Progressions.DiminishedForDominantOnSeventh | MusicTheory/include/MusicTheory/harmony/Progression.h:532-560 | `"VII"` gives `["Vdom7", "bVIIdom7", "bIIdom7", "IVdom7"]` |
| Progressions.SixthAbove | MusicTheory/include/MusicTheory/harmony/Progression.h:552 | no contract of its own: five numerals up, stated by SixthAboveIsMinorSixth and DominantSeventhOf |
| Progressions.SixthAboveAccidentals | MusicTheory/include/MusicTheory/harmony/Progression.h:553 | no contract of its own: stated by SixthAboveIsMinorSixth |
| Progressions.DominantSeventh | MusicTheory/include/MusicTheory/harmony/Progression.h:552-555 | no contract of its own: stated by DominantSeventhOf and DominantChainAsWrittenRisesByMinorSixths |
| Progressions.DominantSeventhOf | MusicTheory/include/MusicTheory/harmony/Progression.h:552-555 | the dominant chord is cleaned accidentals + ROMAN[(i+5)%7] + `dom7` |
| Progressions.ThirdAboveOf | MusicTheory/include/MusicTheory/harmony/Progression.h:516-518 | the next numeral and accidentals of a step |
| Progressions.CleanMinusOne | MusicTheory/include/MusicTheory/harmony/Progression.h:1133-1154 | −1 writes `b` |
| Progressions.Progression.constructor | MusicTheory/include/MusicTheory/harmony/Progression.h:25-34 | RomanLookup starts with the seven numerals |
| Progressions.Progression.Lookup | MusicTheory/include/MusicTheory/harmony/Progression.h:1164 | operator[] returns RomanIndex and enters the numeral |
| Progressions.Progression.IntervalDiff | MusicTheory/include/MusicTheory/harmony/Progression.h:1161-1180 | the two while-loops compute IntervalDiffOf; both numerals are entered |
| Progressions.Progression.SubstituteRelative | MusicTheory/include/MusicTheory/harmony/Progression.h:412-431 | the shared body of the two relative substitutions produces Relative, with the source's cleaning (CleanAccidentalsAsWritten) |
| Progressions.Progression.SubstituteMinorForMajor | MusicTheory/include/MusicTheory/harmony/Progression.h:401-437 | produces MinorForMajor |
| Progressions.Progression.SubstituteMajorForMinor | MusicTheory/include/MusicTheory/harmony/Progression.h:451-485 | produces MajorForMinor |
| Progressions.Progression.ThirdStep | MusicTheory/include/MusicTheory/harmony/Progression.h:516-518 | one step of the diminished loop |
| Progressions.Progression.DiminishedStep | MusicTheory/include/MusicTheory/harmony/Progression.h:516-521 | one round's chord, written with the source's cleaning (CleanAccidentalsAsWritten), and the next numeral |
| Progressions.Progression.SubstituteDiminishedChain | MusicTheory/include/MusicTheory/harmony/Progression.h:514-522 | the loop produces DiminishedChain of three |
| Progressions.Progression.SubstituteDiminishedForDiminished | MusicTheory/include/MusicTheory/harmony/Progression.h:498-525 | produces DiminishedForDiminished |
| Progressions.Progression.DominantOf | MusicTheory/include/MusicTheory/harmony/Progression.h:550-555 | the dominant chord for the current numeral: the input's accidentals plus intervalDiff to five numerals up, written with the source's cleaning (CleanAccidentalsAsWritten) |
| Progressions.Progression.DominantStep | MusicTheory/include/MusicTheory/harmony/Progression.h:550-556 | one round of the dominant loop: its chord and the numeral two up; the accidentals are not carried |
| Progressions.Progression.SubstituteDominantChain | MusicTheory/include/MusicTheory/harmony/Progression.h:548-557 | the loop produces DominantChainAsWritten of four: every round restarts from the input's accidentals |
| Progressions.Progression.SubstituteDiminishedForDominant | MusicTheory/include/MusicTheory/harmony/Progression.h:532-560 | produces DiminishedForDominant |

## Left out

- The `Interval` component is not part of this model. Its builders are the uninterpreted parameter `iv`, so no spelling or distance is claimed for the notes it returns.
- `Interval::measure`, and with it `Scale::getThird`/`getSeventh`, depend on that component and are not modelled.
- The Chord component is not part of this model. This leaves out `getChordFromRoman`, `tupleToChord`, `fromString`, `getChordfromChordFunction`, the `determine` overloads, `quickAnalysis` and `getScalesForChord(ChordPtr)`.
- `getFunctionInRoman` (Progression.h:867-1021) is left out. It is built on chord analysis from that component.
- The following are left out:
  - `Scale::loadChordScales` (file input);
  - every `print` and `operator<<` overload;
  - `std::cout` messages;
  - `#ifdef LOGS` logging.
- Floating point is left out: `toHertz`/`fromHertz` and the treble and bass clef conversions. `Dynamics` is left out too; it is carried but never read by the modelled code.
- `getName`, `getShorthand`, `intToNote`, `naturalise`, `getAccidentals` and `getUnaltered` are not among the modelled operations. Neither are the empty `toMinor`/`toMajor`/`removeRedundantAccidentals`.
- The static name lists (`getAllKnownScales` and the like) are static data. They are not modelled.
- `Progression::substitute` (Progression.h:572-662) is a stub that always returns empty. It is not modelled.
- `ChordTuple`'s unused numeral field is dropped.
- `shared_ptr` sharing and aliasing are left out. Every builder works on copies in the source, and the model uses values. The one mutable shared structure per class is a class field:
  - `KeyCache.entries`;
  - `ChordScales.table`;
  - `Progression.romanLookup`.
- `ScaleLookup()` returns its table by value, so `operator[]` in `getScaleFromString` inserts into a temporary. It is modelled as a pure lookup.
- `std::sort` with equal semitones has an unspecified order. The model sorts stably, and ties never arise for spelled keys (`SortedIsUnique`).
- Notes.DiatonicName: not defined when net flats exceed 12 plus the letter index, where the source would index a table with a negative number.
- Scales.NoteAt: requires i ≥ −size, because the source's `(size + i) % size` indexes out of range below that.
- Diatonic.NoteAfter: requires the start note to be in the key and start + n ≥ 0. The source has no return otherwise, and a negative remainder would index out of range.
- Scales.PentatonicMinorOn: requires a non-negative transposed root for valid names, because `set(int)` on a negative semitone reads outside the name table.
- Scales.Chromatic: requires a root at semitone −1 or above for valid names, because `set(int)` on the first note above a lower root reads outside the name table. ChromaticSteps and ChromaticScale carry the same requires.
- ScaleTables.SymmetricBuild: gives no chromatic scale for a root below semitone −1, where the source's `set(int)` has undefined behaviour. Build, Get, BuildFailures and SymmetricBuildFailures state the same gap.
- Notes.Constructed: requires a valid name not to start with `-`. On such a name source `fromShorthand` splits off an empty first piece and `substr(1)` on it throws `std::out_of_range` (Note.h:777-784). Exceptions are not modelled.
- Notes.Create: the same requires as Constructed, for the same reason.
- Notes.Note.constructor: the same requires as Constructed, for the same reason.
- Notes.Note.Set: the same requires as Constructed, for the same reason.
- Notes.Note.FromShorthandInPlace: requires a readable shorthand, one that is non-empty and does not start with `-`. On a leading `-` the source throws as for Constructed. On the empty shorthand it reads `shorthand.back()` of an empty string, which is undefined behaviour.
- ScaleTables.AlterationBuild: gives no scale where the source would `augment` a degree of a mode an unknown key left empty, which is undefined behaviour in the source.
- ScaleTables.Create: gives no scale for a valid root that starts with `-`, which `fromShorthand` cannot read.
- Scales.MelodicMinor: states the names of the unaltered degrees only, not their semitones. Interval results are unconstrained, so the octave re-set may move them.
- Scales.LydianDiminished: its own contract states only the length. The names and the distances from the root of the unaltered degrees are stated by LydianDiminishedSteps.
- Progressions.Parse: only spaces are removed. Boost's regex look-behind `(?<!d)` is modelled as "the numeral run starts right after the accidentals", because the suffix is everything after that run.

## Findings

The operations of the model use the as-written members, as the code does. The corrected members carry the evidently intended property, proved.

| source | as written | input that shows it | evidently intended | confidence | as-written member | corrected member |
|---|---|---|---|---|---|---|
| MusicTheory/include/MusicTheory/harmony/Progression.h:1136-1140 | `accidentals = - accidentals % 6` turns more than six net sharps into the negated remainder mod 6 | 7 net sharps are written `"b"`, 8 semitones away from the 7 asked for rather than a whole octave (CleanAccidentalsAsWrittenMovesPitch) | reduce by whole octaves so the pitch class is kept: 7 sharps become 5 flats (CleanAccidentalsOctave, CleanedPitchClass) | medium, not executed | Progressions.CleanAccidentalsAsWritten | Progressions.CleanAccidentals |
| MusicTheory/include/MusicTheory/harmony/Progression.h:548-557 | `a = intervalDiff(last, domRoman, 8) + tuple.accidentals` starts from the input's accidentals each round and drops those the diminished chain has gathered | `"VII"` gives Vdom7, bVIIdom7, bIIdom7, IVdom7; the fourth diminished chord is bVIdim, and IV is not a minor sixth above bVI (DominantChainAsWrittenMissesFourthChord) | every dominant a minor sixth above the diminished chord it stands for, so the fourth is bIVdom7 (DominantChainRisesByMinorSixths) | medium, not executed | Progressions.DominantChainAsWritten | Progressions.DominantChain |
