/**
 * The scale factories by name: every getter of the scale class (the builder
 * it calls and the name it gives the scale), the name table that
 * getScaleFromString consults, create(fullName), and the chord-symbol table
 * getScalesForChord reads and extends.
 */
module ScaleTables {
  import opened Wrappers
  import opened Utils
  import opened Notes
  import opened Scales

  /** One constructor per static getter, the pentatonics on a degree folded into two. */
  datatype Getter =
    | GetDiatonic | GetIonian | GetDorian | GetPhrygian | GetLydian | GetMixolydian | GetAeolian | GetLocrian
    | GetNaturalMinor | GetHarmonicMinor | GetMelodicMinor
    | GetMelodicMinorII | GetPhrygianRaisedSixth | GetMelodicMinorIII | GetLydianAugmented
    | GetMelodicMinorIV | GetLydianDominant | GetMelodicMinorV | GetMixolydianLoweredSixth
    | GetMelodicMinorVI | GetHalfDiminished | GetMelodicMinorVII | GetSuperLocrian
    | GetLydianDiminished
    | GetPentatonicMinor | GetPentatonicMajor | GetPentatonicDominant
    | GetPentatonicMinorOn(d: Degree) | GetPentatonicDominantOn(d: Degree)
    | GetBlues | GetChromatic | GetWholeNote | GetBebopDominant | GetBebopMinor | GetFlamenco
    | GetInSen | GetHirajoshi | GetHindu | GetDiminished | GetAugmented

  /** The name each getter writes into the scale it returns. */
  function ScaleName(g: Getter): string {
    match g
    case GetDiatonic => "diatonic"
    case GetIonian => "ionian"
    case GetDorian => "dorian"
    case GetPhrygian => "phrygian"
    case GetLydian => "lydian"
    case GetMixolydian => "mixolydian"
    case GetAeolian => "aeolian"
    case GetLocrian => "locrian"
    case GetNaturalMinor => "naturalMinor"
    case GetHarmonicMinor => "harmonicMinor"
    case GetMelodicMinor => "melodicMinor"
    case GetMelodicMinorII => "melodicMinorII"
    case GetPhrygianRaisedSixth => "phrygian#6"
    case GetMelodicMinorIII => "melodicMinorIII"
    case GetLydianAugmented => "lydianAugmented"
    case GetMelodicMinorIV => "melodicMinorIV"
    case GetLydianDominant => "lydianDominant"
    case GetMelodicMinorV => "melodicMinorV"
    case GetMixolydianLoweredSixth => "mixolydianLoweredSixth"
    case GetMelodicMinorVI => "melodicMinorVI"
    case GetHalfDiminished => "halfDiminished"
    case GetMelodicMinorVII => "melodicMinorVII"
    case GetSuperLocrian => "superLocrian"
    case GetLydianDiminished => "lydianDiminished"
    case GetPentatonicMinor => "pentatonicMinor"
    case GetPentatonicMajor => "pentatonicMajor"
    case GetPentatonicDominant => "pentatonicDominant"
    case GetPentatonicMinorOn(d) => PentatonicMinorName(d)
    case GetPentatonicDominantOn(d) => PentatonicDominantName(d)
    case GetBlues => "blues"
    case GetChromatic => "chromatic"
    case GetWholeNote => "wholeNote"
    case GetBebopDominant => "bebopDominant"
    case GetBebopMinor => "bebopMinor"
    case GetFlamenco => "flamenco"
    case GetInSen => "insen"
    case GetHirajoshi => "hirajoshi"
    case GetHindu => "hindu"
    case GetDiminished => "diminished"
    case GetAugmented => "augmented"
  }

  /** The names of the pentatonics on a degree: the degree's numeral after the scale's name. */
  function PentatonicMinorName(d: Degree): string {
    match d
    case FlatII => "pentatonicMinorbII"
    case II => "pentatonicMinorII"
    case FlatIII => "pentatonicMinorbIII"
    case III => "pentatonicMinorIII"
    case IV => "pentatonicMinorIV"
    case FlatV => "pentatonicMinorbV"
    case V => "pentatonicMinorV"
    case FlatVI => "pentatonicMinorbVI"
    case VI => "pentatonicMinorVI"
    case FlatVII => "pentatonicMinorbVII"
    case VII => "pentatonicMinorVII"
  }

  function PentatonicDominantName(d: Degree): string {
    match d
    case FlatII => "pentatonicDominantbII"
    case II => "pentatonicDominantII"
    case FlatIII => "pentatonicDominantbIII"
    case III => "pentatonicDominantIII"
    case IV => "pentatonicDominantIV"
    case FlatV => "pentatonicDominantbV"
    case V => "pentatonicDominantV"
    case FlatVI => "pentatonicDominantbVI"
    case VI => "pentatonicDominantVI"
    case FlatVII => "pentatonicDominantbVII"
    case VII => "pentatonicDominantVII"
  }

  /** The number of notes each builder returns on a note whose key is known. */
  function Size(g: Getter): nat {
    match g
    case GetPentatonicMinor | GetPentatonicMajor | GetPentatonicDominant
      | GetPentatonicMinorOn(_) | GetPentatonicDominantOn(_) | GetInSen | GetHirajoshi => 5
    case GetBlues | GetWholeNote | GetAugmented => 6
    case GetDiminished | GetBebopDominant | GetBebopMinor | GetFlamenco => 8
    case GetChromatic => 12
    case _ => 7
  }

  /** The builders that take the key's seven notes as they come, which are none for an unknown key. */
  predicate FromKey(g: Getter) {
    g.GetDiatonic? || g.GetIonian? || g.GetDorian? || g.GetPhrygian? || g.GetLydian? ||
    g.GetMixolydian? || g.GetAeolian? || g.GetLocrian? || g.GetNaturalMinor? || g.GetBebopDominant?
  }

  /** The builders that alter one or two degrees of a mode or insert a note into it. */
  predicate IsAlteration(g: Getter) {
    g.GetHarmonicMinor? || g.GetMelodicMinor? || g.GetMelodicMinorII? || g.GetPhrygianRaisedSixth? ||
    g.GetMelodicMinorIII? || g.GetLydianAugmented? || g.GetMelodicMinorIV? || g.GetLydianDominant? ||
    g.GetMelodicMinorV? || g.GetMixolydianLoweredSixth? || g.GetMelodicMinorVI? || g.GetHalfDiminished? ||
    g.GetMelodicMinorVII? || g.GetSuperLocrian? || g.GetLydianDiminished? || g.GetHindu? ||
    g.GetBebopMinor? || g.GetFlamenco?
  }

  /** The five-note builders. */
  predicate IsPentatonic(g: Getter) {
    g.GetPentatonicMinor? || g.GetPentatonicMajor? || g.GetPentatonicDominant? ||
    g.GetPentatonicMinorOn? || g.GetPentatonicDominantOn? || g.GetInSen? || g.GetHirajoshi?
  }

  /** Size within each group of builders. */
  lemma SizeOfGroup(g: Getter)
    ensures FromKey(g) ==> Size(g) == if g.GetBebopDominant? then 8 else 7
    ensures IsAlteration(g) ==> Size(g) == if g.GetBebopMinor? || g.GetFlamenco? then 8 else 7
    ensures IsPentatonic(g) ==> Size(g) == 5
  {
  }

  /** The modes, the natural minor and bebop dominant: the key's notes, rotated and moved. */
  function KeyBuild(g: Getter, iv: Intervals, note: NamedPitch): (r: seq<Pitch>)
    requires FromKey(g)
    ensures |r| == Size(g) || |r| == Size(g) - 7
  {
    SizeOfGroup(g);
    match g
    case GetDiatonic | GetIonian => Ionian(note)
    case GetDorian => Dorian(iv, note)
    case GetPhrygian => Phrygian(iv, note)
    case GetLydian => Lydian(iv, note)
    case GetMixolydian => Mixolydian(iv, note)
    case GetAeolian => Aeolian(iv, note)
    case GetLocrian => Locrian(iv, note)
    case GetNaturalMinor => NaturalMinor(iv, note)
    case GetBebopDominant => BebopDominant(iv, note)
  }

  /**
   * The alterations: none where the builder would change a degree of a mode
   * that an unknown key left empty, for which the original has no defined
   * result.
   */
  function AlterationBuild(g: Getter, iv: Intervals, note: NamedPitch): (r: Option<seq<Pitch>>)
    requires IsAlteration(g)
    ensures r.Some? ==> |r.value| == Size(g)
  {
    SizeOfGroup(g);
    match g
    case GetHarmonicMinor =>
      if |NaturalMinor(iv, note)| == 7 then Some(HarmonicMinor(iv, note)) else None
    case GetMelodicMinor =>
      if |NaturalMinor(iv, note)| == 7 then Some(MelodicMinor(iv, note)) else None
    case GetMelodicMinorII | GetPhrygianRaisedSixth =>
      if |Phrygian(iv, note)| == 7 then Some(MelodicMinorII(iv, note)) else None
    case GetMelodicMinorIII | GetLydianAugmented =>
      if |Lydian(iv, note)| == 7 then Some(MelodicMinorIII(iv, note)) else None
    case GetMelodicMinorIV | GetLydianDominant =>
      if |Lydian(iv, note)| == 7 then Some(MelodicMinorIV(iv, note)) else None
    case GetMelodicMinorV | GetMixolydianLoweredSixth =>
      if |Mixolydian(iv, note)| == 7 then Some(MelodicMinorV(iv, note)) else None
    case GetMelodicMinorVI | GetHalfDiminished =>
      if |Locrian(iv, note)| == 7 then Some(MelodicMinorVI(iv, note)) else None
    case GetMelodicMinorVII | GetSuperLocrian =>
      if |Locrian(iv, note)| == 7 then Some(MelodicMinorVII(iv, note)) else None
    case GetLydianDiminished =>
      if |Ionian(note)| == 7 then Some(LydianDiminished(note)) else None
    case GetHindu =>
      if |Ionian(note)| == 7 then Some(Hindu(note)) else None
    case GetBebopMinor => if |Dorian(iv, note)| == 7 then Some(BebopMinor(iv, note)) else None
    case GetFlamenco => if |Phrygian(iv, note)| == 7 then Some(Flamenco(iv, note)) else None
  }

  /** The pentatonics: none where the transposed root would fall below the lowest semitone. */
  function PentatonicBuild(g: Getter, iv: Intervals, note: NamedPitch): (r: Option<seq<Pitch>>)
    requires IsPentatonic(g)
    ensures r.Some? ==> |r.value| == 5
    ensures r.None? <==> (g.GetPentatonicMinorOn? || g.GetPentatonicDominantOn?) && ToInt(note) + Semitones(g.d) < 0
  {
    match g
    case GetPentatonicMinor => Some(PentatonicMinor(iv, note))
    case GetPentatonicMajor => Some(PentatonicMajor(iv, note))
    case GetPentatonicDominant => Some(PentatonicDominant(iv, note))
    case GetPentatonicMinorOn(d) =>
      if ToInt(note) + Semitones(d) < 0 then None
      else if d == II then Some(OctaveShifted(PentatonicMinorOn(iv, note, d), AbsoluteOctave(note)))
      else Some(PentatonicMinorOn(iv, note, d))
    case GetPentatonicDominantOn(d) =>
      if ToInt(note) + Semitones(d) < 0 then None else Some(PentatonicDominantOn(iv, note, d))
    case GetInSen => Some(InSen(iv, note))
    case GetHirajoshi => Some(Hirajoshi(iv, note))
  }

  /**
   * Blues and the symmetric scales; chromatic has none where the note a
   * semitone above the root would fall below the lowest semitone.
   */
  function SymmetricBuild(g: Getter, iv: Intervals, note: NamedPitch): (r: Option<seq<Pitch>>)
    requires !FromKey(g) && !IsAlteration(g) && !IsPentatonic(g)
    ensures r.Some? ==> |r.value| == Size(g)
    ensures r.None? <==> g.GetChromatic? && ToInt(note) + 1 < 0
  {
    SizeOfGroup(g);
    match g
    case GetBlues => Some(Blues(iv, note))
    case GetChromatic => if ToInt(note) + 1 < 0 then None else Some(Chromatic(note))
    case GetWholeNote => Some(WholeNote(iv, note))
    case GetDiminished => Some(Diminished8(iv, note))
    case GetAugmented => Some(AugmentedScale(iv, note))
  }

  /**
   * The notes the getter's builder produces for a valid note: as many as
   * Size says, or seven fewer when a key-based builder meets an unknown key.
   */
  function Build(g: Getter, iv: Intervals, note: NamedPitch): (r: Option<seq<Pitch>>)
    ensures r.Some? && !FromKey(g) ==> |r.value| == Size(g)
    ensures r.Some? && FromKey(g) ==> |r.value| == Size(g) || |r.value| == Size(g) - 7
  {
    if FromKey(g) then Some(KeyBuild(g, iv, note))
    else if IsAlteration(g) then AlterationBuild(g, iv, note)
    else if IsPentatonic(g) then PentatonicBuild(g, iv, note)
    else SymmetricBuild(g, iv, note)
  }

  /**
   * When a getter gives no scale: never for the key-based builders, only
   * below the lowest semitone for the pentatonics on a degree, and for
   * chromatic only when the root lies below semitone -1; never for the
   * other fixed-size builders.
   */
  lemma BuildFailures(g: Getter, iv: Intervals, note: NamedPitch)
    ensures FromKey(g) ==> Build(g, iv, note).Some?
    ensures IsPentatonic(g) ==>
      (Build(g, iv, note).None? <==>
        (g.GetPentatonicMinorOn? || g.GetPentatonicDominantOn?) && ToInt(note) + Semitones(g.d) < 0)
    ensures !FromKey(g) && !IsAlteration(g) && !IsPentatonic(g) ==>
      (Build(g, iv, note).None? <==> g.GetChromatic? && ToInt(note) + 1 < 0)
  {
    if FromKey(g) {
      KeyBuildSucceeds(g, iv, note);
    } else if IsPentatonic(g) {
      PentatonicBuildFailures(g, iv, note);
    } else if !IsAlteration(g) {
      SymmetricBuildFailures(g, iv, note);
    }
  }

  lemma KeyBuildSucceeds(g: Getter, iv: Intervals, note: NamedPitch)
    requires FromKey(g)
    ensures Build(g, iv, note).Some?
  {
  }

  lemma PentatonicBuildFailures(g: Getter, iv: Intervals, note: NamedPitch)
    requires IsPentatonic(g)
    ensures Build(g, iv, note).None? <==>
      (g.GetPentatonicMinorOn? || g.GetPentatonicDominantOn?) && ToInt(note) + Semitones(g.d) < 0
  {
    assert !FromKey(g) && !IsAlteration(g);
  }

  lemma SymmetricBuildFailures(g: Getter, iv: Intervals, note: NamedPitch)
    requires !FromKey(g) && !IsAlteration(g) && !IsPentatonic(g)
    ensures Build(g, iv, note).None? <==> g.GetChromatic? && ToInt(note) + 1 < 0
  {
  }

  /** A scale object's contents: its name and its notes. */
  datatype ScaleValue = ScaleValue(name: string, notes: seq<Pitch>)

  /** get...(note): no scale for a missing or invalid note, otherwise the named scale the builder fills. */
  function Get(g: Getter, iv: Intervals, note: Option<Pitch>): (r: Option<ScaleValue>)
    ensures note.None? || !IsValidName(note.value.name) ==> r.None?
    ensures r.Some? ==> r.value.name == ScaleName(g)
  {
    if note.None? || !IsValidName(note.value.name) then None
    else
      var n: NamedPitch := note.value;
      match Build(g, iv, n)
      case None => None
      case Some(notes) => Some(ScaleValue(ScaleName(g), notes))
  }

  /** isValid(s): a scale exists and holds more than one note. */
  function IsValidScale(s: Option<ScaleValue>): (b: bool)
    ensures b ==> s.Some?
  {
    s.Some? && |s.value.notes| > 1
  }

  /**
   * The private name table of getScaleFromString, written in the
   * source's order in three parts: the modes, the pentatonics, and the rest.
   * The repeated melodicMinorII and melodicMinorIII entries are written once
   * (both copies name the same getter).
   */
  const ScaleLookup: map<string, Getter> := ModeNames + PentatonicNames + OtherNames

  /** The modes, with halfDiminished naming the locrian getter. */
  const ModeNames: map<string, Getter> := map[
      "diatonic" := GetDiatonic,
      "ionian" := GetIonian,
      "dorian" := GetDorian,
      "phrygian" := GetPhrygian,
      "lydian" := GetLydian,
      "mixolydian" := GetMixolydian,
      "aeolian" := GetAeolian,
      "locrian" := GetLocrian,
      "halfDiminished" := GetLocrian
    ]

  /** The pentatonics. */
  const PentatonicNames: map<string, Getter> := map[
      "pentatonicMinor" := GetPentatonicMinor,
      "pentatonicMinorbII" := GetPentatonicMinorOn(FlatII),
      "pentatonicMinorII" := GetPentatonicMinorOn(II),
      "pentatonicMinorbIII" := GetPentatonicMinorOn(FlatIII),
      "pentatonicMinorIII" := GetPentatonicMinorOn(III),
      "pentatonicMinorIV" := GetPentatonicMinorOn(IV),
      "pentatonicMinorbV" := GetPentatonicMinorOn(FlatV),
      "pentatonicMinorV" := GetPentatonicMinorOn(V),
      "pentatonicMinorbVI" := GetPentatonicMinorOn(FlatVI),
      "pentatonicMinorVI" := GetPentatonicMinorOn(VI),
      "pentatonicMinorbVII" := GetPentatonicMinorOn(FlatVII),
      "pentatonicMinorVII" := GetPentatonicMinorOn(VII),
      "pentatonicMajor" := GetPentatonicMajor,
      "pentatonicDominant" := GetPentatonicDominant,
      "pentatonicDominantbII" := GetPentatonicDominantOn(FlatII),
      "pentatonicDominantII" := GetPentatonicDominantOn(II),
      "pentatonicDominantbIII" := GetPentatonicDominantOn(FlatIII),
      "pentatonicDominantIII" := GetPentatonicDominantOn(III),
      "pentatonicDominantIV" := GetPentatonicDominantOn(IV),
      "pentatonicDominantbV" := GetPentatonicDominantOn(FlatV),
      "pentatonicDominantV" := GetPentatonicDominantOn(V),
      "pentatonicDominantbVI" := GetPentatonicDominantOn(FlatVI),
      "pentatonicDominantVI" := GetPentatonicDominantOn(VI),
      "pentatonicDominantbVII" := GetPentatonicDominantOn(FlatVII),
      "pentatonicDominantVII" := GetPentatonicDominantOn(VII)
    ]

  /** The melodic-minor modes and the remaining scales. */
  const OtherNames: map<string, Getter> := map[
      "melodicMinor" := GetMelodicMinor,
      "melodicMinorII" := GetMelodicMinorII,
      "melodicMinorIII" := GetMelodicMinorIII,
      "augmented" := GetAugmented,
      "melodicMinorIV" := GetMelodicMinorIV,
      "melodicMinorV" := GetMelodicMinorV,
      "melodicMinorVI" := GetMelodicMinorVI,
      "melodicMinorVII" := GetMelodicMinorVII,
      "naturalMinor" := GetNaturalMinor,
      "harmonicMinor" := GetHarmonicMinor,
      "flamenco" := GetFlamenco,
      "diminished" := GetDiminished,
      "bebopDominant" := GetBebopDominant,
      "bebopMinor" := GetBebopMinor,
      "blues" := GetBlues,
      "lydianDiminished" := GetLydianDiminished,
      "lydianDominant" := GetLydianDominant,
      "inSen" := GetInSen,
      "hirajoshi" := GetHirajoshi,
      "hindu" := GetHindu,
      "chromatic" := GetChromatic,
      "wholenote" := GetWholeNote
    ]


  /** getScaleFromString(name, note): the getter the table names, or no scale for an unknown name. */
  function FromString(name: string, iv: Intervals, root: Option<Pitch>): (r: Option<ScaleValue>)
    ensures name !in ScaleLookup ==> r.None?
    ensures r.Some? ==> r.value.name == ScaleName(ScaleLookup[name])
  {
    if name in ScaleLookup then Get(ScaleLookup[name], iv, root) else None
  }

  /**
   * create(fullName): a root name and a scale name separated by one space.
   * The root is read as Note::create does, in octave 3; any other number of
   * space-separated parts leaves the empty scale. A valid root that starts
   * with '-' cannot be read (fromShorthand would read an empty first piece)
   * and gives no scale here.
   */
  function Create(fullName: string, iv: Intervals): (r: Option<ScaleValue>)
    ensures |Split(fullName, " ")| != 2 ==> r == Some(ScaleValue("", []))
    ensures |Split(fullName, " ")| == 2 && Split(fullName, " ")[1] !in ScaleLookup ==> r.None?
  {
    var parts := Split(fullName, " ");
    if |parts| != 2 then Some(ScaleValue("", []))
    else if IsValidName(parts[0]) && !ShorthandReadable(parts[0]) then None
    else FromString(parts[1], iv, Notes.Create(parts[0], 3))
  }

  /** The getters whose own scale name is not a key of the name table. */
  predicate Unlisted(g: Getter) {
    g.GetPhrygianRaisedSixth? || g.GetLydianAugmented? || g.GetMixolydianLoweredSixth? ||
    g.GetSuperLocrian? || g.GetWholeNote? || g.GetInSen?
  }

  /** A key of the joined table is a key of one part; later parts take precedence. */
  lemma LookupThroughParts(k: string)
    ensures k in ScaleLookup <==> k in ModeNames || k in PentatonicNames || k in OtherNames
    ensures k in OtherNames ==> ScaleLookup[k] == OtherNames[k]
    ensures k !in OtherNames && k in PentatonicNames ==> ScaleLookup[k] == PentatonicNames[k]
    ensures k !in OtherNames && k !in PentatonicNames && k in ModeNames ==> ScaleLookup[k] == ModeNames[k]
  {
  }

  /** The table spells the whole-tone scale "wholenote", so the getter's own name "wholeNote" is no key. */
  lemma WholeNoteSpelling()
    ensures ScaleName(GetWholeNote) !in ScaleLookup
    ensures "wholenote" in ScaleLookup && ScaleLookup["wholenote"] == GetWholeNote
  {
    WholeNoteKeys();
    UnlistedName(ScaleName(GetWholeNote));
    OtherNameListed("wholenote", GetWholeNote);
  }

  /** A name in none of the three tables is no key of the lookup. */
  lemma UnlistedName(k: string)
    requires k !in ModeNames && k !in PentatonicNames && k !in OtherNames
    ensures k !in ScaleLookup
  {
  }

  /** A name of the last table keeps its getter in the lookup. */
  lemma OtherNameListed(k: string, g: Getter)
    requires k in OtherNames && OtherNames[k] == g
    ensures k in ScaleLookup && ScaleLookup[k] == g
  {
  }

  /** A mode name that no later table repeats keeps its getter in the lookup. */
  lemma ModeNameListed(k: string, g: Getter)
    requires k in ModeNames && ModeNames[k] == g && k !in PentatonicNames && k !in OtherNames
    ensures k in ScaleLookup && ScaleLookup[k] == g
  {
  }

  lemma WholeNoteKeys()
    ensures "wholeNote" !in ModeNames && "wholeNote" !in PentatonicNames && "wholeNote" !in OtherNames
    ensures "wholenote" in OtherNames && OtherNames["wholenote"] == GetWholeNote
  {
  }

  /** "halfDiminished" finds the locrian getter, not the melodic minor's sixth mode that carries that name. */
  lemma HalfDiminishedIsLocrian()
    ensures ScaleName(GetHalfDiminished) in ScaleLookup
    ensures ScaleLookup[ScaleName(GetHalfDiminished)] == GetLocrian
  {
    assert ScaleName(GetHalfDiminished) == "halfDiminished";
    HalfDiminishedKeys();
    ModeNameListed("halfDiminished", GetLocrian);
  }

  lemma HalfDiminishedKeys()
    ensures "halfDiminished" in ModeNames && ModeNames["halfDiminished"] == GetLocrian
    ensures "halfDiminished" !in PentatonicNames && "halfDiminished" !in OtherNames
  {
  }

  /** The dorian getter's name finds the dorian getter. */
  lemma DorianIsListed()
    ensures ScaleName(GetDorian) in ScaleLookup && ScaleLookup[ScaleName(GetDorian)] == GetDorian
  {
    assert ScaleName(GetDorian) == "dorian";
    DorianKeys();
    ModeNameListed("dorian", GetDorian);
  }

  lemma DorianKeys()
    ensures "dorian" in ModeNames && ModeNames["dorian"] == GetDorian
    ensures "dorian" !in PentatonicNames && "dorian" !in OtherNames
  {
  }

  /**
   * create() reads back getName() for a root spelled as a letter and
   * accidentals: the root becomes a note in octave 3 and the scale name is
   * looked up.
   */
  lemma CreateOfFullName(root: string, name: string, iv: Intervals)
    requires IsSpelled(root) && ' ' !in name
    ensures Create(root + " " + name, iv) == FromString(name, iv, Some(Pitch(root, 3)))
  {
    forall i | 0 <= i < |root|
      ensures root[i] != ' '
    {
      if i == 0 {
        assert IsLetter(root[0]);
      }
    }
    SplitAfterPiece(root, ' ', name);
    SplitNoSeparator(name, ' ');
    CreateSpelled(root, 3);
  }

  /** "<root> dorian" gives the dorian scale on the root in octave 3. */
  lemma CreateDorian(root: string, iv: Intervals)
    requires IsSpelled(root)
    ensures Create(root + " " + ScaleName(GetDorian), iv) == Get(GetDorian, iv, Some(Pitch(root, 3)))
    ensures Create(root + " " + ScaleName(GetDorian), iv).Some?
  {
    CreateOfFullName(root, ScaleName(GetDorian), iv);
    DorianIsListed();
    FromStringOfListed(ScaleName(GetDorian), GetDorian, iv, Some(Pitch(root, 3)));
    SpelledRootBuilds(GetDorian, iv, root);
  }

  /** A listed name reads back the scale its getter builds. */
  lemma FromStringOfListed(name: string, g: Getter, iv: Intervals, root: Option<Pitch>)
    requires name in ScaleLookup && ScaleLookup[name] == g
    ensures FromString(name, iv, root) == Get(g, iv, root)
  {
  }

  /** A key-based or whole-tone getter builds a scale on a spelled root in octave 3. */
  lemma SpelledRootBuilds(g: Getter, iv: Intervals, root: string)
    requires IsSpelled(root)
    requires FromKey(g) || g.GetWholeNote?
    ensures Get(g, iv, Some(Pitch(root, 3))).Some?
  {
    CreateSpelled(root, 3);
    BuildFailures(g, iv, Pitch(root, 3));
  }

  /** A whole-tone scale's own full name cannot be read back, though its getter builds a scale. */
  lemma CreateWholeNoteFails(root: string, iv: Intervals)
    requires IsSpelled(root)
    ensures Create(root + " " + ScaleName(GetWholeNote), iv).None?
    ensures Get(GetWholeNote, iv, Some(Pitch(root, 3))).Some?
  {
    CreateOfFullName(root, ScaleName(GetWholeNote), iv);
    WholeNoteSpelling();
    SpelledRootBuilds(GetWholeNote, iv, root);
  }

  /** Every getter outside the key-based family builds a valid scale for a valid note. */
  lemma BuiltScalesAreValid(g: Getter, iv: Intervals, note: Option<Pitch>)
    requires !FromKey(g) && Get(g, iv, note).Some?
    ensures IsValidScale(Get(g, iv, note))
  {
    SizeOfGroup(g);
  }
}
