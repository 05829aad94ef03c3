/**
 * The data model shared by the resolver and the renderer: chord voicings,
 * chord definitions, the song structure produced by the (external) generator,
 * and the key and mode enumerations offered to the user.
 */
module Types {

  /** One entry of a voicing's `frets`: the sentinel `'x'` (string not played) or a number. */
  datatype FretEntry = Muted | Number(value: int)

  /**
   * One playable fingering on a six-string instrument. `fingers` is indexed by
   * the same string index as `frets`; `baseFret` 1 is open position, a higher
   * value a moveable (barre) shape.
   */
  datatype ChordVoicing = ChordVoicing(frets: seq<FretEntry>, fingers: seq<int>, baseFret: int)

  datatype ChordDefinition = ChordDefinition(name: string, voicings: seq<ChordVoicing>)

  datatype SongSection = SongSection(chords: seq<string>, vibe: string, description: string)

  /** A song is exactly these four sections. */
  datatype SongStructure = SongStructure(
    verse: SongSection,
    preChorus: SongSection,
    chorus: SongSection,
    bridge: SongSection)

  datatype MusicalKey = C | CSharp | D | DSharp | E | F | FSharp | G | GSharp | A | ASharp | B

  datatype MusicalMode = Major | Minor

  /** The string value of each key; the five accidentals are spelled with `#`. */
  function KeyName(k: MusicalKey): (r: string)
    ensures |r| == 1 || (|r| == 2 && r[1] == '#')
    ensures 'A' <= r[0] <= 'G'
    ensures k.CSharp? || k.DSharp? || k.FSharp? || k.GSharp? || k.ASharp? <==> |r| == 2
  {
    match k
    case C => "C"
    case CSharp => "C#"
    case D => "D"
    case DSharp => "D#"
    case E => "E"
    case F => "F"
    case FSharp => "F#"
    case G => "G"
    case GSharp => "G#"
    case A => "A"
    case ASharp => "A#"
    case B => "B"
  }

  /** The twelve keys have twelve distinct names. */
  lemma KeyNameInjective(k1: MusicalKey, k2: MusicalKey)
    ensures KeyName(k1) == KeyName(k2) ==> k1 == k2
  {
    if KeyName(k1) == KeyName(k2) {
      assert KeyName(k1)[0] == KeyName(k2)[0];
      assert |KeyName(k1)| == |KeyName(k2)|;
    }
  }

  function ModeName(m: MusicalMode): (r: string)
    ensures r == "Major" <==> m == Major
    ensures r == "Minor" <==> m == Minor
  {
    match m
    case Major => "Major"
    case Minor => "Minor"
  }

}
