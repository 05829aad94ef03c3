/**
 * The fixed chord-voicing table: nineteen chord names (seven major triads,
 * seven minor triads, three dominant sevenths and two extended chords), each
 * with four voicings. The table is built once and never written to.
 */
module Library {
  import opened Types

  const CHORD_LIBRARY: map<string, ChordDefinition> := map[
    // major triads
    "C" := ENTRY_C,
    "D" := ENTRY_D,
    "E" := ENTRY_E,
    "F" := ENTRY_F,
    "G" := ENTRY_G,
    "A" := ENTRY_A,
    "B" := ENTRY_B,
    // minor triads
    "Am" := ENTRY_AM,
    "Bm" := ENTRY_BM,
    "Cm" := ENTRY_CM,
    "Dm" := ENTRY_DM,
    "Em" := ENTRY_EM,
    "Fm" := ENTRY_FM,
    "Gm" := ENTRY_GM,
    // dominant sevenths
    "C7" := ENTRY_C7,
    "D7" := ENTRY_D7,
    "G7" := ENTRY_G7,
    // extended chords
    "Cmaj7" := ENTRY_CMAJ7,
    "E9" := ENTRY_E9
  ]

  const ENTRY_C: ChordDefinition := ChordDefinition("C", [
    ChordVoicing([Muted, Number(3), Number(2), Number(0), Number(1), Number(0)], [0, 3, 2, 0, 1, 0], 1),
    ChordVoicing([Muted, Number(3), Number(5), Number(5), Number(5), Number(3)], [0, 1, 3, 3, 3, 1], 3),
    ChordVoicing([Number(8), Number(10), Number(10), Number(9), Number(8), Number(8)], [1, 3, 4, 2, 1, 1], 8),
    ChordVoicing([Muted, Muted, Number(10), Number(12), Number(13), Number(12)], [0, 0, 1, 3, 4, 2], 10)
  ])

  const ENTRY_D: ChordDefinition := ChordDefinition("D", [
    ChordVoicing([Muted, Muted, Number(0), Number(2), Number(3), Number(2)], [0, 0, 0, 1, 3, 2], 1),
    ChordVoicing([Muted, Number(5), Number(7), Number(7), Number(7), Number(5)], [0, 1, 3, 3, 3, 1], 5),
    ChordVoicing([Number(10), Number(12), Number(12), Number(11), Number(10), Number(10)], [1, 3, 4, 2, 1, 1], 10),
    ChordVoicing([Muted, Muted, Number(12), Number(14), Number(15), Number(14)], [0, 0, 1, 3, 4, 2], 12)
  ])

  const ENTRY_E: ChordDefinition := ChordDefinition("E", [
    ChordVoicing([Number(0), Number(2), Number(2), Number(1), Number(0), Number(0)], [0, 2, 3, 1, 0, 0], 1),
    ChordVoicing([Muted, Number(7), Number(9), Number(9), Number(9), Number(7)], [0, 1, 3, 3, 3, 1], 7),
    ChordVoicing([Number(12), Number(14), Number(14), Number(13), Number(12), Number(12)], [1, 3, 4, 2, 1, 1], 12),
    ChordVoicing([Muted, Muted, Number(2), Number(4), Number(5), Number(4)], [0, 0, 1, 3, 4, 2], 2)
  ])

  const ENTRY_F: ChordDefinition := ChordDefinition("F", [
    ChordVoicing([Number(1), Number(3), Number(3), Number(2), Number(1), Number(1)], [1, 3, 4, 2, 1, 1], 1),
    ChordVoicing([Muted, Number(8), Number(10), Number(10), Number(10), Number(8)], [0, 1, 3, 3, 3, 1], 8),
    ChordVoicing([Number(13), Number(15), Number(15), Number(14), Number(13), Number(13)], [1, 3, 4, 2, 1, 1], 13),
    ChordVoicing([Muted, Muted, Number(3), Number(5), Number(6), Number(5)], [0, 0, 1, 3, 4, 2], 3)
  ])

  const ENTRY_G: ChordDefinition := ChordDefinition("G", [
    ChordVoicing([Number(3), Number(2), Number(0), Number(0), Number(0), Number(3)], [2, 1, 0, 0, 0, 3], 1),
    ChordVoicing([Number(3), Number(5), Number(5), Number(4), Number(3), Number(3)], [1, 3, 4, 2, 1, 1], 3),
    ChordVoicing([Muted, Number(10), Number(12), Number(12), Number(12), Number(10)], [0, 1, 3, 3, 3, 1], 10),
    ChordVoicing([Muted, Muted, Number(5), Number(7), Number(8), Number(7)], [0, 0, 1, 3, 4, 2], 5)
  ])

  const ENTRY_A: ChordDefinition := ChordDefinition("A", [
    ChordVoicing([Muted, Number(0), Number(2), Number(2), Number(2), Number(0)], [0, 0, 1, 2, 3, 0], 1),
    ChordVoicing([Number(5), Number(7), Number(7), Number(6), Number(5), Number(5)], [1, 3, 4, 2, 1, 1], 5),
    ChordVoicing([Muted, Number(12), Number(14), Number(14), Number(14), Number(12)], [0, 1, 3, 3, 3, 1], 12),
    ChordVoicing([Muted, Muted, Number(7), Number(9), Number(10), Number(9)], [0, 0, 1, 3, 4, 2], 7)
  ])

  const ENTRY_B: ChordDefinition := ChordDefinition("B", [
    ChordVoicing([Muted, Number(2), Number(4), Number(4), Number(4), Number(2)], [0, 1, 3, 3, 3, 1], 2),
    ChordVoicing([Number(7), Number(9), Number(9), Number(8), Number(7), Number(7)], [1, 3, 4, 2, 1, 1], 7),
    ChordVoicing([Muted, Muted, Number(9), Number(11), Number(12), Number(11)], [0, 0, 1, 3, 4, 2], 9),
    ChordVoicing([Muted, Number(14), Number(16), Number(16), Number(16), Number(14)], [0, 1, 3, 3, 3, 1], 14)
  ])

  const ENTRY_AM: ChordDefinition := ChordDefinition("Am", [
    ChordVoicing([Muted, Number(0), Number(2), Number(2), Number(1), Number(0)], [0, 0, 2, 3, 1, 0], 1),
    ChordVoicing([Number(5), Number(7), Number(7), Number(5), Number(5), Number(5)], [1, 3, 4, 1, 1, 1], 5),
    ChordVoicing([Muted, Number(12), Number(14), Number(14), Number(13), Number(12)], [0, 1, 3, 4, 2, 1], 12),
    ChordVoicing([Muted, Muted, Number(7), Number(9), Number(10), Number(8)], [0, 0, 1, 3, 4, 2], 7)
  ])

  const ENTRY_BM: ChordDefinition := ChordDefinition("Bm", [
    ChordVoicing([Muted, Number(2), Number(4), Number(4), Number(3), Number(2)], [0, 1, 3, 4, 2, 1], 2),
    ChordVoicing([Number(7), Number(9), Number(9), Number(7), Number(7), Number(7)], [1, 3, 4, 1, 1, 1], 7),
    ChordVoicing([Muted, Muted, Number(9), Number(11), Number(12), Number(10)], [0, 0, 1, 3, 4, 2], 9),
    ChordVoicing([Muted, Number(14), Number(16), Number(16), Number(15), Number(14)], [0, 1, 3, 4, 2, 1], 14)
  ])

  const ENTRY_CM: ChordDefinition := ChordDefinition("Cm", [
    ChordVoicing([Muted, Number(3), Number(5), Number(5), Number(4), Number(3)], [0, 1, 3, 4, 2, 1], 3),
    ChordVoicing([Number(8), Number(10), Number(10), Number(8), Number(8), Number(8)], [1, 3, 4, 1, 1, 1], 8),
    ChordVoicing([Muted, Muted, Number(10), Number(12), Number(13), Number(11)], [0, 0, 1, 3, 4, 2], 10),
    ChordVoicing([Muted, Number(15), Number(17), Number(17), Number(16), Number(15)], [0, 1, 3, 4, 2, 1], 15)
  ])

  const ENTRY_DM: ChordDefinition := ChordDefinition("Dm", [
    ChordVoicing([Muted, Muted, Number(0), Number(2), Number(3), Number(1)], [0, 0, 0, 2, 3, 1], 1),
    ChordVoicing([Muted, Number(5), Number(7), Number(7), Number(6), Number(5)], [0, 1, 3, 4, 2, 1], 5),
    ChordVoicing([Number(10), Number(12), Number(12), Number(10), Number(10), Number(10)], [1, 3, 4, 1, 1, 1], 10),
    ChordVoicing([Muted, Muted, Number(12), Number(14), Number(15), Number(13)], [0, 0, 1, 3, 4, 2], 12)
  ])

  const ENTRY_EM: ChordDefinition := ChordDefinition("Em", [
    ChordVoicing([Number(0), Number(2), Number(2), Number(0), Number(0), Number(0)], [0, 2, 3, 0, 0, 0], 1),
    ChordVoicing([Muted, Number(7), Number(9), Number(9), Number(8), Number(7)], [0, 1, 3, 4, 2, 1], 7),
    ChordVoicing([Number(12), Number(14), Number(14), Number(12), Number(12), Number(12)], [1, 3, 4, 1, 1, 1], 12),
    ChordVoicing([Muted, Muted, Number(2), Number(4), Number(5), Number(3)], [0, 0, 1, 3, 4, 2], 2)
  ])

  const ENTRY_FM: ChordDefinition := ChordDefinition("Fm", [
    ChordVoicing([Number(1), Number(3), Number(3), Number(1), Number(1), Number(1)], [1, 3, 4, 1, 1, 1], 1),
    ChordVoicing([Muted, Number(8), Number(10), Number(10), Number(9), Number(8)], [0, 1, 3, 4, 2, 1], 8),
    ChordVoicing([Number(13), Number(15), Number(15), Number(13), Number(13), Number(13)], [1, 3, 4, 1, 1, 1], 13),
    ChordVoicing([Muted, Muted, Number(3), Number(5), Number(6), Number(4)], [0, 0, 1, 3, 4, 2], 3)
  ])

  const ENTRY_GM: ChordDefinition := ChordDefinition("Gm", [
    ChordVoicing([Number(3), Number(5), Number(5), Number(3), Number(3), Number(3)], [1, 3, 4, 1, 1, 1], 3),
    ChordVoicing([Muted, Number(10), Number(12), Number(12), Number(11), Number(10)], [0, 1, 3, 4, 2, 1], 10),
    ChordVoicing([Number(15), Number(17), Number(17), Number(15), Number(15), Number(15)], [1, 3, 4, 1, 1, 1], 15),
    ChordVoicing([Muted, Muted, Number(5), Number(7), Number(8), Number(6)], [0, 0, 1, 3, 4, 2], 5)
  ])

  const ENTRY_C7: ChordDefinition := ChordDefinition("C7", [
    ChordVoicing([Muted, Number(3), Number(2), Number(3), Number(1), Number(0)], [0, 3, 2, 4, 1, 0], 1),
    ChordVoicing([Muted, Number(3), Number(5), Number(3), Number(5), Number(3)], [0, 1, 3, 1, 4, 1], 3),
    ChordVoicing([Number(8), Number(10), Number(8), Number(9), Number(8), Number(8)], [1, 3, 1, 2, 1, 1], 8),
    ChordVoicing([Muted, Muted, Number(10), Number(12), Number(11), Number(12)], [0, 0, 1, 3, 2, 4], 10)
  ])

  const ENTRY_D7: ChordDefinition := ChordDefinition("D7", [
    ChordVoicing([Muted, Muted, Number(0), Number(2), Number(1), Number(2)], [0, 0, 0, 2, 1, 3], 1),
    ChordVoicing([Muted, Number(5), Number(7), Number(5), Number(7), Number(5)], [0, 1, 3, 1, 4, 1], 5),
    ChordVoicing([Number(10), Number(12), Number(10), Number(11), Number(10), Number(10)], [1, 3, 1, 2, 1, 1], 10),
    ChordVoicing([Muted, Muted, Number(12), Number(14), Number(13), Number(14)], [0, 0, 1, 3, 2, 4], 12)
  ])

  const ENTRY_G7: ChordDefinition := ChordDefinition("G7", [
    ChordVoicing([Number(3), Number(2), Number(0), Number(0), Number(0), Number(1)], [3, 2, 0, 0, 0, 1], 1),
    ChordVoicing([Number(3), Number(5), Number(3), Number(4), Number(3), Number(3)], [1, 3, 1, 2, 1, 1], 3),
    ChordVoicing([Muted, Number(10), Number(12), Number(10), Number(12), Number(10)], [0, 1, 3, 1, 4, 1], 10),
    ChordVoicing([Muted, Muted, Number(5), Number(7), Number(6), Number(7)], [0, 0, 1, 3, 2, 4], 5)
  ])

  const ENTRY_CMAJ7: ChordDefinition := ChordDefinition("Cmaj7", [
    ChordVoicing([Muted, Number(3), Number(2), Number(0), Number(0), Number(0)], [0, 3, 2, 0, 0, 0], 1),
    ChordVoicing([Muted, Number(3), Number(5), Number(4), Number(5), Number(3)], [0, 1, 3, 2, 4, 1], 3),
    ChordVoicing([Number(8), Muted, Number(9), Number(9), Number(8), Muted], [1, 0, 2, 3, 1, 0], 8),
    ChordVoicing([Muted, Muted, Number(10), Number(12), Number(12), Number(12)], [0, 0, 1, 3, 3, 3], 10)
  ])

  const ENTRY_E9: ChordDefinition := ChordDefinition("E9", [
    ChordVoicing([Number(0), Number(2), Number(0), Number(1), Number(0), Number(2)], [0, 2, 0, 1, 0, 3], 1),
    ChordVoicing([Muted, Number(7), Number(6), Number(7), Number(7), Number(7)], [0, 2, 1, 3, 3, 3], 7),
    ChordVoicing([Number(12), Number(14), Number(12), Number(13), Number(12), Number(12)], [1, 3, 1, 2, 1, 1], 12),
    ChordVoicing([Muted, Muted, Number(2), Number(1), Number(3), Number(2)], [0, 0, 2, 1, 4, 3], 1)
  ])

  /** A voicing the renderer can draw: six strings, fingers 0..4, frets non-negative, base fret at least 1. */
  predicate ValidVoicing(v: ChordVoicing) {
    && |v.frets| == 6
    && |v.fingers| == 6
    && (forall n | n in v.fingers :: 0 <= n <= 4)
    && (forall e | e in v.frets :: e.Number? ==> e.value >= 0)
    && v.baseFret >= 1
  }

  /** What the table promises of every entry. */
  predicate ValidEntry(key: string, d: ChordDefinition) {
    && d.name == key
    && |d.voicings| == 4
    && forall j :: 0 <= j < 4 ==> ValidVoicing(d.voicings[j])
  }

  /** ValidVoicing spelled out string by string, which the verifier checks on a literal cheaply. */
  predicate ValidVoicingByString(v: ChordVoicing) {
    && |v.frets| == 6 && |v.fingers| == 6 && v.baseFret >= 1
    && FretOk(v.frets[0]) && FretOk(v.frets[1]) && FretOk(v.frets[2])
    && FretOk(v.frets[3]) && FretOk(v.frets[4]) && FretOk(v.frets[5])
    && 0 <= v.fingers[0] <= 4 && 0 <= v.fingers[1] <= 4 && 0 <= v.fingers[2] <= 4
    && 0 <= v.fingers[3] <= 4 && 0 <= v.fingers[4] <= 4 && 0 <= v.fingers[5] <= 4
  }

  predicate FretOk(e: FretEntry) {
    e.Number? ==> e.value >= 0
  }

  lemma ValidByString(v: ChordVoicing)
    requires ValidVoicingByString(v)
    ensures ValidVoicing(v)
  {
  }

  /** Checks one entry of the table against ValidEntry, voicing by voicing. */
  lemma CheckEntry(key: string, d: ChordDefinition)
    requires d.name == key && |d.voicings| == 4
    requires ValidVoicingByString(d.voicings[0]) && ValidVoicingByString(d.voicings[1])
    requires ValidVoicingByString(d.voicings[2]) && ValidVoicingByString(d.voicings[3])
    ensures ValidEntry(key, d)
  {
    ValidByString(d.voicings[0]);
    ValidByString(d.voicings[1]);
    ValidByString(d.voicings[2]);
    ValidByString(d.voicings[3]);
  }

  lemma ValidC() ensures ValidEntry("C", CHORD_LIBRARY["C"]) { assert CHORD_LIBRARY["C"] == ENTRY_C; CheckEntry("C", ENTRY_C); }
  lemma ValidD() ensures ValidEntry("D", CHORD_LIBRARY["D"]) { assert CHORD_LIBRARY["D"] == ENTRY_D; CheckEntry("D", ENTRY_D); }
  lemma ValidE() ensures ValidEntry("E", CHORD_LIBRARY["E"]) { assert CHORD_LIBRARY["E"] == ENTRY_E; CheckEntry("E", ENTRY_E); }
  lemma ValidF() ensures ValidEntry("F", CHORD_LIBRARY["F"]) { assert CHORD_LIBRARY["F"] == ENTRY_F; CheckEntry("F", ENTRY_F); }
  lemma ValidG() ensures ValidEntry("G", CHORD_LIBRARY["G"]) { assert CHORD_LIBRARY["G"] == ENTRY_G; CheckEntry("G", ENTRY_G); }
  lemma ValidA() ensures ValidEntry("A", CHORD_LIBRARY["A"]) { assert CHORD_LIBRARY["A"] == ENTRY_A; CheckEntry("A", ENTRY_A); }
  lemma ValidB() ensures ValidEntry("B", CHORD_LIBRARY["B"]) { assert CHORD_LIBRARY["B"] == ENTRY_B; CheckEntry("B", ENTRY_B); }
  lemma ValidAm() ensures ValidEntry("Am", CHORD_LIBRARY["Am"]) { assert CHORD_LIBRARY["Am"] == ENTRY_AM; CheckEntry("Am", ENTRY_AM); }
  lemma ValidBm() ensures ValidEntry("Bm", CHORD_LIBRARY["Bm"]) { assert CHORD_LIBRARY["Bm"] == ENTRY_BM; CheckEntry("Bm", ENTRY_BM); }
  lemma ValidCm() ensures ValidEntry("Cm", CHORD_LIBRARY["Cm"]) { assert CHORD_LIBRARY["Cm"] == ENTRY_CM; CheckEntry("Cm", ENTRY_CM); }
  lemma ValidDm() ensures ValidEntry("Dm", CHORD_LIBRARY["Dm"]) { assert CHORD_LIBRARY["Dm"] == ENTRY_DM; CheckEntry("Dm", ENTRY_DM); }
  lemma ValidEm() ensures ValidEntry("Em", CHORD_LIBRARY["Em"]) { assert CHORD_LIBRARY["Em"] == ENTRY_EM; CheckEntry("Em", ENTRY_EM); }
  lemma ValidFm() ensures ValidEntry("Fm", CHORD_LIBRARY["Fm"]) { assert CHORD_LIBRARY["Fm"] == ENTRY_FM; CheckEntry("Fm", ENTRY_FM); }
  lemma ValidGm() ensures ValidEntry("Gm", CHORD_LIBRARY["Gm"]) { assert CHORD_LIBRARY["Gm"] == ENTRY_GM; CheckEntry("Gm", ENTRY_GM); }
  lemma ValidC7() ensures ValidEntry("C7", CHORD_LIBRARY["C7"]) { assert CHORD_LIBRARY["C7"] == ENTRY_C7; CheckEntry("C7", ENTRY_C7); }
  lemma ValidD7() ensures ValidEntry("D7", CHORD_LIBRARY["D7"]) { assert CHORD_LIBRARY["D7"] == ENTRY_D7; CheckEntry("D7", ENTRY_D7); }
  lemma ValidG7() ensures ValidEntry("G7", CHORD_LIBRARY["G7"]) { assert CHORD_LIBRARY["G7"] == ENTRY_G7; CheckEntry("G7", ENTRY_G7); }
  lemma ValidCmaj7() ensures ValidEntry("Cmaj7", CHORD_LIBRARY["Cmaj7"]) { assert CHORD_LIBRARY["Cmaj7"] == ENTRY_CMAJ7; CheckEntry("Cmaj7", ENTRY_CMAJ7); }
  lemma ValidE9() ensures ValidEntry("E9", CHORD_LIBRARY["E9"]) { assert CHORD_LIBRARY["E9"] == ENTRY_E9; CheckEntry("E9", ENTRY_E9); }

  /** The nineteen names of the table. */
  lemma LibraryKeys()
    ensures CHORD_LIBRARY.Keys == {
      "C", "D", "E", "F", "G", "A", "B",
      "Am", "Bm", "Cm", "Dm", "Em", "Fm", "Gm",
      "C7", "D7", "G7", "Cmaj7", "E9"}
  {
  }

  /** Every key is one of the nineteen names. */
  lemma KeyIsOneOf(k: string)
    requires k in CHORD_LIBRARY
    ensures || k == "C" || k == "D" || k == "E" || k == "F" || k == "G" || k == "A" || k == "B"
            || k == "Am" || k == "Bm" || k == "Cm" || k == "Dm" || k == "Em" || k == "Fm" || k == "Gm"
            || k == "C7" || k == "D7" || k == "G7" || k == "Cmaj7" || k == "E9"
  {
  }

  /** A name differing from all nineteen keys is not in the table. */
  lemma NotAKey(s: string)
    requires s != "C" && s != "D" && s != "E" && s != "F" && s != "G" && s != "A" && s != "B"
    requires s != "Am" && s != "Bm" && s != "Cm" && s != "Dm" && s != "Em" && s != "Fm" && s != "Gm"
    requires s != "C7" && s != "D7" && s != "G7" && s != "Cmaj7" && s != "E9"
    ensures s !in CHORD_LIBRARY
  {
  }

  /** Every entry is named by its own key and holds exactly four well-formed voicings. */
  lemma LibraryEntriesValid()
    ensures forall k :: k in CHORD_LIBRARY ==> ValidEntry(k, CHORD_LIBRARY[k])
  {
    forall k | k in CHORD_LIBRARY
      ensures ValidEntry(k, CHORD_LIBRARY[k])
    {
      EntryValid(k);
    }
  }

  lemma EntryValid(k: string)
    requires k in CHORD_LIBRARY
    ensures ValidEntry(k, CHORD_LIBRARY[k])
  {
    KeyIsOneOf(k);
    if k == "C" { ValidC(); }
    else if k == "D" { ValidD(); }
    else if k == "E" { ValidE(); }
    else if k == "F" { ValidF(); }
    else if k == "G" { ValidG(); }
    else if k == "A" { ValidA(); }
    else if k == "B" { ValidB(); }
    else if k == "Am" { ValidAm(); }
    else if k == "Bm" { ValidBm(); }
    else if k == "Cm" { ValidCm(); }
    else if k == "Dm" { ValidDm(); }
    else if k == "Em" { ValidEm(); }
    else if k == "Fm" { ValidFm(); }
    else if k == "Gm" { ValidGm(); }
    else if k == "C7" { ValidC7(); }
    else if k == "D7" { ValidD7(); }
    else if k == "G7" { ValidG7(); }
    else if k == "Cmaj7" { ValidCmaj7(); }
    else if k == "E9" { ValidE9(); }
  }

  /** The characters chord names in the table are made of. */
  predicate KeyChar(c: char) {
    ('A' <= c <= 'G') || c == 'm' || c == 'a' || c == 'j' || c == '7' || c == '9'
  }

  /** How a key of the table is spelled: a root letter, then (if more) a quality starting with m, 7 or 9. */
  predicate SpelledAsKey(k: string) {
    && 1 <= |k| && 'A' <= k[0] <= 'G'
    && (forall i :: 0 <= i < |k| ==> KeyChar(k[i]))
    && (|k| == 1 || k[1] == 'm' || k[1] == '7' || k[1] == '9')
  }

  lemma KeySpelling()
    ensures forall k :: k in CHORD_LIBRARY ==> SpelledAsKey(k)
  {
    forall k | k in CHORD_LIBRARY
      ensures SpelledAsKey(k)
    {
      KeyIsOneOf(k);
      if k == "Cmaj7" {
        assert SpelledAsKey("Cmaj7");
      }
    }
  }

  /** The entry of a natural root letter, which the table always has. */
  function RootEntry(c: char): (d: ChordDefinition)
    requires 'A' <= c <= 'G'
    ensures [c] in CHORD_LIBRARY && d == CHORD_LIBRARY[[c]]
  {
    NaturalRootsPresent();
    CHORD_LIBRARY[[c]]
  }

  /** Each natural root letter is a key on its own. */
  lemma NaturalRootsPresent()
    ensures forall c: char :: 'A' <= c <= 'G' ==> [c] in CHORD_LIBRARY
  {
    LibraryKeys();
  }

}
