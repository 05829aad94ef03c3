/**
 * What the resolver does with particular spellings: extended chords fall back
 * to their root letter (so "Am7" is A major), flats and sharps land on the
 * natural letter they are written with, and names that do not start with a
 * root letter give no definition.
 */
module ResolverExamples {
  import opened Wrappers
  import opened Types
  import opened JsStrings
  import opened Library
  import opened Resolver

  /** A name normalised to a non-key that starts with a root letter resolves to that letter's entry. */
  lemma ResolvesViaRoot(s: string, n: string)
    requires Normalize(s) == n && n !in CHORD_LIBRARY
    requires |n| > 0 && 'A' <= n[0] <= 'G'
    ensures Resolve(s) == Some(RootEntry(n[0]))
  {
    ResolveExactOrRootLetter(s);
  }

  /** A name normalised to a non-key that does not start with a root letter resolves to nothing. */
  lemma ResolvesToNothing(s: string, n: string)
    requires Normalize(s) == n && n !in CHORD_LIBRARY
    requires |n| == 0 || !('A' <= n[0] <= 'G')
    ensures Resolve(s) == None
  {
    ResolveExactOrRootLetter(s);
  }

  /** A root letter followed by one of `m`, `7`, `9` on one line is cut down to the root letter. */
  lemma StripToRootLetter(s: string)
    requires |s| >= 2 && SingleLine(s) && 'A' <= s[0] <= 'G'
    requires s[1] == 'm' || s[1] == '7' || s[1] == '9'
    ensures Simplify(s) == [s[0]]
  {
    TokenAtLeadChar(s, 0);
    TokenAtLeadChar(s, 1);
    assert !MatchesIgnoreCase(s, 0, "sus") by {
      assert AsciiUpper(s[0]) != AsciiUpper("sus"[0]);
    }
    assert !MatchesIgnoreCase(s, 0, "add") by {
      assert AsciiUpper(s[0 + 1]) != AsciiUpper("add"[1]);
    }
    assert !TokenAt(s, 0);
    assert TokenAt(s, 1);
    var r := Simplify(s);
    assert |r| == 1;
  }

  /**
   * The strip cuts at the leftmost token: "Am7" and "Am7b5" at their `m`,
   * "Cmaj9" at the `m` of `maj`. Each is left with its root letter.
   */
  lemma ExtensionsCutAtM(s: string)
    requires s == "Am7" || s == "Am7b5" || s == "Cmaj9"
    ensures Simplify(s) == [s[0]]
  {
    assert SingleLine(s);
    StripToRootLetter(s);
  }

  lemma ExtendedNamesNormal(s: string)
    requires s == "Am7" || s == "Cmaj9"
    ensures Normalize(s) == s
  {
    NormalizeIdentity(s);
  }

  /**
   * Extended chords are not keys and fall back to their root letter: "Am7"
   * and "Am7b5" resolve to A major, not A minor, and "Cmaj9" to C.
   */
  lemma ExtendedNamesFallBack(s: string)
    requires s == "Am7" || s == "Am7b5" || s == "Cmaj9"
    ensures Normalize(s) == s
    ensures Resolve(s) == Some(RootEntry(s[0]))
  {
    if s == "Am7b5" {
      Am7b5Normal();
    } else {
      ExtendedNamesNormal(s);
    }
    NotAKey(s);
    ResolvesViaRoot(s, s);
  }

  /** A name with no `#`, no white space at its ends and none of the five flats is its own normal form. */
  lemma NormalizeWithoutFlats(s: string)
    requires '#' !in s
    requires s == [] || (!IsWhiteSpace(s[0]) && !IsWhiteSpace(s[|s| - 1]))
    requires IndexOf(s, "Bb").None? && IndexOf(s, "Eb").None? && IndexOf(s, "Ab").None?
    requires IndexOf(s, "Db").None? && IndexOf(s, "Gb").None?
    ensures Normalize(s) == s
  {
    SpelledAndTrimmed(s);
    NormalizeIsMapping(s);
    NoFlatUnchanged(s);
  }

  /** Spelling out `#` and trimming leave a name without `#` and without white space at its ends alone. */
  lemma SpelledAndTrimmed(s: string)
    requires '#' !in s
    requires s == [] || (!IsWhiteSpace(s[0]) && !IsWhiteSpace(s[|s| - 1]))
    ensures ReplaceAll(s, '#', "Sharp") == s && Trim(s) == s
  {
  }

  /** "Am7b5" contains a `b`, but after a `7`, so none of the flats occurs in it. */
  lemma Am7b5HasNoFlat()
    ensures IndexOf("Am7b5", "Bb").None? && IndexOf("Am7b5", "Eb").None? && IndexOf("Am7b5", "Ab").None?
    ensures IndexOf("Am7b5", "Db").None? && IndexOf("Am7b5", "Gb").None?
  {
    AbsentCharacterNoOccurrence("Am7b5", "Bb", 'B');
    AbsentCharacterNoOccurrence("Am7b5", "Eb", 'E');
    NoAdjacentPairNoOccurrence("Am7b5", "Ab");
    AbsentCharacterNoOccurrence("Am7b5", "Db", 'D');
    AbsentCharacterNoOccurrence("Am7b5", "Gb", 'G');
  }

  lemma Am7b5Normal()
    ensures Normalize("Am7b5") == "Am7b5"
  {
    Am7b5HasNoFlat();
    NormalizeWithoutFlats("Am7b5");
  }

  /** The empty name gives no definition, without failing. */
  lemma EmptyNameUnknown()
    ensures Resolve("") == None
  {
    NormalizeIdentity("");
    NotAKey("");
    ResolvesToNothing("", "");
  }

  /** A name whose first letter is not a root letter gives no definition. */
  lemma NonRootLetterUnknown()
    ensures Resolve("Zx9") == None
  {
    NormalizeIdentity("Zx9");
    NotAKey("Zx9");
    ResolvesToNothing("Zx9", "Zx9");
  }

  /** A name that is not spelled like a key is not a key. */
  lemma NotSpelledNotKey(s: string)
    requires !SpelledAsKey(s)
    ensures s !in CHORD_LIBRARY
  {
    KeySpelling();
  }

  /** No key spells out a sharp. */
  lemma SpelledSharpNotKey(c: char)
    ensures [c] + "Sharp" !in CHORD_LIBRARY
  {
    var n := [c] + "Sharp";
    assert !KeyChar(n[1]);
    NotSpelledNotKey(n);
  }

  /** A root letter followed by `#` becomes root + "Sharp", which is not a key: it resolves to the natural letter. */
  lemma SharpResolvesToNatural(c: char)
    requires 'A' <= c <= 'G'
    ensures Normalize([c, '#']) == [c] + "Sharp"
    ensures Resolve([c, '#']) == Some(RootEntry(c))
  {
    SharpNormal(c);
    SpelledSharpNotKey(c);
    ResolvesViaRoot([c, '#'], [c] + "Sharp");
  }

  /**
   * When spelling out `#` gives a name with no `b`, no `#` and no white space
   * at its ends, that name is the normalised one.
   */
  lemma NormalizeViaSpelled(s: string, spelled: string)
    requires ReplaceAll(s, '#', "Sharp") == spelled
    requires 'b' !in spelled && '#' !in spelled
    requires spelled == [] || (!IsWhiteSpace(spelled[0]) && !IsWhiteSpace(spelled[|spelled| - 1]))
    ensures Normalize(s) == spelled
  {
    NormalizeSteps(s);
    NormalizeSteps(spelled);
    NormalizeIdentity(spelled);
  }

  lemma SharpSpelled(c: char)
    requires c != '#'
    ensures ReplaceAll([c, '#'], '#', "Sharp") == [c] + "Sharp"
  {
    var s := [c, '#'];
    assert s[1..] == ['#'];
    assert ReplaceAll(['#'], '#', "Sharp") == "Sharp";
  }

  lemma SharpNormal(c: char)
    requires 'A' <= c <= 'G'
    ensures Normalize([c, '#']) == [c] + "Sharp"
  {
    var n := [c] + "Sharp";
    SharpSpelled(c);
    assert 'b' !in n && '#' !in n;
    assert !IsWhiteSpace(n[0]) && !IsWhiteSpace(n[|n| - 1]);
    NormalizeViaSpelled([c, '#'], n);
  }

  /**
   * Running a mapping over the pattern of its own `i`-th entry gives that
   * entry's replacement, when every pattern holds a `b`, the replacement holds
   * none, and no earlier pattern starts with a character of the `i`-th.
   */
  lemma {:induction false} MappingHitsOnce(m: seq<(string, string)>, i: nat)
    requires i < |m|
    requires forall j :: 0 <= j < |m| ==> |m[j].0| > 0 && 'b' in m[j].0
    requires 'b' !in m[i].1
    requires forall j :: 0 <= j < i ==> m[j].0[0] !in m[i].0
    ensures ApplyMapping(m[i].0, m) == m[i].1
    decreases i
  {
    var tail := m[1..];
    assert forall j :: 0 <= j < |tail| ==> tail[j] == m[j + 1];
    if i == 0 {
      var flat := m[0].0;
      assert OccursAt(flat, flat, 0);
      assert ReplaceFirst(flat, flat, m[0].1) == m[0].1;
      forall j | 0 <= j < |tail|
        ensures IndexOf(m[0].1, tail[j].0).None?
      {
        AbsentCharacterNoOccurrence(m[0].1, tail[j].0, 'b');
      }
      ApplyMappingUnchanged(m[0].1, tail);
    } else {
      AbsentCharacterNoOccurrence(m[i].0, m[0].0, m[0].0[0]);
      assert ReplaceFirst(m[i].0, m[0].0, m[0].1) == m[i].0;
      MappingHitsOnce(tail, i - 1);
    }
  }

  /** The mapping's shape: each pattern is a root letter and `b`, each replacement a root letter and "Sharp". */
  lemma FlatTableShape(i: nat)
    requires i < |FLAT_TO_SHARP|
    ensures var (flat, sharp) := FLAT_TO_SHARP[i];
      && |flat| == 2 && 'A' <= flat[0] <= 'G' && flat[1] == 'b'
      && sharp == [sharp[0]] + "Sharp" && 'A' <= sharp[0] <= 'G'
      && forall j :: 0 <= j < i ==> FLAT_TO_SHARP[j].0[0] != flat[0]
  {
  }

  /** A mapped flat on its own becomes the sharp of the letter below it, which resolves to that natural letter. */
  lemma FlatResolvesToLetterBelow(flat: string, sharp: string)
    requires (flat, sharp) in FLAT_TO_SHARP
    ensures Normalize(flat) == sharp
    ensures |sharp| > 0 && 'A' <= sharp[0] <= 'G'
    ensures Resolve(flat) == Some(RootEntry(sharp[0]))
  {
    var i :| 0 <= i < |FLAT_TO_SHARP| && FLAT_TO_SHARP[i] == (flat, sharp);
    FlatTableShape(i);
    FlatNormal(flat, sharp, i);
    SpelledSharpNotKey(sharp[0]);
    ResolvesViaRoot(flat, sharp);
  }

  lemma FlatNormal(flat: string, sharp: string, i: nat)
    requires i < |FLAT_TO_SHARP| && FLAT_TO_SHARP[i] == (flat, sharp)
    ensures Normalize(flat) == sharp
  {
    FlatTableShape(i);
    FlatHasNoSharpSign(flat);
    FlatIsTrimmed(flat);
    NormalizeIsMapping(flat);
    FlatMappingApplies(flat, sharp, i);
  }

  lemma FlatHasNoSharpSign(flat: string)
    requires |flat| == 2 && 'A' <= flat[0] <= 'G' && flat[1] == 'b'
    ensures ReplaceAll(flat, '#', "Sharp") == flat
  {
  }

  lemma FlatIsTrimmed(flat: string)
    requires |flat| == 2 && 'A' <= flat[0] <= 'G' && flat[1] == 'b'
    ensures Trim(flat) == flat
  {
  }

  /** For a name that spelling-out and trimming leave alone, normalising is running the mapping. */
  lemma NormalizeIsMapping(s: string)
    requires ReplaceAll(s, '#', "Sharp") == s && Trim(s) == s
    ensures Normalize(s) == ApplyMapping(s, FLAT_TO_SHARP)
  {
    NormalizeSteps(s);
  }

  lemma FlatMappingApplies(flat: string, sharp: string, i: nat)
    requires i < |FLAT_TO_SHARP| && FLAT_TO_SHARP[i] == (flat, sharp)
    ensures ApplyMapping(flat, FLAT_TO_SHARP) == sharp
  {
    FlatTableShape(i);
    forall j | 0 <= j < |FLAT_TO_SHARP|
      ensures |FLAT_TO_SHARP[j].0| > 0 && 'b' in FLAT_TO_SHARP[j].0
    {
      FlatTableShape(j);
    }
    assert 'b' !in sharp;
    forall j | 0 <= j < i
      ensures FLAT_TO_SHARP[j].0[0] !in flat
    {
      FlatTableShape(j);
      assert flat == [flat[0], 'b'];
    }
    MappingHitsOnce(FLAT_TO_SHARP, i);
  }

  /** "Bb" and "A#" both resolve to the A entry; "Db" resolves to C. */
  lemma FlatSharpEquivalence()
    ensures Resolve("Bb") == Resolve("A#") == Some(RootEntry('A'))
    ensures Resolve("Db") == Some(RootEntry('C'))
  {
    FlatResolvesToLetterBelow("Bb", "ASharp");
    FlatResolvesToLetterBelow("Db", "CSharp");
    SharpResolvesToNatural('A');
  }

  /** Every key the user can pick resolves, and to its natural letter: "C#" to C, ..., "A#" to A. */
  lemma MusicalKeysResolve(k: MusicalKey)
    ensures Resolve(KeyName(k)) == Some(RootEntry(KeyName(k)[0]))
  {
    var name := KeyName(k);
    if |name| == 1 {
      assert name == [name[0]];
      var _ := RootEntry(name[0]);
      KeysResolveToThemselves(name);
    } else {
      assert name == [name[0], '#'];
      SharpResolvesToNatural(name[0]);
    }
  }

}
