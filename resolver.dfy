/**
 * The chord-name resolver: a fixed normalisation of the name, then a chain of
 * lookups in the chord table (the name itself, the name with "Sharp" turned
 * back into `#`, the name with its extension stripped, its first character),
 * stopping at the first hit and giving `None` when every lookup misses.
 *
 * The chain is defined for any table (`ResolveIn`) and instantiated with the
 * program's table (`Resolve`). For every table shaped like the program's
 * (`WellShaped`) the chain collapses to "the name itself, else its first
 * character" (`ResolveCollapses`).
 */
module Resolver {
  import opened Wrappers
  import opened Types
  import opened JsStrings
  import opened Library

  /** The flat spellings and their replacements, in the order the mapping object lists them. */
  const FLAT_TO_SHARP: seq<(string, string)> :=
    [("Bb", "ASharp"), ("Eb", "DSharp"), ("Ab", "GSharp"), ("Db", "CSharp"), ("Gb", "FSharp")]

  /** The alternatives of the extension pattern, in the pattern's order. */
  const EXTENSION_TOKENS: seq<string> := ["maj", "min", "m", "7", "9", "11", "13", "sus", "add"]

  // ---------------------------------------------------------------------------
  // Normalisation
  // ---------------------------------------------------------------------------

  /** The `forEach` over the mapping: replace the first occurrence of each flat, one entry after the other. */
  function ApplyMapping(name: string, mapping: seq<(string, string)>): (r: string)
    decreases |mapping|
    ensures forall c :: c in r ==> c in name || exists i :: 0 <= i < |mapping| && c in mapping[i].1
  {
    if mapping == [] then name
    else ApplyMapping(ReplaceFirst(name, mapping[0].0, mapping[0].1), mapping[1..])
  }

  /** A mapping none of whose patterns occurs leaves the name alone. */
  lemma {:induction false} ApplyMappingUnchanged(name: string, mapping: seq<(string, string)>)
    requires forall i :: 0 <= i < |mapping| ==> IndexOf(name, mapping[i].0).None?
    ensures ApplyMapping(name, mapping) == name
    decreases |mapping|
  {
    if mapping != [] {
      assert IndexOf(name, mapping[0].0).None?;
      assert forall i :: 0 <= i < |mapping[1..]| ==> mapping[1..][i] == mapping[i + 1];
      ApplyMappingUnchanged(name, mapping[1..]);
    }
  }

  /**
   * The name the lookups work on: `b` replaced by itself (a no-op), every `#`
   * spelled out as "Sharp", white space trimmed, then the five flats mapped.
   * Every `#` of the input is gone afterwards.
   */
  function Normalize(chordName: string): (r: string)
    ensures '#' !in r
  {
    var spelled := ReplaceAll(ReplaceAll(chordName, 'b', "b"), '#', "Sharp");
    NormalizeFlatsKeepsNoSharpSign(Trim(spelled), FLAT_TO_SHARP);
    ApplyMapping(Trim(spelled), FLAT_TO_SHARP)
  }

  lemma {:induction false} NormalizeFlatsKeepsNoSharpSign(name: string, mapping: seq<(string, string)>)
    requires '#' !in name
    requires forall i :: 0 <= i < |mapping| ==> '#' !in mapping[i].1
    ensures '#' !in ApplyMapping(name, mapping)
    decreases |mapping|
  {
    if mapping != [] {
      assert '#' !in mapping[0].1;
      assert forall i :: 0 <= i < |mapping[1..]| ==> mapping[1..][i] == mapping[i + 1];
      NormalizeFlatsKeepsNoSharpSign(ReplaceFirst(name, mapping[0].0, mapping[0].1), mapping[1..]);
    }
  }

  /** `b` replaced by `b` is the identity, so only `#` and the flats change the name. */
  lemma NormalizeSteps(chordName: string)
    ensures Normalize(chordName) == ApplyMapping(Trim(ReplaceAll(chordName, '#', "Sharp")), FLAT_TO_SHARP)
  {
    ReplaceAllBySelf(chordName, 'b');
  }

  /** A name without `b`, without `#` and without white space at its ends is its own normal form. */
  lemma NormalizeIdentity(s: string)
    requires 'b' !in s && '#' !in s
    requires s == [] || (!IsWhiteSpace(s[0]) && !IsWhiteSpace(s[|s| - 1]))
    ensures Normalize(s) == s
  {
    NormalizeSteps(s);
    AbsentCharacterNoOccurrence(s, "Bb", 'b');
    AbsentCharacterNoOccurrence(s, "Eb", 'b');
    AbsentCharacterNoOccurrence(s, "Ab", 'b');
    AbsentCharacterNoOccurrence(s, "Db", 'b');
    AbsentCharacterNoOccurrence(s, "Gb", 'b');
    assert ReplaceAll(s, '#', "Sharp") == s;
    assert Trim(s) == s;
    NoFlatUnchanged(s);
  }

  /** A name in which none of the five flats occurs is left alone by the mapping. */
  lemma NoFlatUnchanged(s: string)
    requires IndexOf(s, "Bb").None? && IndexOf(s, "Eb").None? && IndexOf(s, "Ab").None?
    requires IndexOf(s, "Db").None? && IndexOf(s, "Gb").None?
    ensures ApplyMapping(s, FLAT_TO_SHARP) == s
  {
    ApplyMappingUnchanged(s, FLAT_TO_SHARP);
  }

  // ---------------------------------------------------------------------------
  // The extension pattern /(maj|min|m|7|9|11|13|sus|add).*/i
  // ---------------------------------------------------------------------------

  /** Case folding of the non-Unicode `i` flag: only ASCII letters fold onto the tokens' letters. */
  function AsciiUpper(c: char): char {
    if 'a' <= c <= 'z' then (c as int - 32) as char else c
  }

  /** `tok` matches `s` at `p`, ignoring case. */
  predicate MatchesIgnoreCase(s: string, p: nat, tok: string) {
    p + |tok| <= |s| && forall j :: 0 <= j < |tok| ==> AsciiUpper(s[p + j]) == AsciiUpper(tok[j])
  }

  /** Some alternative of the pattern matches at `p`. */
  predicate TokenAt(s: string, p: nat) {
    exists t :: t in EXTENSION_TOKENS && MatchesIgnoreCase(s, p, t)
  }

  /**
   * Which characters start a match: `maj` and `min` are subsumed by `m`, so a
   * match starts at an `m` or `M`, a `7` or `9`, an `11` or `13`, or a `sus`
   * or `add` in any case.
   */
  lemma TokenAtLeadChar(s: string, p: nat)
    ensures TokenAt(s, p) <==>
      || (p < |s| && (s[p] == 'm' || s[p] == 'M' || s[p] == '7' || s[p] == '9'))
      || (p + 1 < |s| && s[p] == '1' && (s[p + 1] == '1' || s[p + 1] == '3'))
      || MatchesIgnoreCase(s, p, "sus")
      || MatchesIgnoreCase(s, p, "add")
  {
    if p < |s| && (s[p] == 'm' || s[p] == 'M') {
      assert MatchesIgnoreCase(s, p, EXTENSION_TOKENS[2]);
    }
    if p < |s| && s[p] == '7' {
      assert MatchesIgnoreCase(s, p, EXTENSION_TOKENS[3]);
    }
    if p < |s| && s[p] == '9' {
      assert MatchesIgnoreCase(s, p, EXTENSION_TOKENS[4]);
    }
    if p + 1 < |s| && s[p] == '1' && s[p + 1] == '1' {
      assert MatchesIgnoreCase(s, p, EXTENSION_TOKENS[5]);
    }
    if p + 1 < |s| && s[p] == '1' && s[p + 1] == '3' {
      assert MatchesIgnoreCase(s, p, EXTENSION_TOKENS[6]);
    }
    if MatchesIgnoreCase(s, p, "sus") {
      assert MatchesIgnoreCase(s, p, EXTENSION_TOKENS[7]);
    }
    if MatchesIgnoreCase(s, p, "add") {
      assert MatchesIgnoreCase(s, p, EXTENSION_TOKENS[8]);
    }
    if TokenAt(s, p) {
      var t :| t in EXTENSION_TOKENS && MatchesIgnoreCase(s, p, t);
      assert AsciiUpper(s[p]) == AsciiUpper(t[0]);
      if t == "11" || t == "13" {
        assert AsciiUpper(s[p + 1]) == AsciiUpper(t[1]);
      }
    }
  }

  /** A match inside a prefix of `s` is a match in `s`. */
  lemma TokenInPrefix(s: string, n: nat, q: nat)
    requires n <= |s|
    ensures TokenAt(s[..n], q) ==> TokenAt(s, q)
  {
    if TokenAt(s[..n], q) {
      var t :| t in EXTENSION_TOKENS && MatchesIgnoreCase(s[..n], q, t);
      forall j | 0 <= j < |t|
        ensures AsciiUpper(s[q + j]) == AsciiUpper(t[j])
      {
        assert s[..n][q + j] == s[q + j];
      }
      assert MatchesIgnoreCase(s, q, t);
    }
  }

  /** The regular-expression search: the leftmost position at or after `from` where a match starts. */
  function FirstToken(s: string, from: nat): (r: Option<nat>)
    requires from <= |s|
    decreases |s| - from
    ensures r.Some? ==> from <= r.value < |s| && TokenAt(s, r.value)
    ensures r.Some? ==> forall j :: from <= j < r.value ==> !TokenAt(s, j)
    ensures r.None? ==> forall j :: from <= j < |s| ==> !TokenAt(s, j)
  {
    if from == |s| then None
    else if TokenAt(s, from) then Some(from)
    else FirstToken(s, from + 1)
  }

  /** Where `.*` stops: the first line terminator at or after `from`, or the end. */
  function LineEnd(s: string, from: nat): (e: nat)
    requires from <= |s|
    decreases |s| - from
    ensures from <= e <= |s|
    ensures forall j :: from <= j < e ==> !IsLineTerminator(s[j])
    ensures e < |s| ==> IsLineTerminator(s[e])
  {
    if from == |s| || IsLineTerminator(s[from]) then from else LineEnd(s, from + 1)
  }

  predicate SingleLine(s: string) {
    forall i :: 0 <= i < |s| ==> !IsLineTerminator(s[i])
  }

  /**
   * `r` is `name` with `name[p..e]` deleted, where `p` is the first position
   * at which a match starts (or the end, when none does) and `e` is the first
   * line terminator at or after `p` (or the end).
   */
  predicate CutFirstMatchLine(name: string, r: string, p: nat, e: nat) {
    && p <= e <= |name| && r == name[..p] + name[e..]
    && (forall q :: 0 <= q < p ==> !TokenAt(name, q))
    && (p < |name| ==> TokenAt(name, p))
    && (forall j :: p <= j < e ==> !IsLineTerminator(name[j]))
    && (e < |name| ==> IsLineTerminator(name[e]))
  }

  /** The cut is determined by the name: whatever witnesses are used, the result is the same. */
  lemma CutFirstMatchLineUnique(name: string, r1: string, p1: nat, e1: nat, r2: string, p2: nat, e2: nat)
    requires CutFirstMatchLine(name, r1, p1, e1) && CutFirstMatchLine(name, r2, p2, e2)
    ensures p1 == p2 && e1 == e2 && r1 == r2
  {
  }

  /**
   * `name.replace(/(maj|min|m|7|9|11|13|sus|add).*\/i, '')`: the leftmost match
   * and the rest of its line are deleted: the result is the name without the
   * stretch from the first match start `p` up to the first line terminator at
   * or after it (or the end). On a single-line name the result is the longest
   * prefix in which no match starts.
   */
  function Simplify(name: string): (r: string)
    ensures exists p, e :: CutFirstMatchLine(name, r, p, e)
    ensures (forall p :: 0 <= p < |name| ==> !TokenAt(name, p)) ==> r == name
    ensures SingleLine(name) ==>
      && |r| <= |name| && r == name[..|r|]
      && (forall q :: 0 <= q < |r| ==> !TokenAt(name, q))
      && (|r| < |name| ==> TokenAt(name, |r|))
  {
    match FirstToken(name, 0)
    case None =>
      assert name == name[..|name|] + name[|name|..];
      assert CutFirstMatchLine(name, name, |name|, |name|);
      name
    case Some(p) =>
      var e := LineEnd(name, p);
      assert CutFirstMatchLine(name, name[..p] + name[e..], p, e);
      name[..p] + name[e..]
  }

  /** `name.charAt(0)`: the first character, or the empty string. */
  function RootOnly(name: string): (r: string)
    ensures r <= name
    ensures |r| == if name == [] then 0 else 1
  {
    if name == [] then "" else [name[0]]
  }

  // ---------------------------------------------------------------------------
  // The lookup chain
  // ---------------------------------------------------------------------------

  /** The fallback chain run against the table `lib`. */
  function ResolveIn(lib: map<string, ChordDefinition>, chordName: string): (r: Option<ChordDefinition>)
    ensures r.Some? ==> r.value in lib.Values
    ensures Normalize(chordName) in lib ==> r == Some(lib[Normalize(chordName)])
  {
    var name := Normalize(chordName);
    if name in lib then Some(lib[name])
    else
      var common := ReplaceFirst(name, "Sharp", "#");
      if common in lib then Some(lib[common])
      else
        var simplified := Simplify(name);
        if simplified in lib then Some(lib[simplified])
        else
          var rootOnly := RootOnly(name);
          if rootOnly in lib then Some(lib[rootOnly]) else None
  }

  /** `findChordDefinition`: the chain against the program's table. The result is always one of its entries. */
  function Resolve(chordName: string): (r: Option<ChordDefinition>)
    ensures r.Some? ==> r.value.name in CHORD_LIBRARY && CHORD_LIBRARY[r.value.name] == r.value
  {
    LibraryEntriesValid();
    ResolveIn(CHORD_LIBRARY, chordName)
  }

  /**
   * `findChordDefinition` as the source writes it: the flat mapping applied by
   * a loop over its entries, then the lookups with early returns.
   */
  method FindChordDefinition(chordName: string) returns (r: Option<ChordDefinition>)
    ensures r == Resolve(chordName)
  {
    var name := Trim(ReplaceAll(ReplaceAll(chordName, 'b', "b"), '#', "Sharp"));
    ghost var trimmed := name;
    var i := 0;
    while i < |FLAT_TO_SHARP|
      invariant 0 <= i <= |FLAT_TO_SHARP|
      invariant ApplyMapping(name, FLAT_TO_SHARP[i..]) == ApplyMapping(trimmed, FLAT_TO_SHARP)
    {
      var (flat, sharp) := FLAT_TO_SHARP[i];
      name := ReplaceFirst(name, flat, sharp);
      i := i + 1;
    }
    assert FLAT_TO_SHARP[i..] == [];

    if name in CHORD_LIBRARY {
      return Some(CHORD_LIBRARY[name]);
    }
    var common := ReplaceFirst(name, "Sharp", "#");
    if common in CHORD_LIBRARY {
      return Some(CHORD_LIBRARY[common]);
    }
    var simplified := Simplify(name);
    if simplified in CHORD_LIBRARY {
      return Some(CHORD_LIBRARY[simplified]);
    }
    var rootOnly := RootOnly(name);
    if rootOnly in CHORD_LIBRARY {
      return Some(CHORD_LIBRARY[rootOnly]);
    }
    return None;
  }

  // ---------------------------------------------------------------------------
  // The chain collapses
  // ---------------------------------------------------------------------------

  /**
   * The shape of the program's table that makes two of the four lookups
   * redundant: no key holds a `#` or a line terminator, and every key is a
   * single character or contains a match of the extension pattern.
   */
  predicate WellShaped(lib: map<string, ChordDefinition>) {
    forall k :: k in lib ==>
      && '#' !in k
      && SingleLine(k)
      && (|k| == 1 || exists q :: 0 <= q < |k| && TokenAt(k, q))
  }

  /** The reference behaviour: the name itself, else its first character, else nothing. */
  function ExactOrRoot(lib: map<string, ChordDefinition>, name: string): Option<ChordDefinition> {
    if name in lib then Some(lib[name])
    else if RootOnly(name) in lib then Some(lib[RootOnly(name)])
    else None
  }

  /** The "Sharp" to `#` retry never finds a key when no key holds a `#`. */
  lemma SharpRetryMisses(lib: map<string, ChordDefinition>, name: string)
    requires forall k :: k in lib ==> '#' !in k
    requires name !in lib
    ensures ReplaceFirst(name, "Sharp", "#") !in lib
  {
    var common := ReplaceFirst(name, "Sharp", "#");
    if IndexOf(name, "Sharp").Some? {
      var i := IndexOf(name, "Sharp").value;
      assert common[i..i + 1] == "#";
      assert '#' in common;
    }
  }

  /** A strip that cuts through a line break leaves a line terminator behind, and no key has one. */
  lemma CutThroughLineMisses(lib: map<string, ChordDefinition>, name: string)
    requires WellShaped(lib)
    requires FirstToken(name, 0).Some? && LineEnd(name, FirstToken(name, 0).value) < |name|
    ensures Simplify(name) !in lib
  {
    var p := FirstToken(name, 0).value;
    var e := LineEnd(name, p);
    var s := Simplify(name);
    assert s == name[..p] + name[e..];
    assert s[p] == name[e];
    assert !SingleLine(s);
  }

  /** The prefix before the leftmost match holds no match, so only a one-character prefix can be a key. */
  lemma TokenFreePrefixMisses(lib: map<string, ChordDefinition>, name: string, p: nat)
    requires WellShaped(lib)
    requires FirstToken(name, 0) == Some(p) && p != 1
    ensures name[..p] !in lib
  {
    var k := name[..p];
    forall q | 0 <= q < |k|
      ensures !TokenAt(k, q)
    {
      TokenInPrefix(name, p, q);
    }
  }

  /** A hit of the strip lookup is always the one-character root. */
  lemma StripHitIsRoot(lib: map<string, ChordDefinition>, name: string)
    requires WellShaped(lib)
    requires name !in lib
    ensures Simplify(name) in lib ==> Simplify(name) == RootOnly(name)
  {
    if FirstToken(name, 0).Some? {
      var p := FirstToken(name, 0).value;
      var e := LineEnd(name, p);
      if e < |name| {
        CutThroughLineMisses(lib, name);
      } else {
        assert Simplify(name) == name[..p];
        if p != 1 {
          TokenFreePrefixMisses(lib, name, p);
        } else {
          assert name[..1] == [name[0]];
        }
      }
    }
  }

  /** For every well-shaped table the four lookups reduce to two. */
  lemma ResolveCollapses(lib: map<string, ChordDefinition>, chordName: string)
    requires WellShaped(lib)
    ensures ResolveIn(lib, chordName) == ExactOrRoot(lib, Normalize(chordName))
  {
    var name := Normalize(chordName);
    if name !in lib {
      SharpRetryMisses(lib, name);
      StripHitIsRoot(lib, name);
    }
  }

  /** The program's table is well shaped. */
  lemma LibraryWellShaped()
    ensures WellShaped(CHORD_LIBRARY)
  {
    KeySpelling();
    forall k | k in CHORD_LIBRARY
      ensures '#' !in k && SingleLine(k) && (|k| == 1 || exists q :: 0 <= q < |k| && TokenAt(k, q))
    {
      assert SpelledAsKey(k);
      assert !KeyChar('#');
      if |k| != 1 {
        TokenAtLeadChar(k, 1);
        assert TokenAt(k, 1);
      }
    }
  }

  // ---------------------------------------------------------------------------
  // What the program's resolver does
  // ---------------------------------------------------------------------------

  /**
   * With the program's table: the entry of the normalised name if it is a
   * key; otherwise the entry of its first character when that is a natural
   * root letter A to G; otherwise `None`.
   */
  lemma ResolveExactOrRootLetter(chordName: string)
    ensures var n := Normalize(chordName);
      Resolve(chordName) ==
        if n in CHORD_LIBRARY then Some(CHORD_LIBRARY[n])
        else if |n| > 0 && 'A' <= n[0] <= 'G' then Some(RootEntry(n[0]))
        else None
  {
    LibraryWellShaped();
    ResolveCollapses(CHORD_LIBRARY, chordName);
    ExactOrRootLetter(Normalize(chordName));
  }

  lemma ExactOrRootLetter(n: string)
    ensures ExactOrRoot(CHORD_LIBRARY, n) ==
      if n in CHORD_LIBRARY then Some(CHORD_LIBRARY[n])
      else if |n| > 0 && 'A' <= n[0] <= 'G' then Some(RootEntry(n[0]))
      else None
  {
    NaturalRootsPresent();
    KeySpelling();
    if n !in CHORD_LIBRARY && |n| > 0 {
      assert RootOnly(n) == [n[0]];
      if [n[0]] in CHORD_LIBRARY {
        assert SpelledAsKey([n[0]]);
      }
    }
  }

  /** A result exists exactly when the normalised name starts with a natural root letter. */
  lemma ResolvesIffRootLetter(chordName: string)
    ensures var n := Normalize(chordName);
      Resolve(chordName).Some? <==> |n| > 0 && 'A' <= n[0] <= 'G'
  {
    var n := Normalize(chordName);
    ResolveExactOrRootLetter(chordName);
    KeySpelling();
    if n in CHORD_LIBRARY {
      assert SpelledAsKey(n);
    }
  }

  /** Every key of the table resolves to its own entry by the first, direct lookup. */
  lemma KeysResolveToThemselves(k: string)
    requires k in CHORD_LIBRARY
    ensures Resolve(k) == Some(CHORD_LIBRARY[k])
    ensures CHORD_LIBRARY[k].name == k
  {
    KeySpelling();
    assert SpelledAsKey(k);
    assert !KeyChar('b') && !KeyChar('#');
    NormalizeIdentity(k);
    LibraryEntriesValid();
  }

}
