# ChordGenius chord resolver and diagram model

This project models the deterministic core of ChordGenius AI, a web app that
turns a generated chord progression into guitar chord diagrams:

- the fixed chord-voicing table `CHORD_LIBRARY`. It has 19 chord names, each with 4 voicings.
- `findChordDefinition`, which maps a free-form chord name onto an entry of
  that table. It normalises `#` and five flat spellings, then tries four
  lookups in order: the name, the name with "Sharp" turned back into `#`, the
  name cut at its first extension token, and its first character.
- the chord diagram: for each string of a voicing it decides between a muted mark, an open mark,
  a fretted marker with an optional finger digit, or nothing. It also places the grid, the nut and the
  base-fret label.
- the chord group: a placeholder, or a heading, the voicing count and up to four diagrams.
- the datatypes of `types.ts`.

Modules, in dependency order:

- `Wrappers`: an `Option` type.
- `Types`: voicings, definitions, song sections, keys and modes.
- `JsStrings`: the JavaScript string operations the resolver uses.
  - `replace` with a global one-character pattern, and `replace` with a string pattern, which replaces the first occurrence only.
  - `indexOf`.
  - `trim` over the ECMAScript white-space and line-terminator characters.
- `Library`: the table and its invariants.
- `Resolver`: normalisation, the extension strip and the lookup chain.
  - The chain is written once as a function over any table (`ResolveIn`).
  - It is written once as the source's loop with early returns (`FindChordDefinition`), proved equal to the function.
  - It is proved to collapse to "exact key, else first character, else nothing" for every table of the table's shape.
- `ResolverExamples`: what concrete spellings resolve to.
- `Diagram`: the per-string mark decision and the geometry, in exact reals.
- `Group`: the chord group view.

The table itself is the constant `Library.CHORD_LIBRARY` (constants.tsx:4-183), built from one constant per entry. The flat mapping object is the constant `Resolver.FLAT_TO_SHARP` (constants.tsx:189-195), a sequence of pairs in the object's entry order. Their contents are stated by `Library.LibraryKeys`, the `Library.ValidX` lemmas and `ResolverExamples.FlatTableShape`.

The table invariant is stated once (`ValidVoicing`, `ValidEntry`), and a string-by-string form of it (`ValidVoicingByString`) is proved to imply it. Each entry then has its own one-line lemma (`ValidC`, …, `ValidE9`), because checking all 76 voicings of the literal table in one proof is too slow for the verifier.

How the code behaves where a reader might expect otherwise:

- Every `#` becomes "Sharp" before any lookup, and the five flats are then mapped to names such as "ASharp". No key contains "Sharp" or `#`. So a sharp or a mapped flat on its own is never found directly, and the retry that turns "Sharp" back into `#` never hits. The name falls through to its first letter, and "Bb" and "A#" both give the A major entry (`FlatSharpEquivalence`).
- The extension pattern's `.*` stops at a line terminator. The strip therefore deletes only up to the end of the line (`Simplify`). The whole chain still collapses, because a cut through a line never hits a key (`CutThroughLineMisses`).
- The extension pattern matches without regard to case, so "Add9" matches `add` at position 0 and the strip leaves the empty string. The first-character lookup then still gives the A major entry. Case folding here is the ASCII-only folding of JavaScript's non-Unicode `i` flag, which is all these tokens need.

## Model

| member | source | states |
|---|---|---|
| Types.KeyName | types.ts:2-15 | each key's string value is a natural letter A–G, alone or followed by `#`; exactly the five accidental keys carry the `#` |
| Types.KeyNameInjective | types.ts:2-15 | the twelve keys have twelve distinct string values |
| Types.ModeName | types.ts:17-20 | the mode's string value is "Major" exactly for Major and "Minor" exactly for Minor |
| JsStrings.ReplaceAll | constants.tsx:186 | global one-character replace: removes the character when the replacement lacks it, and changes nothing when the character is absent |
| JsStrings.ReplaceAllBySelf | constants.tsx:186 | `replace(/b/g, 'b')` returns its input unchanged |
| JsStrings.ReplaceAllAppend | constants.tsx:186 | the global replace distributes over concatenation |
| JsStrings.ReplaceAllSingle | constants.tsx:186 | on one character, the pattern character becomes the replacement and any other character stays |
| JsStrings.ReplaceAllOccurrence | constants.tsx:186 | each occurrence of the pattern character is replaced by the replacement text in place, whatever surrounds it |
| JsStrings.Trim | constants.tsx:186 | the result keeps only characters of the input; it is empty or has non-white-space ends; it is empty exactly when the input is all white space; an already trimmed input is returned as is; the result is the input with a white-space prefix and a white-space suffix removed |
| JsStrings.IndexOfFrom | constants.tsx:198 | the result is the leftmost occurrence at or after the start, or none when there is no occurrence |
| JsStrings.IndexOf | constants.tsx:198 | the leftmost occurrence of the pattern, or none exactly when it does not occur |
| JsStrings.ReplaceFirst | constants.tsx:198 | with no occurrence the string is unchanged; otherwise the prefix before the first occurrence and the rest after it are kept, and the replacement sits at that position |
| JsStrings.AbsentCharacterNoOccurrence | constants.tsx:198 | a pattern containing a character that the string lacks does not occur in it |
| JsStrings.NoAdjacentPairNoOccurrence | constants.tsx:198 | a two-character pattern whose characters never stand side by side does not occur |
| Library.ValidByString | constants.tsx:6-182 | the string-by-string check implies the voicing invariant |
| Library.CheckEntry | constants.tsx:6-182 | an entry whose four voicings pass the check satisfies the entry invariant |
| Library.ValidC | constants.tsx:6-14 | entry "C" is named "C" and has 4 voicings, each with 6 frets ≥ 0 or muted, 6 fingers in 0..4 and base fret ≥ 1 |
| Library.ValidD | constants.tsx:15-23 | the same for "D" |
| Library.ValidE | constants.tsx:24-32 | the same for "E" |
| Library.ValidF | constants.tsx:33-41 | the same for "F" |
| Library.ValidG | constants.tsx:42-50 | the same for "G" |
| Library.ValidA | constants.tsx:51-59 | the same for "A" |
| Library.ValidB | constants.tsx:60-68 | the same for "B" |
| Library.ValidAm | constants.tsx:71-79 | the same for "Am" |
| Library.ValidBm | constants.tsx:80-88 | the same for "Bm" |
| Library.ValidCm | constants.tsx:89-97 | the same for "Cm" |
| Library.ValidDm | constants.tsx:98-106 | the same for "Dm" |
| Library.ValidEm | constants.tsx:107-115 | the same for "Em" |
| Library.ValidFm | constants.tsx:116-124 | the same for "Fm" |
| Library.ValidGm | constants.tsx:125-133 | the same for "Gm" |
| Library.ValidC7 | constants.tsx:136-144 | the same for "C7" |
| Library.ValidD7 | constants.tsx:145-153 | the same for "D7" |
| Library.ValidG7 | constants.tsx:154-162 | the same for "G7" |
| Library.ValidCmaj7 | constants.tsx:165-173 | the same for "Cmaj7" |
| Library.ValidE9 | constants.tsx:174-182 | the same for "E9" |
| Library.EntryValid | constants.tsx:3-183 | any key's entry satisfies the entry invariant |
| Library.LibraryEntriesValid | constants.tsx:3-183 | every entry is named by its own key and holds exactly four well-formed voicings |
| Library.LibraryKeys | constants.tsx:3-183 | the table's keys are exactly the nineteen names |
| Library.KeyIsOneOf | constants.tsx:3-183 | every key is one of the nineteen names |
| Library.NotAKey | constants.tsx:3-183 | a name different from all nineteen is not a key |
| Library.KeySpelling | constants.tsx:3-183 | every key is a root letter A–G, alone or followed by a quality starting with `m`, `7` or `9`, using only the characters A–G, m, a, j, 7, 9 |
| Library.NaturalRootsPresent | constants.tsx:6-68 | each natural letter A–G is a key on its own |
| Library.RootEntry | constants.tsx:6-68 | the entry of a natural letter exists and is the table's entry for that one-letter key |
| Resolver.Normalize | constants.tsx:186-199 | no `#` survives normalisation |
| Resolver.NormalizeSteps | constants.tsx:186 | normalising is spelling out `#`, trimming, then the flat mapping (the `b` step drops out) |
| Resolver.ApplyMapping | constants.tsx:197-199 | the `forEach` over the mapping: every character of the result comes from the name or from one of the replacements |
| Resolver.ApplyMappingUnchanged | constants.tsx:197-199 | a mapping none of whose patterns occurs leaves the name unchanged |
| Resolver.NormalizeFlatsKeepsNoSharpSign | constants.tsx:189-199 | the flat mapping does not reintroduce `#` |
| Resolver.NoFlatUnchanged | constants.tsx:189-199 | a name holding none of the five flats passes the mapping unchanged |
| Resolver.NormalizeIdentity | constants.tsx:186-199 | a name without `b` or `#` and with no white space at its ends is its own normal form |
| Resolver.TokenAtLeadChar | constants.tsx:209 | a match of the pattern starts at p exactly when p holds `m`/`M`, `7`, `9`, `11`, `13`, or `sus`/`add` in any case |
| Resolver.TokenInPrefix | constants.tsx:209 | a match inside a prefix is a match in the whole name |
| Resolver.FirstToken | constants.tsx:209 | the search returns the leftmost match position, or none when no position matches |
| Resolver.LineEnd | constants.tsx:209 | where `.*` stops: the first line terminator at or after the start, or the end |
| Resolver.Simplify | constants.tsx:209 | the result is the name with the stretch from the first match start to the next line terminator (or the end) deleted; a name with no match is unchanged; on one line the result is the longest prefix in which no match starts |
| Resolver.CutFirstMatchLineUnique | constants.tsx:209 | that description of the cut determines the result: any two witnesses give the same cut and the same string |
| Resolver.RootOnly | constants.tsx:212 | `charAt(0)`: the prefix of length one, or the empty string for an empty name |
| Resolver.ResolveIn | constants.tsx:185-216 | any result is an entry of the table, and a normalised name that is a key gives its own entry |
| Resolver.Resolve | constants.tsx:185-216 | any result is the table's entry under its own name |
| Resolver.FindChordDefinition | constants.tsx:185-216 | the loop over the flat mapping with early returns computes exactly the resolver function |
| Resolver.SharpRetryMisses | constants.tsx:205-206 | the "Sharp"→`#` retry never finds a key when no key holds `#` and the name already missed |
| Resolver.CutThroughLineMisses | constants.tsx:209-210 | a strip that stops at a line terminator never yields a key of a well-shaped table |
| Resolver.TokenFreePrefixMisses | constants.tsx:209-210 | a cut at a match position other than 1 leaves a prefix that is not a key of a well-shaped table |
| Resolver.StripHitIsRoot | constants.tsx:209-213 | when the strip finds a key, that key is the name's first character |
| Resolver.ResolveCollapses | constants.tsx:202-215 | for every well-shaped table the four lookups equal "exact key, else first character, else nothing" |
| Resolver.LibraryWellShaped | constants.tsx:3-183 | the program's table is well shaped |
| Resolver.ExactOrRootLetter | constants.tsx:212-215 | with the program's table the first-character lookup hits exactly for a natural letter A–G |
| Resolver.ResolveExactOrRootLetter | constants.tsx:202-215 | the resolver returns the normalised name's entry if it is a key, else the entry of its first letter when that is A–G, else nothing |
| Resolver.ResolvesIffRootLetter | constants.tsx:212-215 | a result exists exactly when the normalised name starts with A–G |
| Resolver.KeysResolveToThemselves | constants.tsx:202 | every key resolves to its own entry by the direct lookup, and that entry carries the key as its name |
| ResolverExamples.ResolvesViaRoot | constants.tsx:212-213 | a normalised non-key starting with A–G resolves to that letter's entry |
| ResolverExamples.ResolvesToNothing | constants.tsx:215 | a normalised non-key not starting with A–G resolves to nothing |
| ResolverExamples.StripToRootLetter | constants.tsx:209 | a root letter followed by `m`, `7` or `9` is cut down to the root letter |
| ResolverExamples.ExtensionsCutAtM | constants.tsx:209 | the strip cuts "Am7" and "Am7b5" to "A" and "Cmaj9" to "C" at their first `m` |
| ResolverExamples.ExtendedNamesNormal | constants.tsx:186-199 | "Am7" and "Cmaj9" are their own normal forms |
| ResolverExamples.ExtendedNamesFallBack | constants.tsx:202-213 | "Am7", "Am7b5" and "Cmaj9" are their own normal forms, are not keys, and resolve to the entry of their root letter (A major, not "Am"; C) |
| ResolverExamples.NormalizeWithoutFlats | constants.tsx:186-199 | a name with no `#`, trimmed ends and none of the five flats is its own normal form, even when it holds a `b` |
| ResolverExamples.SpelledAndTrimmed | constants.tsx:186 | spelling out `#` and trimming leave such a name alone |
| ResolverExamples.Am7b5HasNoFlat | constants.tsx:189-199 | none of the five flats occurs in "Am7b5" |
| ResolverExamples.Am7b5Normal | constants.tsx:186-199 | "Am7b5" is its own normal form |
| ResolverExamples.EmptyNameUnknown | constants.tsx:212-215 | the empty name resolves to nothing |
| ResolverExamples.NonRootLetterUnknown | constants.tsx:212-215 | "Zx9" resolves to nothing |
| ResolverExamples.NotSpelledNotKey | constants.tsx:3-183 | a name not spelled like a key is not a key |
| ResolverExamples.SpelledSharpNotKey | constants.tsx:3-183 | no key is a letter followed by "Sharp" |
| ResolverExamples.SharpSpelled | constants.tsx:186 | spelling out the `#` of a letter and `#` gives the letter and "Sharp" |
| ResolverExamples.NormalizeViaSpelled | constants.tsx:186-199 | when spelling out `#` gives a name without `b`, `#` or white space at its ends, that name is the normal form |
| ResolverExamples.SharpNormal | constants.tsx:186-199 | a letter followed by `#` normalises to the letter followed by "Sharp" |
| ResolverExamples.SharpResolvesToNatural | constants.tsx:186-213 | a letter A–G followed by `#` resolves to that natural letter's entry |
| ResolverExamples.MappingHitsOnce | constants.tsx:197-199 | running a mapping over the pattern of its own i-th entry yields that entry's replacement, when every pattern holds `b`, the replacement does not, and no earlier pattern's first character occurs in the i-th |
| ResolverExamples.FlatTableShape | constants.tsx:189-195 | each flat is a root letter and `b`, each replacement a root letter and "Sharp", and the flats start with distinct letters |
| ResolverExamples.FlatHasNoSharpSign | constants.tsx:186 | a flat spelling has no `#` to spell out |
| ResolverExamples.FlatIsTrimmed | constants.tsx:186 | a flat spelling has no white space to trim |
| ResolverExamples.NormalizeIsMapping | constants.tsx:186-199 | for a name that spelling-out and trimming leave alone, normalising is running the mapping |
| ResolverExamples.FlatMappingApplies | constants.tsx:197-199 | the mapping turns each flat into its own replacement |
| ResolverExamples.FlatNormal | constants.tsx:186-199 | each mapped flat normalises to its replacement |
| ResolverExamples.FlatResolvesToLetterBelow | constants.tsx:189-213 | each mapped flat resolves to the natural letter below it (Bb→A, Eb→D, Ab→G, Db→C, Gb→F) |
| ResolverExamples.FlatSharpEquivalence | constants.tsx:186-213 | "Bb" and "A#" resolve to the same A entry, and "Db" resolves to C |
| ResolverExamples.MusicalKeysResolve | types.ts:2-15 | every key value resolves, to the entry of its natural letter (C# to C, ..., A# to A) |
| Diagram.StringMark | components/ChordDiagram.tsx:66-105 | muted exactly for `'x'`, open exactly for 0, a marker exactly for a non-zero fret whose relative fret lies in 1..5, otherwise nothing; each with its coordinates; a digit exactly when the string has a finger greater than 0, drawn 2 below the marker's centre |
| Diagram.RenderDiagram | components/ChordDiagram.tsx:10-105 | the label is drawn exactly when the base fret is above 1, the nut exactly when it is 1; the outline is the grid rectangle inside the margins; the grid lines are the fixed ones; one mark per fret entry, in string order |
| Diagram.GridIndependentOfVoicing | components/ChordDiagram.tsx:35-58 | 6 string lines and 5 fret lines, the same for every voicing |
| Diagram.GridSpansOutline | components/ChordDiagram.tsx:17-32 | in every rendered diagram the outer strings are the outline's left and right edges and span its height, the last fret line is its bottom edge, and the fret lines span its width |
| Diagram.LabelOrNut | components/ChordDiagram.tsx:25-63 | label and nut are never both drawn, and neither is drawn exactly when the base fret is below 1 |
| Diagram.MarkerCentredInRow | components/ChordDiagram.tsx:86-87 | a marker lies on its string line, halfway between the fret lines of its row, inside the grid |
| Diagram.OpenAndMutedIgnoreBaseFret | components/ChordDiagram.tsx:67-76 | muted and open marks do not depend on the base fret; an open string is never placed on the fretboard |
| Diagram.MoveableShape | components/ChordDiagram.tsx:78-79 | shifting all fretted entries and the base fret by the same amount draws the same marks |
| Diagram.E9SecondVoicingDropsString2 | components/ChordDiagram.tsx:78-79 | the second E9 voicing (base fret 7) draws nothing on string index 2, whose fret is 6 |
| Diagram.WindowOfFiveFrets | components/ChordDiagram.tsx:78-79 | with base fret 3, fret 7 is on row 5, while frets 8 and 2 are not drawn |
| Group.GroupFor | components/ChordGroup.tsx:10-46 | placeholder exactly when no definition or no voicings; heading and placeholder text use the input name; the count is all voicings; grid exactly for 4 voicings; the diagrams are the first min(4, n) voicings rendered, in order |
| Group.ChordGroup | components/ChordGroup.tsx:10-11 | the component makes one resolver call and shows what that result promises: the input as heading, a placeholder exactly when nothing with voicings was found, otherwise the full count and the first min(4, n) voicings drawn |
| Group.HeadingIsInput | components/ChordGroup.tsx:16-31 | the heading is the input name whatever the definition |
| Group.ExtraVoicingsNotDrawn | components/ChordGroup.tsx:24-41 | voicings beyond the fourth raise the count and switch to the wrapping layout, but are not drawn |
| Group.LibraryGroups | components/ChordGroup.tsx:11-26 | with the program's table a group is a placeholder exactly when the normalised name does not start with A–G; otherwise it is a grid of four diagrams with count 4 |

## Left out

- services/geminiService.ts is not part of this model: it is a network call to a generative-AI service with a prompt and JSON parsing. A `SongStructure` is plain input data here.
- App.tsx is not part of this model: it is asynchronous React state, sharing, the clipboard, alerts and the per-section reroll, all glue around a record update.
- sw.js is not part of this model: service-worker caching through browser Promise APIs.
- components/SongSectionView.tsx is not part of this model: it only maps a section's chords to chord groups, in order.
- The `Genre` enumeration of types.ts is not modelled; nothing in the core uses it.
- SVG presentation (colours, stroke widths, radii, font sizes, CSS classes) is not modelled; only the grid-or-wrap layout choice and the positions are.
- Diagram.RenderDiagram: the label holds the base fret as a number; turning it into the text "{baseFret}f" is not modelled.
- Group.GroupFor: the count label holds the number of voicings, not the text "N Voicings".
- Types.ChordVoicing: `frets`, `fingers` and `baseFret` are JavaScript numbers in the source and integers here. Fractional values, NaN and infinities cannot be represented: a base fret of 1.5, for instance, would draw the label and no nut. Every value in the table is an integer, so nothing computed from the table is affected.
- Diagram geometry is exact `real` arithmetic, not IEEE floating point. All constants involved (14, 84, 104, 56/5, 76/5) are exact here.
- Prototype lookup: the source's plain-object table also answers inherited names such as "constructor". The table is an exact finite map here.
- Strings are sequences of Unicode scalar values, not UTF-16 code units. Trimming and matching agree on all characters of the Basic Multilingual Plane.
- General regular-expression semantics is not modelled; only the one pattern at constants.tsx:209, as a leftmost search over its alternatives followed by deletion up to the end of the line.
