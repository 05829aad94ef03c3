/**
 * What a chord group shows for one chord name: a placeholder when the
 * resolver finds nothing usable, otherwise a heading, the voicing count and
 * the diagrams of at most the first four voicings.
 */
module Group {
  import opened Wrappers
  import opened Types
  import opened Library
  import opened Resolver
  import opened Diagram

  /** The most diagrams a group draws. */
  const MAX_DIAGRAMS: nat := 4

  /** The two-column grid is used for exactly four voicings, the wrapping row otherwise. */
  datatype Layout = TwoColumnGrid | FlexWrap

  datatype GroupView =
    | Placeholder(heading: string, message: string)
    | Voicings(heading: string, voicingCount: nat, layout: Layout, diagrams: seq<ChordDiagram>)

  function Min(a: nat, b: nat): nat {
    if a <= b then a else b
  }

  /**
   * What the source promises of the group for `chordName` given the
   * resolver's result: a placeholder exactly when there is no definition or
   * it has no voicings; the input as heading; otherwise the full voicing
   * count, the grid exactly for four voicings and the diagrams of the first
   * `min(4, n)` voicings in order.
   */
  predicate Depicts(g: GroupView, chordName: string, definition: Option<ChordDefinition>) {
    && (g.Placeholder? <==> definition.None? || |definition.value.voicings| == 0)
    && g.heading == chordName
    && (g.Placeholder? ==> g.message == "Diagrams unavailable for " + chordName)
    && (g.Voicings? ==>
      var voicings := definition.value.voicings;
      && g.voicingCount == |voicings|
      && (g.layout == TwoColumnGrid <==> |voicings| == 4)
      && |g.diagrams| == Min(MAX_DIAGRAMS, |voicings|)
      && forall k :: 0 <= k < |g.diagrams| ==> g.diagrams[k] == RenderDiagram(voicings[k]))
  }

  /** The group for `chordName`, given what the resolver returned for it. */
  function GroupFor(chordName: string, definition: Option<ChordDefinition>): (g: GroupView)
    ensures Depicts(g, chordName, definition)
  {
    if definition.None? || |definition.value.voicings| == 0 then
      Placeholder(chordName, "Diagrams unavailable for " + chordName)
    else
      var voicings := definition.value.voicings;
      var shown := voicings[..Min(MAX_DIAGRAMS, |voicings|)];
      Voicings(
        chordName,
        |voicings|,
        if |voicings| == 4 then TwoColumnGrid else FlexWrap,
        seq(|shown|, k requires 0 <= k < |shown| => RenderDiagram(shown[k])))
  }

  /** The chord group component: one resolver call, then the view. */
  function ChordGroup(chordName: string): (g: GroupView)
    ensures Depicts(g, chordName, Resolve(chordName))
  {
    var d := Resolve(chordName);
    GroupFor(chordName, d)
  }

  /**
   * The heading never shows the resolved definition's name: every group for
   * the same input has the same heading, whatever the definition.
   */
  lemma HeadingIsInput(chordName: string, d1: Option<ChordDefinition>, d2: Option<ChordDefinition>)
    ensures GroupFor(chordName, d1).heading == GroupFor(chordName, d2).heading == chordName
  {
  }

  /** Voicings beyond the fourth change the count but not what is drawn. */
  lemma ExtraVoicingsNotDrawn(chordName: string, name: string, voicings: seq<ChordVoicing>, extra: seq<ChordVoicing>)
    requires |voicings| == 4
    ensures var g := GroupFor(chordName, Some(ChordDefinition(name, voicings + extra)));
      && g.Voicings?
      && g.voicingCount == 4 + |extra|
      && g.diagrams == GroupFor(chordName, Some(ChordDefinition(name, voicings))).diagrams
      && (g.layout == TwoColumnGrid <==> extra == [])
  {
    var g := GroupFor(chordName, Some(ChordDefinition(name, voicings + extra)));
    var h := GroupFor(chordName, Some(ChordDefinition(name, voicings)));
    assert |g.diagrams| == |h.diagrams| == 4;
    forall k | 0 <= k < 4
      ensures g.diagrams[k] == h.diagrams[k]
    {
      assert (voicings + extra)[k] == voicings[k];
    }
  }

  /**
   * With this library a group is a placeholder exactly when the normalised
   * name does not start with a root letter A to G; otherwise it is a
   * two-column grid of four diagrams.
   */
  lemma {:induction false} LibraryGroups(chordName: string)
    ensures var n := Normalize(chordName);
      ChordGroup(chordName).Placeholder? <==> |n| == 0 || !('A' <= n[0] <= 'G')
    ensures ChordGroup(chordName).Voicings? ==>
      var g := ChordGroup(chordName);
      g.voicingCount == 4 && g.layout == TwoColumnGrid && |g.diagrams| == 4
  {
    ResolvesIffRootLetter(chordName);
    var r := Resolve(chordName);
    if r.Some? {
      EntryValid(r.value.name);
    }
  }

}
