/**
 * The chord diagram: a fretboard grid of six strings and five visible frets,
 * and one decision per string of a voicing (muted, open, a fretted marker
 * with an optional finger digit, or nothing). Geometry is in exact reals.
 */
module Diagram {
  import opened Wrappers
  import opened Types
  import Library

  const NUM_FRETS_VISIBLE: int := 5
  const WIDTH: real := 84.0
  const HEIGHT: real := 104.0
  const MARGIN: real := 14.0

  /** Horizontal distance between neighbouring strings. */
  const STRING_WIDTH: real := (WIDTH - 2.0 * MARGIN) / 5.0
  /** Vertical distance between neighbouring fret lines. */
  const FRET_HEIGHT: real := (HEIGHT - 2.0 * MARGIN) / NUM_FRETS_VISIBLE as real

  datatype Line = Line(x1: real, y1: real, x2: real, y2: real)

  /** The "Nf" text to the left of the top row, showing the base fret. */
  datatype FretLabel = FretLabel(x: real, y: real, baseFret: int)

  /** The finger number written on a marker. */
  datatype FingerDigit = FingerDigit(x: real, y: real, finger: int)

  /** What one string gets. */
  datatype Mark =
    | MutedMark(x: real, y: real)
    | OpenMark(cx: real, cy: real)
    | FingerMarker(cx: real, cy: real, relativeFret: int, digit: Option<FingerDigit>)
    | NoMark

  datatype ChordDiagram = ChordDiagram(
    baseFretLabel: Option<FretLabel>,
    outline: Line,
    stringLines: seq<Line>,
    fretLines: seq<Line>,
    nut: Option<Line>,
    marks: seq<Mark>)

  /** The x coordinate of string `i`. */
  function StringX(i: int): real {
    MARGIN + i as real * STRING_WIDTH
  }

  /** The y coordinate of the `k`-th horizontal line; line 0 is the top edge of the grid. */
  function FretLineY(k: int): real {
    MARGIN + k as real * FRET_HEIGHT
  }

  /** The y coordinate of a marker on row `relativeFret`. */
  function RowY(relativeFret: int): real {
    MARGIN + (relativeFret as real - 0.5) * FRET_HEIGHT
  }

  /** The fret a number entry lands on, counted from the top of the visible window. */
  function RelativeFret(fret: int, baseFret: int): int {
    fret - baseFret + 1
  }

  /** The marker decision for string `i` of `v`. */
  function StringMark(v: ChordVoicing, i: nat): (m: Mark)
    requires i < |v.frets|
    ensures m.MutedMark? <==> v.frets[i].Muted?
    ensures m.OpenMark? <==> v.frets[i] == Number(0)
    ensures m.FingerMarker? <==>
      v.frets[i].Number? && v.frets[i].value != 0
      && 1 <= RelativeFret(v.frets[i].value, v.baseFret) <= NUM_FRETS_VISIBLE
    ensures m.MutedMark? ==> m == MutedMark(StringX(i), MARGIN - 4.0)
    ensures m.OpenMark? ==> m == OpenMark(StringX(i), MARGIN - 7.0)
    ensures m.FingerMarker? ==>
      && m.relativeFret == RelativeFret(v.frets[i].value, v.baseFret)
      && m.cx == StringX(i) && m.cy == RowY(m.relativeFret)
      && (m.digit.Some? <==> i < |v.fingers| && v.fingers[i] > 0)
      && (m.digit.Some? ==> m.digit.value == FingerDigit(m.cx, m.cy + 2.0, v.fingers[i]))
  {
    match v.frets[i]
    case Muted => MutedMark(StringX(i), MARGIN - 4.0)
    case Number(fret) =>
      if fret == 0 then OpenMark(StringX(i), MARGIN - 7.0)
      else
        var rel := RelativeFret(fret, v.baseFret);
        if rel < 1 || rel > NUM_FRETS_VISIBLE then NoMark
        else
          var digit :=
            if i < |v.fingers| && v.fingers[i] > 0
            then Some(FingerDigit(StringX(i), RowY(rel) + 2.0, v.fingers[i]))
            else None;
          FingerMarker(StringX(i), RowY(rel), rel, digit)
  }

  /** The six vertical string lines, left to right, each spanning the grid's height. */
  function StringLines(): seq<Line> {
    seq(6, i => Line(StringX(i), MARGIN, StringX(i), HEIGHT - MARGIN))
  }

  /** The five horizontal fret lines below the top edge, each spanning the grid's width. */
  function FretLines(): seq<Line> {
    seq(NUM_FRETS_VISIBLE, i => Line(MARGIN, FretLineY(i + 1), WIDTH - MARGIN, FretLineY(i + 1)))
  }

  /** The whole diagram of one voicing. */
  function RenderDiagram(v: ChordVoicing): (d: ChordDiagram)
    ensures d.baseFretLabel.Some? <==> v.baseFret > 1
    ensures d.baseFretLabel.Some? ==> d.baseFretLabel.value == FretLabel(MARGIN - 5.0, MARGIN + 10.0, v.baseFret)
    ensures d.nut.Some? <==> v.baseFret == 1
    ensures d.nut.Some? ==> d.nut.value == Line(MARGIN, MARGIN, WIDTH - MARGIN, MARGIN)
    ensures d.outline == Line(MARGIN, MARGIN, WIDTH - MARGIN, HEIGHT - MARGIN)
    ensures d.stringLines == StringLines() && d.fretLines == FretLines()
    ensures |d.marks| == |v.frets|
    ensures forall i :: 0 <= i < |v.frets| ==> d.marks[i] == StringMark(v, i)
  {
    ChordDiagram(
      if v.baseFret > 1 then Some(FretLabel(MARGIN - 5.0, MARGIN + 10.0, v.baseFret)) else None,
      Line(MARGIN, MARGIN, WIDTH - MARGIN, HEIGHT - MARGIN),
      StringLines(),
      FretLines(),
      if v.baseFret == 1 then Some(Line(MARGIN, MARGIN, WIDTH - MARGIN, MARGIN)) else None,
      seq(|v.frets|, i requires 0 <= i < |v.frets| => StringMark(v, i)))
  }

  // ---------------------------------------------------------------------------
  // Properties
  // ---------------------------------------------------------------------------

  /** The grid has 6 strings and 5 frets whatever the voicing, and the same lines for every voicing. */
  lemma GridIndependentOfVoicing(v: ChordVoicing, w: ChordVoicing)
    ensures |RenderDiagram(v).stringLines| == 6 && |RenderDiagram(v).fretLines| == 5
    ensures RenderDiagram(v).stringLines == RenderDiagram(w).stringLines
    ensures RenderDiagram(v).fretLines == RenderDiagram(w).fretLines
  {
  }

  /**
   * The lines fill the outline exactly: the outer strings are its left and
   * right edges and run from its top to its bottom, the last fret line is its
   * bottom edge, and the fret lines run from its left to its right edge.
   */
  lemma GridSpansOutline(v: ChordVoicing)
    ensures var d := RenderDiagram(v);
      && d.stringLines[0].x1 == d.outline.x1 && d.stringLines[5].x1 == d.outline.x2
      && d.stringLines[0].y1 == d.outline.y1 && d.stringLines[0].y2 == d.outline.y2
      && d.fretLines[NUM_FRETS_VISIBLE - 1].y1 == d.outline.y2
      && d.fretLines[0].x1 == d.outline.x1 && d.fretLines[0].x2 == d.outline.x2
  {
  }

  /** The label and the nut exclude each other; a voicing with base fret below 1 gets neither. */
  lemma LabelOrNut(v: ChordVoicing)
    ensures !(RenderDiagram(v).baseFretLabel.Some? && RenderDiagram(v).nut.Some?)
    ensures RenderDiagram(v).baseFretLabel.None? && RenderDiagram(v).nut.None? <==> v.baseFret < 1
  {
  }

  /**
   * A marker sits on its string line, halfway between the fret lines that
   * bound its row, and therefore inside the grid.
   */
  lemma MarkerCentredInRow(v: ChordVoicing, i: nat)
    requires i < |v.frets| && i < 6
    ensures var m := StringMark(v, i);
      m.FingerMarker? ==>
        && m.cx == StringLines()[i].x1 == StringLines()[i].x2
        && m.cy == (FretLineY(m.relativeFret - 1) + FretLineY(m.relativeFret)) / 2.0
        && FretLineY(m.relativeFret - 1) < m.cy < FretLineY(m.relativeFret)
        && MARGIN <= m.cx <= WIDTH - MARGIN
        && MARGIN < m.cy < HEIGHT - MARGIN
  {
    var m := StringMark(v, i);
    if m.FingerMarker? {
      var r := m.relativeFret;
      assert 1 <= r <= 5;
      assert 0.0 <= i as real <= 5.0;
      assert MARGIN <= m.cx <= WIDTH - MARGIN by {
        assert 0.0 <= i as real * STRING_WIDTH <= 5.0 * STRING_WIDTH;
      }
      assert MARGIN < m.cy < HEIGHT - MARGIN by {
        assert 0.5 * FRET_HEIGHT <= (r as real - 0.5) * FRET_HEIGHT <= 4.5 * FRET_HEIGHT;
      }
    }
  }

  /** The open and muted decisions depend on the entry alone: an open string is never put on the fretboard. */
  lemma OpenAndMutedIgnoreBaseFret(v: ChordVoicing, i: nat, baseFret: int)
    requires i < |v.frets|
    ensures var w := ChordVoicing(v.frets, v.fingers, baseFret);
      && (StringMark(v, i).OpenMark? ==> StringMark(w, i) == StringMark(v, i))
      && (StringMark(v, i).MutedMark? ==> StringMark(w, i) == StringMark(v, i))
      && (v.frets[i] == Number(0) ==> !StringMark(w, i).FingerMarker?)
  {
  }

  /**
   * Moving a shape up the neck: adding `d` to every fretted entry and to the
   * base fret (keeping fretted entries fretted) draws the same marks.
   */
  lemma MoveableShape(v: ChordVoicing, d: int, frets: seq<FretEntry>)
    requires |frets| == |v.frets|
    requires forall i :: 0 <= i < |frets| ==>
      if v.frets[i].Number? && v.frets[i].value != 0
      then frets[i] == Number(v.frets[i].value + d) && v.frets[i].value + d != 0
      else frets[i] == v.frets[i]
    ensures RenderDiagram(ChordVoicing(frets, v.fingers, v.baseFret + d)).marks == RenderDiagram(v).marks
  {
    var w := ChordVoicing(frets, v.fingers, v.baseFret + d);
    forall i | 0 <= i < |frets|
      ensures StringMark(w, i) == StringMark(v, i)
    {
      if v.frets[i].Number? {
        assert RelativeFret(v.frets[i].value + d, v.baseFret + d) == RelativeFret(v.frets[i].value, v.baseFret);
      }
    }
  }

  /** The second voicing of E9 (base fret 7) draws nothing on string index 2, whose fret 6 is above the window. */
  lemma E9SecondVoicingDropsString2()
    ensures var v := Library.ENTRY_E9.voicings[1];
      && v.baseFret == 7 && v.frets[2] == Number(6)
      && StringMark(v, 2) == NoMark
      && StringMark(v, 0).MutedMark?
      && forall i :: 3 <= i < 6 ==> StringMark(v, i).FingerMarker? && StringMark(v, i).relativeFret == 1
  {
  }

  /** The visible window of base fret 3 is frets 3 to 7: fret 7 is on the bottom row and fret 8 is not drawn. */
  lemma WindowOfFiveFrets(fingers: seq<int>)
    ensures StringMark(ChordVoicing([Number(7)], fingers, 3), 0).FingerMarker?
    ensures StringMark(ChordVoicing([Number(7)], fingers, 3), 0).relativeFret == 5
    ensures StringMark(ChordVoicing([Number(8)], fingers, 3), 0) == NoMark
    ensures StringMark(ChordVoicing([Number(2)], fingers, 3), 0) == NoMark
  {
  }

}
