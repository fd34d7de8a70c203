/**
 Whole sessions driven through `Machine.Run`, and concrete cases in
 hundredths of a pixel: the canvas point (10, 10) is `Point(1000, 1000)`.
 */
module Scenarios {
  import opened Wrappers
  import opened Geometry
  import opened Labels
  import opened Shapes
  import opened Session
  import opened Machine

  lemma Run2(s: State, a: Event, b: Event)
    ensures Run(s, [a, b]) == Step(Step(s, a), b)
  {
    assert [a, b][1..] == [b] && [b][1..] == [];
    assert Run(s, [a, b]) == Run(Step(s, a), [b]);
    assert Run(Step(s, a), [b]) == Run(Step(Step(s, a), b), []);
  }

  lemma Run3(s: State, a: Event, b: Event, c: Event)
    ensures Run(s, [a, b, c]) == Step(Step(Step(s, a), b), c)
  {
    assert [a, b, c][1..] == [b, c];
    assert Run(s, [a, b, c]) == Run(Step(s, a), [b, c]);
    Run2(Step(s, a), b, c);
  }

  lemma Run4(s: State, a: Event, b: Event, c: Event, d: Event)
    ensures Run(s, [a, b, c, d]) == Step(Step(Step(Step(s, a), b), c), d)
  {
    assert [a, b, c, d][1..] == [b, c, d];
    assert Run(s, [a, b, c, d]) == Run(Step(s, a), [b, c, d]);
    Run3(Step(s, a), b, c, d);
  }

  /** Choosing the rectangle tool, pressing at `p`, moving to `q` and
      releasing leaves the dragged rectangle pending with the dialog open. */
  lemma DragSteps(s: State, p: Point, q: Point)
    requires !s.isModalOpen
    ensures var t := Run(s, [ChooseTool(Rectangle), PointerDown(p), PointerMove(q), PointerUp]);
      && t.pendingShape == Some(Geom(p.x, p.y, q.x - p.x, q.y - p.y, None))
      && t.isModalOpen && t.boxes == s.boxes && t.idCounter == s.idCounter
  {
    Run4(s, ChooseTool(Rectangle), PointerDown(p), PointerMove(q), PointerUp);
    var s1 := Step(s, ChooseTool(Rectangle));
    assert s1 == SetTool(s, Rectangle);
    var s2 := Step(s1, PointerDown(p));
    assert s2 == MouseDown(s1, p);
    var s3 := Step(s2, PointerMove(q));
    assert s3 == MouseMove(s2, q);
    assert Step(s3, PointerUp) == MouseUp(s3);
  }

  /** Choosing the polygon tool and clicking three points places exactly
      those three vertices. */
  lemma ClickSteps(s: State, pts: seq<Point>)
    requires s.newPolygon == [] && !s.isModalOpen && |pts| == 3
    ensures var t := Run(s, [ChooseTool(Polygon), PointerDown(pts[0]), PointerDown(pts[1]), PointerDown(pts[2])]);
      t.newPolygon == pts && t.boxes == s.boxes && t.idCounter == s.idCounter && !t.isModalOpen
  {
    Run4(s, ChooseTool(Polygon), PointerDown(pts[0]), PointerDown(pts[1]), PointerDown(pts[2]));
    var s1 := Step(s, ChooseTool(Polygon));
    assert s1 == SetTool(s, Polygon);
    var s2 := Step(s1, PointerDown(pts[0]));
    assert s2 == MouseDown(s1, pts[0]);
    var s3 := Step(s2, PointerDown(pts[1]));
    assert s3 == MouseDown(s2, pts[1]);
    assert Step(s3, PointerDown(pts[2])) == MouseDown(s3, pts[2]);
    assert [pts[0]] + [pts[1]] + [pts[2]] == pts;
  }

  /** Completing three or more vertices leaves their box pending with the
      dialog open. */
  lemma CompleteStep(s: State)
    requires |s.newPolygon| >= 3 && !s.isModalOpen
    ensures var t := Step(s, CompleteClick);
      && t.pendingShape == Some(PolygonBox(s.newPolygon))
      && t.isModalOpen && t.boxes == s.boxes && t.idCounter == s.idCounter
  {
    assert Enabled(s, CompleteClick);
    assert Step(s, CompleteClick) == CompletePolygon(s).state;
  }

  /** Saving in the open dialog with a non-blank label appends the pending
      shape with the next id. */
  lemma SaveStep(s: State)
    requires s.isModalOpen && !IsBlank(s.labelInput)
    ensures Step(s, SaveClick).boxes == s.boxes + [Shape(s.idCounter, s.labelInput, s.pendingShape)]
  {
    assert Enabled(s, SaveClick);
    assert Step(s, SaveClick) == SaveShape(s).state;
  }

  /** Typing in the open dialog only replaces the label field. */
  lemma TypeStep(s: State, text: string)
    requires s.isModalOpen
    ensures Step(s, TypeLabel(text)) == s.(labelInput := text)
  {
    assert Enabled(s, TypeLabel(text));
  }

  /** Typing a non-blank label in the open dialog and saving appends the
      pending shape with the next id. */
  lemma LabelSteps(s: State, text: string)
    requires s.isModalOpen && !IsBlank(text)
    ensures Run(s, [TypeLabel(text), SaveClick]).boxes
            == s.boxes + [Shape(s.idCounter, text, s.pendingShape)]
  {
    Run2(s, TypeLabel(text), SaveClick);
    TypeStep(s, text);
    SaveStep(s.(labelInput := text));
  }

  /** A whole rectangle session: choose the rectangle tool, drag from `p`
      to `q`, type a non-blank label and save. One shape is appended with
      the next id, the label and the rectangle from `p` to `q`. */
  lemma RectangleSession(s: State, p: Point, q: Point, text: string)
    requires !s.isModalOpen && !IsBlank(text)
    ensures Run(s, [ChooseTool(Rectangle), PointerDown(p), PointerMove(q), PointerUp,
                    TypeLabel(text), SaveClick]).boxes
            == s.boxes + [Shape(s.idCounter, text, Some(Geom(p.x, p.y, q.x - p.x, q.y - p.y, None)))]
  {
    var drag := [ChooseTool(Rectangle), PointerDown(p), PointerMove(q), PointerUp];
    var naming := [TypeLabel(text), SaveClick];
    assert drag + naming == [ChooseTool(Rectangle), PointerDown(p), PointerMove(q), PointerUp,
                            TypeLabel(text), SaveClick];
    RunAppend(s, drag, naming);
    DragSteps(s, p, q);
    LabelSteps(Run(s, drag), text);
  }

  /** Drag from (10, 10) to (110, 60) and save as "cat": one shape with id
      1 at (10, 10), 100 wide and 50 high. */
  lemma RectangleScenario()
    ensures Run(Init(), [ChooseTool(Rectangle), PointerDown(Point(1000, 1000)),
                         PointerMove(Point(11000, 6000)), PointerUp, TypeLabel("cat"), SaveClick]).boxes
            == [Shape(1, "cat", Some(Geom(1000, 1000, 10000, 5000, None)))]
  {
    assert !IsBlank("cat") by {
      assert !IsWhitespace('c');
    }
    RectangleSession(Init(), Point(1000, 1000), Point(11000, 6000), "cat");
  }

  /** A whole polygon session: choose the polygon tool, click three
      vertices, complete, type a non-blank label and save. One shape is
      appended with the next id, the label, the vertices and their bounding
      box. */
  lemma PolygonSession(s: State, pts: seq<Point>, text: string)
    requires s.newPolygon == [] && !s.isModalOpen && |pts| == 3 && !IsBlank(text)
    ensures Run(s, [ChooseTool(Polygon), PointerDown(pts[0]), PointerDown(pts[1]),
                    PointerDown(pts[2]), CompleteClick, TypeLabel(text), SaveClick]).boxes
            == s.boxes + [Shape(s.idCounter, text, Some(PolygonBox(pts)))]
  {
    var draw := [ChooseTool(Polygon), PointerDown(pts[0]), PointerDown(pts[1]), PointerDown(pts[2])];
    PolygonRunSplit(s, draw, text);
    ClickSteps(s, pts);
    CompleteStep(Run(s, draw));
    LabelSteps(Step(Run(s, draw), CompleteClick), text);
  }

  /** The polygon session's run, cut after the clicks and after completion. */
  lemma PolygonRunSplit(s: State, draw: seq<Event>, text: string)
    requires |draw| == 4
    ensures Run(s, [draw[0], draw[1], draw[2], draw[3], CompleteClick, TypeLabel(text), SaveClick])
            == Run(Step(Run(s, draw), CompleteClick), [TypeLabel(text), SaveClick])
  {
    var finish := [CompleteClick, TypeLabel(text), SaveClick];
    assert draw + finish == [draw[0], draw[1], draw[2], draw[3], CompleteClick, TypeLabel(text), SaveClick];
    RunAppend(s, draw, finish);
    assert finish == [CompleteClick] + [TypeLabel(text), SaveClick];
    RunAppend(Run(s, draw), [CompleteClick], [TypeLabel(text), SaveClick]);
    assert Run(Run(s, draw), [CompleteClick]) == Run(Step(Run(s, draw), CompleteClick), []);
  }

  /** The triangle of clicks (0, 0), (10, 0), (10, 10) has the box at
      (0, 0), 10 by 10. */
  lemma TriangleBox(pts: seq<Point>)
    requires pts == [Point(0, 0), Point(1000, 0), Point(1000, 1000)]
    ensures PolygonBox(pts) == Geom(0, 0, 1000, 1000, Some(pts))
  {
    var g := Geom(0, 0, 1000, 1000, Some(pts));
    assert IsBoundingBox(g, pts) by {
      assert pts[0].x == g.x && pts[1].x == g.x + g.width;
      assert pts[0].y == g.y && pts[2].y == g.y + g.height;
    }
    BoxOf(pts, g);
  }

  /** Click (0, 0), (10, 0), (10, 10), complete and save as "poly": the
      shape keeps the three vertices and gets the box at (0, 0), 10 by 10. */
  lemma PolygonScenario(pts: seq<Point>)
    requires pts == [Point(0, 0), Point(1000, 0), Point(1000, 1000)]
    ensures Run(Init(), [ChooseTool(Polygon), PointerDown(pts[0]), PointerDown(pts[1]),
                         PointerDown(pts[2]), CompleteClick, TypeLabel("poly"), SaveClick]).boxes
            == [Shape(1, "poly", Some(Geom(0, 0, 1000, 1000, Some(pts))))]
  {
    assert !IsBlank("poly") by {
      assert !IsWhitespace('p');
    }
    PolygonSession(Init(), pts, "poly");
    TriangleBox(pts);
  }

  /** Completing a polygon of two vertices fails and changes nothing. */
  lemma TwoVertexScenario(s: State, p: Point, q: Point)
    requires s.tool == Polygon && s.newPolygon == []
    ensures var t := MouseDown(MouseDown(s, p), q);
      && CompletePolygon(t).warning == Some(TooFewVertices)
      && CompletePolygon(t).state == t
      && |t.newPolygon| == 2
      && t.boxes == s.boxes
  {
  }

  /** Shapes labelled "cat", "dog", "cat" summarise as cat: 2, dog: 1. */
  lemma SummaryScenario(g: Option<Geom>)
    ensures LabelSummary([Shape(1, "cat", g), Shape(2, "dog", g), Shape(3, "cat", g)])
            == [Entry("cat", 2), Entry("dog", 1)]
  {
    var boxes := [Shape(1, "cat", g), Shape(2, "dog", g), Shape(3, "cat", g)];
    assert LabelsOf(boxes) == ["cat", "dog", "cat"];
    assert ["cat", "dog", "cat"][..2] == ["cat", "dog"];
    assert ["cat", "dog"][..1] == ["cat"];
    assert ["cat"][..0] == [];
    assert Summary(["cat"]) == [Entry("cat", 1)];
    assert Bump([Entry("cat", 1)], "dog") == [Entry("cat", 1)] + Bump([], "dog");
    assert Summary(["cat", "dog"]) == [Entry("cat", 1), Entry("dog", 1)];
    assert Bump([Entry("cat", 1), Entry("dog", 1)], "cat") == [Entry("cat", 2), Entry("dog", 1)];
  }

  /** Clear empties the shapes but keeps a pending shape left by Cancel:
      after a drag, Cancel and Clear, the pending rectangle is still there
      and the counter is still 1. */
  lemma ClearKeepsPendingScenario()
    ensures var t := Run(Init(), [PointerDown(Point(0, 0)), PointerUp, CancelClick, ClearClick]);
      && t.boxes == []
      && t.pendingShape == Some(Geom(0, 0, 0, 0, None))
      && !t.isModalOpen
      && t.idCounter == 1
  {
    var s1 := Step(Init(), PointerDown(Point(0, 0)));
    var s2 := Step(s1, PointerUp);
    var s3 := Step(s2, CancelClick);
    var s4 := Step(s3, ClearClick);
    assert Run(s4, []) == s4;
  }
}
