/**
 The session driven by user events. `Step` hands an event to its handler
 when the rendered interface lets it through: while the label dialog is
 open its full-screen overlay takes every mouse event, so the stage sees
 no press, move or release, but the toolbar buttons stay in the tab order
 and still respond to the keyboard; the dialog's controls exist only while
 it is open, and a disabled toolbar button ignores activation.
 */
module Machine {
  import opened Wrappers
  import opened Geometry
  import opened Labels
  import opened Shapes
  import opened Session

  datatype Event =
    | ChooseTool(tool: Tool)
    | PointerDown(at: Point)
    | PointerMove(at: Point)
    | PointerUp
    | CompleteClick
    | TypeLabel(text: string)
    | SaveClick
    | CancelClick
    | UndoClick
    | ExportClick
    | ClearClick

  /** Whether the control that raises `e` is present and enabled: the
      stage only when no overlay covers it, the dialog's field and buttons
      only while the dialog is open, and Complete, Undo and Export only when
      their `disabled` attribute is false. */
  predicate Enabled(s: State, e: Event)
  {
    match e
    case PointerDown(_) => !s.isModalOpen
    case PointerMove(_) => !s.isModalOpen
    case PointerUp => !s.isModalOpen
    case TypeLabel(_) => s.isModalOpen
    case SaveClick => s.isModalOpen
    case CancelClick => s.isModalOpen
    case CompleteClick => |s.newPolygon| >= 3
    case UndoClick => !(s.boxes == [] && s.newPolygon == [])
    case ExportClick => |s.boxes| > 0
    case ChooseTool(_) => true
    case ClearClick => true
  }

  function Handle(s: State, e: Event): State
  {
    match e
    case ChooseTool(t) => SetTool(s, t)
    case PointerDown(p) => MouseDown(s, p)
    case PointerMove(p) => MouseMove(s, p)
    case PointerUp => MouseUp(s)
    case CompleteClick => CompletePolygon(s).state
    case TypeLabel(text) => SetLabelInput(s, text)
    case SaveClick => SaveShape(s).state
    case CancelClick => Cancel(s)
    case UndoClick => Undo(s)
    case ExportClick => ExportAnnotations(s)
    case ClearClick => Clear(s)
  }

  function Step(s: State, e: Event): State
  {
    if Enabled(s, e) then Handle(s, e) else s
  }

  /** The state after a sequence of events, in order. */
  function Run(s: State, es: seq<Event>): State
    decreases |es|
  {
    if es == [] then s else Run(Step(s, es[0]), es[1..])
  }

  /** Running two event lists one after the other is running their
      concatenation. */
  lemma {:induction false} RunAppend(s: State, a: seq<Event>, b: seq<Event>)
    ensures Run(s, a + b) == Run(Run(s, a), b)
    decreases |a|
  {
    if a == [] {
      assert a + b == b;
    } else {
      assert (a + b)[0] == a[0];
      assert (a + b)[1..] == a[1..] + b;
      RunAppend(Step(s, a[0]), a[1..], b);
    }
  }

  /** Pending or committed polygon geometry is the bounding box of at least
      three vertices; rectangle geometry may have any sign. */
  ghost predicate WellFormed(g: Geom)
  {
    g.points.Some? ==> |g.points.value| >= 3 && IsBoundingBox(g, g.points.value)
  }

  /** A committed shape: an id already issued, a label that is not blank,
      and well-formed geometry. */
  ghost predicate ShapeOk(b: Shape, counter: nat)
  {
    1 <= b.id < counter && !IsBlank(b.name) && b.geom.Some? && WellFormed(b.geom.value)
  }

  /** The shape list: ids strictly increasing and every shape well formed. */
  ghost predicate StoreOk(boxes: seq<Shape>, counter: nat)
  {
    && counter >= 1
    && IdsIncreasing(boxes)
    && (forall i :: 0 <= i < |boxes| ==> ShapeOk(boxes[i], counter))
  }

  /** An open dialog always has a pending shape, and that shape is well
      formed. */
  ghost predicate PendingOk(open: bool, pending: Option<Geom>)
  {
    && (open ==> pending.Some?)
    && (pending.Some? ==> WellFormed(pending.value))
  }

  /** What holds in every state the interface can reach. */
  ghost predicate Inv(s: State)
  {
    StoreOk(s.boxes, s.idCounter) && PendingOk(s.isModalOpen, s.pendingShape)
  }

  lemma InitInv()
    ensures Inv(Init())
  {
  }

  /** Appending a well-formed shape carrying the counter, and advancing the
      counter, keeps the shape list well formed. */
  lemma StoreAppend(boxes: seq<Shape>, counter: nat, b: Shape)
    requires StoreOk(boxes, counter)
    requires b.id == counter && !IsBlank(b.name) && b.geom.Some? && WellFormed(b.geom.value)
    ensures StoreOk(boxes + [b], counter + 1)
  {
    var r := boxes + [b];
    forall i | 0 <= i < |r|
      ensures ShapeOk(r[i], counter + 1)
    {
      if i < |boxes| {
        assert r[i] == boxes[i];
      }
    }
    forall i, j | 0 <= i < j < |r|
      ensures r[i].id < r[j].id
    {
      assert r[i] == boxes[i];
      if j < |boxes| {
        assert r[j] == boxes[j];
      }
    }
  }

  /** Any prefix of a well-formed shape list is well formed. */
  lemma StorePrefix(boxes: seq<Shape>, counter: nat, n: nat)
    requires StoreOk(boxes, counter)
    requires n <= |boxes|
    ensures StoreOk(boxes[..n], counter)
  {
    assert forall i :: 0 <= i < n ==> boxes[..n][i] == boxes[i];
  }

  lemma SaveInv(s: State)
    requires Inv(s)
    requires s.isModalOpen
    ensures Inv(SaveShape(s).state)
  {
    if !IsBlank(s.labelInput) {
      var s' := SaveShape(s).state;
      StoreAppend(s.boxes, s.idCounter, Shape(s.idCounter, s.labelInput, s.pendingShape));
      assert s'.boxes == s.boxes + [Shape(s.idCounter, s.labelInput, s.pendingShape)];
    }
  }

  lemma UndoInv(s: State)
    requires Inv(s)
    ensures Inv(Undo(s))
  {
    if !(s.tool == Polygon && s.newPolygon != []) && s.boxes != [] {
      StorePrefix(s.boxes, s.idCounter, |s.boxes| - 1);
    }
  }

  lemma CompleteInv(s: State)
    requires Inv(s)
    ensures Inv(CompletePolygon(s).state)
  {
  }

  /** A transition that keeps the shapes, the counter, the dialog flag and
      the pending shape keeps the invariant. */
  lemma SameStoreInv(s: State, s': State)
    requires Inv(s)
    requires s'.boxes == s.boxes && s'.idCounter == s.idCounter
    requires s'.isModalOpen == s.isModalOpen && s'.pendingShape == s.pendingShape
    ensures Inv(s')
  {
  }

  /** Every event keeps the invariant. */
  lemma StepInv(s: State, e: Event)
    requires Inv(s)
    ensures Inv(Step(s, e))
  {
    if Enabled(s, e) {
      match e {
        case SaveClick => SaveInv(s);
        case UndoClick => UndoInv(s);
        case CompleteClick => CompleteInv(s);
        case PointerUp =>
          var s' := MouseUp(s);
          assert StoreOk(s'.boxes, s'.idCounter);
        case ClearClick =>
          assert StoreOk(Clear(s).boxes, Clear(s).idCounter);
        case CancelClick =>
          assert PendingOk(Cancel(s).isModalOpen, Cancel(s).pendingShape);
        case _ => SameStoreInv(s, Step(s, e));
      }
    }
  }

  /** Every state reached from the initial one satisfies the invariant. */
  lemma {:induction false} RunInv(s: State, es: seq<Event>)
    requires Inv(s)
    ensures Inv(Run(s, es))
    decreases |es|
  {
    if es != [] {
      StepInv(s, es[0]);
      RunInv(Step(s, es[0]), es[1..]);
    }
  }

  /** In every reachable state the ids are strictly increasing, every label
      is non-blank, and every shape has geometry. */
  lemma ReachableShapes(es: seq<Event>)
    ensures IdsIncreasing(Run(Init(), es).boxes)
    ensures forall i :: 0 <= i < |Run(Init(), es).boxes| ==>
              !IsBlank(Run(Init(), es).boxes[i].name) && Run(Init(), es).boxes[i].geom.Some?
  {
    InitInv();
    RunInv(Init(), es);
  }

  /** One event keeps or advances the id counter by one, and every shape
      after it was there before or carries the counter's old value. */
  lemma StepIds(s: State, e: Event)
    ensures s.idCounter <= Step(s, e).idCounter <= s.idCounter + 1
    ensures forall b :: b in Step(s, e).boxes ==> b in s.boxes || b.id == s.idCounter
  {
    var s' := Step(s, e);
    if Enabled(s, e) && e.UndoClick? && s'.boxes != s.boxes {
      forall b | b in s'.boxes
        ensures b in s.boxes
      {
        var i :| 0 <= i < |s'.boxes| && s'.boxes[i] == b;
        assert s.boxes[i] == b;
      }
    }
  }

  /** The id counter never decreases, and no id below its starting value is
      ever issued again: any shape that carries one was already there at the
      start, so an id removed by undo or clear never comes back. */
  lemma {:induction false} NoIdReissued(s: State, es: seq<Event>)
    ensures Run(s, es).idCounter >= s.idCounter
    ensures forall b :: b in Run(s, es).boxes && b.id < s.idCounter ==> b in s.boxes
    decreases |es|
  {
    if es != [] {
      var s1 := Step(s, es[0]);
      StepIds(s, es[0]);
      NoIdReissued(s1, es[1..]);
    }
  }

  /** Undo takes back exactly one unit of work: one vertex in the polygon
      tool, otherwise one shape, or nothing at all when neither exists. */
  lemma UndoOneUnit(s: State)
    ensures var s' := Undo(s);
      if (s.tool == Polygon && s.newPolygon != []) || s.boxes != [] then
        |s'.newPolygon| + |s'.boxes| == |s.newPolygon| + |s.boxes| - 1
      else s' == s
  {
  }

  /** Undo right after a polygon click removes that vertex and restores the
      state exactly. */
  lemma UndoVertex(s: State, p: Point)
    requires s.tool == Polygon
    ensures Undo(MouseDown(s, p)) == s
  {
    assert (s.newPolygon + [p])[..|s.newPolygon|] == s.newPolygon;
  }

  /** Undo right after a save removes the new shape but not its id: the
      shapes are as before and the counter stays advanced. */
  lemma UndoSave(s: State)
    requires !IsBlank(s.labelInput)
    requires s.tool == Rectangle || s.newPolygon == []
    ensures Undo(SaveShape(s).state).boxes == s.boxes
    ensures Undo(SaveShape(s).state).idCounter == s.idCounter + 1
  {
  }

  /** A full rectangle drag: press at `p`, move to `q`, release. The pending
      shape starts at `p` and its far corner is `q`, even when `q` lies above
      or left of `p`. */
  lemma DragGesture(s: State, p: Point, q: Point)
    requires s.tool == Rectangle
    ensures var t := MouseUp(MouseMove(MouseDown(s, p), q));
      && t.pendingShape.Some?
      && t.pendingShape.value.points == None
      && t.pendingShape.value.x == p.x && t.pendingShape.value.y == p.y
      && t.pendingShape.value.x + t.pendingShape.value.width == q.x
      && t.pendingShape.value.y + t.pendingShape.value.height == q.y
      && t.newBox == None && t.isModalOpen && t.boxes == s.boxes
  {
  }

  /** Clearing is idempotent and keeps the id counter. */
  lemma ClearIdempotent(s: State)
    ensures Clear(Clear(s)) == Clear(s)
    ensures Clear(s).idCounter == s.idCounter
  {
  }

  /** Exporting twice in a row shows the same payload, and the payload does
      not depend on anything but the shapes. */
  lemma ExportStable(s: State, t: State)
    ensures ExportAnnotations(ExportAnnotations(s)) == ExportAnnotations(s)
    ensures s.boxes == t.boxes ==> ExportJson(s) == ExportJson(t)
  {
  }

  /** While the dialog is open the overlay takes every mouse event: no
      press, move or release on the stage changes anything. */
  lemma OverlayBlocksStage(s: State, p: Point)
    requires s.isModalOpen
    ensures Step(s, PointerDown(p)) == s
    ensures Step(s, PointerMove(p)) == s
    ensures Step(s, PointerUp) == s
  {
  }

  /** Once open, the dialog closes only through its own Save or Cancel: no
      toolbar action reached by the keyboard closes it. */
  lemma DialogClosesOnlyItself(s: State, e: Event)
    requires s.isModalOpen && !Step(s, e).isModalOpen
    ensures e.SaveClick? || e.CancelClick?
  {
  }

  /** The toolbar still answers the keyboard while the dialog is open: undo
      there drops the last shape but keeps the dialog, the pending shape and
      the counter, so the next save still uses a fresh id. */
  lemma UndoDuringDialog(s: State)
    requires s.isModalOpen && s.boxes != []
    requires s.tool == Rectangle || s.newPolygon == []
    ensures var t := Step(s, UndoClick);
      && t.boxes == s.boxes[..|s.boxes| - 1]
      && t.isModalOpen && t.pendingShape == s.pendingShape
      && t.idCounter == s.idCounter
  {
    assert Enabled(s, UndoClick);
  }

  /** Complete also answers the keyboard while the dialog is open, as its
      `disabled` attribute looks only at the vertex count. It replaces the
      pending shape with the polygon's box, silently discarding a pending
      rectangle, and the dialog stays open. */
  lemma CompleteDuringDialog(s: State)
    requires s.isModalOpen && |s.newPolygon| >= 3
    ensures var t := Step(s, CompleteClick);
      && t.isModalOpen && t.newPolygon == [] && t.boxes == s.boxes
      && t.pendingShape == Some(PolygonBox(s.newPolygon))
      && (s.pendingShape.Some? && s.pendingShape.value.points == None ==> t.pendingShape != s.pendingShape)
  {
    assert Enabled(s, CompleteClick);
    assert Step(s, CompleteClick) == CompletePolygon(s).state;
  }
}
