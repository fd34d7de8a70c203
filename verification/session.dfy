/**
 The annotation session of `AnnotationCanvas`: its state record and one
 pure transition function per event handler.
 */
module Session {
  import opened Wrappers
  import opened Geometry
  import opened Labels
  import opened Shapes

  datatype Tool = Rectangle | Polygon

  /** The component's `useState` hooks, one field each. */
  datatype State = State(
    tool: Tool,
    boxes: seq<Shape>,
    newBox: Option<Rect>,
    newPolygon: seq<Point>,
    annotations: Option<Payload>,
    idCounter: nat,
    isModalOpen: bool,
    labelInput: string,
    pendingShape: Option<Geom>)

  /** The two `alert` messages, as a flag on the reply. */
  datatype Warning = TooFewVertices | EmptyLabel

  /** A transition that may also raise a warning. */
  datatype Reply = Reply(state: State, warning: Option<Warning>)

  /** The state a freshly mounted component starts in. */
  function Init(): (s: State)
    ensures s.boxes == [] && s.newPolygon == [] && s.idCounter == 1
    ensures s.newBox == None && s.pendingShape == None && !s.isModalOpen
    ensures s.tool == Rectangle && s.annotations == None && s.labelInput == ""
  {
    State(Rectangle, [], None, [], None, 1, false, "", None)
  }

  /** The tool buttons: only the tool changes; a polygon in progress or a
      rectangle being dragged is kept. */
  function SetTool(s: State, t: Tool): (s': State)
    ensures s'.tool == t
    ensures s'.(tool := s.tool) == s
  {
    s.(tool := t)
  }

  /** Typing in the label field. */
  function SetLabelInput(s: State, text: string): (s': State)
    ensures s'.labelInput == text
    ensures s'.(labelInput := s.labelInput) == s
  {
    s.(labelInput := text)
  }

  /** `handleMouseDown`: starts a zero-size rectangle at the pointer, or
      appends the pointer as the next polygon vertex. */
  function MouseDown(s: State, p: Point): (s': State)
    ensures s.tool == Rectangle ==>
      s'.newBox == Some(Rect(p.x, p.y, 0, 0)) && s'.(newBox := s.newBox) == s
    ensures s.tool == Polygon ==>
      && |s'.newPolygon| == |s.newPolygon| + 1
      && s'.newPolygon[..|s.newPolygon|] == s.newPolygon
      && s'.newPolygon[|s.newPolygon|] == p
      && s'.(newPolygon := s.newPolygon) == s
  {
    match s.tool
    case Rectangle => s.(newBox := Some(BeginRect(p)))
    case Polygon => s.(newPolygon := s.newPolygon + [p])
  }

  /** `handleMouseMove`: while dragging a rectangle, its origin stays and
      its far corner follows the pointer; otherwise nothing happens. */
  function MouseMove(s: State, p: Point): (s': State)
    ensures s.tool == Rectangle && s.newBox.Some? ==>
      && s'.newBox.Some?
      && s'.newBox.value.x == s.newBox.value.x
      && s'.newBox.value.y == s.newBox.value.y
      && s'.newBox.value.width == p.x - s.newBox.value.x
      && s'.newBox.value.height == p.y - s.newBox.value.y
      && s'.(newBox := s.newBox) == s
    ensures !(s.tool == Rectangle && s.newBox.Some?) ==> s' == s
  {
    if s.tool == Rectangle && s.newBox.Some? then s.(newBox := Some(DragTo(s.newBox.value, p)))
    else s
  }

  /** `handleMouseUp`: the dragged rectangle, sign and all, becomes the
      pending shape, the label dialog opens and the drag ends. */
  function MouseUp(s: State): (s': State)
    ensures s.tool == Rectangle && s.newBox.Some? ==>
      var b := s.newBox.value;
      && s'.pendingShape == Some(Geom(b.x, b.y, b.width, b.height, None))
      && s'.isModalOpen
      && s'.newBox == None
      && s'.(pendingShape := s.pendingShape, isModalOpen := s.isModalOpen, newBox := s.newBox) == s
    ensures !(s.tool == Rectangle && s.newBox.Some?) ==> s' == s
  {
    if s.tool == Rectangle && s.newBox.Some? then
      s.(pendingShape := Some(Freeze(s.newBox.value)), isModalOpen := true, newBox := None)
    else s
  }

  /** `handlePolygonComplete`: with three or more vertices, their bounding
      box and the vertices themselves become the pending shape and the
      polygon in progress is emptied; with fewer, a warning and no change. */
  function CompletePolygon(s: State): (r: Reply)
    ensures |s.newPolygon| < 3 <==> r.warning == Some(TooFewVertices)
    ensures |s.newPolygon| < 3 ==> r.state == s
    ensures |s.newPolygon| >= 3 ==>
      && r.warning == None
      && r.state.pendingShape.Some?
      && r.state.pendingShape.value.points == Some(s.newPolygon)
      && IsBoundingBox(r.state.pendingShape.value, s.newPolygon)
      && r.state.pendingShape.value.width >= 0
      && r.state.pendingShape.value.height >= 0
      && r.state.isModalOpen
      && r.state.newPolygon == []
      && r.state.(pendingShape := s.pendingShape, isModalOpen := s.isModalOpen, newPolygon := s.newPolygon) == s
  {
    if |s.newPolygon| > 2 then
      Reply(s.(pendingShape := Some(PolygonBox(s.newPolygon)), isModalOpen := true, newPolygon := []), None)
    else
      Reply(s, Some(TooFewVertices))
  }

  /** `saveShape`: a blank label is refused with a warning and nothing
      changes; otherwise one shape carrying the next id, the label as typed
      and the pending geometry goes on the end of `boxes`, the counter moves
      on, and the dialog, the label field and the pending shape are reset. */
  function SaveShape(s: State): (r: Reply)
    ensures IsBlank(s.labelInput) <==> r.warning == Some(EmptyLabel)
    ensures IsBlank(s.labelInput) ==> r.state == s
    ensures !IsBlank(s.labelInput) ==>
      && r.warning == None
      && |r.state.boxes| == |s.boxes| + 1
      && r.state.boxes[..|s.boxes|] == s.boxes
      && r.state.boxes[|s.boxes|].id == s.idCounter
      && r.state.boxes[|s.boxes|].name == s.labelInput
      && r.state.boxes[|s.boxes|].geom == s.pendingShape
      && r.state.idCounter == s.idCounter + 1
      && r.state.pendingShape == None
      && !r.state.isModalOpen
      && r.state.labelInput == ""
      && r.state.(boxes := s.boxes, idCounter := s.idCounter, pendingShape := s.pendingShape,
                  isModalOpen := s.isModalOpen, labelInput := s.labelInput) == s
  {
    if IsBlank(s.labelInput) then Reply(s, Some(EmptyLabel))
    else
      var shape := Shape(s.idCounter, s.labelInput, s.pendingShape);
      Reply(s.(boxes := s.boxes + [shape], idCounter := s.idCounter + 1,
               isModalOpen := false, labelInput := "", pendingShape := None), None)
  }

  /** The dialog's Cancel button: closes the dialog and nothing else; the
      pending shape stays. */
  function Cancel(s: State): (s': State)
    ensures !s'.isModalOpen
    ensures s'.pendingShape == s.pendingShape
    ensures s'.(isModalOpen := s.isModalOpen) == s
  {
    s.(isModalOpen := false)
  }

  /** `undoLastAction`: in the polygon tool with vertices placed, drops the
      last vertex; otherwise drops the last shape if there is one; otherwise
      does nothing. The id counter is never touched. */
  function Undo(s: State): (s': State)
    ensures s'.idCounter == s.idCounter
    ensures s.tool == Polygon && s.newPolygon != [] ==>
      && s'.newPolygon == s.newPolygon[..|s.newPolygon| - 1]
      && s'.(newPolygon := s.newPolygon) == s
    ensures !(s.tool == Polygon && s.newPolygon != []) && s.boxes != [] ==>
      && s'.boxes == s.boxes[..|s.boxes| - 1]
      && s'.(boxes := s.boxes) == s
    ensures !(s.tool == Polygon && s.newPolygon != []) && s.boxes == [] ==> s' == s
  {
    if s.tool == Polygon && |s.newPolygon| > 0 then s.(newPolygon := s.newPolygon[..|s.newPolygon| - 1])
    else if |s.boxes| > 0 then s.(boxes := s.boxes[..|s.boxes| - 1])
    else s
  }

  /** `exportAnnotations`: shows the payload of the current shapes. */
  function ExportAnnotations(s: State): (s': State)
    ensures s'.annotations.Some?
    ensures s'.annotations.value.boxes == s.boxes
    ensures s'.annotations.value.width == 800 && s'.annotations.value.height == 600
    ensures s'.(annotations := s.annotations) == s
  {
    s.(annotations := Some(BuildPayload(s.boxes)))
  }

  /** The data `exportJsonFile` writes: the payload of the current shapes. */
  function ExportJson(s: State): (p: Payload)
    ensures p.boxes == s.boxes && p.width == 800 && p.height == 600
  {
    BuildPayload(s.boxes)
  }

  /** `clearAnnotations`: empties the shapes, the drag, the polygon and the
      shown payload; the tool, id counter, dialog, label field and pending
      shape are left as they are. */
  function Clear(s: State): (s': State)
    ensures s'.boxes == [] && s'.newBox == None && s'.newPolygon == [] && s'.annotations == None
    ensures s'.idCounter == s.idCounter
    ensures s'.pendingShape == s.pendingShape && s'.isModalOpen == s.isModalOpen
    ensures s'.tool == s.tool && s'.labelInput == s.labelInput
  {
    s.(boxes := [], newBox := None, newPolygon := [], annotations := None)
  }
}
