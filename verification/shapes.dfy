/**
 Committed shapes (`boxes`), the export payload and the label summary.
 */
module Shapes {
  import opened Wrappers
  import opened Geometry
  import opened Labels

  /** One entry of `boxes`: `{ id, label, ...pendingShape }`. The id is the
      counter value before `toString`; the label is kept as typed, untrimmed
      (`name`, since `label` is a Dafny keyword). Spreading a `null` pending
      shape adds no fields, hence the optional geometry. */
  datatype Shape = Shape(id: nat, name: string, geom: Option<Geom>)

  /** Ids strictly increase along the list, so they are also unique. */
  ghost predicate IdsIncreasing(boxes: seq<Shape>)
  {
    forall i, j :: 0 <= i < j < |boxes| ==> boxes[i].id < boxes[j].id
  }

  /** The export object `{ boxes, width, height }`. */
  datatype Payload = Payload(boxes: seq<Shape>, width: int, height: int)

  /** The nominal canvas size written into every export. */
  const ExportWidth: int := 800
  const ExportHeight: int := 600

  /** The payload of `exportAnnotations` and `exportJsonFile`. */
  function BuildPayload(boxes: seq<Shape>): (p: Payload)
    ensures p.boxes == boxes
    ensures p.width == 800 && p.height == 600
  {
    Payload(boxes, ExportWidth, ExportHeight)
  }

  function LabelsOf(boxes: seq<Shape>): (ls: seq<string>)
    ensures |ls| == |boxes|
    ensures forall i :: 0 <= i < |boxes| ==> ls[i] == boxes[i].name
  {
    seq(|boxes|, i requires 0 <= i < |boxes| => boxes[i].name)
  }

  /** `getLabelSummary`: one entry per label in use, counted from zero for
      every label (`Tally.ObjectSummary` is the count as written). */
  function LabelSummary(boxes: seq<Shape>): seq<Entry>
  {
    Summary(LabelsOf(boxes))
  }

  /** The summary lists each label used by some shape exactly once, never a
      label no shape has, with the number of shapes carrying it; the counts
      add up to the number of shapes. */
  lemma LabelSummaryCorrect(boxes: seq<Shape>)
    ensures DistinctLabels(LabelSummary(boxes))
    ensures forall i :: 0 <= i < |boxes| ==> boxes[i].name in Keys(LabelSummary(boxes))
    ensures forall k :: k in Keys(LabelSummary(boxes)) ==> exists i :: 0 <= i < |boxes| && boxes[i].name == k
    ensures forall i :: 0 <= i < |LabelSummary(boxes)| ==>
              LabelSummary(boxes)[i].count == Occurrences(LabelsOf(boxes), LabelSummary(boxes)[i].name)
    ensures Total(LabelSummary(boxes)) == |boxes|
  {
    var ls := LabelsOf(boxes);
    var r := LabelSummary(boxes);
    SummaryCorrect(ls);
    forall i | 0 <= i < |boxes|
      ensures boxes[i].name in Keys(r)
    {
      assert ls[i] in ls;
    }
    forall k | k in Keys(r)
      ensures exists i :: 0 <= i < |boxes| && boxes[i].name == k
    {
      assert k in ls;
      var i :| 0 <= i < |ls| && ls[i] == k;
      assert boxes[i].name == k;
    }
  }
}
