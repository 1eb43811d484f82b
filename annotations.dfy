/** User-drawn annotations: the records kept in `static_boxes`, the strict
    hit-test used to select one, and the list edits the editor performs. */
module Annotations {

  datatype Option<T> = None | Some(value: T)

  /** A pointer position in frame pixels, as OpenCV passes it to the mouse callback. */
  datatype Point = Point(x: int, y: int)

  /** The stored `box` tuple `(x1, y1, x2, y2)`. The corners are kept exactly as
      they were dragged: nothing orders them, so `x1 > x2` or `y1 > y2` is possible. */
  datatype Rect = Rect(x1: int, y1: int, x2: int, y2: int)

  /** One entry of the annotation list: `{'box': (x1, y1, x2, y2), 'label': text}`
      (`label` is a Dafny keyword, so the field is called `text`). */
  datatype Annotation = Annotation(box: Rect, text: string)

  /** Label text the editor starts with. */
  const DefaultLabel: string := "Object"

  /** A drag must move strictly more than this many pixels along each axis. */
  const MinDrag: int := 5

  /** The hit-test: the point lies strictly inside the rectangle. */
  predicate Contains(r: Rect, x: int, y: int) {
    r.x1 < x < r.x2 && r.y1 < y < r.y2
  }

  function Abs(n: int): (r: nat) {
    if n < 0 then -n else n
  }

  /** A release at (x, y) after pressing at `start` counts as a drag, not a click. */
  predicate IsDrag(start: Point, x: int, y: int) {
    Abs(start.x - x) > MinDrag && Abs(start.y - y) > MinDrag
  }

  /** The index of the first annotation, in list order, whose box contains (x, y). */
  function FirstHit(boxes: seq<Annotation>, x: int, y: int): (r: Option<nat>)
    ensures r.Some? ==> r.value < |boxes| && Contains(boxes[r.value].box, x, y)
    ensures r.Some? ==> forall j :: 0 <= j < r.value ==> !Contains(boxes[j].box, x, y)
    ensures r.None? <==> forall j :: 0 <= j < |boxes| ==> !Contains(boxes[j].box, x, y)
  {
    if boxes == [] then None
    else if Contains(boxes[0].box, x, y) then Some(0)
    else
      match FirstHit(boxes[1..], x, y)
      case None =>
        assert forall j :: 1 <= j < |boxes| ==> boxes[j] == boxes[1..][j - 1];
        None
      case Some(i) =>
        assert forall j :: 1 <= j <= i ==> boxes[j] == boxes[1..][j - 1];
        Some(i + 1)
  }

  /** `del s[i]`: the element at `i` is gone and the others keep their order. */
  function RemoveAt<T>(s: seq<T>, i: nat): (r: seq<T>)
    requires i < |s|
    ensures |r| == |s| - 1
    ensures forall j :: 0 <= j < i ==> r[j] == s[j]
    ensures forall j :: i <= j < |r| ==> r[j] == s[j + 1]
  {
    s[..i] + s[i + 1..]
  }

  /** `s[i]['label'] = newText`: only the label of entry `i` changes. */
  function Relabel(s: seq<Annotation>, i: nat, newText: string): (r: seq<Annotation>)
    requires i < |s|
    ensures |r| == |s|
    ensures r[i].box == s[i].box && r[i].text == newText
    ensures forall j :: 0 <= j < |s| && j != i ==> r[j] == s[j]
  {
    s[i := s[i].(text := newText)]
  }

  /** The geometry of an annotation list, labels dropped. */
  function Rects(s: seq<Annotation>): (r: seq<Rect>)
    ensures |r| == |s| && forall j :: 0 <= j < |s| ==> r[j] == s[j].box
  {
    seq(|s|, j requires 0 <= j < |s| => s[j].box)
  }

  /** Relabelling never moves a box. */
  lemma RelabelKeepsRects(s: seq<Annotation>, i: nat, newText: string)
    requires i < |s|
    ensures Rects(Relabel(s, i, newText)) == Rects(s)
  {
  }

  /** Deleting an annotation deletes exactly its box from the geometry. */
  lemma RemoveAtRects(s: seq<Annotation>, i: nat)
    requires i < |s|
    ensures Rects(RemoveAt(s, i)) == RemoveAt(Rects(s), i)
  {
  }

  /** Deleting keeps every other element: the removed one plus the rest is the old multiset. */
  lemma RemoveAtMultiset<T>(s: seq<T>, i: nat)
    requires i < |s|
    ensures multiset(RemoveAt(s, i)) + multiset{s[i]} == multiset(s)
  {
    assert s == s[..i] + [s[i]] + s[i + 1..];
  }

  /** A box whose corners were dragged right-to-left or bottom-to-top (or that is
      flat) contains no point, so it can never be selected. */
  lemma InvertedRectNeverHit(r: Rect, x: int, y: int)
    requires r.x1 >= r.x2 || r.y1 >= r.y2
    ensures !Contains(r, x, y)
  {
  }

  /** When only annotation `i` contains the point, the hit-test picks `i`. */
  lemma UniqueHit(boxes: seq<Annotation>, x: int, y: int, i: nat)
    requires i < |boxes| && Contains(boxes[i].box, x, y)
    requires forall j :: 0 <= j < |boxes| && j != i ==> !Contains(boxes[j].box, x, y)
    ensures FirstHit(boxes, x, y) == Some(i)
  {
  }

  /** Overlapping boxes: the earlier one in the list always wins. */
  lemma EarlierBoxWins(boxes: seq<Annotation>, x: int, y: int, i: nat)
    requires i < |boxes| && Contains(boxes[i].box, x, y)
    ensures FirstHit(boxes, x, y).Some? && FirstHit(boxes, x, y).value <= i
  {
  }
}
