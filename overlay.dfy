/** The two pure lookups the overlay renderer uses: detector class names and
    the colour slot of a user box. The drawing itself is not modelled. */
module Overlay {

  /** The detector's name table. */
  const ClassNames: seq<string> := ["person"]

  /** Placeholder for any class id outside the table. */
  const Placeholder: string := "GRID"

  /** `get_class_name`: the table entry, or the placeholder past its end. */
  function ClassName(classId: nat): (name: string)
    ensures classId == 0 ==> name == "person"
    ensures classId >= 1 ==> name == Placeholder
    ensures classId < |ClassNames| <==> name != Placeholder
  {
    if classId < |ClassNames| then ClassNames[classId] else Placeholder
  }

  /** A BGR colour as OpenCV takes it. */
  datatype Color = Color(b: int, g: int, r: int)

  /** The fixed palette of user-box colours. */
  const Palette: seq<Color> := [
    Color(255, 0, 0),   // blue
    Color(0, 255, 0),   // green
    Color(0, 0, 255),   // red
    Color(255, 255, 0), // cyan
    Color(255, 0, 255), // magenta
    Color(0, 255, 255), // yellow
    Color(128, 0, 128), // purple
    Color(0, 128, 128)  // teal
  ]

  /** `i % len(colors)`: the palette slot of the i-th user box. */
  function ColorSlot(i: nat): (slot: nat)
    ensures slot < |Palette| == 8
    ensures i < |Palette| ==> slot == i
  {
    i % |Palette|
  }

  /** The colour of the i-th user box; always one of the palette's. */
  function ColorFor(i: nat): (c: Color)
    ensures c in Palette
  {
    Palette[ColorSlot(i)]
  }

  /** Colours cycle: box i and box i + 8 share a colour. */
  lemma ColorSlotPeriodic(i: nat)
    ensures ColorSlot(i + |Palette|) == ColorSlot(i)
  {
  }

  /** Eight consecutive boxes get eight different colour slots. */
  lemma ColorSlotsDistinct(i: nat, j: nat)
    requires i < j < i + |Palette|
    ensures ColorSlot(i) != ColorSlot(j)
  {
  }
}
