/** Event sequences applied to the editor model, each showing one behaviour of the
    program: the intended draw-select-rename-exit session, and the quirks of
    the shared current text, the idle-frame backspace and the stale selection. */
module Scenarios {
  import opened Annotations
  import opened Keys
  import opened Editing

  /** The first half of the session: on an empty store, drag from (100,100) to
      (200,150), then click at (150,120), which selects the new box. */
  method DrawThenSelect() returns (e: Editor)
    ensures fresh(e) && e.Valid()
    ensures e.boxes == [Annotation(Rect(100, 100, 200, 150), "Object")]
    ensures e.selected == 0 && e.currentText == "Object" && !e.editingText
  {
    e := new Editor(None);
    e.MouseDown(100, 100);
    e.MouseMove(150, 125);
    e.MouseUp(200, 150);
    assert e.boxes == [Annotation(Rect(100, 100, 200, 150), "Object")];
    e.MouseDown(150, 120);
  }

  /** The whole session: after the drag and the click, '+', six backspaces, type
      "Dog", Enter, ESC: the file holds the one box, relabelled. The keys follow
      one another with no idle frame between them; each idle frame would be a
      further backspace (see IdleFramesEraseLabel). */
  method DrawSelectRenameExit() returns (saved: Option<seq<Annotation>>, outcome: Outcome)
    ensures saved == Some([Annotation(Rect(100, 100, 200, 150), "Dog")])
    ensures outcome == Exit
  {
    var e := DrawThenSelect();
    var o := e.Key(Plus);
    RetypeAsDog(e);
    o := e.Key(Enter);
    assert e.boxes == [Annotation(Rect(100, 100, 200, 150), "Dog")];
    outcome := e.Key(Esc);
    saved := e.disk;
  }

  /** The editing part of the session: with box 0 selected and editing on, six
      backspaces empty the text and "Dog" typed after them becomes the label. */
  method RetypeAsDog(e: Editor)
    requires e.Valid() && e.selected == 0 && e.editingText
    requires e.boxes == [Annotation(Rect(100, 100, 200, 150), "Object")] && e.currentText == "Object"
    modifies e
    ensures e.Valid() && e.selected == 0 && e.editingText
    ensures e.boxes == [Annotation(Rect(100, 100, 200, 150), "Dog")] && e.currentText == "Dog"
  {
    var o;
    var n := 0;
    while n < 6
      invariant 0 <= n <= 6
      invariant e.selected == 0 && e.editingText
      invariant e.boxes == [Annotation(Rect(100, 100, 200, 150), "Object")]
      invariant e.currentText == "Object"[..6 - n]
      invariant e.Valid()
    {
      o := e.Key(Backspace);
      n := n + 1;
    }
    assert e.currentText == [];
    o := e.Key('D' as int);
    assert e.currentText == "D";
    o := e.Key('o' as int);
    assert e.currentText == "Do";
    o := e.Key('g' as int);
    assert e.currentText == "Dog";
  }

  /** The label of a new box is the current text, not always "Object": the label
      of the last box selected, as changed since by typing while editing. After
      box 0 is renamed "ObjectX", the next drawn box is "ObjectX" too. No idle
      frame comes between the keys; one between '+' and 'X' would give "ObjecX". */
  method LabelCarriesOver() returns (labels: seq<string>)
    ensures labels == ["ObjectX", "ObjectX"]
  {
    var e := new Editor(None);
    e.MouseDown(10, 10);
    e.MouseUp(50, 50);
    e.MouseDown(20, 20);
    var o := e.Key(Plus);
    o := e.Key('X' as int);
    o := e.Key(Enter);
    assert e.selected == NoSelection && e.currentText == "ObjectX";
    e.MouseDown(100, 100);
    e.MouseUp(150, 150);
    labels := [e.boxes[0].text, e.boxes[1].text];
  }

  /** Each idle frame reads as key 255, a backspace: pressing '+' on a box and
      letting six frames pass before Enter erases its label. */
  method IdleFramesEraseLabel() returns (text: string)
    ensures text == ""
  {
    var e := new Editor(Some([Annotation(Rect(0, 0, 40, 40), "Object")]));
    e.MouseDown(20, 20);
    var o := e.Key(Plus);
    var n := 0;
    while n < 6
      invariant 0 <= n <= 6
      invariant e.selected == 0 && e.editingText
      invariant e.boxes == [Annotation(Rect(0, 0, 40, 40), "Object")]
      invariant e.currentText == "Object"[..6 - n]
      invariant e.Valid()
    {
      o := e.Key(MaskKey(-1));
      n := n + 1;
    }
    o := e.Key(Enter);
    text := e.boxes[0].text;
  }

  /** Backspaces, idle frames included, shorten the current text without touching
      any label, so a box drawn while a box is selected and editing is on can
      get a label no box ever
      had: one idle frame after '+' on "Object", then a drag, gives "Objec". */
  method IdleFrameShortensNewLabel() returns (labels: seq<string>)
    ensures labels == ["Object", "Objec"]
  {
    var e := new Editor(Some([Annotation(Rect(0, 0, 40, 40), "Object")]));
    e.MouseDown(20, 20);
    var o := e.Key(Plus);
    o := e.Key(MaskKey(-1));
    assert e.currentText == "Objec";
    e.MouseDown(100, 100);
    e.MouseUp(150, 150);
    labels := [e.boxes[0].text, e.boxes[1].text];
  }

  /** Deleting leaves editing on, and selecting another box does not clear it:
      the next printable key goes straight into that box's label, without '+'.
      No idle frame comes between the click and 'Z'; one would trim "Second"
      to "Secon" first, since a box is selected and editing is on. */
  method EditingSurvivesDelete() returns (labels: seq<string>)
    ensures labels == ["SecondZ"]
  {
    var e := new Editor(Some([
      Annotation(Rect(0, 0, 40, 40), "First"),
      Annotation(Rect(100, 100, 140, 140), "Second")]));
    e.MouseDown(20, 20);
    var o := e.Key(Plus);
    o := e.Key(Less);
    assert e.boxes == [Annotation(Rect(100, 100, 140, 140), "Second")];
    assert e.selected == NoSelection && e.editingText;
    e.MouseDown(120, 120);
    assert e.selected == 0 && e.currentText == "Second";
    o := e.Key('Z' as int);
    assert e.currentText == "SecondZ";
    labels := [e.boxes[0].text];
  }

  /** A box dragged right-to-left is stored with x1 > x2 and can never be
      selected again: a click in its middle starts a new drag instead. */
  method ReversedDragUnselectable() returns (selected: int, drawing: bool, count: nat)
    ensures selected == NoSelection && drawing && count == 1
  {
    var e := new Editor(None);
    e.MouseDown(200, 100);
    e.MouseUp(100, 150);
    assert e.boxes == [Annotation(Rect(200, 100, 100, 150), "Object")];
    e.MouseDown(150, 125);
    selected, drawing, count := e.selected, e.drawing, |e.boxes|;
  }

  /** The wipe keeps the selection, so '+' right after it indexes an empty list
      and the program dies with an IndexError. */
  method WipeLeavesStaleSelection() returns (outcome: Outcome)
    ensures outcome == IndexError
  {
    var e := new Editor(None);
    e.MouseDown(10, 10);
    e.MouseUp(50, 50);
    e.MouseDown(20, 20);
    var o := e.Key(Star);
    assert e.boxes == [] && e.selected == 0;
    outcome := e.Key(Plus);
  }

  /** From any editor state, wiping twice is the same as wiping once, and a
      later load finds nothing. */
  method WipeTwiceThenLoad(e: Editor) returns (loaded: seq<Annotation>)
    requires e.Valid()
    modifies e
    ensures e.Snapshot() == old(e.Snapshot()).(boxes := [], disk := None)
    ensures loaded == []
  {
    e.Wipe();
    e.Wipe();
    loaded := e.Load();
  }

  /** Saving and then loading, from any editor state, gives back the same
      boxes and labels in the same order. */
  method SaveThenLoad(e: Editor) returns (loaded: seq<Annotation>)
    requires e.Valid()
    modifies e
    ensures loaded == old(e.boxes) && e.disk == Some(loaded)
  {
    e.Save();
    loaded := e.Load();
  }
}
