/** The interactive annotation editor: the module-level state of the program,
    the mouse callback that draws and selects boxes, the key dispatch of the
    main loop, and the abstract persisted file. */
module Editing {
  import opened Annotations
  import opened Keys

  /** Value of `selected_box_index` when no box is selected. */
  const NoSelection: int := -1

  /** What the main loop does after a key: carry on, leave the loop (ESC), or
      die with the IndexError that indexing the box list by a stale selection raises. */
  datatype Outcome = Continue | Exit | IndexError

  /** A snapshot of every field of the editor, so that contracts can say
      "this field changed, all others did not" in one equation. */
  datatype EditorState = EditorState(
    drawing: bool,
    startPoint: Option<Point>,
    endPoint: Option<Point>,
    boxes: seq<Annotation>,
    selected: int,
    currentText: string,
    editingText: bool,
    disk: Option<seq<Annotation>>)

  /** The program's globals, plus the saved file: `disk` is `None` when the
      file does not exist and `Some(list)` when it holds `list`. */
  class Editor {
    var drawing: bool
    var startPoint: Option<Point>
    var endPoint: Option<Point>
    var boxes: seq<Annotation>
    var selected: int
    var currentText: string
    var editingText: bool
    var disk: Option<seq<Annotation>>

    /** What every operation keeps: the selection is -1 or an index (never below
        -1), and a drag in progress has a start point. */
    ghost predicate Valid()
      reads this
    {
      selected >= NoSelection && (drawing ==> startPoint.Some?)
    }

    /** The selection is absent or names an existing box. Every operation keeps
        this except the wipe, which empties the list but keeps the selection. */
    predicate SelectionInRange()
      reads this
    {
      selected == NoSelection || 0 <= selected < |boxes|
    }

    ghost function Snapshot(): EditorState
      reads this
    {
      EditorState(drawing, startPoint, endPoint, boxes, selected, currentText, editingText, disk)
    }

    /** Program start: the globals' initial values, then the list read from the
        saved file (`static_boxes = load_boxes()`). */
    constructor (persisted: Option<seq<Annotation>>)
      ensures Valid() && SelectionInRange()
      ensures Snapshot() == EditorState(false, None, None,
        if persisted.Some? then persisted.value else [],
        NoSelection, DefaultLabel, false, persisted)
    {
      drawing := false;
      startPoint := None;
      endPoint := None;
      boxes := [];
      selected := NoSelection;
      currentText := DefaultLabel;
      editingText := false;
      disk := persisted;
      new;
      boxes := Load();
    }

    /** `load_boxes`: the saved list, or the empty list when there is no file. */
    method Load() returns (loaded: seq<Annotation>)
      ensures disk.None? ==> loaded == []
      ensures disk.Some? ==> loaded == disk.value
    {
      loaded := if disk.Some? then disk.value else [];
    }

    /** `save_boxes`: the file now holds the current list, in order. */
    method Save()
      requires Valid()
      modifies this
      ensures Valid()
      ensures Snapshot() == old(Snapshot()).(disk := Some(old(boxes)))
    {
      disk := Some(boxes);
    }

    /** `wipe_all_boxes`: no boxes and no file. The selection is left as it was. */
    method Wipe()
      requires Valid()
      modifies this
      ensures Valid()
      ensures Snapshot() == old(Snapshot()).(boxes := [], disk := None)
    {
      boxes := [];
      if disk.Some? {
        disk := None;
      }
    }

    /** The hit-test loop of the mouse callback: the first box in list order
        that strictly contains (x, y), if any. */
    method HitTest(x: int, y: int) returns (hit: Option<nat>)
      ensures hit == FirstHit(boxes, x, y)
    {
      var i := 0;
      while i < |boxes|
        invariant 0 <= i <= |boxes|
        invariant forall j :: 0 <= j < i ==> !Contains(boxes[j].box, x, y)
      {
        if Contains(boxes[i].box, x, y) {
          return Some(i);
        }
        i := i + 1;
      }
      return None;
    }

    /** Left button down: select the first box hit and take its label as the
        current text; otherwise start a drag at (x, y). Neither path touches the
        list, and starting a drag does not clear an existing selection. */
    method MouseDown(x: int, y: int)
      requires Valid()
      modifies this
      ensures Valid()
      ensures match FirstHit(old(boxes), x, y)
        case Some(i) =>
          Snapshot() == old(Snapshot()).(selected := i, currentText := old(boxes)[i].text)
        case None =>
          Snapshot() == old(Snapshot()).(drawing := true, startPoint := Some(Point(x, y)))
      ensures old(SelectionInRange()) ==> SelectionInRange()
    {
      var hit := HitTest(x, y);
      if hit.Some? {
        selected := hit.value;
        currentText := boxes[hit.value].text;
        return;
      }
      drawing := true;
      startPoint := Some(Point(x, y));
    }

    /** Mouse move: only the live end point follows the pointer, and only while dragging. */
    method MouseMove(x: int, y: int)
      requires Valid()
      modifies this
      ensures Valid()
      ensures Snapshot() ==
        if old(drawing) then old(Snapshot()).(endPoint := Some(Point(x, y))) else old(Snapshot())
    {
      if drawing {
        endPoint := Some(Point(x, y));
      }
    }

    /** Left button up: a drag ends; the box from the start point to (x, y), with
        its corners as dragged and the current text as label, is appended exactly
        when the drag moved more than 5 pixels along both axes. */
    method MouseUp(x: int, y: int)
      requires Valid()
      modifies this
      ensures Valid() && !drawing
      ensures !old(drawing) ==> Snapshot() == old(Snapshot())
      ensures old(drawing) ==>
        var start := old(startPoint).value;
        Snapshot() == old(Snapshot()).(
          drawing := false,
          endPoint := Some(Point(x, y)),
          boxes := if IsDrag(start, x, y)
                   then old(boxes) + [Annotation(Rect(start.x, start.y, x, y), old(currentText))]
                   else old(boxes))
      ensures |boxes| == |old(boxes)| + 1 <==> old(drawing) && IsDrag(old(startPoint).value, x, y)
      ensures old(SelectionInRange()) ==> SelectionInRange()
    {
      if drawing {
        drawing := false;
        endPoint := Some(Point(x, y));
        var start := startPoint.value;
        if Abs(start.x - x) > MinDrag && Abs(start.y - y) > MinDrag {
          boxes := boxes + [Annotation(Rect(start.x, start.y, x, y), currentText)];
        }
      }
    }

    /** One pass of the key-dispatch chain for the masked key code `k`. */
    method Key(k: KeyCode) returns (outcome: Outcome)
      requires Valid()
      modifies this
      ensures Valid()
      // ESC: save, then leave the loop.
      ensures k == Esc ==>
        outcome == Exit && Snapshot() == old(Snapshot()).(disk := Some(old(boxes)))
      // '+': editing starts only with a selection; a stale selection then crashes.
      ensures k == Plus ==>
        if old(selected) == NoSelection then
          outcome == Continue && Snapshot() == old(Snapshot())
        else
          Snapshot() == old(Snapshot()).(editingText := true) &&
          outcome == (if old(selected) < |old(boxes)| then Continue else IndexError)
      // backspace (8) or idle frame (255): trim the current text, never a label.
      ensures IsBackspace(k) ==>
        outcome == Continue &&
        Snapshot() == if old(selected) != NoSelection && old(editingText)
                      then old(Snapshot()).(currentText := DropLast(old(currentText)))
                      else old(Snapshot())
      // '<': delete the selected box and clear the selection.
      ensures k == Less ==>
        if old(selected) == NoSelection then
          outcome == Continue && Snapshot() == old(Snapshot())
        else if old(selected) < |old(boxes)| then
          outcome == Continue &&
          Snapshot() == old(Snapshot()).(boxes := RemoveAt(old(boxes), old(selected)), selected := NoSelection)
        else
          outcome == IndexError && Snapshot() == old(Snapshot())
      // Enter: write the current text into the selected label, deselect, stop editing.
      ensures k == Enter ==>
        if old(selected) == NoSelection then
          outcome == Continue && Snapshot() == old(Snapshot())
        else if old(selected) < |old(boxes)| then
          outcome == Continue &&
          Snapshot() == old(Snapshot()).(
            boxes := Relabel(old(boxes), old(selected), old(currentText)),
            selected := NoSelection,
            editingText := false)
        else
          outcome == IndexError && Snapshot() == old(Snapshot())
      // '*': wipe the list and the file; the selection stays.
      ensures k == Star ==>
        outcome == Continue && Snapshot() == old(Snapshot()).(boxes := [], disk := None)
      // Typing while editing: append the character and copy it into the selected label at once.
      ensures IsTypeable(k) && old(editingText) ==>
        if old(selected) == NoSelection then
          outcome == Continue && Snapshot() == old(Snapshot())
        else
          var t := old(currentText) + [k as char];
          if old(selected) < |old(boxes)| then
            outcome == Continue &&
            Snapshot() == old(Snapshot()).(currentText := t, boxes := Relabel(old(boxes), old(selected), t))
          else
            outcome == IndexError && Snapshot() == old(Snapshot()).(currentText := t)
      // Every other key does nothing.
      ensures !IsCommand(k) && !(IsTypeable(k) && old(editingText)) ==>
        outcome == Continue && Snapshot() == old(Snapshot())
      // Consequences stated for the whole key alphabet.
      ensures k != Star && k != Less ==> Rects(boxes) == Rects(old(boxes))
      ensures k != Star && old(SelectionInRange()) ==> SelectionInRange()
      ensures outcome == IndexError ==> !old(SelectionInRange())
      ensures IsPrintable(k) && !IsTypeable(k) ==> currentText == old(currentText)
    {
      if k == Esc {
        Save();
        return Exit;
      } else if k == Plus {
        if selected != NoSelection {
          editingText := true;
          if selected >= |boxes| {
            return IndexError;
          }
        }
      } else if k == Backspace || k == NoKey {
        if selected != NoSelection && editingText {
          currentText := DropLast(currentText);
        }
      } else if k == Less {
        if selected != NoSelection {
          if selected >= |boxes| {
            return IndexError;
          }
          boxes := RemoveAt(boxes, selected);
          selected := NoSelection;
        }
      } else if k == Enter {
        if selected != NoSelection {
          if selected >= |boxes| {
            return IndexError;
          }
          RelabelKeepsRects(boxes, selected, currentText);
          boxes := Relabel(boxes, selected, currentText);
          selected := NoSelection;
          editingText := false;
        }
      } else if k == Star {
        Wipe();
      } else if 32 <= k <= 126 && editingText {
        if selected != NoSelection {
          currentText := currentText + [k as char];
          if selected >= |boxes| {
            return IndexError;
          }
          RelabelKeepsRects(boxes, selected, currentText);
          boxes := Relabel(boxes, selected, currentText);
        }
      }
      return Continue;
    }
  }
}
