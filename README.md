# Annotation overlay editor — a Dafny model

The program shows a live camera feed with object-detector boxes. Over that
feed, the user can draw their own labelled rectangles ("static boxes"),
select them, relabel them, delete them and wipe them all. The list is saved
to `boxes.json` when the user presses ESC, and read back at start-up. This
project models that editor in `main.py`: the mouse callback, the key-dispatch
chain of the main loop, the wipe and the save/load pair. It also models the
two pure lookups the overlay uses, the detector class name and the colour
slot of a user box.

Files:

- `annotations.dfy` (module `Annotations`): the stored record
  `Annotation(box: Rect, text)`. It has the strict hit-test `Contains`, the
  first-hit search `FirstHit`, and the two list edits the keys perform:
  `RemoveAt` (`del`) and `Relabel` (label assignment). The field is called
  `text` because `label` is a Dafny keyword.
- `keys.dfy` (module `Keys`): key codes after `& 0xFF`, the named codes, the
  masking of `cv2.waitKey`'s result, and `DropLast` (Python's `s[:-1]`).
- `overlay.dfy` (module `Overlay`): `get_class_name` and the palette slot
  `i % len(colors)`.
- `editor.dfy` (module `Editing`): class `Editor`. Its fields are the
  program's globals (`drawing`, `start_point`, `end_point`, `static_boxes`,
  `selected_box_index`, `current_text`, `editing_text`). One more field,
  `disk`, stands for the JSON file: `None` when it does not exist, `Some(list)`
  when it holds `list`. Every mutating method states the whole new state. It
  does so as an update of a snapshot of all fields, so everything it does not
  name is unchanged.
- `scenarios.dfy` (module `Scenarios`): client methods that drive one editor
  through event sequences. Each one shows an intended behaviour or a quirk of
  the program.

Quirks of the program that the model keeps as written:

- Boxes are stored with their corners exactly as dragged (`main.py:58`).
  Nothing guarantees `x1 < x2` or `y1 < y2`. A box dragged right-to-left or
  bottom-to-top can never be selected by the strict test at `main.py:37`.
- A new box takes the current text as its label (`main.py:58`), not always
  `"Object"`. The current text is the label of the last box selected
  (`main.py:39`), as changed since by typed characters and by backspaces
  (idle frames included) while a box is selected and editing is on
  (`main.py:201-204`, `219-221`). So a box drawn while a box is selected and
  editing is on gets a shortened, often empty, label that need not be any
  box's label. With editing on but no selection (after a delete), the text
  is left alone.
- Pressing on empty canvas starts a drag. It does not clear the selection
  (`main.py:43-45`).
- Deleting a box does not clear `editing_text` (`main.py:205-209`), and
  selecting a box does not clear it either (`main.py:38-39`). When editing was
  on before a delete, the next box selected is therefore already in editing
  mode.
- The wipe does not reset the selection (`main.py:96-101`). Until a box is
  selected again (`main.py:38`) or enough new boxes are drawn, a later `+`,
  `<` or Enter indexes a list that is too short,
  and the program dies with an IndexError; so does a typed character, but
  only while editing is on (`main.py:219`). `Editor.Key` returns the outcome
  `IndexError` there, and the state it leaves is what the program had changed
  before it raised. Unless a box is selected first, once the list is long
  enough again the stale index silently selects whichever new box now sits at
  that position.
- Key 255 is a backspace (`main.py:201`). It is also what an idle frame
  yields: `cv2.waitKey` returns -1, and `-1 & 0xFF` is 255. So every idle
  frame while a box is selected and editing is on trims the current text.
- `+`, `<` and `*` are taken by earlier branches and can never be typed into a
  label.

## Model

| member | source | states |
|---|---|---|
| `Annotations.FirstHit` | main.py:35-41 | The result is the least index whose box strictly contains the point; there is none exactly when no box contains it |
| `Annotations.RemoveAt` | main.py:208 | `del s[i]`: length drops by one; elements before `i` stay put and those after it move down by one |
| `Annotations.Relabel` | main.py:212 | Only entry `i` changes: its box is kept and its label is the new text; every other entry is unchanged |
| `Annotations.RelabelKeepsRects` | main.py:222 | Relabelling leaves the geometry of every box unchanged |
| `Annotations.RemoveAtRects` | main.py:205-209 | Deleting an annotation removes exactly its rectangle from the geometry |
| `Annotations.RemoveAtMultiset` | main.py:208 | The deleted element together with what remains is the original multiset, so nothing else is lost |
| `Annotations.InvertedRectNeverHit` | main.py:37 | A box with `x1 >= x2` or `y1 >= y2` contains no point, so it cannot be selected |
| `Annotations.UniqueHit` | main.py:35-41 | When exactly one box contains the point, that box's index is selected |
| `Annotations.EarlierBoxWins` | main.py:35-41 | Whenever box `i` contains the point, a box at index at most `i` is selected (first match wins on overlap) |
| `Keys.MaskKey` | main.py:191 | `raw & 0xFF` agrees with `raw` modulo 256, is `raw` for codes 0-255, and is 255 for the idle value -1 |
| `Keys.DropLast` | main.py:204 | `s[:-1]`: an empty text stays empty; otherwise the result plus the old last character is the old text |
| `Keys.IdleFrameIsBackspace` | main.py:191-201 | The masked idle value is one of the codes the backspace branch takes |
| `Keys.UntypeablePrintables` | main.py:196-219 | Among printable codes, the ones taken by an earlier branch of the dispatch chain (ESC, `+`, backspace, `<`, Enter, `*`) are exactly 42, 43 and 60 |
| `Keys.TypeableIsNotCommand` | main.py:193-219 | A code that reaches the typing branch is not taken by any earlier branch |
| `Overlay.ClassName` | main.py:10-14 | Class 0 is `person`; every larger id is the placeholder `GRID`; the placeholder appears exactly past the table's end |
| `Overlay.ColorSlot` | main.py:183 | The slot is in 0..7, and the first eight boxes get slots 0..7 in order |
| `Overlay.ColorFor` | main.py:168-183 | Every user box is drawn in a palette colour |
| `Overlay.ColorSlotPeriodic` | main.py:183 | Boxes `i` and `i + 8` get the same colour |
| `Overlay.ColorSlotsDistinct` | main.py:183 | Any eight consecutive boxes get eight different colours |
| `Editing.Editor.constructor` | main.py:17-23 | Start-up state: no drag, no selection, text `"Object"`, not editing; the list is the saved one, or empty when there is no file |
| `Editing.Editor.Load` | main.py:87-94 | Returns the saved list when the file exists and the empty list when it does not |
| `Editing.Editor.Save` | main.py:81-85 | The file now holds the current list in order; nothing else changes |
| `Editing.Editor.Wipe` | main.py:96-101 | The list is empty and the file is gone; every other field, the selection included, is unchanged |
| `Editing.Editor.HitTest` | main.py:35-41 | The loop returns exactly the first-hit index of the list, or none |
| `Editing.Editor.MouseDown` | main.py:31-45 | On a hit: selects the first box hit and copies its label to the current text, with list and drag state unchanged. Otherwise: starts a drag at the point, with list and selection unchanged. Keeps the selection in range |
| `Editing.Editor.MouseMove` | main.py:47-49 | Updates only the live end point, and only while dragging |
| `Editing.Editor.MouseUp` | main.py:51-61 | Ends any drag. Appends the box `(start, end)` as dragged, labelled with the current text, exactly when both axes moved more than 5 pixels. Changes nothing when not dragging |
| `Editing.Editor.Key` | main.py:191-222 | Each branch of the dispatch chain gives the whole new state. Every key but `*` and `<` keeps all geometry. Every key but `*` keeps the selection in range. IndexError happens only when the selection was already stale. `*`, `+` and `<` never change the current text |
| `Scenarios.DrawThenSelect` | main.py:28-61 | A drag from (100,100) to (200,150) stores one box labelled `"Object"`; a click at (150,120) selects it |
| `Scenarios.DrawSelectRenameExit` | main.py:191-222 | `+`, six backspaces, `Dog`, Enter, ESC, with no idle frame between keys: the saved file holds the single box labelled `"Dog"` and the loop exits |
| `Scenarios.RetypeAsDog` | main.py:201-222 | With box 0 selected and editing on, six backspaces empty `"Object"`, and `D`, `o`, `g` then make both the current text and the box's label `"Dog"` |
| `Scenarios.LabelCarriesOver` | main.py:39-58 | After a box is renamed `"ObjectX"`, the next box drawn is also labelled `"ObjectX"` |
| `Scenarios.IdleFramesEraseLabel` | main.py:191-204 | `+` followed by six idle frames and Enter empties the label `"Object"` |
| `Scenarios.IdleFrameShortensNewLabel` | main.py:39-58 | After `+` on a box labelled `"Object"` and one idle frame, a newly drawn box is labelled `"Objec"` while the first box keeps `"Object"` |
| `Scenarios.EditingSurvivesDelete` | main.py:205-222 | After `+` and a delete, clicking another box and pressing `Z` changes its label at once, without `+` |
| `Scenarios.ReversedDragUnselectable` | main.py:37-58 | A box dragged right-to-left is stored with `x1 > x2`; a click in its middle starts a new drag instead of selecting it |
| `Scenarios.WipeLeavesStaleSelection` | main.py:96-200 | Selecting the only box, wiping, then pressing `+` ends in IndexError |
| `Scenarios.WipeTwiceThenLoad` | main.py:87-101 | From any state, wiping twice has the same effect as wiping once (no boxes, no file, all else unchanged), and loading then gives the empty list |
| `Scenarios.SaveThenLoad` | main.py:81-94 | From any state, saving and then loading returns the same boxes and labels in the same order |

## Left out

- Camera capture, resolution setting, the per-frame read and the loop's exit
  on a failed read (`main.py:113-133`, `225-226`). These are I/O. The model
  keeps only "ESC saves, then the loop stops", as the `Exit` outcome of
  `Editor.Key`.
- YOLO inference and the `supervision` box annotator (`main.py:123-150`).
  These are foreign libraries working on floating-point boxes. Only the class
  name lookup they feed is modelled.
- All OpenCV drawing and display: rectangles, text, window, the mouse-callback
  registration. These are rendering side effects. Only the colour slot choice
  is modelled.
- `cv2.waitKey` itself. The key is an input; `Keys.MaskKey` models the
  `& 0xFF` applied to it.
- Argument parsing (`main.py:63-79`).
- JSON encoding and the file system. The file is the abstract `disk` field.
  A malformed file is not modelled, nor is the tuple-to-list change of `box`
  after a JSON round trip.
- Debug `print` calls, including the ones on the `+` and `<` paths. The model
  keeps their only effect on state: indexing the list, which raises on a stale
  selection.
- Mouse events other than left-button down, mouse move and left-button up. The
  callback ignores them; the model has no method for them.
- `Overlay.ClassName`: negative class ids, which Python would index from the
  end of the table. The detector only produces ids of 0 or more.
