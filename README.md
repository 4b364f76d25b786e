# memo_app canvas and page core, in Dafny

This project models the interaction core of the memo_app notebook: the parts that decide what
a click, a key, a drag or a pen stroke does to a notebook page. It also models the list core
behind the page sidebar and the trash.

The canvas side covers:

- clipping connector lines to the blocks they join (`ConnectionLayer`), and the earlier
  unclipped version (`LegacyConnectionLayer`);
- the ink layer's pen capture, point eraser and object eraser (`HandwritingLayer`);
- the text block's local position and size, dragging, and corner resizing that keeps the
  opposite edge in place (`TextBlock`), and the earlier block without that correction
  (`LegacyTextBlock`);
- the page patches for adding a block with its section label, updating, deleting with the
  cascade to connections, deleting a connection, the strokes and the favourite flag
  (`CanvasOperations`);
- the selection hook (`CanvasSelection`), the connect gesture with its duplicate check
  (`NotebookCanvas`), the three exclusive pen, connect and object-eraser modes (`ModeCanvas`)
  and the keyboard shortcuts (`CanvasShortcuts`);
- the draggable section boundaries and the saved layout (`CanvasBackground`, `CanvasLayout`);
- the earlier canvas, with four modes, key toggles, a connect gesture without duplicate check,
  and migration of pre-canvas pages (`LegacyCanvas`).

The page side covers:

- the persisted page store (`NoteStore`);
- choosing the active page on load, adding and updating pages (`Notes`);
- soft delete, restore, permanent delete and the 14-day cleanup (`Trash`);
- the sidebar's grouping into deleted, favourite and dated groups (`SidebarGrouping`), its
  search (`SidebarSearch`) and inline renaming (`SidebarEditing`);
- the main process's checks on data arriving over IPC (`Validators`);
- the theme toggle (`Theme`) and the page menu (`PageMenu`).

Pure transformations are functions, with their properties stated as postconditions and lemmas.
React component and hook state that handlers update is a class whose methods are the handlers.
Each method reads the values of the render it was created in, as the closures do, and its
postcondition states the whole new state. Page changes are `PagePatch` values, the partial
page a handler passes to `onUpdate`, and `NoteTypes.ApplyPatch` merges them into a page.
Coordinates are `real`. JavaScript truthiness of ids, numbers and flags is written out, so that
an empty id counts as absent. Fresh ids, the current time and the answer to a confirmation
dialog are parameters.

## Model

| member | source | states |
|---|---|---|
| CanvasOperations.ChooseSection | src/features/notebook/hooks/use-canvas-operations.ts:36-45 | title below the title threshold, fact below the centre threshold, abstraction below the diversion threshold, else diversion; all three thresholds are percentages (defaults 10, 50, 75) of the container height |
| CanvasOperations.AddBlock | src/features/notebook/hooks/use-canvas-operations.ts:11-63 | no patch exactly for a double click that did not land on the background; otherwise one objects-only patch appending one empty, unstyled block of the default size centred on the point, in the section chosen for its `y`, all existing blocks kept in order |
| CanvasOperations.AddBlockDefaults | src/features/notebook/hooks/use-canvas-operations.ts:19-24 | a keyboard-added block with `y` absent or zero is centred at height 100, and without a container the thresholds come from a height of 800 |
| CanvasOperations.UpdateObjects | src/features/notebook/hooks/use-canvas-operations.ts:67-69 | same length, ids and sections; blocks with the id take the present fields of the update, all others are unchanged |
| CanvasOperations.UpdateObject | src/features/notebook/hooks/use-canvas-operations.ts:65-73 | applied to the page, the patch replaces exactly the objects by their merged version |
| CanvasOperations.RemoveObject | src/features/notebook/hooks/use-canvas-operations.ts:77 | exactly the blocks with another id remain, in order, and the id set loses just that id |
| CanvasOperations.DetachConnections | src/features/notebook/hooks/use-canvas-operations.ts:79-81 | exactly the connections touching neither end of the block remain, in order |
| CanvasOperations.RemoveConnection | src/features/notebook/hooks/use-canvas-operations.ts:89 | exactly the connections with another id remain, in order |
| CanvasOperations.DeleteObject | src/features/notebook/hooks/use-canvas-operations.ts:75-85 | one patch carrying both the remaining blocks and the remaining connections, and nothing else |
| CanvasOperations.DeleteObjectKeepsNoDangling | src/features/notebook/hooks/use-canvas-operations.ts:75-85 | deleting a block keeps every connection joined to existing blocks |
| CanvasOperations.AddBlockKeepsNoDangling | src/features/notebook/hooks/use-canvas-operations.ts:47-60 | adding a block keeps every connection joined to existing blocks |
| CanvasOperations.DeleteConnection | src/features/notebook/hooks/use-canvas-operations.ts:87-93 | a connections-only patch keeping exactly the connections with another id |
| CanvasOperations.UpdateStrokes | src/features/notebook/hooks/use-canvas-operations.ts:95-100 | applied to any page, the patch replaces the strokes and nothing else |
| CanvasOperations.ToggleFavorite | src/features/notebook/hooks/use-canvas-operations.ts:102-104 | a favourite-only patch whose flag is the negated truthiness of the page's |
| CanvasOperations.ToggleFavoriteTwice | src/features/notebook/hooks/use-canvas-operations.ts:102-104 | toggling twice restores the flag's truthiness and leaves the blocks alone |
| CanvasOperations.ChooseSectionByRegion | src/features/notebook/hooks/use-canvas-operations.ts:36-45 | (corrected) left of the centre column line a block is title or fact, split by the title height; right of it abstraction up to the diversion column line, diversion beyond |
| CanvasOperations.AddBlockByRegion | src/features/notebook/hooks/use-canvas-operations.ts:11-63 | (corrected) as `AddBlock` (an objects-only patch appending one empty unstyled block with the fresh id and default size, centred on the placement point), but the section is chosen by region from the centre point, the container's or canvas's width and the reference height: title or fact exactly when the centre lies left of the centre line |
| CanvasOperations.SectionByHeightMislabels | src/features/notebook/hooks/use-canvas-operations.ts:37-45 | (as written) a double click at (900, 300) on a 1000 x 800 canvas, inside the diversion column, is labelled fact by the code and diversion by region |
| ConnectionLayer.VerticalHit | src/features/notebook/components/canvas/connection-layer.tsx:48-64 | a reported hit is a parameter in [0, 1] where the segment is on that vertical side within the box's height; a segment parallel to it reports none |
| ConnectionLayer.HorizontalHit | src/features/notebook/components/canvas/connection-layer.tsx:66-82 | a reported hit is a parameter in [0, 1] where the segment is on that horizontal side within the box's width |
| ConnectionLayer.VerticalHitComplete | src/features/notebook/components/canvas/connection-layer.tsx:48-64 | every point of a non-parallel segment on a vertical side is reported, at its own parameter |
| ConnectionLayer.HorizontalHitComplete | src/features/notebook/components/canvas/connection-layer.tsx:66-82 | every point of a non-parallel segment on a horizontal side is reported |
| ConnectionLayer.EdgeHits | src/features/notebook/components/canvas/connection-layer.tsx:46-82 | every collected parameter lies in [0, 1] and puts the point on the box outline |
| ConnectionLayer.EdgeHitsComplete | src/features/notebook/components/canvas/connection-layer.tsx:46-82 | every crossing of a side the segment is not parallel to is collected |
| ConnectionLayer.Min | src/features/notebook/components/canvas/connection-layer.tsx:87 | the minimum is one of the values and no value is smaller |
| ConnectionLayer.GetIntersection | src/features/notebook/components/canvas/connection-layer.tsx:38-92 | `p1` when the points coincide or no side is met; otherwise the point at the smallest collected parameter, which lies on the outline |
| ConnectionLayer.GetIntersectionIsFirst | src/features/notebook/components/canvas/connection-layer.tsx:84-91 | no visible crossing comes before the returned point |
| ConnectionLayer.ExitFromInside | src/features/notebook/components/canvas/connection-layer.tsx:84-91 | a segment starting strictly inside the box and ending outside it always meets a side, and the returned point is on the outline |
| ConnectionLayer.LastIndexOf | src/features/notebook/components/canvas/connection-layer.tsx:102 | the index of the last block with the id (the entry a `Map` built from the list keeps), or none when no block has it |
| ConnectionLayer.Lookup | src/features/notebook/components/canvas/connection-layer.tsx:102-109 | some block exactly when a block with that id exists; it is the LAST block with the id, the entry the `Map` keeps |
| ConnectionLayer.Center | src/features/notebook/components/canvas/connection-layer.tsx:112-119 | the centre of a block of positive size lies strictly inside it |
| ConnectionLayer.LineOf | src/features/notebook/components/canvas/connection-layer.tsx:107-126 | a line exactly when both end blocks exist, and it belongs to its connection |
| ConnectionLayer.ConnectionLines | src/features/notebook/components/canvas/connection-layer.tsx:105-128 | exactly the lines of the connections whose two blocks exist, one per such connection and in the order of the connections |
| ConnectionLayer.LinesClippedToBlocks | src/features/notebook/components/canvas/connection-layer.tsx:112-125 | each drawn line starts on its source block's outline and ends on its target block's outline, for blocks of positive size neither of whose centres lies inside the other |
| NoteTypes.ApplyObjectPatch | src/features/notebook/hooks/use-canvas-operations.ts:68 | id, section and style are kept; each field present in the update replaces the block's, each absent one is kept; the empty update changes nothing |
| HandwritingLayer.RemainingPointsContents | src/features/notebook/components/blocks/handwriting-layer.tsx:215-218 | the remaining samples are exactly those farther than the radius, in order, and are all the samples exactly when every sample passes |
| HandwritingLayer.EraseStroke | src/features/notebook/components/blocks/handwriting-layer.tsx:214-231 | a stroke is dropped exactly when no sample survives, returned unchanged exactly when it has samples and all survive, and otherwise shortened to its surviving samples |
| HandwritingLayer.FilterMapSound | src/features/notebook/components/blocks/handwriting-layer.tsx:213-232 | everything `map(...).filter(Boolean)` returns is the result of some stroke |
| HandwritingLayer.FilterMapComplete | src/features/notebook/components/blocks/handwriting-layer.tsx:213-232 | every non-null result is returned |
| HandwritingLayer.FilterMapIdentity | src/features/notebook/components/blocks/handwriting-layer.tsx:213-232 | the input comes back exactly when every element maps to itself |
| HandwritingLayer.FilterMapKeepsOrder | src/features/notebook/components/blocks/handwriting-layer.tsx:213-232 | when the map keeps ids, the returned ids keep their relative order |
| HandwritingLayer.EraseAtSound | src/features/notebook/components/blocks/handwriting-layer.tsx:213-232 | every stroke returned has samples, all surviving, and shares its id with an input stroke whose samples it keeps in order |
| HandwritingLayer.EraseAtComplete | src/features/notebook/components/blocks/handwriting-layer.tsx:213-232 | every stroke with a surviving sample is returned in its erased form |
| HandwritingLayer.EraseAtIdentity | src/features/notebook/components/blocks/handwriting-layer.tsx:213-232 | the strokes come back as they were exactly when the eraser touches none |
| HandwritingLayer.EraseAtKeepsOrder | src/features/notebook/components/blocks/handwriting-layer.tsx:213-232 | the strokes kept stay in their relative order |
| HandwritingLayer.EraserUpdate | src/features/notebook/components/blocks/handwriting-layer.tsx:210-236 | an update is handed over exactly when some stroke is touched (or empty), and it is the erased list, different from the input |
| HandwritingLayer.FirstHit | src/features/notebook/components/blocks/handwriting-layer.tsx:163-165 | the first stroke in array order with a sample within 15, or none exactly when no stroke has one |
| HandwritingLayer.RemoveId | src/features/notebook/components/blocks/handwriting-layer.tsx:167 | exactly the strokes with another id remain, in order |
| HandwritingLayer.ObjectEraseContents | src/features/notebook/components/blocks/handwriting-layer.tsx:161-169 | nothing exactly when no stroke is hit; otherwise exactly the strokes whose id differs from the first hit's, in order |
| HandwritingLayer.ObjectEraseRemovesFirstHit | src/features/notebook/components/blocks/handwriting-layer.tsx:163-168 | with unique ids the object eraser removes exactly the first stroke hit |
| HandwritingLayer.InkLayer.constructor | src/features/notebook/components/blocks/handwriting-layer.tsx:48-49 | no stroke in progress and no preview position |
| HandwritingLayer.InkLayer.PointerDown | src/features/notebook/components/blocks/handwriting-layer.tsx:152-191 | nothing without a mode or a canvas; the object eraser hands over its result; otherwise eraser and pen start a one-sample stroke at the local position |
| HandwritingLayer.InkLayer.PointerMove | src/features/notebook/components/blocks/handwriting-layer.tsx:193-246 | the eraser records the preview position and hands over the erase update; the pen appends the local sample to the stroke in progress; otherwise nothing changes |
| HandwritingLayer.InkLayer.PointerUp | src/features/notebook/components/blocks/handwriting-layer.tsx:248-257 | the eraser clears both fields; the pen commits the stroke in progress after the existing ones and clears it; otherwise nothing changes |
| HandwritingLayer.InkLayer.PointerLeave | src/features/notebook/components/blocks/handwriting-layer.tsx:259-261 | only the preview position is cleared |
| HandwritingLayer.PenTap | src/features/notebook/components/blocks/handwriting-layer.tsx:152-257 | a tap with no move commits a one-sample stroke, which is never drawn |
| HandwritingLayer.PenDrag | src/features/notebook/components/blocks/handwriting-layer.tsx:152-257 | down and two moves commit one stroke holding the three samples in order |
| TextBlock.Block.constructor | src/features/notebook/components/blocks/text-block.tsx:104-108 | the local position and size start as the object's |
| TextBlock.Block.Sync | src/features/notebook/components/blocks/text-block.tsx:111-115 | when the object's geometry changed, the local position and size are reset from it; otherwise they are kept |
| TextBlock.Block.Drag | src/features/notebook/components/blocks/text-block.tsx:117-119 | a drag tick moves only the local position, and not in pen mode |
| TextBlock.Block.DragStop | src/features/notebook/components/blocks/text-block.tsx:121-127 | drag stop moves the local position and commits exactly {x, y}; nothing in pen mode |
| TextBlock.Block.Resize | src/features/notebook/components/blocks/text-block.tsx:129-149 | the reported size is stored and the position shifted so that the corner opposite the handle stays put; an east or south handle leaves that coordinate alone |
| TextBlock.Block.ResizeStop | src/features/notebook/components/blocks/text-block.tsx:151-164 | commits the reported size together with the local position |
| TextBlock.Block.Click | src/features/notebook/components/blocks/text-block.tsx:166-185 | a click, Enter or Space selects this block exactly when pen mode is off |
| TextBlock.Block.ContentChange | src/features/notebook/components/blocks/text-block.tsx:266 | an edit commits only the new content |
| TextBlock.ResizeGesture | src/features/notebook/components/blocks/text-block.tsx:129-164 | a resize from any handle commits a patch with the new size whose opposite corner is where the object's was |
| TextBlock.DragGesture | src/features/notebook/components/blocks/text-block.tsx:117-127 | a drag commits only its final position, once |
| LegacyTextBlock.Block.constructor | components/notebook/text-block.tsx:23 | the local size starts as the object's |
| LegacyTextBlock.Block.Sync | components/notebook/text-block.tsx:27-29 | an external width or height change resets the local size; otherwise it is kept |
| LegacyTextBlock.Block.DragStop | components/notebook/text-block.tsx:31-33 | drag stop commits exactly {x, y} from the drag data; nothing in pen mode |
| LegacyTextBlock.Block.Resize | components/notebook/text-block.tsx:35-38 | a resize tick changes only the local size |
| LegacyTextBlock.Block.ResizeStop | components/notebook/text-block.tsx:40-43 | resize stop commits width and height only |
| LegacyTextBlock.Block.Click | components/notebook/text-block.tsx:73-78 | a click selects exactly when pen mode is off |
| LegacyTextBlock.Block.ContentChange | components/notebook/text-block.tsx:100 | an edit commits only the new content |
| LegacyTextBlock.ResizeGesture | components/notebook/text-block.tsx:35-43 | a resize (from the only, south-east handle) keeps the top-left corner and sets the new size |
| CanvasSelection.Selection.constructor | src/hooks/notebook/use-canvas-selection.ts:5-7 | nothing selected and no active editor |
| CanvasSelection.Selection.BlockClick | src/hooks/notebook/use-canvas-selection.ts:9-12 | the block is selected, the connection selection dropped, the editor kept; at most one selection |
| CanvasSelection.Selection.ConnectionClick | src/hooks/notebook/use-canvas-selection.ts:14-25 | the connection is selected, the block selection dropped, and the active editor, if any, blurred and forgotten |
| CanvasSelection.Selection.BackgroundClick | src/hooks/notebook/use-canvas-selection.ts:27-34 | both selections cleared and the active editor, if any, blurred and forgotten |
| CanvasSelection.Selection.EditorFocused | src/hooks/notebook/use-canvas-selection.ts:36-43 | focusing a block's editor selects that block, drops the connection selection and makes the editor active |
| CanvasSelection.Selection.SetSelectedObjectId | src/hooks/notebook/use-canvas-selection.ts:5 | only the block selection changes |
| CanvasSelection.Selection.SetSelectedConnectionId | src/hooks/notebook/use-canvas-selection.ts:6 | only the connection selection changes |
| CanvasSelection.FocusThenConnectionClick | src/hooks/notebook/use-canvas-selection.ts:14-43 | typing in a block and then clicking a connection blurs that editor and leaves the connection as the only selection |
| CanvasSelection.BlockThenBackgroundClick | src/hooks/notebook/use-canvas-selection.ts:9-34 | a background click after a block click leaves nothing selected and blurs nothing |
| NotebookCanvas.ConnectPatch | src/features/notebook/components/canvas/notebook-canvas.tsx:135-155 | no patch exactly when a connection already joins the pair in either direction; otherwise a connections-only patch appending one solid arrow from the source to the clicked block after the existing connections |
| NotebookCanvas.ConnectKeepsPairsUnique | src/features/notebook/components/canvas/notebook-canvas.tsx:137-143 | connecting never joins a pair of blocks twice |
| NotebookCanvas.ConnectKeepsNoDangling | src/features/notebook/components/canvas/notebook-canvas.tsx:145-154 | connecting two existing blocks keeps every connection joined to existing blocks |
| NotebookCanvas.Canvas.constructor | src/features/notebook/components/canvas/notebook-canvas.tsx:42-45 | connect mode off, no source, pointer at (100, 100), nothing selected |
| NotebookCanvas.Canvas.MouseMove | src/features/notebook/components/canvas/notebook-canvas.tsx:47-55 | only the recorded pointer position changes |
| NotebookCanvas.Canvas.ToggleConnectMode | src/features/notebook/components/canvas/notebook-canvas.tsx:85-94 | the mode flips and the source is dropped; turning it on also drops the block selection; nothing else changes |
| NotebookCanvas.Canvas.OnBlockClick | src/features/notebook/components/canvas/notebook-canvas.tsx:128-178 | outside connect mode an ordinary block selection; in it the first click sets and selects the source, a click on another block emits the connect patch and clears source and selection, a click on the source only clears them |
| NotebookCanvas.Canvas.DeleteSelection | src/features/notebook/components/canvas/notebook-canvas.tsx:110-126 | one delete patch for the selected block, then one for the selected connection, both computed from the same page, and each deleted id cleared |
| NotebookCanvas.ConnectClickAfterConnectionClick | src/features/notebook/components/canvas/notebook-canvas.tsx:85-134 | (as written) the first connect click selects a block without dropping the connection selection, so both are selected |
| NotebookCanvas.TwoPatchDeleteKeepsTouching | src/features/notebook/components/canvas/notebook-canvas.tsx:110-118 | (as written) applying the two patches in turn removes the block but restores its other connections, which then dangle |
| NotebookCanvas.DeleteSelectionLeavesDangling | src/features/notebook/components/canvas/notebook-canvas.tsx:85-178 | (as written) the state is reachable by clicks, and deleting it leaves a dangling connection |
| NotebookCanvas.ThreeBlockExample | src/features/notebook/components/canvas/notebook-canvas.tsx:110-118 | a concrete page without dangling connections to which the previous lemma applies |
| NotebookCanvas.DeleteSelectionPatch | src/features/notebook/components/canvas/notebook-canvas.tsx:110-126 | (corrected) one patch that removes the block, every connection touching it and the selected connection from the page as it is |
| NotebookCanvas.DeleteSelectionPatchKeepsNoDangling | src/features/notebook/components/canvas/notebook-canvas.tsx:110-126 | (corrected) the single patch keeps a page free of dangling connections whatever is selected |
| NotebookCanvas.DeleteSelectionPatchSequential | src/features/notebook/components/canvas/notebook-canvas.tsx:110-126 | (corrected) the single patch equals deleting the block and then the connection, each from the page the previous step left |
| ModeCanvas.Canvas.constructor | src/components/features/notebook/notebook-canvas.tsx:21-26 | all three modes off, no pending source, pointer at (100, 100), nothing selected; at most one mode is on |
| ModeCanvas.Canvas.TogglePenMode | src/components/features/notebook/notebook-canvas.tsx:160-167 | pen flips; turning it on turns connect and object-eraser off and drops the pending source; at most one mode stays on |
| ModeCanvas.Canvas.ToggleConnectMode | src/components/features/notebook/notebook-canvas.tsx:169-180 | connect flips and the pending source is dropped either way; turning it on turns pen and object-eraser off and deselects the block; at most one mode stays on |
| ModeCanvas.Canvas.ToggleObjectEraserMode | src/components/features/notebook/notebook-canvas.tsx:182-189 | object-eraser flips; turning it on turns pen and connect off and drops the pending source; at most one mode stays on |
| ModeCanvas.Canvas.OnBlockClick | src/components/features/notebook/notebook-canvas.tsx:93-132 | outside connect mode the click selects the block and emits nothing; in connect mode the first click sets and selects the source, a click on another block emits the connection patch and clears source and selection, a click on the source itself only clears them; the modes are unchanged |
| ModeCanvas.Canvas.DeleteSelection | src/components/features/notebook/notebook-canvas.tsx:82-91 | one delete patch per truthy selected id, block first, each built from the same page, and the deleted ids are deselected |
| ModeCanvas.PenThenConnect | src/components/features/notebook/notebook-canvas.tsx:160-180 | pen on then connect on leaves only connect on |
| ModeCanvas.EraserThenPenTwice | src/components/features/notebook/notebook-canvas.tsx:160-167 | object-eraser on, then pen on and off, leaves no mode on |
| CanvasShortcuts.DeleteEffects | src/features/notebook/hooks/use-canvas-shortcuts.ts:56-63 | at most two deletions, the block first; the block is asked to be deleted exactly when its id is truthy, and the connection likewise |
| CanvasShortcuts.FontStep | src/features/notebook/hooks/use-canvas-shortcuts.ts:96-124 | '+' or '=' grows the size by two; '-' shrinks it by two only above 8; any other key sets no size |
| CanvasShortcuts.ShrinkFloor | src/features/notebook/hooks/use-canvas-shortcuts.ts:112-123 | shrinking leaves sizes of 8 or less alone and never goes below 7 |
| CanvasShortcuts.GrowThenShrink | src/features/notebook/hooks/use-canvas-shortcuts.ts:96-124 | growing then shrinking restores any size above 6 |
| CanvasShortcuts.FormatCommand | src/features/notebook/hooks/use-canvas-shortcuts.ts:126-170 | a formatting command exactly for 'o', '1', '2', '3', 'l', 'g' and 'r', and never a size or blur |
| CanvasShortcuts.DeleteSelected | src/features/notebook/hooks/use-canvas-shortcuts.ts:54-65 | the deletions of the truthy selected ids, and exactly those ids deselected; the focused editor unchanged |
| CanvasShortcuts.Escape | src/features/notebook/hooks/use-canvas-shortcuts.ts:187-196 | selection cleared, all three modes off, and a blur for the focused editor if any |
| CanvasShortcuts.ToggleKey | src/features/notebook/hooks/use-canvas-shortcuts.ts:199-210 | 'p' flips pen and 'c' flips connect from the value when pressed, turning the other two modes off; any other key changes no mode |
| CanvasShortcuts.OtherKey | src/features/notebook/hooks/use-canvas-shortcuts.ts:174-210 | Delete/Backspace outside typing deletes the selection, Escape clears everything, plain 'p'/'c' outside typing toggle; every other key changes no mode and no selection |
| CanvasShortcuts.HandleKeyDown | src/features/notebook/hooks/use-canvas-shortcuts.ts:39-211 | Cmd/Ctrl+D deletes the selection even while typing, +N asks for a block at the last pointer position, +P and +E force one mode on; editor keys send one command; every other key follows the non-command branch; the default is prevented exactly for the handled commands; at most one mode stays on |
| CanvasShortcuts.EscapeThenDelete | src/features/notebook/hooks/use-canvas-shortcuts.ts:174-196 | after Escape, Delete deletes nothing |
| CanvasShortcuts.DeleteWhileTyping | src/features/notebook/hooks/use-canvas-shortcuts.ts:43-185 | Backspace while typing in a block deletes nothing, while Cmd+D deletes the selected block |
| LegacyCanvas.MigratedBlock | components/notebook/notebook-canvas.tsx:107-144 | the block keeps the given id, section and content, at `y` 50 with height 300 |
| LegacyCanvas.Migrate | components/notebook/notebook-canvas.tsx:103-150 | no update exactly when the page already has blocks or has no legacy text; otherwise an objects-only patch holding one block per non-empty field, in the order fact, abstraction, diversion |
| LegacyCanvas.MigrateFullPage | components/notebook/notebook-canvas.tsx:103-150 | a page with all three fields becomes three blocks, one per section, left to right |
| LegacyCanvas.Canvas.constructor | components/notebook/notebook-canvas.tsx:19-29 | nothing selected, no pending source, all four modes off, boundaries at 10, 50 and 75; at most one mode is on |
| LegacyCanvas.Canvas.Render | components/notebook/notebook-canvas.tsx:34-100 | the keydown listener is reinstalled, capturing the current modes, exactly when the selection changed; nothing else changes |
| LegacyCanvas.Canvas.SetDrawMode | components/notebook/notebook-canvas.tsx:47-84 | the chosen drawing mode takes the new value, every other mode goes off, and turning a mode on drops the selection and the editor |
| LegacyCanvas.Canvas.KeyDownReading | components/notebook/notebook-canvas.tsx:35-96 | nothing while typing; 'c' flips connect and turns the rest off; 'p', 'e' and Shift+'e' set their mode to the negation of the value read; Delete, Backspace or Cmd/Ctrl+'d' with a selection deletes the selected block, or else the selected connection; at most one mode stays on |
| LegacyCanvas.Canvas.KeyDown | components/notebook/notebook-canvas.tsx:34-100 | (as written) the pen and eraser keys negate the modes captured when the listener was installed, not the current ones |
| LegacyCanvas.Canvas.KeyDownCurrent | components/notebook/notebook-canvas.tsx:35-96 | (corrected) the pen and eraser keys negate the current modes, as the toolbar does |
| LegacyCanvas.Canvas.DeleteObject | components/notebook/notebook-canvas.tsx:260-279 | the block and every connection touching it go in one patch; a selected block is deselected and the editor dropped |
| LegacyCanvas.Canvas.BlockClick | components/notebook/notebook-canvas.tsx:162-185 | in connect mode the first click records the source, a click on another block appends a hand-drawn line without looking for an existing one and leaves connect mode, a click on the source changes nothing; outside connect and pen mode the block becomes the only selection |
| LegacyCanvas.Canvas.ConnectionClick | components/notebook/notebook-canvas.tsx:187-193 | outside pen and connect mode the connection becomes the only selection and the editor is dropped; otherwise nothing changes |
| LegacyCanvas.Canvas.BackgroundClick | components/notebook/notebook-canvas.tsx:375-384 | outside pen mode both selections are dropped; connect mode ends and drops its source |
| LegacyCanvas.Canvas.AddBlock | components/notebook/notebook-canvas.tsx:208-233 | a patch exactly outside pen and connect mode for a double click on the container itself; it appends a 200 x 100 fact block at the pointer and selects it |
| LegacyCanvas.Canvas.ToolbarToggleConnect | components/notebook/notebook-canvas.tsx:297-302 | connect flips, every other mode goes off, the selection and the pending source stay |
| LegacyCanvas.Canvas.ToolbarTogglePen | components/notebook/notebook-canvas.tsx:303-315 | pen flips from its current value, every other mode goes off, and turning pen on drops the selection and editor |
| LegacyCanvas.Canvas.ToolbarToggleEraser | components/notebook/notebook-canvas.tsx:316-327 | the eraser flips from its current value, every other mode goes off, and turning it on drops the selection and editor |
| LegacyCanvas.Canvas.ToolbarToggleObjectEraser | components/notebook/notebook-canvas.tsx:328-339 | the object eraser flips from its current value, every other mode goes off, and turning it on drops the selection and editor |
| LegacyCanvas.Canvas.ToolbarDelete | components/notebook/notebook-canvas.tsx:341-347 | the selected block if its id is truthy, otherwise the selected connection if truthy, otherwise nothing |
| LegacyCanvas.Canvas.BoundaryChange | components/notebook/notebook-canvas.tsx:250-258 | only the named boundary position changes, and nothing is saved to the page |
| LegacyCanvas.PenKeyTwice | components/notebook/notebook-canvas.tsx:34-100 | (as written) with nothing selected, pressing 'p' twice leaves pen mode on |
| LegacyCanvas.PenKeyTwiceCurrent | components/notebook/notebook-canvas.tsx:47-58 | (corrected) reading the current mode, the second 'p' turns pen mode off |
| LegacyCanvas.ConnectTwice | components/notebook/notebook-canvas.tsx:162-178 | repeating the gesture on the updated page joins the same pair a second time |
| LegacyConnectionLayer.FirstIndexOf | components/notebook/connection-layer.tsx:21 | the index of the first block with the id, or none when no block has it |
| LegacyConnectionLayer.GetCenter | components/notebook/connection-layer.tsx:20-27 | none exactly when no block has the id; otherwise the centre (x + width/2, y + height/2) of the FIRST block with it, as `find` returns |
| LegacyConnectionLayer.CenterLines | components/notebook/connection-layer.tsx:40-72 | exactly one centre-to-centre line per connection whose two blocks exist, in the order of the connections; a connection with a missing end is neither drawn nor clickable |
| LegacyConnectionLayer.UniqueIdsSameBlock | components/notebook/connection-layer.tsx:21 | with unique block ids the first match equals the last match the later layer's map keeps |
| LegacyConnectionLayer.DuplicateIdsDiffer | components/notebook/connection-layer.tsx:21 | with a duplicated id this layer centres on the first block and the later layer on the last |
| LegacyConnectionLayer.ClippedLineOnCenterLine | components/notebook/connection-layer.tsx:40-63 | with unique ids both layers draw the same connections, and the later layer's clipped ends lie on this layer's unclipped centre line |
| CanvasBackground.Clamp | src/features/notebook/components/canvas/canvas-background.tsx:72-80 | the result lies in the range, equals the value inside it and the nearer bound outside it |
| CanvasBackground.Reported | src/features/notebook/components/canvas/canvas-background.tsx:70-82 | the reported value lies within the boundary's range (title 5..30 of the height, centre 30..70 and diversion 55..95 of the width) and equals the pointer's percentage whenever that is inside the range |
| CanvasBackground.TitleSnapsToFive | src/features/notebook/components/canvas/canvas-background.tsx:71-73 | a title drag to 2% of the height reports 5 |
| CanvasBackground.DefaultsWithinRanges | src/features/notebook/components/canvas/canvas-background.tsx:48-80 | each default position is within its own range, so clamping leaves it unchanged |
| CanvasBackground.Background.constructor | src/features/notebook/components/canvas/canvas-background.tsx:54 | no drag in progress |
| CanvasBackground.Background.MouseDown | src/features/notebook/components/canvas/canvas-background.tsx:56-59 | the pressed boundary is being dragged |
| CanvasBackground.Background.MouseMove | src/features/notebook/components/canvas/canvas-background.tsx:62-83 | a report exactly when a boundary is being dragged, a handler is given and the container exists, and then the dragged boundary with its clamped value |
| CanvasBackground.Background.MouseUp | src/features/notebook/components/canvas/canvas-background.tsx:85-87 | the drag ends |
| CanvasBackground.DragCenter | src/features/notebook/components/canvas/canvas-background.tsx:56-98 | a centre drag reports a centre value within 30..70, and nothing after release |
| CanvasLayout.NewLayout | src/features/notebook/hooks/use-canvas-layout.ts:26-30 | all three fields present; the moved boundary takes the value as given, unclamped, and the others keep their positions |
| CanvasLayout.SavedLayoutUsedForSections | src/features/notebook/hooks/use-canvas-layout.ts:26-41 | after the layout is saved, the section thresholds used when adding a block are exactly the saved positions |
| CanvasLayout.LayoutState.constructor | src/features/notebook/hooks/use-canvas-layout.ts:9-23 | the positions are the page's layout fields, each missing one at its default |
| CanvasLayout.LayoutState.Sync | src/features/notebook/hooks/use-canvas-layout.ts:15-23 | when any layout field of the page changed, all three positions are reloaded with defaults for missing fields; otherwise none changes |
| CanvasLayout.LayoutState.BoundaryChange | src/features/notebook/hooks/use-canvas-layout.ts:25-42 | the named position takes the value, the other two stay, and the page is sent the full three-field layout built from the positions before the change |
| CanvasLayout.MoveCenterOnFreshPage | src/features/notebook/hooks/use-canvas-layout.ts:9-41 | on a page without a layout, moving the centre saves it with the default title and diversion positions |
| CanvasLayout.DragTitle | src/features/notebook/hooks/use-canvas-layout.ts:25-41 | a title drag through the background saves a title position within 5..30 and keeps the other two |
| NoteTypes.ApplyPatch | src/features/notes/stores/note-store.ts:54 | `{ ...page, ...updates }`: the present fields of the patch replace the page's, the id, time stamps and deletion time are kept, and an empty patch changes nothing |
| NoteTypes.UpdateMatching | src/features/notes/stores/note-store.ts:53-55 | the map keeps length and order; each page with the id becomes the patched page stamped with `now`, every other page is unchanged |
| NoteTypes.WithoutId | src/features/notes/stores/note-store.ts:60 | exactly the pages with another id remain, and when no page has the id the list is unchanged |
| NoteTypes.WithoutIdIsSubseq | src/features/notes/stores/note-store.ts:60 | what the filter keeps stays in its original order |
| NoteStore.SetPages | src/features/notes/stores/note-store.ts:44 | the page list is replaced, the active id kept |
| NoteStore.AddPage | src/features/notes/stores/note-store.ts:46-49 | the new page is first and the old pages follow unchanged and in order; the active id is kept |
| NoteStore.UpdatePage | src/features/notes/stores/note-store.ts:51-56 | same length, ids and active id; pages with the id are patched and stamped, all others unchanged |
| NoteStore.DeletePage | src/features/notes/stores/note-store.ts:58-61 | exactly the pages with another id remain, in their order; the active id is kept |
| NoteStore.SetActivePageId | src/features/notes/stores/note-store.ts:63 | only the active id changes |
| NoteStore.Partialize | src/features/notes/stores/note-store.ts:86-89 | the persisted slice is exactly the pages and the active id |
| NoteStore.Rehydrate | src/features/notes/stores/note-store.ts:38-91 | the stored pages and active id replace those of the fresh store |
| NoteStore.PersistRoundTrip | src/features/notes/stores/note-store.ts:74-89 | persisting, migrating from any version and rehydrating gives back the state exactly (migrate is the identity) |
| NoteStore.DeleteUndoesAdd | src/features/notes/stores/note-store.ts:46-61 | deleting the id of a freshly added page with a new id restores the store |
| NoteStore.DeleteAfterUpdate | src/features/notes/stores/note-store.ts:51-61 | updating and then deleting an id equals deleting it straight away |
| NoteStore.UpdateUnknownId | src/features/notes/stores/note-store.ts:51-56 | an update of an id no page has changes nothing |
| Notes.InitialPage | src/features/notes/hooks/use-notes.ts:6-16 | the page created when nothing was saved: id "1" in notebook "default", both time stamps at load time, shown, not a favourite, and with no blocks, connections or strokes |
| Notes.NewPage | src/features/notes/hooks/use-notes.ts:79-89 | the page `handleAddPage` creates: the given id, notebook "default", empty title and tags, both time stamps `now`, shown, not a favourite, and empty |
| Notes.ActivePage | src/features/notes/hooks/use-notes.ts:114 | some page exactly when a page with the active id is not in the trash; the page returned is such a page |
| Notes.ChooseActive | src/features/notes/hooks/use-notes.ts:50-54 | the saved last-active id when that page exists and is not deleted; otherwise an id of a shown page, or none when every page is deleted (or the first shown page has an empty id) |
| Notes.ChosenPageIsShown | src/features/notes/hooks/use-notes.ts:51-114 | the id chosen on load always names the page then shown |
| Notes.AddedPageIsShown | src/features/notes/hooks/use-notes.ts:78-114 | the page just added is the active page shown |
| Notes.UpdateKeepsShown | src/features/notes/hooks/use-notes.ts:95-114 | an update never hides the shown page |
| Notes.Workspace.constructor | src/features/notes/hooks/use-notes.ts:31-32 | no pages and no active id |
| Notes.Workspace.Load | src/features/notes/hooks/use-notes.ts:45-58 | saved pages are taken as they are with the chosen active id; an empty load yields the single initial page, made active; the active id names a shown page |
| Notes.Workspace.AddPage | src/features/notes/hooks/use-notes.ts:78-91 | a new empty page is prepended and becomes the active, shown page |
| Notes.Workspace.UpdatePage | src/features/notes/hooks/use-notes.ts:95-99 | the patch and stamp go to the pages with the id only; the active id is kept and stays shown |
| Notes.Workspace.UpdatePageTitle | src/features/notes/hooks/use-notes.ts:102-111 | a title-only update of the pages with the id |
| Notes.FirstRunThenAdd | src/features/notes/hooks/use-notes.ts:55-91 | an empty load followed by an add leaves two pages, the new one shown |
| Trash.Expired | src/features/notes/hooks/use-trash.ts:33-36 | a page is purged only with a deletion time more than two weeks before now; a missing or zero deletion time never expires |
| Trash.TrashedPages | src/features/notes/hooks/use-trash.ts:29 | exactly the pages with a deletion time, in their order |
| Trash.Cleaned | src/features/notes/hooks/use-trash.ts:32-42 | exactly the pages that are not expired (truthy deletion time earlier than now minus fourteen days) remain, in order |
| Trash.SoftDeleted | src/features/notes/hooks/use-trash.ts:48-50 | same length and order; the pages with the id get `now` as deletion and update time, the rest are unchanged |
| Trash.Restored | src/features/notes/hooks/use-trash.ts:67-69 | same length and order; the pages with the id lose their deletion time and get `now` as update time, the rest are unchanged |
| Trash.NextActive | src/features/notes/hooks/use-trash.ts:55-56 | some id only of another shown page (never the deleted id, never empty); none when no other page is shown |
| Trash.SoftDeletedIsTrashed | src/features/notes/hooks/use-trash.ts:29-50 | a soft-deleted page is in the trash and no longer shown |
| Trash.RestoredIsShown | src/features/notes/hooks/use-trash.ts:29-69 | a restored page leaves the trash and is shown |
| Trash.RestoreUndoesSoftDelete | src/features/notes/hooks/use-trash.ts:48-69 | restoring after a soft delete gives back the pages, only the update time moved on |
| Trash.CleanupKeepsShown | src/features/notes/hooks/use-trash.ts:32-42 | the purge never removes the shown page |
| Trash.SoftDeleteKeepsShown | src/features/notes/hooks/use-trash.ts:48-54 | deleting a page that is not active keeps the active page shown |
| Trash.NextActiveIsShown | src/features/notes/hooks/use-trash.ts:55-56 | the page chosen after deleting the active one is shown |
| Trash.PermanentDeleteKeepsShown | src/features/notes/hooks/use-trash.ts:83-88 | deleting another page for good keeps the active page shown |
| Trash.CleanupOldTrash | src/features/notes/hooks/use-trash.ts:32-43 | the pages become the cleaned list, the active id is kept and stays shown |
| Trash.DeletePage | src/features/notes/hooks/use-trash.ts:46-62 | pages soft-deleted; the active id moves to the next shown page only when the deleted page was active, and it names a shown page afterwards |
| Trash.RestorePage | src/features/notes/hooks/use-trash.ts:65-74 | pages restored, active id unchanged |
| Trash.PermanentDeletePage | src/features/notes/hooks/use-trash.ts:77-93 | without confirmation nothing changes; otherwise the id's pages are removed and the active id cleared if it was theirs |
| Trash.DeleteOnlyPageThenRestore | src/features/notes/hooks/use-trash.ts:46-74 | deleting the only active page leaves none active and one page in the trash; restoring empties the trash without reactivating it |
| SidebarSearch.Blank | src/features/sidebar/hooks/use-sidebar-search.ts:8 | a query is blank exactly when every character is ECMAScript white space; the empty query is blank |
| SidebarSearch.Contains | src/features/sidebar/hooks/use-sidebar-search.ts:10 | `includes`: the empty needle and the haystack itself are contained, and a contained needle is no longer than the haystack |
| SidebarSearch.FilteredPages | src/features/sidebar/hooks/use-sidebar-search.ts:7-11 | a blank query returns the pages unchanged; any other keeps exactly the pages whose lower-cased title contains the lower-cased query, in order |
| SidebarSearch.SearchIdempotent | src/features/sidebar/hooks/use-sidebar-search.ts:7-11 | searching the results again with the same query changes nothing |
| SidebarSearch.SpaceKeepsAll | src/features/sidebar/hooks/use-sidebar-search.ts:8 | a lone space is blank and keeps every page |
| SidebarSearch.TrailingSpaceCounts | src/features/sidebar/hooks/use-sidebar-search.ts:9-10 | a non-blank query is matched untrimmed: "memo " does not find "memo" |
| SidebarSearch.CaseIgnored | src/features/sidebar/hooks/use-sidebar-search.ts:9-10 | "MEMO" finds "memo" |
| SidebarEditing.FinishUpdate | src/features/sidebar/hooks/use-sidebar-editing.ts:32-37 | an update `{title}` exactly when a truthy id is edited, a handler exists, the first page with that id exists and its title differs from the buffer |
| SidebarEditing.FinishRenames | src/features/sidebar/hooks/use-sidebar-editing.ts:35 | applying the update renames the edited page and leaves all others as they were |
| SidebarEditing.Editor.constructor | src/features/sidebar/hooks/use-sidebar-editing.ts:10-11 | nothing edited, empty buffer |
| SidebarEditing.Editor.StartEditing | src/features/sidebar/hooks/use-sidebar-editing.ts:23-26 | the page's id is edited, its title copied into the buffer |
| SidebarEditing.Editor.SetEditingTitle | src/features/sidebar/hooks/use-sidebar-editing.ts:11 | only the buffer changes |
| SidebarEditing.Editor.FinishEditing | src/features/sidebar/hooks/use-sidebar-editing.ts:28-41 | returns the update for the old id and buffer, then always resets both |
| SidebarEditing.Editor.KeyDown | src/features/sidebar/hooks/use-sidebar-editing.ts:43-53 | Enter finishes; Escape resets without an update; other keys change nothing |
| SidebarEditing.RenameToEmpty | src/features/sidebar/hooks/use-sidebar-editing.ts:32-40 | no trimming: clearing the title and pressing Enter hands over the empty title |
| SidebarEditing.UnchangedOrAbandoned | src/features/sidebar/hooks/use-sidebar-editing.ts:34-50 | Enter with an unchanged title, and Escape after a change, hand over nothing |
| Validators.IsValidNotePage | electron/utils/validators.ts:12-26 | only a plain object passes (an array, although `typeof` says object, fails), and it has all nine checked properties |
| Validators.IsValidPages | electron/utils/validators.ts:33-35 | an array all of whose elements are valid pages; the empty array passes |
| Validators.IsValidAppConfig | electron/utils/validators.ts:42-49 | only an object or array passes; the empty object passes; a string theme other than the three names fails |
| Validators.Get | electron/utils/validators.ts:14-44 | a property of a non-object, or a missing one, reads as undefined |
| Validators.SentPageIsValid | electron/utils/validators.ts:12-26 | every page the app sends passes the page check, whatever its arrays hold |
| Validators.SentPagesAreValid | electron/utils/validators.ts:33-35 | every page list the app sends passes the pages check |
| Validators.NonObjectsRejected | electron/utils/validators.ts:13-43 | null and every non-object fail both the page and the config check |
| Validators.PageCheckIgnoresContents | electron/utils/validators.ts:19-24 | replacing what an array field holds never changes the page verdict |
| Validators.PagesCheckSplits | electron/utils/validators.ts:33-35 | the empty array is valid, and a concatenation is valid exactly when both parts are |
| Validators.ConfigThemes | electron/utils/validators.ts:42-48 | the empty object is a valid config; a lone theme is accepted exactly when it is light, dark or system |
| Validators.ArraysPassConfigCheck | electron/utils/validators.ts:13-48 | an array passes the config check (typeof is 'object') but never the page check |
| Theme.ToggledTheme | src/lib/theme.ts:7-9 | 'light' exactly for 'dark'; always 'light' or 'dark' |
| Theme.ToggleTwice | src/lib/theme.ts:8 | toggling twice returns 'light' or 'dark' to itself and takes 'system' or no theme to 'light' |
| PageMenu.PageMenuActions | src/features/sidebar/components/parts/page-item-menu.tsx:27-60 | two actions, only the second destructive; restore then permanent delete in the trash, rename then delete elsewhere, each calling its handler with the page (or nothing when the handler is missing) |
| PageMenu.LabelsAreKeys | src/features/sidebar/components/parts/page-item-menu.tsx:32-59 | the four labels are distinct and only the destructive actions use the bin icon |
| PageMenu.CallsConcernThePage | src/features/sidebar/components/parts/page-item-menu.tsx:37-56 | every call a menu makes concerns the page it was built for |
| NoteTypes.Lower | src/features/sidebar/hooks/use-sidebar-search.ts:9-10 | same length, each character lower-cased (ASCII letters only) |
| SidebarGrouping.BucketOf | src/features/sidebar/hooks/use-sidebar-grouping.ts:25-48 | the trash exactly for a truthy `deletedAt`, the favourites exactly for a live truthy `isFavorite`, a date group exactly otherwise, today exactly when the day test holds, and older only when no date test holds |
| SidebarGrouping.Insert | src/features/sidebar/hooks/use-sidebar-grouping.ts:53 | inserting into a newest-first list gives a newest-first list holding the same pages plus the new one |
| SidebarGrouping.SortNewestFirst | src/features/sidebar/hooks/use-sidebar-grouping.ts:53 | the result is ordered by `updatedAt` descending and is a permutation of its input |
| SidebarGrouping.PickAppend | src/features/sidebar/hooks/use-sidebar-grouping.ts:25-49 | one more page extends exactly its own bucket's list, and the active list when it is not deleted |
| SidebarGrouping.Group | src/features/sidebar/hooks/use-sidebar-grouping.ts:12-58 | the loop yields the non-deleted pages, the deleted pages and the favourites in input order, and each date group as its bucket sorted newest first |
| SidebarGrouping.PickStep | src/features/sidebar/hooks/use-sidebar-grouping.ts:25-49 | one more page adds itself to its own bucket and to no other |
| SidebarGrouping.SplitIsPartition | src/features/sidebar/hooks/use-sidebar-grouping.ts:25-49 | the six buckets together hold each input page exactly as often as the input |
| SidebarGrouping.GroupIsPartition | src/features/sidebar/hooks/use-sidebar-grouping.ts:25-54 | every input page lands in exactly one of deleted, favourites and the four date groups, also after sorting |
| SidebarGrouping.PickMembers | src/features/sidebar/hooks/use-sidebar-grouping.ts:26-48 | a bucket holds exactly the input pages whose first matching test (deleted, favourite, today, yesterday, this week, else older) is its own |
| SidebarGrouping.PickIsSubseq | src/features/sidebar/hooks/use-sidebar-grouping.ts:25-49 | each bucket keeps the input order |
| SidebarGrouping.NotDeletedMembers | src/features/sidebar/hooks/use-sidebar-grouping.ts:26-31 | `activePages` is exactly the non-deleted pages, in input order |
| SidebarGrouping.SortKeepsMembers | src/features/sidebar/hooks/use-sidebar-grouping.ts:53 | sorting keeps exactly the same pages |
| SidebarGrouping.FavoritesNotDated | src/features/sidebar/hooks/use-sidebar-grouping.ts:33-48 | a favourite is in no date group, and a page is in at most one date group |

## Left out

- Rendering, styling, animation and the library components (icons, buttons, menus, the
  draggable and resizable wrappers) are not modelled; only the handlers they call are.
- Storage and I/O are not modelled: loading and saving notes and configuration through the
  Electron bridge, the autosave effects, and the zustand storage and rehydrate merge. The store
  is modelled from the state it persists and what it restores.
- The clock, `crypto.randomUUID` and `uuidv4`, `window.confirm` and the date-fns tests used for
  the dated sidebar groups are parameters: a time, a fresh id, a yes/no answer, a bucket function.
- Pointer positions are taken as already converted to canvas-local coordinates, so
  `getBoundingClientRect` and the container lookup are left out. A missing container is a flag.
- `DEFAULT_LAYOUT` is defined in a file that is not part of this model. It is taken to be
  10, 50 and 75, the fallbacks `handleAddBlock` writes out. `DEFAULT_OBJECT_SIZE` is not part of
  this model either, and the block size is a parameter.
- The mode canvas (src/components/features/notebook/notebook-canvas.tsx) imports canvas
  operations and shortcuts from src/hooks/notebook/, and those files are not part of this model.
  The src/features/notebook/hooks/ versions are used in their place.
- The connect-mode canvas imports its selection hook from src/features/notebook/hooks/, and that
  file is not part of this model. src/hooks/notebook/use-canvas-selection.ts is used in its place.
- The layout hook in src/hooks/notebook/use-canvas-layout.ts differs from the modelled one only
  in its effect dependency: it reloads whenever `page.layout` is a new object, not only when a
  field changes. That variant is not modelled separately.
- The editor library is opaque. Formatting shortcuts become `EditorCommand` values handed to the
  focused editor, and the editor's font size is an input. Its registry of editor instances,
  and the effect that sets the active editor when the selection changes, are not modelled.
- Mouse-move and resize events arriving between renders are not interleaved with other
  handlers. Each handler runs to completion on the state of one render, as React delivers them.
- `Math.sqrt`: distances are compared squared, which agrees for the non-negative radii the
  code uses. Floating point, `NaN` and `Infinity` are not modelled; coordinates are exact reals.
  `CanvasBackground.Background.MouseMove` and `CanvasBackground.Reported` therefore require a
  canvas of positive size.
- The canvas's Enter/Space key calls `handleAddBlock` with a keyboard event that has no pointer
  position, and the code then computes with undefined coordinates. That call is not modelled.
- The page title input's `onChange`, which sends the typed title straight to `onUpdate`, is
  not modelled. It is the same patch as `NoteStore.UpdatePage` with a title.
- The earlier text block's `handleDelete` is never attached to anything, and is not modelled.
- The earlier canvas's `handleUpdateObject`, `handleUpdateStrokes` and `toggleFavorite` are the
  same as `CanvasOperations.UpdateObject`, `CanvasOperations.UpdateStrokes` and
  `CanvasOperations.ToggleFavorite`, and are not modelled separately.
- LegacyCanvas.Canvas.KeyDown: the installed listener also captured the page of its render, so
  a key deletion can build its patch from an older page. The model builds it from the page
  given, and captures only the modes.
- `PagePatch` holds the page fields the canvas and sidebar handlers send: title, tags,
  favourite flag, objects, connections, strokes and layout. The trash stamps are set directly
  by the trash operations, and the other fields of `NotePage` are never patched by the core.
- NoteTypes.Lower: `toLowerCase` is modelled for the ASCII letters only, and every other
  character is left as it is.
- SidebarGrouping.SortNewestFirst: the in-place `Array.prototype.sort` of each group is modelled
  as a function on the sequence (an insertion sort). Its contract states the descending order
  and the permutation only, not the order among pages with equal `updatedAt`, and which array
  object holds the result is not modelled.
- HandwritingLayer.EraserUpdate: the code tests whether a stroke changed by object identity,
  and the model by value. The two agree here, because a changed stroke has strictly fewer points.
- HandwritingLayer.RemainingPoints, HandwritingLayer.EraseAt and HandwritingLayer.ObjectErase
  carry no postconditions of their own. Their properties are stated in the lemmas beside them
  (RemainingPointsContents, EraseAtSound, EraseAtComplete, ObjectEraseContents and the rest).
- TextBlock.Block.Resize and LegacyTextBlock.Block.Resize: the size limits the resizable wrapper
  enforces are preconditions (`InBounds`), not computed.
- CanvasShortcuts.HandleKeyDown: the key handler's `setIsConnectMode(false)` leaves a pending
  connect source in place, and so does the model. Nothing clears it until the next connect toggle.

## Findings

| source | as written | input that shows it | evidently intended | confidence | as-written member | corrected member |
|---|---|---|---|---|---|---|
| src/features/notebook/hooks/use-canvas-operations.ts:36-45 | a new block's section compares its `y` with all three boundary percentages, each taken of the container's height, although the centre and diversion boundaries split the canvas into columns by `x` | a double click at (900, 300) on a 1000 x 800 canvas with the default layout: the block lies in the diversion column and is labelled fact | title above the title line, then fact left of the centre line, abstraction up to the diversion line and diversion beyond it, by `x` | not executed | CanvasOperations.SectionByHeightMislabels | CanvasOperations.ChooseSectionByRegion, CanvasOperations.AddBlockByRegion |
| components/notebook/notebook-canvas.tsx:47-58,100 | the keydown listener is reinstalled only when the selection changes, so the pen and eraser keys negate the mode captured at install time | nothing selected, press 'p' twice: pen mode stays on | each key press toggles the current mode, as the toolbar buttons do | not executed | LegacyCanvas.PenKeyTwice, LegacyCanvas.Canvas.KeyDown | LegacyCanvas.PenKeyTwiceCurrent, LegacyCanvas.Canvas.KeyDownCurrent |
| src/features/notebook/components/canvas/notebook-canvas.tsx:110-118 | deleting a selected block and a selected connection sends two patches, both built from the same page, so the second restores the connections the first removed with the block | connections c1 = A-B and c2 = B-C; click c2, turn connect mode on, click A, then delete: c1 is restored while A is gone | one patch removing the block, its connections and the selected connection together | not executed | NotebookCanvas.TwoPatchDeleteKeepsTouching, NotebookCanvas.DeleteSelectionLeavesDangling | NotebookCanvas.DeleteSelectionPatch, NotebookCanvas.DeleteSelectionPatchKeepsNoDangling |
