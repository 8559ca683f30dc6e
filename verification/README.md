# PinGUI GUIManager in Dafny

This project models the core of PinGUI's `GUIManager`. PinGUI is a retained-mode GUI toolkit on OpenGL/SDL. The manager owns an ordered list of widgets, `_ELEMENTS`, and the order of that list is also the paint order. Each frame it does three things:

- It checks which widget is under the pointer, or which widgets are highlighted.
- It settles a pending move of the GUI.
- It rebuilds the batched vertex data, `_vboDATA`, when that data is stale. It then compacts out dead widgets and draws the survivors in order.

Two flags drive this. `_needUpdate` means the buffer is stale. `_moved` means a move is pending. Two non-owning pointers record the widget under the pointer (`_collidingElement`) and the widget being manipulated (`_manipulatingElement`).

Modules:

- `Widget`: a widget as the manager sees it. It is a record `Element` with an identity `id` (standing for shared-pointer identity), its `kind`, and the flags `exist`, `networking`, `aiming` and `allowedCrop`. It also has an integer position.
- `Registry`: the two ways widgets leave the list.
  - `RemoveFirst` withdraws the first widget with a given identity.
  - `Live` compacts out widgets that no longer exist.
- `VertexBuffer`: `Build` is the in-order concatenation of the vertex data of the existing widgets.
- `Placement`: `Apply` applies an operation to every widget that passes a filter. The bulk operations are defined from it: move, move-to, normalise, crop and turning off highlights.
- `Collision`: `ScanFrom` is the scan that picks the widget under the pointer.
- `GuiManager`: the class `GUIManager`, with the fields `elements`, `vboData`, `needUpdate`, `moved`, `colliding` and `manipulating`. `State()` returns all of them as one `GuiState` value. Every method states its whole new state as an update of `old(State())`, so its contract also says which fields it leaves alone.

The widgets' virtual operations have no bodies in this repository. The model represents them as follows:

- `collide` is a parameter `(Id, ProbeState) -> Probe`. The source passes `_needUpdate` and `_manipulatingElement` to it by reference. So a probe returns whether the widget is hit and also the new values of those two fields, and the scan threads them from one probe to the next.
- `loadData` is a parameter `Element -> seq<Vertex>`.
- `VBO_Manager::bufferData` is a parameter `seq<Vertex> -> bool`.
- `normalizeElement` and `cropElement` are parameters `(Element, arg) -> Element`.
- `moveElement` shifts the position. `moveTo` sets the position. `turnOffAim` clears `aiming`.
- `manipulatingMod` is a parameter that gives the new value of the manipulating pointer.
- The state of the input manager enters as the boolean `inManipulatingMode`.
- `draw` is recorded as the list `drawn` of the widgets drawn, in order.
- `atWithdraw` is recorded as the result `found` of `WithdrawElement`.

Some behaviours are modelled exactly as the code has them:

- `loadVBO` clears `_needUpdate` only when `bufferData` returns false.
- `setUpdate` ignores its argument.
- `putElementAtStart`, `normalizeElements`, `moveGUITo` and `cropGUI` leave `_needUpdate` as it was.
- When `checkCollisions` picks a widget, it then runs `checkAimingElements`, which turns off every highlight, including any on the widget just picked.
- In `renderElements`, the `i--` after an erase wraps an unsigned index at 0, and the `i++` that follows brings it back. The model reads this as "stay at the same index".

## Model

| member | source | states |
|---|---|---|
| GuiManager.GUIManager.constructor | PinGUI/GUIManager.cpp:30-52 | a new manager has no widgets, no vertex data, both flags false and both pointers null |
| GuiManager.GUIManager.PutElement | PinGUI/GUIManager.cpp:317-322 | appends exactly one widget at the end, leaves the earlier widgets and every other field unchanged, sets `needUpdate`; the appended widget is then the last one |
| GuiManager.GUIManager.PutElementAtStart | PinGUI/GUIManager.cpp:601-603 | inserts the widget at index 0, shifts each earlier widget up by one, and leaves `needUpdate` and every other field unchanged |
| GuiManager.GUIManager.CreateClipBoard | PinGUI/GUIManager.cpp:59-107 | appends the new clipboard at the end, sets `needUpdate`, changes nothing else; withdrawing it restores the previous list |
| GuiManager.GUIManager.CreateImage | PinGUI/GUIManager.cpp:236-250 | appends the new image at the end, sets `needUpdate`; withdrawing it restores the previous list |
| GuiManager.GUIManager.CreateButton | PinGUI/GUIManager.cpp:252-271 | appends the new button at the end, sets `needUpdate`; withdrawing it restores the previous list |
| GuiManager.GUIManager.CreateWindowButton | PinGUI/GUIManager.cpp:273-291 | appends the new window button at the end, sets `needUpdate`; withdrawing it restores the previous list |
| GuiManager.GUIManager.CreateIconButton | PinGUI/GUIManager.cpp:293-307 | appends the new icon button at the end, sets `needUpdate`; withdrawing it restores the previous list |
| GuiManager.GUIManager.CreateCheckBox | PinGUI/GUIManager.cpp:309-315 | appends the new cross box at the end, sets `needUpdate`; withdrawing it restores the previous list |
| GuiManager.GUIManager.CreateVolumeBoard | PinGUI/GUIManager.cpp:131-171 | appends the board's clipboard and then the board itself, in that order, and sets `needUpdate` |
| GuiManager.GUIManager.WithdrawElement | PinGUI/GUIManager.cpp:324-345 | the list becomes `RemoveFirst` of the old list; `found` (atWithdraw called) holds iff the identity was in the list; `needUpdate` is set in both cases |
| Registry.RemoveFirstAt | PinGUI/GUIManager.cpp:329-340 | when index k holds the first match, withdrawing removes exactly index k and keeps all other widgets in their original order |
| Registry.RemoveFirstAbsent | PinGUI/GUIManager.cpp:329-340 | when no widget matches, withdrawing leaves the list unchanged |
| Registry.RemoveFirstLength | PinGUI/GUIManager.cpp:324-345 | withdrawing shortens the list by one iff the identity is present, and otherwise keeps its length |
| Registry.RemoveFirstAfterAppend | PinGUI/GUIManager.cpp:317-345 | withdrawing a freshly appended widget restores the list as it was before the append |
| GuiManager.GUIManager.RenderElements | PinGUI/GUIManager.cpp:373-391 | the list becomes `Live` of the old list, nothing else changes, and the widgets drawn are exactly the survivors, once each, in list order |
| Registry.CompactInPlaceStep | PinGUI/GUIManager.cpp:379-388 | one step of the erase-or-draw loop: the widget at the cut is the next source widget, and erasing it (dead) or stepping past it (alive) extends the compacted prefix by `Live` of one more source widget |
| Registry.LiveMembers | PinGUI/GUIManager.cpp:373-391 | after compaction, a widget is in the list iff it was in it before and exists |
| Registry.LiveAppend | PinGUI/GUIManager.cpp:379-388 | compaction distributes over concatenation, so survivors keep their relative order |
| Registry.LiveOfExisting | PinGUI/GUIManager.cpp:379-388 | a list whose widgets all exist is left unchanged by compaction |
| Registry.LiveIdempotent | PinGUI/GUIManager.cpp:373-391 | compacting a compacted list changes nothing |
| GuiManager.GUIManager.LoadVBO | PinGUI/GUIManager.cpp:347-351 | `needUpdate` becomes false exactly when `bufferData` returns false and is kept otherwise; nothing else changes |
| GuiManager.GUIManager.UpdateVBO | PinGUI/GUIManager.cpp:481-493 | `vboData` is replaced by `Build` of the list (the existing widgets' data, in order), and then loaded as by LoadVBO |
| VertexBuffer.BuildAppend | PinGUI/GUIManager.cpp:486-490 | the buffer of a concatenation is the concatenation of the buffers |
| VertexBuffer.BuildAt | PinGUI/GUIManager.cpp:486-490 | each widget's data sits between that of the widgets before it and after it, and a widget that does not exist contributes nothing |
| VertexBuffer.BuildLive | PinGUI/GUIManager.cpp:481-493 | widgets that do not exist contribute nothing: the buffer of the compacted list equals the buffer of the whole list |
| VertexBuffer.BuildNoneExist | PinGUI/GUIManager.cpp:486-490 | a list with no existing widget yields an empty buffer |
| GuiManager.GUIManager.Render | PinGUI/GUIManager.cpp:353-371 | the buffer is rebuilt iff `needUpdate` or `moved` held, and then it matches both the old list and the compacted list; otherwise the buffer and `needUpdate` are unchanged; `moved` is false afterwards; the list is compacted and its survivors are drawn in order |
| GuiManager.GUIManager.ApplyWhere | PinGUI/GUIManager.cpp:504-584 | one in-place pass applies the operation to exactly the widgets that pass the filter; `touched` tells whether any widget passed |
| Placement.ApplyAt | PinGUI/GUIManager.cpp:504-584 | element by element: a widget that passes the filter is replaced by the operation's result, and every other widget is left exactly as it was |
| Placement.ApplyInPlaceStep | PinGUI/GUIManager.cpp:508-511 | one loop step: updating index i in place extends the finished prefix by one widget |
| GuiManager.GUIManager.MoveGUI | PinGUI/GUIManager.cpp:504-514 | shifts exactly the widgets that exist and are not networking, leaves every other widget unchanged, sets `needUpdate` |
| Placement.MoveCompose | PinGUI/GUIManager.cpp:504-514 | moving the GUI by a and then by b equals moving it once by a + b |
| Placement.MoveByZero | PinGUI/GUIManager.cpp:504-514 | moving the GUI by the zero vector leaves every widget unchanged |
| Placement.MoveUndo | PinGUI/GUIManager.cpp:504-514 | moving by v and then by -v restores the list |
| Placement.ApplyLive | PinGUI/GUIManager.cpp:504-514 | a bulk operation that keeps widget existence commutes with compaction |
| Placement.ApplyKeepsIds | PinGUI/GUIManager.cpp:504-584 | a bulk operation that keeps identities keeps the list's identities in order |
| GuiManager.GUIManager.MoveGUITo | PinGUI/GUIManager.cpp:565-572 | places exactly the widgets that are not networking at the target, leaves the rest and both flags unchanged |
| Placement.MoveToIdempotent | PinGUI/GUIManager.cpp:565-572 | moving the GUI to a position twice is the same as moving it there once |
| GuiManager.GUIManager.NormalizeElements | PinGUI/GUIManager.cpp:552-563 | normalises exactly the widgets that exist and are not networking, leaves the rest unchanged, and does not touch `needUpdate` |
| GuiManager.GUIManager.CropGUI | PinGUI/GUIManager.cpp:574-584 | crops exactly the widgets that are not networking and allow cropping, leaves the rest and the flags unchanged |
| GuiManager.GUIManager.CheckAimingElements | PinGUI/GUIManager.cpp:419-430 | every highlighted widget loses its highlight and no other widget changes; `needUpdate` is set iff some widget was highlighted, and is otherwise kept |
| Placement.ClearAimClears | PinGUI/GUIManager.cpp:419-430 | after the aim check no widget is highlighted |
| Placement.ClearAimNoop | PinGUI/GUIManager.cpp:419-430 | when no widget is highlighted, the aim check changes no widget |
| GuiManager.GUIManager.CheckCollisions | PinGUI/GUIManager.cpp:449-479 | the new state is `CollisionStep` of the old one: nothing changes in manipulating mode; otherwise the first qualifying widget is picked, or the current widget is probed and released |
| Collision.ScanFrom | PinGUI/GUIManager.cpp:455-468 | a picked index lies between the scan's start and the end of the list |
| Collision.ScanFromFirst | PinGUI/GUIManager.cpp:455-468 | when no widget before index i qualifies, the scan from i picks the first qualifying widget, or none if none qualifies, and it passes on the last probe's state |
| Collision.ScanPicksFirst | PinGUI/GUIManager.cpp:453-468 | the scan picks the first widget in list order that is hit and is not a Window; a Window that is hit does not stop the scan; if nothing is picked, no widget qualified |
| GuiManager.CollisionPicksFirst | PinGUI/GUIManager.cpp:453-468 | with no widget under the pointer, checkCollisions selects the first widget that is hit and not a Window, then turns off every highlight; if it selects nothing, the widgets are unchanged and none qualified |
| GuiManager.CollisionReleases | PinGUI/GUIManager.cpp:469-477 | with a widget under the pointer, that widget is cleared iff its collide returns false, and then `needUpdate` is set; the widgets are unchanged |
| GuiManager.CollisionIdleWhileManipulating | PinGUI/GUIManager.cpp:449-451 | in manipulating mode checkCollisions leaves the whole state unchanged |
| GuiManager.GUIManager.DoCrop | PinGUI/GUIManager.cpp:440-447 | clears `moved`, leaves `needUpdate` true and changes nothing else |
| GuiManager.GUIManager.CheckCrop | PinGUI/GUIManager.cpp:432-438 | runs the crop step exactly when `moved` holds; otherwise the state is unchanged |
| GuiManager.GUIManager.Update | PinGUI/GUIManager.cpp:397-417 | the new state is `UpdateStep` of the old one: with a manipulated widget, only the manipulating pointer is driven; otherwise collisions (if allowed) or highlights are checked; a pending move is then settled |
| GuiManager.UpdateSkipsChecksWhileManipulating | PinGUI/GUIManager.cpp:401-414 | while a widget is manipulated, update leaves the widgets, the colliding pointer and the buffer unchanged |
| GuiManager.UpdateSettlesMove | PinGUI/GUIManager.cpp:397-447 | after update no move is pending, and a pending move leaves `needUpdate` set |
| GuiManager.GUIManager.GetGuiElement | PinGUI/GUIManager.cpp:520-528 | returns the widget at the position iff the position is below the size, and null (None) otherwise |
| GuiManager.GUIManager.GetLastGuiElement | PinGUI/GUIManager.cpp:534-542 | returns the last widget, and null (None) exactly when the list is empty |
| GuiManager.GUIManager.SetUpdate | PinGUI/GUIManager.cpp:530-532 | sets `needUpdate` true whatever its argument, and changes nothing else |

## Left out

- `createArrowBoard` and `createComboBox` are not modelled. Their widgets receive pointers to `_ELEMENTS` and `_needUpdate` and change them from code outside this model (`ArrowBoard::addArrows`, the `ComboBox` constructor), so the list after these calls cannot be stated.
- CreateVolumeBoard: the board's link to its clipboard, the `&_moved` pointer it receives, and the offset of the clipboard's position are not modelled. The widget constructors are outside the model.
- The `create*` overloads: each name is one method. The method takes the new widget as an argument, with the kind the name fixes and an identity not yet in the list. The constructor arguments (text, sizes, callbacks, shapes, bound variables) go to widget constructors outside this model.
- Widget internals are represented by parameters or by simple record updates, as described above. Their own state changes beyond that are not modelled. For example, `collide` here changes only the two manager fields it receives by reference. The running vertex offset that `renderElements` passes to `draw` is not tracked.
- GuiManager.GUIManager.Update: `manipulatingMod` is modelled only through the new value of the manipulating pointer. Its effect on the widget itself is not modelled.
- TextManager is not part of this model: `updateText`, `renderText`, `moveTextManager` (and so the `croppedMovement` argument of `moveGUI`), `normalizeText`, `cropText` and `setFunction`.
- OpenGL and the GPU are not part of this model: `glBindVertexArray`, `getVAO`, and what `bufferData` does to the GPU buffer. Only its boolean result is used.
- GuiManager.GUIManager.DoCrop: the `_function.exec()` callback is not modelled.
- GuiManager.GUIManager.GetGuiElement and GuiManager.GUIManager.GetLastGuiElement: the error log written on a bad access is not modelled. Only the null result is.
- The one-line accessors `getTextManager`, `getUpdateBool`, `getGUISize`, `getElementVector`, `getCollidingElement`, `getUpdate`, `getClipboardData` and `setFunction` are not modelled. The pointers that `getUpdateBool` and `getElementVector` hand out let outside code write the fields. In the model the class fields are public for the same reason, which is also how `moved` gets set (by a VolumeBoard through its pointer).
- The float `GUIPos`/`Vector2` arithmetic is modelled with integers. Vertex contents are abstract positions.
- Shared-pointer ownership and lifetime, and the destructor's `clear`, are not modelled. Identity is the `id` field.
- PinGUI/Shader_Program.cpp is not part of this model. It consists of OpenGL shader compile, link and uniform calls and file reading.
