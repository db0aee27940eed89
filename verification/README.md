# Tag and layer labels of the hierarchy decorator

This project models the tag/layer decorator of HierarchyDecorator, a Unity
editor add-on. The decorator draws each scene object's tag and layer next to
its row in the hierarchy panel. It lays the two labels out side by side or
stacked. A click on a label opens a menu that reassigns the tag or the layer
of the whole selection.

The decorator's rules are modelled as pure functions and small methods:

- **Visibility** (`TagLayerSettings`). `DrawerIsEnabled` combines the global
  show flags with the style collection's display flags when the object has a
  style. `OnDrawInit` decides the orientation. `GetGridCount` chooses 3 or 6
  grid cells. `LabelStyleFor` picks the label style.
- **Areas** (`InfoArea`). `GetInfoAreaRect` gives each label its part of the
  row. `DrawInfo` lists the labels drawn, in order. The lemmas show that the
  two halves are adjacent, disjoint and cover the row, and which half holds
  the tag.
- **Scene and clicks** (`Scene`). A world is a map from object id to
  (name, tag, layer), plus a direct-children relation and the selection.
  `ClickLabel` is the selection rule applied when a label is pressed.
- **Assignment** (`Assignment`). `AssignTag` and `AssignLayer` walk the
  selection as the source's loops do. Each is tied to an order-free reference
  definition (`Retagged`, `Relayered`) and to an undo record that restores
  the prior store.
- **Menus** (`Menus`). `CreateMenu` builds one entry per name, in order.
  `ChooseEntry` runs the chosen entry's callback. `ClickAndChooseTag` chains
  the whole tag interaction.

`Geometry` defines rectangles over reals, together with the half-open region
each one covers. Disjointness and cover are stated using that region.

Three behaviours of the code are easy to misread:

- The display flags that narrow visibility are read from the style
  collection's `displayTags` and `displayLayers`. They apply only when the
  host reports that the object's name has a style
  (TagLayerInfo.cs lines 37-41).
- `GetGridCount` also returns 6 when both labels are hidden under a
  horizontal layout. This has no effect, because the decorator is disabled
  in that case (TagLayerInfo.cs lines 61-66; `GridCountOfEnabledDrawer`).
- The layout enum's definition is not part of this model. The area switch
  handles four layouts and has no default, so any other value leaves the row
  rectangle as it is (TagLayerInfo.cs lines 172-219). With both labels shown,
  both are then drawn over the whole row (`UnhandledLayoutOverlaps`).

## Model

| member | source | states |
|---|---|---|
| TagLayerSettings.OnDrawInit | HierarchyDecorator/Scripts/Editor/Hierarchy/Info/TagLayerInfo.cs:24-30 | child-layer setting copied from the global data; layout is vertical iff it is TagAbove or LayerAbove, horizontal for the front/back layouts and any other value |
| TagLayerSettings.DrawerIsEnabled | HierarchyDecorator/Scripts/Editor/Hierarchy/Info/TagLayerInfo.cs:32-44 | a shown label implies its global flag; without a style the global flags stand; with a style a display flag that is off hides its label and one that is on keeps the global flag; enabled iff tag or layer is shown |
| TagLayerSettings.StyleOnlyNarrows | HierarchyDecorator/Scripts/Editor/Hierarchy/Info/TagLayerInfo.cs:37-41 | having a style never turns a label or the decorator on |
| TagLayerSettings.GetGridCount | HierarchyDecorator/Scripts/Editor/Hierarchy/Info/TagLayerInfo.cs:59-67 | result is 3 or 6; 3 when vertical or exactly one label shown; 6 iff horizontal and the two flags agree |
| TagLayerSettings.GridCountOfEnabledDrawer | HierarchyDecorator/Scripts/Editor/Hierarchy/Info/TagLayerInfo.cs:24-67 | for an enabled decorator, 6 cells iff both labels shown and the layout is not a stacked one |
| TagLayerSettings.LabelStyleFor | HierarchyDecorator/Scripts/Editor/Hierarchy/Info/TagLayerInfo.cs:89 | tiny text iff vertical with both labels shown, otherwise the dropdown style |
| InfoArea.TinyTextIffHalfHeight | HierarchyDecorator/Scripts/Editor/Hierarchy/Info/TagLayerInfo.cs:74-89 | the tiny text style is chosen exactly when every drawn label gets half the row height |
| InfoArea.UnhandledLayoutOverlaps | HierarchyDecorator/Scripts/Editor/Hierarchy/Info/TagLayerInfo.cs:165-221 | under a layout the switch does not handle, both shown labels get the whole row and overlap |
| InfoArea.GetInfoAreaRect | HierarchyDecorator/Scripts/Editor/Hierarchy/Info/TagLayerInfo.cs:165-222 | row unchanged unless both labels are shown, and unchanged for an unhandled layout; front/back layouts keep y and height, stacked layouts keep x and width |
| InfoArea.HorizontalSplit | HierarchyDecorator/Scripts/Editor/Hierarchy/Info/TagLayerInfo.cs:178-195 | front half starts at x, back half at x + w/2, both w/2 wide with y and height kept; adjacent, widths sum to w, together they partition the row; the tag is in front under TagInFront and behind under LayerInfront |
| InfoArea.VerticalSplit | HierarchyDecorator/Scripts/Editor/Hierarchy/Info/TagLayerInfo.cs:201-218 | top half starts at y, lower half at y + h/2, both h/2 high with x and width kept; heights sum to h, together they partition the row; the tag is on top under TagAbove and below under LayerAbove |
| InfoArea.TagFirstExactly | HierarchyDecorator/Scripts/Editor/Hierarchy/Info/TagLayerInfo.cs:172-218 | for a row with extent, the tag starts left of the layer iff the layout is TagInFront, and above it iff the layout is TagAbove |
| InfoArea.DrawInfo | HierarchyDecorator/Scripts/Editor/Hierarchy/Info/TagLayerInfo.cs:46-57 | one label per shown flag, tag before layer, each drawn in the area computed for it |
| InfoArea.DrawnLabelsFillRow | HierarchyDecorator/Scripts/Editor/Hierarchy/Info/TagLayerInfo.cs:46-85 | a lone label fills the row; two labels under a handled layout partition it |
| Scene.ClickLabel | HierarchyDecorator/Scripts/Editor/Hierarchy/Info/TagLayerInfo.cs:91-105 | the menu opens iff the label was pressed; a press with fewer than two selected objects makes the clicked object the sole active selection; otherwise the selection is untouched |
| Assignment.AssignTag | HierarchyDecorator/Scripts/Editor/Hierarchy/Info/TagLayerInfo.cs:110-123 | every selected object gets the tag; unselected objects, all layers and names, the children and the selected objects are unchanged; a single selection is re-marked active; the undo record is the selection and restores the prior store |
| Assignment.TagOrderIrrelevant | HierarchyDecorator/Scripts/Editor/Hierarchy/Info/TagLayerInfo.cs:114-122 | retagging depends only on which objects are selected, not their order |
| Assignment.SetLayerOn | HierarchyDecorator/Scripts/Editor/Hierarchy/Info/TagLayerInfo.cs:138-141 | each listed child gets the layer; every other object keeps its state |
| Assignment.RelayerStep | HierarchyDecorator/Scripts/Editor/Hierarchy/Info/TagLayerInfo.cs:129-142 | one loop pass extends the relayered prefix by the visited object and, with child layers on, its direct children |
| Assignment.AssignLayer | HierarchyDecorator/Scripts/Editor/Hierarchy/Info/TagLayerInfo.cs:125-149 | every selected object gets the layer, and with child layers on every direct child of one does too; everything else, all tags and names, the children and the selected objects are unchanged; a single selection is re-marked active; the undo record is exactly the objects that get the layer and restores the prior store |
| Assignment.RelayeredMeaning | HierarchyDecorator/Scripts/Editor/Hierarchy/Info/TagLayerInfo.cs:129-142 | the layer reference definition gives selected objects and, with child layers on, their direct children the layer, keeps tags and names, and is undone by recording every target |
| Assignment.LayerOrderIrrelevant | HierarchyDecorator/Scripts/Editor/Hierarchy/Info/TagLayerInfo.cs:129-148 | relayering depends only on which objects are selected, not the order the loop visits them |
| Assignment.LayerUndoRecordAsWritten | HierarchyDecorator/Scripts/Editor/Hierarchy/Info/TagLayerInfo.cs:127-136 | the objects recorded as written are exactly the selected ones |
| Assignment.AsWrittenLayerUndoWithoutChildren | HierarchyDecorator/Scripts/Editor/Hierarchy/Info/TagLayerInfo.cs:125-133 | with child layers off, the as-written record does restore the prior store |
| Assignment.AsWrittenLayerUndoMissesChild | HierarchyDecorator/Scripts/Editor/Hierarchy/Info/TagLayerInfo.cs:134-141 | with child layers on, undo after the as-written record leaves a child on the new layer |
| Menus.CreateMenu | HierarchyDecorator/Scripts/Editor/Hierarchy/Info/TagLayerInfo.cs:153-163 | one unchecked entry per name in the same order; entry i shows and passes name i |
| Menus.ChooseEntry | HierarchyDecorator/Scripts/Editor/Hierarchy/Info/TagLayerInfo.cs:71-85 | choosing entry i of the tag menu retags exactly the selection with that name; of the layer menu relayers exactly the selection (and, with child layers on, its direct children) with the resolved index; undo restores the prior store |
| Menus.ClickAndChooseTag | HierarchyDecorator/Scripts/Editor/Hierarchy/Info/TagLayerInfo.cs:71-123 | pressing a tag label and choosing tag i retags only the clicked object when at most one object was selected, and the whole multi-selection otherwise; no layer or name changes |

## Findings

| source | as written | input that shows it | evidently intended | confidence | as-written member | corrected member |
|---|---|---|---|---|---|---|
| HierarchyDecorator/Scripts/Editor/Hierarchy/Info/TagLayerInfo.cs:134-141 | with child layers on, the second `Undo.RecordObjects` records the selection again, and the children whose layer then changes are never recorded | one selected parent on layer 0 with one child on layer 0, child layers on, layer 5 chosen: after undo the child stays on layer 5 | record the direct children before changing their layer, so undo restores them | medium, not executed | Assignment.AsWrittenLayerUndoMissesChild | Assignment.AssignLayer |

## Left out

- Immediate-mode drawing (`EditorGUI.LabelField`) is left out. Only the style choice is kept, as `LabelStyleFor`.
- Event dispatch and hit-testing are inputs or are left out. "Was clicked" is a boolean input to `ClickLabel`, because the host's `Rect.Contains` and event types are not part of this model. Showing the menu and consuming the event are left out.
- The host's style lookup `HasStyle(name)` is a boolean input, because its matching rule is not part of this model.
- The host registries are parameters. The tag and layer name lists are the `names` given to `CreateMenu`. `LayerMask.NameToLayer` is the `nameToLayer` function given to `ChooseEntry`. `AssignLayer` takes the resolved index. `LayerMask.LayerToName` only feeds the drawn text, so it is left out.
- Undo recording is modelled only as the set of objects whose prior state the entry keeps, plus `Revert`. The host's undo stack, group names and its handling of repeated records are left out.
- `Selection.SetActiveObjectWithContext` is modelled as making the object the whole, active selection (`SetActiveObject`). Its context argument is always null and is not modelled.
- The order in which the host's base class calls the hooks is not part of this model. Each hook is a pure function of its inputs, not of the class's mutable fields.
- Rectangles use real arithmetic. The source halves 32-bit floats with `* 0.5f`, which is exact barring underflow. Rounding in the later `x + w/2` addition is not modelled.
- Layer indices are unbounded integers. The host's rejection of indices outside 0..31, including the -1 that `NameToLayer` returns for an unknown name, is not modelled.
- Assignment.AssignLayer: records every object it changes, unlike the source (see Findings). The changes it makes to the store are the source's.
