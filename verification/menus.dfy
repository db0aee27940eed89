/** The context menus offered by a clicked label: one entry per tag or layer
    name, each entry handing its own name to the assignment callback. */
module Menus {
  import opened Scene
  import opened Assignment

  /** The callback the menu entries invoke. */
  datatype Callback = AssignTagCallback | AssignLayerCallback

  /** One entry: its label, its check mark, and the argument passed to the
      callback when it is chosen. */
  datatype MenuItem = MenuItem(content: string, on: bool, argument: string)

  datatype GenericMenu = GenericMenu(callback: Callback, items: seq<MenuItem>)

  /** Builds the menu for `names` in order: entry i is labelled with name i,
      is not checked, and passes name i to `onSelect`. */
  method CreateMenu(names: seq<string>, onSelect: Callback) returns (menu: GenericMenu)
    ensures menu.callback == onSelect
    ensures |menu.items| == |names|
    ensures forall i :: 0 <= i < |names| ==>
              menu.items[i].content == names[i] && menu.items[i].argument == names[i] && !menu.items[i].on
  {
    var items: seq<MenuItem> := [];
    var i := 0;
    while i < |names|
      invariant 0 <= i <= |names|
      invariant |items| == i
      invariant forall k :: 0 <= k < i ==> items[k] == MenuItem(names[k], false, names[k])
    {
      var item := names[i];
      items := items + [MenuItem(item, false, item)];
      i := i + 1;
    }
    menu := GenericMenu(onSelect, items);
  }

  /** Choosing entry i runs the menu's callback on that entry's name. The
      layer callback works on the index `nameToLayer` gives for the name. */
  method ChooseEntry(w: World, menu: GenericMenu, i: nat, setChildLayers: bool, nameToLayer: string -> int)
    returns (r: World, recorded: set<ObjectId>)
    requires Valid(w)
    requires i < |menu.items|
    ensures r.objects.Keys == w.objects.Keys
    ensures menu.callback == AssignTagCallback ==>
              r.objects == Retagged(w.objects, w.selection.objects, menu.items[i].argument)
    ensures menu.callback == AssignLayerCallback ==>
              r.objects == Relayered(w, w.selection.objects, setChildLayers, nameToLayer(menu.items[i].argument))
    ensures menu.callback == AssignTagCallback ==>
              && (forall id :: id in w.selection.objects ==> r.objects[id].tag == menu.items[i].argument)
              && (forall id :: id in w.objects ==> r.objects[id].layer == w.objects[id].layer)
    ensures menu.callback == AssignLayerCallback ==>
              && (forall id :: id in w.selection.objects ==> r.objects[id].layer == nameToLayer(menu.items[i].argument))
              && (forall id :: id in w.objects ==> r.objects[id].tag == w.objects[id].tag)
    ensures r.selection.objects == w.selection.objects
    ensures Revert(r.objects, Snapshot(w.objects, recorded)) == w.objects
    ensures Valid(r)
  {
    match menu.callback
    case AssignTagCallback =>
      r, recorded := AssignTag(w, menu.items[i].argument);
    case AssignLayerCallback =>
      r, recorded := AssignLayer(w, setChildLayers, nameToLayer(menu.items[i].argument));
  }

  /** The whole tag interaction for one row: a press on the tag label of
      `instance`, the tag menu built from `tags`, and entry i chosen. With at
      most one object selected beforehand only the clicked object is retagged;
      a multi-selection is retagged as a whole. */
  method ClickAndChooseTag(w: World, instance: ObjectId, tags: seq<string>, i: nat)
    returns (r: World)
    requires Valid(w)
    requires instance in w.objects
    requires i < |tags|
    ensures r.objects.Keys == w.objects.Keys
    ensures |w.selection.objects| < 2 ==> r.objects == Retagged(w.objects, [instance], tags[i])
    ensures |w.selection.objects| >= 2 ==> r.objects == Retagged(w.objects, w.selection.objects, tags[i])
    ensures |w.selection.objects| < 2 ==>
              && r.objects[instance].tag == tags[i]
              && (forall id :: id in w.objects && id != instance ==> r.objects[id] == w.objects[id])
              && r.selection == SetActiveObject(instance)
    ensures |w.selection.objects| >= 2 ==>
              && (forall id :: id in w.selection.objects ==> r.objects[id].tag == tags[i])
              && (forall id :: id in w.objects && id !in w.selection.objects ==> r.objects[id] == w.objects[id])
              && r.selection == w.selection
  {
    var click := ClickLabel(w.selection, instance, true);
    var clicked := w.(selection := click.selection);
    var menu := CreateMenu(tags, AssignTagCallback);
    var recorded;
    r, recorded := AssignTag(clicked, menu.items[i].argument);
  }
}
