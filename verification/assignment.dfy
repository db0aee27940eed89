/** The two menu callbacks: giving every selected object a new tag, or a new
    layer (optionally also to each selected object's direct children), with
    the objects the undo entry records. */
module Assignment {
  import opened Scene

  type Store = map<ObjectId, GameObject>

  /** Reference definition of the tag reassignment: exactly the objects that
      occur in `sel` carry the new tag; nothing else differs. */
  function Retagged(objs: Store, sel: seq<ObjectId>, tag: string): Store
  {
    map id | id in objs :: if id in sel then objs[id].(tag := tag) else objs[id]
  }

  /** Does `id` receive the new layer when the objects of `sel` are relayered? */
  predicate LayerTarget(w: World, sel: seq<ObjectId>, setChildLayers: bool, id: ObjectId)
  {
    id in sel || (setChildLayers && exists p :: p in sel && id in ChildrenOf(w, p))
  }

  /** Reference definition of the layer reassignment: the targets carry the
      new layer; nothing else differs. */
  function Relayered(w: World, sel: seq<ObjectId>, setChildLayers: bool, layer: int): Store
  {
    map id | id in w.objects :: if LayerTarget(w, sel, setChildLayers, id) then w.objects[id].(layer := layer) else w.objects[id]
  }

  /** The prior state an undo entry keeps for the recorded objects. */
  function Snapshot(objs: Store, recorded: set<ObjectId>): Store
  {
    map id | id in recorded && id in objs :: objs[id]
  }

  /** Undoing puts back the recorded prior state and leaves every other
      object as it is now. */
  function Revert(current: Store, snapshot: Store): Store
  {
    map id | id in current :: if id in snapshot then snapshot[id] else current[id]
  }

  /** The selection after an assignment: a single selected object is marked
      active again; any other selection is left as it was. */
  function ReselectSingle(s: Selection): Selection
  {
    if |s.objects| == 1 then SetActiveObject(s.objects[0]) else s
  }

  /** Sets `tag` on every selected object, in selection order. The undo entry
      records the selection, which is exactly the set of objects changed. */
  method AssignTag(w: World, tag: string) returns (r: World, recorded: set<ObjectId>)
    requires Valid(w)
    ensures r.objects.Keys == w.objects.Keys
    ensures forall id :: id in w.selection.objects ==> r.objects[id].tag == tag
    ensures forall id :: id in w.objects && id !in w.selection.objects ==> r.objects[id] == w.objects[id]
    ensures forall id :: id in w.objects ==> r.objects[id].layer == w.objects[id].layer && r.objects[id].name == w.objects[id].name
    ensures r.children == w.children
    ensures r.selection.objects == w.selection.objects
    ensures |w.selection.objects| == 1 ==> r.selection.active == Some(w.selection.objects[0])
    ensures |w.selection.objects| != 1 ==> r.selection == w.selection
    ensures r.objects == Retagged(w.objects, w.selection.objects, tag)
    ensures recorded == set id | id in w.selection.objects
    ensures Revert(r.objects, Snapshot(w.objects, recorded)) == w.objects
    ensures Valid(r)
  {
    var sel := w.selection.objects;
    recorded := set id | id in sel;
    var objs := w.objects;
    var selection := w.selection;
    var i := 0;
    while i < |sel|
      invariant 0 <= i <= |sel|
      invariant objs.Keys == w.objects.Keys
      invariant forall id :: id in objs ==> objs[id] == if id in sel[..i] then w.objects[id].(tag := tag) else w.objects[id]
      invariant selection == if i == 0 then w.selection else ReselectSingle(w.selection)
    {
      var go := sel[i];
      assert sel[..i + 1] == sel[..i] + [go];
      objs := objs[go := objs[go].(tag := tag)];
      if |sel| == 1 {
        selection := SetActiveObject(sel[0]);
      }
      i := i + 1;
    }
    assert sel[..i] == sel;
    r := w.(objects := objs, selection := selection);
    assert r.objects == Retagged(w.objects, sel, tag);
    assert Revert(r.objects, Snapshot(w.objects, recorded)) == w.objects;
  }

  lemma LayerTargetStep(w: World, sel: seq<ObjectId>, i: nat, setChildLayers: bool, id: ObjectId)
    requires i < |sel|
    ensures LayerTarget(w, sel[..i + 1], setChildLayers, id)
            <==> LayerTarget(w, sel[..i], setChildLayers, id) || id == sel[i]
                 || (setChildLayers && id in ChildrenOf(w, sel[i]))
  {
    assert sel[..i + 1] == sel[..i] + [sel[i]];
  }

  /** The inner loop over one object's direct children: each listed object
      gets `layer`, every other object keeps its state. */
  method SetLayerOn(objs: Store, ids: seq<ObjectId>, layer: int) returns (r: Store)
    requires forall id :: id in ids ==> id in objs
    ensures r.Keys == objs.Keys
    ensures forall id :: id in r ==> r[id] == if id in ids then objs[id].(layer := layer) else objs[id]
  {
    r := objs;
    var j := 0;
    while j < |ids|
      invariant 0 <= j <= |ids|
      invariant r.Keys == objs.Keys
      invariant forall id :: id in r ==> r[id] == if id in ids[..j] then objs[id].(layer := layer) else objs[id]
    {
      assert ids[..j + 1] == ids[..j] + [ids[j]];
      r := r[ids[j] := objs[ids[j]].(layer := layer)];
      j := j + 1;
    }
    assert ids[..j] == ids;
  }

  /** What the layer reference definition means object by object, and the
      undo entry that records every target restores the prior store. */
  lemma RelayeredMeaning(w: World, setChildLayers: bool, layer: int, recorded: set<ObjectId>)
    requires Valid(w)
    requires forall id :: id in recorded <==> id in w.objects && LayerTarget(w, w.selection.objects, setChildLayers, id)
    ensures var objs := Relayered(w, w.selection.objects, setChildLayers, layer);
            && objs.Keys == w.objects.Keys
            && (forall id :: id in w.selection.objects ==> objs[id].layer == layer)
            && (setChildLayers ==>
                  forall p, c :: p in w.selection.objects && c in ChildrenOf(w, p) ==> objs[c].layer == layer)
            && (forall id :: id in w.objects ==> objs[id].tag == w.objects[id].tag && objs[id].name == w.objects[id].name)
            && Revert(objs, Snapshot(w.objects, recorded)) == w.objects
  {
  }

  /** One pass of the outer loop: the visited object gets the layer and,
      when `setChildLayers` is on, so do its direct children. */
  method RelayerStep(w: World, objs: Store, i: nat, setChildLayers: bool, layer: int) returns (r: Store)
    requires Valid(w)
    requires i < |w.selection.objects|
    requires objs.Keys == w.objects.Keys
    requires forall id :: id in objs ==>
               objs[id] == if LayerTarget(w, w.selection.objects[..i], setChildLayers, id) then w.objects[id].(layer := layer) else w.objects[id]
    ensures r.Keys == w.objects.Keys
    ensures forall id :: id in r ==>
              r[id] == if LayerTarget(w, w.selection.objects[..i + 1], setChildLayers, id) then w.objects[id].(layer := layer) else w.objects[id]
  {
    var go := w.selection.objects[i];
    r := objs[go := w.objects[go].(layer := layer)];
    if setChildLayers {
      r := SetLayerOn(r, ChildrenOf(w, go), layer);
    }
    forall id | id in r
      ensures r[id] == if LayerTarget(w, w.selection.objects[..i + 1], setChildLayers, id) then w.objects[id].(layer := layer) else w.objects[id]
    {
      LayerTargetStep(w, w.selection.objects, i, setChildLayers, id);
    }
  }

  /** Sets `layer` (the index the host resolved from the chosen layer name) on
      every selected object and, when `setChildLayers` is on, on each of its
      direct children. The undo entry records every object that changes. */
  method AssignLayer(w: World, setChildLayers: bool, layer: int) returns (r: World, recorded: set<ObjectId>)
    requires Valid(w)
    ensures r.objects.Keys == w.objects.Keys
    ensures forall id :: id in w.selection.objects ==> r.objects[id].layer == layer
    ensures setChildLayers ==>
              forall p, c :: p in w.selection.objects && c in ChildrenOf(w, p) ==> r.objects[c].layer == layer
    ensures forall id :: id in w.objects && !LayerTarget(w, w.selection.objects, setChildLayers, id) ==> r.objects[id] == w.objects[id]
    ensures forall id :: id in w.objects ==> r.objects[id].tag == w.objects[id].tag && r.objects[id].name == w.objects[id].name
    ensures r.children == w.children
    ensures r.selection.objects == w.selection.objects
    ensures |w.selection.objects| == 1 ==> r.selection.active == Some(w.selection.objects[0])
    ensures |w.selection.objects| != 1 ==> r.selection == w.selection
    ensures r.objects == Relayered(w, w.selection.objects, setChildLayers, layer)
    ensures recorded == set id | id in w.objects && LayerTarget(w, w.selection.objects, setChildLayers, id)
    ensures Revert(r.objects, Snapshot(w.objects, recorded)) == w.objects
    ensures Valid(r)
  {
    var sel := w.selection.objects;
    var objs := w.objects;
    var selection := w.selection;
    var i := 0;
    while i < |sel|
      invariant 0 <= i <= |sel|
      invariant objs.Keys == w.objects.Keys
      invariant forall id :: id in objs ==>
                  objs[id] == if LayerTarget(w, sel[..i], setChildLayers, id) then w.objects[id].(layer := layer) else w.objects[id]
      invariant selection == if i == 0 then w.selection else ReselectSingle(w.selection)
    {
      objs := RelayerStep(w, objs, i, setChildLayers, layer);
      if |sel| == 1 {
        selection := SetActiveObject(sel[0]);
      }
      i := i + 1;
    }
    assert sel[..i] == sel;
    recorded := set id | id in w.objects && LayerTarget(w, sel, setChildLayers, id);
    r := w.(objects := objs, selection := selection);
    assert r.objects == Relayered(w, sel, setChildLayers, layer);
    RelayeredMeaning(w, setChildLayers, layer, recorded);
  }

  /** The final store does not depend on the order in which the selection is
      visited: two selections with the same members give the same result. */
  lemma LayerOrderIrrelevant(w: World, sel1: seq<ObjectId>, sel2: seq<ObjectId>, setChildLayers: bool, layer: int)
    requires forall id :: id in sel1 <==> id in sel2
    ensures Relayered(w, sel1, setChildLayers, layer) == Relayered(w, sel2, setChildLayers, layer)
  {
  }

  /** The same holds for tags. */
  lemma TagOrderIrrelevant(objs: Store, sel1: seq<ObjectId>, sel2: seq<ObjectId>, tag: string)
    requires forall id :: id in sel1 <==> id in sel2
    ensures Retagged(objs, sel1, tag) == Retagged(objs, sel2, tag)
  {
  }

  /** The undo record `AssignLayer` makes as written: only the selected
      objects, although children may change too. */
  function LayerUndoRecordAsWritten(w: World): (recorded: set<ObjectId>)
    ensures forall id :: id in recorded <==> id in w.selection.objects
  {
    set id | id in w.selection.objects
  }

  /** With child layers off, the as-written record is enough to undo. */
  lemma AsWrittenLayerUndoWithoutChildren(w: World, layer: int)
    requires Valid(w)
    ensures Revert(Relayered(w, w.selection.objects, false, layer), Snapshot(w.objects, LayerUndoRecordAsWritten(w))) == w.objects
  {
  }

  /** With child layers on, undo after the as-written record leaves a child
      on the new layer: one selected parent on layer 0 with one child on
      layer 0, relayered to 5. */
  lemma AsWrittenLayerUndoMissesChild()
    ensures var w := World(
              map[0 := GameObject("Parent", "Untagged", 0), 1 := GameObject("Child", "Untagged", 0)],
              map[0 := [1]],
              Selection([0], Some(0)));
            && Valid(w)
            && var undone := Revert(Relayered(w, w.selection.objects, true, 5), Snapshot(w.objects, LayerUndoRecordAsWritten(w)));
               undone[1].layer == 5 && undone != w.objects
  {
    var w := World(
      map[0 := GameObject("Parent", "Untagged", 0), 1 := GameObject("Child", "Untagged", 0)],
      map[0 := [1]],
      Selection([0], Some(0)));
    assert LayerTarget(w, w.selection.objects, true, 1) by {
      assert 0 in w.selection.objects && 1 in ChildrenOf(w, 0);
    }
    assert 1 !in LayerUndoRecordAsWritten(w);
  }
}
