/** The slice of the host's scene that the decorator reads and writes:
    objects with a tag and a layer, the direct-children relation, and the
    editor selection. */
module Scene {

  datatype Option<T> = None | Some(value: T)

  type ObjectId = nat

  datatype GameObject = GameObject(name: string, tag: string, layer: int)

  /** The selected objects in selection order, and the active object. */
  datatype Selection = Selection(objects: seq<ObjectId>, active: Option<ObjectId>)

  /** `children[p]` lists p's direct children in transform order; an object
      without an entry has none. */
  datatype World = World(
    objects: map<ObjectId, GameObject>,
    children: map<ObjectId, seq<ObjectId>>,
    selection: Selection)

  function ChildrenOf(w: World, p: ObjectId): seq<ObjectId>
  {
    if p in w.children then w.children[p] else []
  }

  /** The host guarantees that selected objects and transform children are
      live objects of the scene. */
  predicate Valid(w: World)
  {
    && (forall id :: id in w.selection.objects ==> id in w.objects)
    && (forall p :: p in w.children ==> p in w.objects)
    && (forall p, c :: p in w.children && c in w.children[p] ==> c in w.objects)
  }

  /** Making an object the active one also makes it the whole selection. */
  function SetActiveObject(id: ObjectId): (s: Selection)
    ensures s.objects == [id] && s.active == Some(id)
  {
    Selection([id], Some(id))
  }

  /** The outcome of a frame's label handling: the selection afterwards and
      whether the tag or layer menu is opened. */
  datatype ClickOutcome = ClickOutcome(selection: Selection, menuShown: bool)

  /** A press on a label opens its menu. If fewer than two objects were
      selected, the clicked row's object becomes the sole, active selection
      first; a multi-selection is kept so the menu applies to all of it.
      Without a press nothing changes. */
  function ClickLabel(selection: Selection, instance: ObjectId, hasClicked: bool): (r: ClickOutcome)
    ensures r.menuShown <==> hasClicked
    ensures hasClicked && |selection.objects| < 2 ==> r.selection.objects == [instance] && r.selection.active == Some(instance)
    ensures !hasClicked || |selection.objects| >= 2 ==> r.selection == selection
  {
    if !hasClicked then ClickOutcome(selection, false)
    else if |selection.objects| < 2 then ClickOutcome(SetActiveObject(instance), true)
    else ClickOutcome(selection, true)
  }
}
