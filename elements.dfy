/** The editable element kinds of the layout editor, the host methods each kind is
    handled by (utils.typeConfig), the calls the editor makes to the host, and the
    ancestor walk that finds the element a mouse event hit (utils.findElement). */
module Elements {
  import opened Common

  datatype Kind = Shelf | Obstacle | Column | StartArea | EndArea | Aisle

  /** The value of a `data-element-type` attribute as a kind; None when typeConfig has
      no entry for it. */
  function KindNamed(name: string): (k: Option<Kind>)
    ensures k.Some? ==> TypeName(k.value) == name
    ensures (exists kind :: TypeName(kind) == name) ==> k.Some?
  {
    if name == "shelf" then Some(Shelf)
    else if name == "obstacle" then Some(Obstacle)
    else if name == "column" then Some(Column)
    else if name == "startArea" then Some(StartArea)
    else if name == "endArea" then Some(EndArea)
    else if name == "aisle" then Some(Aisle)
    else None
  }

  function TypeName(k: Kind): string
  {
    match k
    case Shelf => "shelf"
    case Obstacle => "obstacle"
    case Column => "column"
    case StartArea => "startArea"
    case EndArea => "endArea"
    case Aisle => "aisle"
  }

  /** One row of typeConfig: the host method names of one kind; None where the kind has no entry. */
  datatype Methods = Methods(
    select: string, toggle: string, getIds: string,
    getCoords: Option<string>, dragStart: Option<string>,
    updateFinal: Option<string>, updateSingleFinal: Option<string>,
    getAllIds: Option<string>, addToSelection: Option<string>)

  /** Whether a kind's row carries the four methods a drag needs. */
  predicate Draggable(k: Kind)
  {
    k != Aisle
  }

  /** Whether a kind supports additive selection (select all, add to selection). */
  predicate MultiSelectable(k: Kind)
  {
    k == Shelf || k == Obstacle || k == Column
  }

  /** typeConfig. Shelves, obstacles and columns have every method; start and end areas
      have no select-all and toggle by selecting; aisles can only be selected. */
  function TypeConfig(k: Kind): (m: Methods)
    ensures Draggable(k) <==> m.getCoords.Some?
    ensures m.getCoords.Some? <==> m.dragStart.Some?
    ensures m.dragStart.Some? <==> m.updateFinal.Some?
    ensures m.updateFinal.Some? <==> m.updateSingleFinal.Some?
    ensures MultiSelectable(k) <==> m.getAllIds.Some?
    ensures m.getAllIds.Some? <==> m.addToSelection.Some?
    ensures !MultiSelectable(k) <==> m.toggle == m.select
  {
    match k
    case Shelf => Methods("SelectShelf", "ToggleShelfSelection", "GetSelectedShelfIds",
                          Some("GetShelfCoords"), Some("OnShelfDragStart"),
                          Some("UpdateShelfCoordsBatchFinal"), Some("UpdateShelfCoordsFinal"),
                          Some("GetAllShelfIds"), Some("AddToSelection"))
    case Obstacle => Methods("SelectObstacle", "ToggleObstacleSelection", "GetSelectedObstacleIds",
                             Some("GetObstacleCoords"), Some("OnObstacleDragStart"),
                             Some("UpdateObstacleCoordsBatchFinal"), Some("UpdateObstacleCoordsFinal"),
                             Some("GetAllObstacleIds"), Some("AddObstaclesToSelection"))
    case Column => Methods("SelectColumn", "ToggleColumnSelection", "GetSelectedColumnIds",
                           Some("GetColumnCoords"), Some("OnColumnDragStart"),
                           Some("UpdateColumnCoordsBatchFinal"), Some("UpdateColumnCoordsFinal"),
                           Some("GetAllColumnIds"), Some("AddColumnsToSelection"))
    case StartArea => Methods("SelectStartArea", "SelectStartArea", "GetSelectedStartAreaId",
                              Some("GetStartAreaCoords"), Some("OnStartAreaDragStart"),
                              Some("UpdateStartAreaCoordsBatchFinal"), Some("UpdateStartAreaCoordsFinal"),
                              None, None)
    case EndArea => Methods("SelectEndArea", "SelectEndArea", "GetSelectedEndAreaId",
                            Some("GetEndAreaCoords"), Some("OnEndAreaDragStart"),
                            Some("UpdateEndAreaCoordsBatchFinal"), Some("UpdateEndAreaCoordsFinal"),
                            None, None)
    case Aisle => Methods("SelectAisle", "SelectAisle", "GetSelectedAisleId",
                          None, None, None, None, None, None)
  }

  /** No two kinds share a select method, so a select call names its kind. */
  lemma SelectNamesDistinct(a: Kind, b: Kind)
    requires TypeConfig(a).select == TypeConfig(b).select
    ensures a == b
  {
  }

  /** An element's coordinates as the host stores them, keyed by the element's id. */
  datatype Original = Original(id: int, coords: seq<Point>)

  /** Every call the editor makes to the host, with its arguments. */
  datatype Request =
    | Select(kind: Kind, id: int)                   // cfg.select(id, false)
    | Toggle(kind: Kind, id: int)                   // cfg.toggle(id)
    | GetIds(kind: Kind)                            // cfg.getIds()
    | GetCoords(kind: Kind, id: int)                // cfg.getCoords(id)
    | DragStart(kind: Kind, id: int)                // cfg.dragStart(id)
    | UpdateBatch(kind: Kind, batch: seq<Original>) // cfg.updateFinal(batch)
    | UpdateSingle(kind: Kind, id: int, coords: seq<Point>) // cfg.updateSingleFinal(id, coords)
    | ResetDrag                                     // ResetDragState
    | TrySelectAt(x: real, y: real, shift: bool)    // TrySelectElementAt
    | SelectInRect(x: real, y: real, w: real, h: real, shift: bool) // SelectElementsInRect
    | ClearSelection
    | EscapePressed
    | DeletePressed
    | ArrowPressed(direction: string, shift: bool)
    | CopyPressed
    | PastePressed
    | SelectAllPressed
    | UndoPressed
    | RedoPressed
    | ObjectDrawn(left: int, top: int, width: int, height: int)

  /** Whether a request is one of the per-kind calls of a drag. */
  predicate DragCall(r: Request)
  {
    r.GetCoords? || r.DragStart? || r.UpdateBatch? || r.UpdateSingle?
  }

  /** The host method a request invokes; None for a per-kind call whose kind's row has no
      such method, which the host rejects. */
  function MethodName(r: Request): (name: Option<string>)
    ensures name.None? <==> DragCall(r) && !Draggable(r.kind)
  {
    match r
    case Select(k, _) => Some(TypeConfig(k).select)
    case Toggle(k, _) => Some(TypeConfig(k).toggle)
    case GetIds(k) => Some(TypeConfig(k).getIds)
    case GetCoords(k, _) => TypeConfig(k).getCoords
    case DragStart(k, _) => TypeConfig(k).dragStart
    case UpdateBatch(k, _) => TypeConfig(k).updateFinal
    case UpdateSingle(k, _, _) => TypeConfig(k).updateSingleFinal
    case ResetDrag => Some("ResetDragState")
    case TrySelectAt(_, _, _) => Some("TrySelectElementAt")
    case SelectInRect(_, _, _, _, _) => Some("SelectElementsInRect")
    case ClearSelection => Some("ClearSelection")
    case EscapePressed => Some("OnEscapeKeyPressed")
    case DeletePressed => Some("OnDeleteKeyPressed")
    case ArrowPressed(_, _) => Some("OnArrowKeyPressed")
    case CopyPressed => Some("OnCopyKeyPressed")
    case PastePressed => Some("OnPasteKeyPressed")
    case SelectAllPressed => Some("OnSelectAllKeyPressed")
    case UndoPressed => Some("OnUndoKeyPressed")
    case RedoPressed => Some("OnRedoKeyPressed")
    case ObjectDrawn(_, _, _, _) => Some("OnObjectDrawn")
  }

  // ---------------------------------------------------------------------------
  // findElement
  // ---------------------------------------------------------------------------

  /** A DOM node on the way from an event target up to the document: its identity,
      its tag, and its `data-element-type` / `data-element-id` attributes. */
  datatype Node = Node(ref: nat, tag: string, elementType: Option<string>, elementId: int)

  /** The walk stops after this many steps. */
  const MaxDepth: nat := 10

  /** A `g` element carrying a `data-element-type` attribute. */
  predicate IsDataGroup(n: Node)
  {
    n.tag == "g" && n.elementType.Some?
  }

  /** Whether the walk reaches position i of the ancestor chain: fewer than ten steps,
      and neither that node nor any below it is the root SVG element. */
  predicate Reaches(chain: seq<Node>, root: nat, i: nat)
  {
    i < |chain| && i < MaxDepth && forall j :: 0 <= j <= i ==> chain[j].ref != root
  }

  /** The position in `chain` (the event target first, then its ancestors) of the element
      findElement returns, by the walk from position `from`. */
  function FindFrom(chain: seq<Node>, root: nat, from: nat): (r: Option<nat>)
    requires from <= |chain|
    ensures r.Some? ==> from <= r.value < |chain| && IsDataGroup(chain[r.value])
    decreases |chain| - from
  {
    if from == |chain| || chain[from].ref == root || from >= MaxDepth then None
    else if IsDataGroup(chain[from]) then Some(from)
    else FindFrom(chain, root, from + 1)
  }

  /** findElement's answer: the nearest data group the walk reaches, and none when the
      walk reaches none. */
  lemma {:induction false} FindFromFirst(chain: seq<Node>, root: nat, from: nat)
    requires from <= |chain|
    requires forall j :: 0 <= j < from ==> chain[j].ref != root
    ensures var r := FindFrom(chain, root, from);
            (r.Some? ==> Reaches(chain, root, r.value) &&
                         forall j :: from <= j < r.value ==> !IsDataGroup(chain[j])) &&
            (r.None? ==> forall i: nat :: from <= i && Reaches(chain, root, i) ==> !IsDataGroup(chain[i]))
    decreases |chain| - from
  {
    if from == |chain| || chain[from].ref == root || from >= MaxDepth {
    } else if !IsDataGroup(chain[from]) {
      FindFromFirst(chain, root, from + 1);
    }
  }

  /** The walk of findElement: up the parent chain while there is a node, it is not the
      root SVG element and fewer than ten steps were taken. */
  method FindElement(chain: seq<Node>, root: nat) returns (r: Option<nat>)
    ensures r == FindFrom(chain, root, 0)
    ensures r.Some? ==> Reaches(chain, root, r.value) && IsDataGroup(chain[r.value])
    ensures r.Some? ==> forall j :: 0 <= j < r.value ==> !IsDataGroup(chain[j])
    ensures r.None? ==> forall i: nat :: Reaches(chain, root, i) ==> !IsDataGroup(chain[i])
  {
    r := None;
    var depth := 0;
    while depth < |chain| && chain[depth].ref != root && depth < MaxDepth
      invariant 0 <= depth <= |chain|
      invariant FindFrom(chain, root, depth) == FindFrom(chain, root, 0)
    {
      if IsDataGroup(chain[depth]) {
        r := Some(depth);
        break;
      }
      depth := depth + 1;
    }
    FindFromFirst(chain, root, 0);
  }
}
