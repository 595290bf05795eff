/** The interactive floor plan (`components/FloorPlan.tsx`): type filters,
    placement mode, point dragging with clamped coordinates, zoom, the list of
    plan pages and the choice of background image. Screen-to-percent
    conversion is outside the model: positions arrive already in percent. */
module FloorPlan {
  import opened Types
  import opened Collections
  import opened Text

  /** A plan page; `image` is the uploaded picture, if any. */
  datatype FloorPlanPage = FloorPlanPage(id: string, name: string, image: Option<string>)

  /** A toolbar button that shows or hides a group of point types. */
  datatype FilterGroup = FilterGroup(name: string, types: seq<PointType>)

  const PointTypeFilters: seq<FilterGroup> := [
    FilterGroup("Rede e Telefonia", [Network, Phone, VgaHdmi]),
    FilterGroup("CFTV", [Cctv, Cctv360]),
    FilterGroup("Rack (CPD)", [Rack])]

  /** Every point type belongs to exactly one filter group. */
  lemma FilterGroupsPartitionTypes(t: PointType)
    ensures exists g :: 0 <= g < |PointTypeFilters| && t in PointTypeFilters[g].types
    ensures forall g, h :: 0 <= g < h < |PointTypeFilters| ==> !(t in PointTypeFilters[g].types && t in PointTypeFilters[h].types)
  {
    var g0, g1, g2 := PointTypeFilters[0].types, PointTypeFilters[1].types, PointTypeFilters[2].types;
    assert |PointTypeFilters| == 3;
    match t
    case Network => assert t in g0 && t !in g1 && t !in g2;
    case Phone => assert t in g0 && t !in g1 && t !in g2;
    case VgaHdmi => assert t in g0 && t !in g1 && t !in g2;
    case Cctv => assert t !in g0 && t in g1 && t !in g2;
    case Cctv360 => assert t !in g0 && t in g1 && t !in g2;
    case Rack => assert t !in g0 && t !in g1 && t in g2;
  }

  // ------------------------------------------------------------- filters

  predicate AllActive(active: seq<PointType>, types: seq<PointType>)
  {
    forall i :: 0 <= i < |types| ==> types[i] in active
  }

  /** `toggleFilter`: when the whole group is shown, drop every occurrence of
      its types; otherwise append the group (duplicates allowed). */
  function ToggledFilters(active: seq<PointType>, types: seq<PointType>): (r: seq<PointType>)
    ensures AllActive(active, types) ==>
      (forall i :: 0 <= i < |r| ==> r[i] !in types && r[i] in active)
      && (forall i :: 0 <= i < |active| && active[i] !in types ==> active[i] in r)
      && Subsequence(r, active)
      && (forall t :: multiset(r)[t] == if t !in types then multiset(active)[t] else 0)
    ensures !AllActive(active, types) ==> r == active + types && AllActive(r, types)
  {
    if AllActive(active, types) then
      var keep := (t: PointType) => t !in types;
      FilterSelects(active, keep);
      Filter(active, keep)
    else active + types
  }

  /** Showing a hidden group and hiding it again restores the filter list. */
  lemma ToggleTwiceRestores(active: seq<PointType>, types: seq<PointType>)
    requires forall i :: 0 <= i < |active| ==> active[i] !in types
    ensures ToggledFilters(ToggledFilters(active, types), types) == active
  {
    var keep := (t: PointType) => t !in types;
    FilterKeepsAll(active, keep);
    if !AllActive(active, types) {
      var once := active + types;
      assert AllActive(once, types);
      FilterAppend(active, types, keep);
      FilterKeepsNone(types, keep);
      assert active + [] == active;
    }
  }

  /** `points.filter(p => activeFilters.includes(p.type))`. */
  function VisiblePoints(points: seq<ProjectPoint>, activeFilters: seq<PointType>): (r: seq<ProjectPoint>)
    ensures forall i :: 0 <= i < |r| ==> r[i] in points && r[i].pointType in activeFilters
    ensures forall i :: 0 <= i < |points| && points[i].pointType in activeFilters ==> points[i] in r
    ensures Subsequence(r, points)
    ensures forall p :: multiset(r)[p] == if p.pointType in activeFilters then multiset(points)[p] else 0
  {
    var keep := (p: ProjectPoint) => p.pointType in activeFilters;
    FilterSelects(points, keep);
    Filter(points, keep)
  }

  /** "Mostrar Todos" shows every point, in order; "Esconder Todos" none. */
  lemma ShowAllHideAll(points: seq<ProjectPoint>)
    ensures VisiblePoints(points, AllPointTypes) == points
    ensures VisiblePoints(points, []) == []
  {
    forall i | 0 <= i < |points| ensures points[i].pointType in AllPointTypes {
      match points[i].pointType
      case Network => case Phone => case VgaHdmi => case Cctv => case Cctv360 => case Rack =>
    }
    FilterKeepsAll(points, (p: ProjectPoint) => p.pointType in AllPointTypes);
    FilterKeepsNone(points, (p: ProjectPoint) => p.pointType in []);
  }

  // --------------------------------------------------- positions and zoom

  /** `Math.max(0, Math.min(100, v))`. */
  function Clamp(v: real): (r: real)
    ensures 0.0 <= r <= 100.0
    ensures 0.0 <= v <= 100.0 ==> r == v
    ensures v < 0.0 ==> r == 0.0
    ensures v > 100.0 ==> r == 100.0
  {
    if v < 0.0 then 0.0 else if v > 100.0 then 100.0 else v
  }

  const ZoomStep: real := 0.2
  const MinZoom: real := 0.5
  const MaxZoom: real := 3.0

  /** `Math.min(prev + 0.2, 3)`. */
  function ZoomedIn(z: real): (r: real)
    ensures r <= MaxZoom && (z + ZoomStep <= MaxZoom ==> r == z + ZoomStep)
    ensures z <= MaxZoom ==> r >= z
    ensures z + ZoomStep >= MaxZoom ==> r == MaxZoom
  {
    if z + ZoomStep < MaxZoom then z + ZoomStep else MaxZoom
  }

  /** `Math.max(prev - 0.2, 0.5)`. */
  function ZoomedOut(z: real): (r: real)
    ensures r >= MinZoom && (z - ZoomStep >= MinZoom ==> r == z - ZoomStep)
    ensures z >= MinZoom ==> r <= z
    ensures z - ZoomStep <= MinZoom ==> r == MinZoom
  {
    if z - ZoomStep > MinZoom then z - ZoomStep else MinZoom
  }

  // ---------------------------------------------------------- plan pages

  function PlanId(n: nat): string { "plan" + NatToDecimal(n) }

  function PlanName(n: nat): string { "P" + NatToDecimal(n) }

  /** Pages are numbered from 1 in list order. */
  predicate NumberedPlans(plans: seq<FloorPlanPage>)
  {
    forall i :: 0 <= i < |plans| ==> plans[i].id == PlanId(i + 1) && plans[i].name == PlanName(i + 1)
  }

  /** Numbered pages have distinct ids. */
  lemma NumberedPlanIdsDistinct(plans: seq<FloorPlanPage>, i: nat, j: nat)
    requires NumberedPlans(plans) && i < j < |plans|
    ensures plans[i].id != plans[j].id
  {
    if plans[i].id == plans[j].id {
      PrefixedDecimalInjective("plan", i + 1, j + 1);
    }
  }

  /** Appending the next numbered page keeps the numbering; the page's id
      is new and can be found. */
  lemma NextPlanIsNew(plans: seq<FloorPlanPage>, next: seq<FloorPlanPage>)
    requires NumberedPlans(plans)
    requires next == plans + [FloorPlanPage(PlanId(|plans| + 1), PlanName(|plans| + 1), None)]
    ensures NumberedPlans(next)
    ensures forall i :: 0 <= i < |plans| ==> plans[i].id != PlanId(|plans| + 1)
    ensures FindPlan(next, PlanId(|plans| + 1)).Some?
  {
    forall i | 0 <= i < |plans| ensures plans[i].id != PlanId(|plans| + 1) {
      NumberedPlanIdsDistinct(next, i, |plans|);
    }
    assert next[|plans|].id == PlanId(|plans| + 1);
  }

  /** `floorPlans.find(p => p.id === activePlanId)`. */
  function FindPlan(plans: seq<FloorPlanPage>, id: string): (r: Option<FloorPlanPage>)
    ensures r.None? <==> forall i :: 0 <= i < |plans| ==> plans[i].id != id
    ensures r.Some? ==> r.value.id == id && r.value in plans
  {
    if |plans| == 0 then None
    else if plans[0].id == id then Some(plans[0])
    else FindPlan(plans[1..], id)
  }
  /** The two initial pages are numbered, and the first can be found. */
  lemma InitialPlansNumbered()
    ensures var plans := [FloorPlanPage("plan1", "P1", None), FloorPlanPage("plan2", "P2", None)];
      NumberedPlans(plans) && FindPlan(plans, "plan1").Some?
  {
    assert NatToDecimal(1) == "1" && NatToDecimal(2) == "2";
  }


  const DefaultPlanImage: string := "url('https://i.postimg.cc/wMPyQ3C2/base-floor-plan.png')"
  const DefaultOtherPlanImage: string := "url('https://i.postimg.cc/d1mX3d7f/planta-baixa-vazia.png')"
  const SecurityPlanImage: string := "url('https://i.postimg.cc/7ZpY6YjM/planta-seguranca.png')"

  /** The background: an uploaded picture wins; otherwise the first page
      shows the security or the plain drawing according to the layer switch,
      and every other page the empty drawing. */
  function PlanImage(activePlan: Option<FloorPlanPage>, activePlanId: string, showSecurityLayer: bool): (img: string)
    ensures activePlan.Some? && activePlan.value.image.Some? && activePlan.value.image.value != "" ==>
      img == "url(" + activePlan.value.image.value + ")"
    ensures !(activePlan.Some? && activePlan.value.image.Some? && activePlan.value.image.value != "") ==>
      img == (if activePlanId == "plan1" then (if showSecurityLayer then SecurityPlanImage else DefaultPlanImage)
              else DefaultOtherPlanImage)
  {
    if activePlan.Some? && activePlan.value.image.Some? && activePlan.value.image.value != "" then
      "url(" + activePlan.value.image.value + ")"
    else if activePlanId == "plan1" then
      if showSecurityLayer then SecurityPlanImage else DefaultPlanImage
    else DefaultOtherPlanImage
  }

  /** Without uploads the security drawing shows exactly on the first page with the layer on. */
  lemma SecurityImageOnlyOnFirstPlan(plan: FloorPlanPage, activePlanId: string, showSecurityLayer: bool)
    requires plan.image.None?
    ensures PlanImage(Some(plan), activePlanId, showSecurityLayer) == SecurityPlanImage
      <==> activePlanId == "plan1" && showSecurityLayer
  {
  }

  // -------------------------------------------------------------- events

  /** What a click in placement mode hands to `onAddPoint`. */
  datatype Placement = Placement(pointType: PointType, coords: Coords)

  /** What a drag step hands to `onUpdatePointPosition`. */
  datatype PositionUpdate = PositionUpdate(pointId: string, coords: Coords)

  class FloorPlanView {
    var activeFilters: seq<PointType>
    var showSecurityLayer: bool
    var floorPlans: seq<FloorPlanPage>
    var activePlanId: string
    var placementMode: Option<PointType>
    var draggingPointId: Option<string>
    var zoomLevel: real
    var isDragging: bool

    /** At least the two initial pages, numbered in order; the active page is
        one of them; the zoom stays within its bounds. */
    predicate Valid()
      reads this
    {
      && |floorPlans| >= 2
      && NumberedPlans(floorPlans)
      && FindPlan(floorPlans, activePlanId).Some?
      && MinZoom <= zoomLevel <= MaxZoom
    }

    constructor()
      ensures Valid()
      ensures activeFilters == AllPointTypes && !showSecurityLayer
      ensures floorPlans == [FloorPlanPage("plan1", "P1", None), FloorPlanPage("plan2", "P2", None)]
      ensures activePlanId == "plan1" && placementMode.None? && draggingPointId.None?
      ensures zoomLevel == 1.0 && !isDragging
    {
      activeFilters := AllPointTypes;
      showSecurityLayer := false;
      floorPlans := [FloorPlanPage("plan1", "P1", None), FloorPlanPage("plan2", "P2", None)];
      activePlanId := "plan1";
      placementMode := None;
      draggingPointId := None;
      zoomLevel := 1.0;
      isDragging := false;
      InitialPlansNumbered();
    }

    /** The page shown, always present in a valid view. */
    function ActivePlan(): (p: FloorPlanPage)
      requires Valid()
      reads this
      ensures p.id == activePlanId && p in floorPlans
    {
      FindPlan(floorPlans, activePlanId).value
    }

    /** The background of the page shown. */
    function Background(): string
      requires Valid()
      reads this
    {
      PlanImage(Some(ActivePlan()), activePlanId, showSecurityLayer)
    }

    /** A filter-group button. */
    method ToggleFilter(types: seq<PointType>)
      modifies this`activeFilters
      ensures activeFilters == ToggledFilters(old(activeFilters), types)
    {
      var allPresent := forall i :: 0 <= i < |types| ==> types[i] in activeFilters;
      if allPresent {
        activeFilters := Filter(activeFilters, (t: PointType) => t !in types);
      } else {
        activeFilters := activeFilters + types;
      }
    }

    /** "Mostrar Todos". */
    method ShowAll()
      modifies this`activeFilters
      ensures activeFilters == AllPointTypes
    {
      activeFilters := AllPointTypes;
    }

    /** "Esconder Todos". */
    method HideAll()
      modifies this`activeFilters
      ensures activeFilters == []
    {
      activeFilters := [];
    }

    /** `handleSelectPointType`: pressing the active type leaves placement
        mode; pressing another type enters it for that type. */
    method SelectPointType(t: PointType)
      modifies this`placementMode
      ensures old(placementMode) == Some(t) ==> placementMode.None?
      ensures old(placementMode) != Some(t) ==> placementMode == Some(t)
    {
      if placementMode == Some(t) {
        placementMode := None;
      } else {
        placementMode := Some(t);
      }
    }

    /** `handlePlanClick`: in placement mode, place a point of the chosen type
        where clicked and leave placement mode; otherwise nothing. */
    method PlanClick(coords: Coords) returns (placed: Option<Placement>)
      modifies this`placementMode
      ensures old(placementMode).None? ==> placed.None? && placementMode.None?
      ensures old(placementMode).Some? ==> placed == Some(Placement(old(placementMode).value, coords)) && placementMode.None?
    {
      placed := None;
      if placementMode.Some? {
        placed := Some(Placement(placementMode.value, coords));
        placementMode := None;
      }
    }

    /** `handleDragStart` on a point marker. */
    method PointDragStart(pointId: string)
      modifies this`draggingPointId, this`isDragging
      ensures draggingPointId == Some(pointId) && !isDragging
    {
      draggingPointId := Some(pointId);
      isDragging := false;
    }

    /** `handleDragMove`: while a point is held, move it to the pointer,
        clamped to the plan; otherwise nothing. */
    method DragMove(x: real, y: real) returns (moved: Option<PositionUpdate>)
      modifies this`isDragging
      ensures old(draggingPointId).None? ==> moved.None? && isDragging == old(isDragging)
      ensures draggingPointId.Some? ==>
        moved == Some(PositionUpdate(draggingPointId.value, Coords(Clamp(x), Clamp(y)))) && isDragging
      ensures moved.Some? ==> 0.0 <= moved.value.coords.x <= 100.0 && 0.0 <= moved.value.coords.y <= 100.0
    {
      moved := None;
      if draggingPointId.Some? {
        isDragging := true;
        moved := Some(PositionUpdate(draggingPointId.value, Coords(Clamp(x), Clamp(y))));
      }
    }

    /** `handleDragEnd` (mouse up or leaving the plan): release the point. The
        "just dragged" flag is cleared later, by `DragSettled`. */
    method DragEnd()
      modifies this`draggingPointId
      ensures draggingPointId.None?
    {
      draggingPointId := None;
    }

    /** The timer callback scheduled by `handleDragEnd`. */
    method DragSettled()
      modifies this`isDragging
      ensures !isDragging
    {
      isDragging := false;
    }

    /** A click on a marker opens its details unless it ended a drag. */
    method PointClick(pointId: string) returns (selected: Option<string>)
      ensures isDragging ==> selected.None?
      ensures !isDragging ==> selected == Some(pointId)
    {
      if isDragging {
        selected := None;
      } else {
        selected := Some(pointId);
      }
    }

    method ZoomIn()
      requires Valid()
      modifies this`zoomLevel
      ensures Valid() && zoomLevel == ZoomedIn(old(zoomLevel)) && zoomLevel >= old(zoomLevel)
    {
      zoomLevel := ZoomedIn(zoomLevel);
    }

    method ZoomOut()
      requires Valid()
      modifies this`zoomLevel
      ensures Valid() && zoomLevel == ZoomedOut(old(zoomLevel)) && zoomLevel <= old(zoomLevel)
    {
      zoomLevel := ZoomedOut(zoomLevel);
    }

    /** `addFloorPlan`: append the next numbered page, without a picture, and
        show it. Its id is new. */
    method AddFloorPlan()
      requires Valid()
      modifies this`floorPlans, this`activePlanId
      ensures Valid()
      ensures var n := |old(floorPlans)| + 1;
        floorPlans == old(floorPlans) + [FloorPlanPage(PlanId(n), PlanName(n), None)] && activePlanId == PlanId(n)
      ensures forall i :: 0 <= i < |old(floorPlans)| ==> old(floorPlans)[i].id != activePlanId
    {
      var newPlanNumber := |floorPlans| + 1;
      var newPlan := FloorPlanPage(PlanId(newPlanNumber), PlanName(newPlanNumber), None);
      var plans := floorPlans + [newPlan];
      NextPlanIsNew(floorPlans, plans);
      floorPlans := plans;
      activePlanId := newPlan.id;
    }

    /** A page button: show that page. */
    method SelectPlan(index: nat)
      requires Valid() && index < |floorPlans|
      modifies this`activePlanId
      ensures Valid() && activePlanId == floorPlans[index].id
    {
      activePlanId := floorPlans[index].id;
    }

    /** The security-layer switch, enabled only on the first page. */
    method ToggleSecurityLayer()
      modifies this`showSecurityLayer
      ensures activePlanId == "plan1" ==> showSecurityLayer == !old(showSecurityLayer)
      ensures activePlanId != "plan1" ==> showSecurityLayer == old(showSecurityLayer)
    {
      if activePlanId == "plan1" {
        showSecurityLayer := !showSecurityLayer;
      }
    }
  }
}
