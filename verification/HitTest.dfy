/** What is under a point of an output: input must find what rendering puts in front.

    A scene describes everything at one point. Layer surfaces are regions in coordinates of their own;
    searching for input and drawing each bring the point into these coordinates in their own way. */
module HitTest {
  import opened RealProducts
  import opened Wrappers

  type SurfaceId = nat
  type WindowId = nat
  type WorkspaceId = nat

  datatype Layer = Overlay | Top | Bottom | Background

  datatype Origin = OnScreen | OnWorkspace(workspace: WorkspaceId)

  /** A position; workspaces are stacked along the cross axis. */
  datatype Place = Place(main: real, cross: real)

  datatype Rect = Rect(main: real, cross: real, width: real, height: real)
  {
    predicate Contains(p: Place) {
      main <= p.main < main + width && cross <= p.cross < cross + height
    }
  }

  predicate Covers(region: seq<Rect>, p: Place) {
    exists i :: 0 <= i < |region| && region[i].Contains(p)
  }

  /** A layer-shell surface: the regions of its pop-ups and of its toplevel, in the coordinates of the
      output for layers that stay, and of a workspace for layers that move with the workspaces. */
  datatype Surface = Surface(id: SurfaceId, mapped: bool, withinBackdrop: bool, popups: seq<Rect>, toplevel: seq<Rect>)
  {
    function Region(popup: bool): seq<Rect> {
      if popup then popups else toplevel
    }
  }

  /** How a monitor lays out its workspaces: its size, the zoom, the gap between workspaces, and the
      position among them that is in the middle, between two during a switch. */
  datatype View = View(width: real, height: real, zoom: real, gap: real, position: real)
  {
    predicate Valid() {
      width > 0.0 && height > 0.0 && zoom > 0.0 && gap > 0.0
    }

    /** The top left corner of a workspace. */
    function Corner(w: WorkspaceId): Place {
      Place((width - width * zoom) / 2.0,
            (height - height * zoom) / 2.0 + (w as real - position) * (height * zoom + gap))
    }

    /** Where a workspace is drawn. */
    function Geometry(w: WorkspaceId): Rect {
      Rect(Corner(w).main, Corner(w).cross, width * zoom, height * zoom)
    }

    /** The full breadth of the output along a workspace, in which the search for input finds it. */
    function Band(w: WorkspaceId): Rect {
      Rect(0.0, Corner(w).cross, width, height * zoom)
    }
  }

  /** Surfaces are listed front to back, workspaces in render order. `moved` and `tiled` are the hits on
      the interactively moved window and on the windows of the layout. `overviewOpen` is the state of
      the whole layout and `inOverview` that of this monitor. `exitDialog`, `locked`, `screenshot` and
      `switcher` say which full-screen interfaces are open; `lockSurface` is the region of this output's
      lock surface, and an open switcher is not drawn until it is `switcherShown`, nor on an output that is
      isolated. */
  datatype Scene = Scene(
    point: Place,
    view: View,
    overlay: seq<Surface>,
    top: seq<Surface>,
    bottom: seq<Surface>,
    background: seq<Surface>,
    workspaces: seq<WorkspaceId>,
    active: WorkspaceId,
    moved: Option<WindowId>,
    tiled: Option<WindowId>,
    aboveTop: bool,
    overviewOpen: bool,
    inOverview: bool,
    stripSuppressed: bool,
    hotCorner: bool,
    exitDialog: bool,
    locked: bool,
    lockSurface: seq<Rect>,
    screenshot: bool,
    switcher: bool,
    switcherShown: bool,
    isolated: bool)

  /** What is found at the point: a pop-up or the toplevel of a layer surface, or the lock surface, with
      the place on it; a window; or an interface of the compositor itself. */
  datatype Hit =
    | Nothing
    | OnLayer(surface: SurfaceId, popup: bool, place: Place)
    | OnWindow(window: WindowId)
    | OnLockSurface(place: Place)
    | OnInterface
  {
    function OrElse(other: Hit): Hit {
      if Nothing? then other else this
    }
  }

  function SurfacesOn(sc: Scene, layer: Layer): seq<Surface> {
    match layer
    case Overlay => sc.overlay
    case Top => sc.top
    case Bottom => sc.bottom
    case Background => sc.background
  }

  /** The facts about scenes that the compositor maintains. An isolated monitor, and in a consolidated
      carousel any but the active one, stays out of an overview that is open elsewhere; a monitor that
      leaves the overview is still zoomed for a while. A window is shown above the top layer only
      while this monitor takes no part in the overview and switches no workspace. Only surfaces of the
      background layer are placed within the backdrop. */
  ghost predicate Consistent(sc: Scene) {
    && sc.view.Valid()
    && Rect(0.0, 0.0, sc.view.width, sc.view.height).Contains(sc.point)
    && (forall s | s in sc.overlay + sc.top + sc.bottom :: !s.withinBackdrop)
    && (forall i, j | 0 <= i < j < |sc.workspaces| :: sc.workspaces[i] != sc.workspaces[j])
    && (sc.stripSuppressed ==> sc.overviewOpen)
    && (sc.inOverview ==> sc.overviewOpen)
    && (sc.aboveTop ==>
          && !sc.inOverview
          && sc.view.zoom == 1.0
          && sc.view.position == sc.active as real
          && sc.active in sc.workspaces)
  }

  // ---------- Places ----------

  /** `workspace_under`. */
  function FindWorkspace(workspaces: seq<WorkspaceId>, view: View, p: Place): Option<WorkspaceId> {
    if workspaces == [] then None
    else if view.Band(workspaces[0]).Contains(p) then Some(workspaces[0])
    else FindWorkspace(workspaces[1..], view, p)
  }

  function Under(sc: Scene): Option<WorkspaceId> {
    FindWorkspace(sc.workspaces, sc.view, sc.point)
  }

  predicate MovesWithWorkspaces(layer: Layer) {
    layer.Bottom? || layer.Background?
  }

  /** The place at which the search for input looks in a layer: relative to the workspace under the
      point for layers that move, without regard to zoom. */
  function SearchedPlace(sc: Scene, layer: Layer): Option<Place> {
    if !MovesWithWorkspaces(layer) then Some(sc.point)
    else
      match Under(sc)
      case None => None
      case Some(w) => Some(Place(sc.point.main - sc.view.Corner(w).main, sc.point.cross - sc.view.Corner(w).cross))
  }

  /** The place that is drawn at the point by a copy with this origin: copies for a workspace are
      scaled, moved to it and cropped. */
  function DrawnPlace(sc: Scene, origin: Origin): Option<Place>
    requires sc.view.Valid()
  {
    match origin
    case OnScreen => Some(sc.point)
    case OnWorkspace(w) =>
      if sc.view.Geometry(w).Contains(sc.point)
      then Some(Place((sc.point.main - sc.view.Corner(w).main) / sc.view.zoom,
                      (sc.point.cross - sc.view.Corner(w).cross) / sc.view.zoom))
      else None
  }

  /** What the workspace under the point draws there. */
  function DrawnUnder(sc: Scene): Option<Place>
    requires sc.view.Valid()
  {
    match Under(sc)
    case None => None
    case Some(w) => DrawnPlace(sc, OnWorkspace(w))
  }

  lemma DistributeSteps(a: real, b: real, span: real)
    ensures (a - b - 1.0) * span == a * span - b * span - span
  {
  }

  /** Two intervals of one size, placed some number of longer steps from a base, share a point. */
  lemma NotAStepApart(a: real, b: real, base: real, span: real, size: real, p: real)
    requires span > size
    requires base + a * span <= p < base + a * span + size
    requires base + b * span <= p < base + b * span + size
    ensures a < b + 1.0
  {
    if a >= b + 1.0 {
      NonNegative(a - b - 1.0, span);
      DistributeSteps(a, b, span);
    }
  }

  /** No two workspaces are found at one point. */
  lemma BandsAreDisjoint(view: View, v: WorkspaceId, w: WorkspaceId, p: Place)
    requires view.Valid() && view.Band(v).Contains(p) && view.Band(w).Contains(p)
    ensures v == w
  {
    var size := view.height * view.zoom;
    var base, a, b := (view.height - size) / 2.0, v as real - view.position, w as real - view.position;
    NotAStepApart(a, b, base, size + view.gap, size, p.cross);
    NotAStepApart(b, a, base, size + view.gap, size, p.cross);
  }

  lemma {:induction false} FindWorkspaceMeans(workspaces: seq<WorkspaceId>, view: View, p: Place, w: WorkspaceId)
    requires view.Valid()
    ensures FindWorkspace(workspaces, view, p) == Some(w) <==> w in workspaces && view.Band(w).Contains(p)
  {
    if workspaces == [] {
    } else {
      assert workspaces == [workspaces[0]] + workspaces[1..];
      FindWorkspaceMeans(workspaces[1..], view, p, w);
      if view.Band(workspaces[0]).Contains(p) && view.Band(w).Contains(p) {
        BandsAreDisjoint(view, workspaces[0], w, p);
      }
    }
  }

  /** In coordinates: a workspace is found along the full breadth of the output, beside what it draws too. */
  lemma UnderMeans(sc: Scene, w: WorkspaceId)
    requires sc.view.Valid()
    ensures Under(sc) == Some(w) <==>
            && w in sc.workspaces && 0.0 <= sc.point.main < sc.view.width
            && sc.view.Corner(w).cross <= sc.point.cross < sc.view.Corner(w).cross + sc.view.height * sc.view.zoom
  {
    FindWorkspaceMeans(sc.workspaces, sc.view, sc.point, w);
  }

  /** A workspace draws at the point only if it is the one under the point. */
  lemma OnlyUnderDraws(sc: Scene, w: WorkspaceId)
    requires Consistent(sc) && w in sc.workspaces && Under(sc) != Some(w)
    ensures DrawnPlace(sc, OnWorkspace(w)) == None
  {
    FindWorkspaceMeans(sc.workspaces, sc.view, sc.point, w);
  }

  /** Where the workspaces are: all of one size; the one at the position in the middle of the output, and
      each next one a gap beyond the last. */
  lemma WorkspacesAreStacked(view: View, w: WorkspaceId)
    requires view.Valid()
    ensures var g, next := view.Geometry(w), view.Geometry(w + 1);
      && g.width == view.width * view.zoom && g.height == view.height * view.zoom
      && g.main + g.width / 2.0 == view.width / 2.0
      && next.main == g.main && next.cross == g.cross + g.height + view.gap
      && (w as real == view.position ==> g.cross + g.height / 2.0 == view.height / 2.0)
  {
    var span := view.height * view.zoom + view.gap;
    OneStepFurther(w as real - view.position, span);
    if w as real == view.position {
      ZeroProduct(w as real - view.position, span);
    }
  }

  lemma OneStepFurther(steps: real, span: real)
    ensures (steps + 1.0) * span == steps * span + span
  {
  }

  /** Regions are half-open: cut in two, a region's points are each in exactly one part. */
  lemma CutRegion(main: real, cross: real, a: real, b: real, height: real, p: Place)
    requires a >= 0.0 && b >= 0.0
    ensures Rect(main, cross, a + b, height).Contains(p) <==>
            Rect(main, cross, a, height).Contains(p) != Rect(main + a, cross, b, height).Contains(p)
    ensures Rect(main, cross, height, a + b).Contains(p) <==>
            Rect(main, cross, height, a).Contains(p) != Rect(main, cross + a, height, b).Contains(p)
  {
  }

  lemma QuotientIs(x: real, z: real, q: real)
    requires z > 0.0
    ensures x / z == q <==> x == q * z
  {
    QuotientTimes(x, z);
    if x == q * z {
      OneLessTimes(q, x / z, z);
      ZeroProduct(q - x / z, z);
    }
  }

  lemma OneLessTimes(q: real, r: real, z: real)
    ensures (q - r) * z == q * z - r * z
  {
  }

  /** The place drawn at the point is the one that scaling and moving to the workspace brings there. */
  lemma DrawnPlaceIsInverse(sc: Scene, w: WorkspaceId, q: Place)
    requires sc.view.Valid() && sc.view.Geometry(w).Contains(sc.point)
    ensures DrawnPlace(sc, OnWorkspace(w)) == Some(q) <==>
            && sc.point.main == sc.view.Corner(w).main + q.main * sc.view.zoom
            && sc.point.cross == sc.view.Corner(w).cross + q.cross * sc.view.zoom
  {
    QuotientIs(sc.point.main - sc.view.Corner(w).main, sc.view.zoom, q.main);
    QuotientIs(sc.point.cross - sc.view.Corner(w).cross, sc.view.zoom, q.cross);
  }

  /** ... and nothing of a workspace is drawn outside of it. */
  lemma DrawnWithinWorkspace(sc: Scene, w: WorkspaceId)
    requires sc.view.Valid()
    ensures DrawnPlace(sc, OnWorkspace(w)).Some? <==>
            && sc.view.Corner(w).main <= sc.point.main < sc.view.Corner(w).main + sc.view.width * sc.view.zoom
            && sc.view.Corner(w).cross <= sc.point.cross < sc.view.Corner(w).cross + sc.view.height * sc.view.zoom
  {
  }

  lemma UnitZoomCorner(view: View, w: WorkspaceId)
    requires view.zoom == 1.0
    ensures view.Corner(w).main == 0.0 && view.Geometry(w) == view.Band(w)
    ensures w as real == view.position ==> view.Corner(w).cross == 0.0
  {
    SameProduct(view.width, view.zoom, 1.0);
    SameProduct(view.height, view.zoom, 1.0);
    if w as real == view.position {
      ZeroProduct(w as real - view.position, view.height * view.zoom + view.gap);
    }
  }

  /** Under a window shown above the top layer, the active workspace fills the output, and the layers
      that move are searched where they are drawn, fixed to the screen. */
  lemma AboveTopPlaces(sc: Scene)
    requires Consistent(sc) && sc.aboveTop
    ensures SearchedPlace(sc, Bottom) == SearchedPlace(sc, Background) == DrawnPlace(sc, OnScreen)
  {
    UnitZoomCorner(sc.view, sc.active);
    SameProduct(sc.view.height, sc.view.zoom, 1.0);
    FindWorkspaceMeans(sc.workspaces, sc.view, sc.point, sc.active);
  }

  lemma QuotientTimes(x: real, z: real)
    requires z > 0.0
    ensures x / z * z == x
  {
  }

  lemma OneLess(q: real, z: real)
    ensures q * (z - 1.0) == q * z - q
  {
  }

  lemma ZeroProduct(a: real, b: real)
    ensures a * b == 0.0 <==> a == 0.0 || b == 0.0
  {
  }

  lemma OnlyUnitKeeps(q: real, x: real, z: real)
    requires q * z == x && z > 0.0
    ensures q == x <==> z == 1.0 || x == 0.0
  {
    OneLess(q, z);
    ZeroProduct(q, z - 1.0);
    ZeroProduct(q, z);
  }

  lemma QuotientIsSame(x: real, z: real)
    requires z > 0.0
    ensures x / z == x <==> z == 1.0 || x == 0.0
  {
    QuotientTimes(x, z);
    OnlyUnitKeeps(x / z, x, z);
  }

  /** The point is out of line: the workspace under it is zoomed, and it is not that workspace's
      corner. */
  predicate OutOfLine(sc: Scene) {
    Under(sc).Some? && sc.view.zoom != 1.0 && sc.point != sc.view.Corner(Under(sc).value)
  }

  lemma CornerIsDrawn(view: View, w: WorkspaceId)
    requires view.Valid()
    ensures view.Geometry(w).Contains(view.Corner(w))
  {
    PositiveProduct(view.width, view.zoom);
    PositiveProduct(view.height, view.zoom);
  }

  /** Searching and drawing mean the same place if and only if the point is not out of line. */
  lemma PlacesAgreeIff(sc: Scene)
    requires Consistent(sc)
    ensures SearchedPlace(sc, Bottom) == DrawnUnder(sc) <==> !OutOfLine(sc)
  {
    if Under(sc).Some? {
      var w := Under(sc).value;
      var corner := sc.view.Corner(w);
      FindWorkspaceMeans(sc.workspaces, sc.view, sc.point, w);
      QuotientIsSame(sc.point.main - corner.main, sc.view.zoom);
      QuotientIsSame(sc.point.cross - corner.cross, sc.view.zoom);
      if sc.view.zoom == 1.0 {
        UnitZoomCorner(sc.view, w);
      }
      if sc.point == corner {
        CornerIsDrawn(sc.view, w);
      }
    }
  }

  // ---------- Input ----------

  /** `layer_surface_under`: the frontmost mapped surface outside the backdrop that covers a place. */
  function FirstAt(surfaces: seq<Surface>, popup: bool, place: Option<Place>): Hit {
    if surfaces == [] || place.None? then Nothing
    else if surfaces[0].mapped && !surfaces[0].withinBackdrop && Covers(surfaces[0].Region(popup), place.value)
    then OnLayer(surfaces[0].id, popup, place.value)
    else FirstAt(surfaces[1..], popup, place)
  }

  /** A surface that input may find at a place: mapped, outside the backdrop, and covering it. */
  ghost predicate Found(s: Surface, popup: bool, p: Place) {
    s.mapped && !s.withinBackdrop && exists r | r in (if popup then s.popups else s.toplevel) :: r.Contains(p)
  }

  lemma CoversMeans(region: seq<Rect>, p: Place)
    ensures Covers(region, p) <==> exists r | r in region :: r.Contains(p)
  {
    if r :| r in region && r.Contains(p) {
      var i :| 0 <= i < |region| && region[i] == r;
    }
  }

  /** The first such surface is found. */
  lemma {:induction false} FirstAtMeans(surfaces: seq<Surface>, popup: bool, p: Place) returns (i: nat)
    ensures i <= |surfaces| && forall j | 0 <= j < i :: !Found(surfaces[j], popup, p)
    ensures i < |surfaces| ==> Found(surfaces[i], popup, p)
    ensures FirstAt(surfaces, popup, Some(p)) == if i < |surfaces| then OnLayer(surfaces[i].id, popup, p) else Nothing
  {
    if surfaces == [] {
      i := 0;
    } else {
      CoversMeans(surfaces[0].Region(popup), p);
      if Found(surfaces[0], popup, p) {
        i := 0;
      } else {
        var rest := FirstAtMeans(surfaces[1..], popup, p);
        i := rest + 1;
        forall j | 0 <= j < i ensures !Found(surfaces[j], popup, p) {
          if j > 0 {
            assert surfaces[j] == surfaces[1..][j - 1];
          }
        }
      }
    }
  }

  function LayerPopupUnder(sc: Scene, layer: Layer): Hit {
    FirstAt(SurfacesOn(sc, layer), true, SearchedPlace(sc, layer))
  }

  function LayerToplevelUnder(sc: Scene, layer: Layer): Hit {
    FirstAt(SurfacesOn(sc, layer), false, SearchedPlace(sc, layer))
  }

  function WindowHit(w: Option<WindowId>): Hit {
    if w.Some? then OnWindow(w.value) else Nothing
  }

  /** `contents_under`: full-screen interfaces of the compositor leave nothing for clients but the lock
      surface. */
  function ContentsUnder(sc: Scene): Hit {
    if sc.exitDialog then Nothing
    else if sc.locked then (if Covers(sc.lockSurface, sc.point) then OnLockSurface(sc.point) else Nothing)
    else if sc.screenshot || sc.switcher then Nothing
    else DesktopUnder(sc)
  }

  /** ... as far as windows and layer surfaces go. */
  function DesktopUnder(sc: Scene): Hit {
    var under := LayerPopupUnder(sc, Overlay).OrElse(LayerToplevelUnder(sc, Overlay));
    if sc.aboveTop then
      under
      .OrElse(WindowHit(sc.moved))
      .OrElse(WindowHit(sc.tiled))
      .OrElse(LayerPopupUnder(sc, Top))
      .OrElse(LayerToplevelUnder(sc, Top))
      .OrElse(LayerPopupUnder(sc, Bottom))
      .OrElse(LayerPopupUnder(sc, Background))
      .OrElse(LayerToplevelUnder(sc, Bottom))
      .OrElse(LayerToplevelUnder(sc, Background))
    else if sc.hotCorner then Nothing
    else
      var under1 := under.OrElse(LayerPopupUnder(sc, Top)).OrElse(LayerToplevelUnder(sc, Top)).OrElse(WindowHit(sc.moved));
      var under2 := if sc.overviewOpen then under1
                    else under1.OrElse(LayerPopupUnder(sc, Bottom)).OrElse(LayerPopupUnder(sc, Background));
      var under3 := under2.OrElse(WindowHit(sc.tiled));
      if sc.overviewOpen then under3
      else under3.OrElse(LayerToplevelUnder(sc, Bottom)).OrElse(LayerToplevelUnder(sc, Background))
  }

  predicate Hits(h: Hit) {
    !h.Nothing?
  }

  /** `is_sticky_obscured_under`, which does not look at the backdrop flag. */
  predicate StickyObscured(sc: Scene) {
    var covered := (layer: Layer) =>
      exists s | s in SurfacesOn(sc, layer) :: s.mapped && (Covers(s.popups, sc.point) || Covers(s.toplevel, sc.point));
    if covered(Overlay) then true
    else if sc.aboveTop then false
    else if sc.hotCorner then true
    else covered(Top)
  }

  predicate LayoutObscured(sc: Scene) {
    !sc.overviewOpen && (Hits(LayerPopupUnder(sc, Bottom)) || Hits(LayerPopupUnder(sc, Background)))
  }

  function WindowUnder(sc: Scene): Option<WindowId> {
    if sc.exitDialog || sc.locked || sc.screenshot || sc.switcher then None
    else if StickyObscured(sc) then None
    else if sc.moved.Some? then sc.moved
    else if LayoutObscured(sc) then None
    else sc.tiled
  }

  function WindowPart(h: Hit): Option<WindowId> {
    if h.OnWindow? then Some(h.window) else None
  }

  // ---------- Rendering ----------

  /** What `render_inner` pushes, front to back. */
  datatype Item =
    | Popups(surface: Surface, layer: Layer, origin: Origin)
    | Toplevel(surface: Surface, layer: Layer, origin: Origin)
    | MovedWindow
    | InsertHint
    | Windows
    | WorkspaceBackground
    | Panels
    | Shadows
    | Backdrop
    | ExitDialog
    | LockSurface
    | LockBackdrop
    | ScreenshotUi
    | Switcher

  function PushLayer(surfaces: seq<Surface>, layer: Layer, popups: bool, origin: Origin, forBackdrop: bool): seq<Item> {
    if surfaces == [] then []
    else
      var s := surfaces[0];
      (if !s.mapped || s.withinBackdrop != forBackdrop then []
       else if popups then [Popups(s, layer, origin)] else [Toplevel(s, layer, origin)])
      + PushLayer(surfaces[1..], layer, popups, origin, forBackdrop)
  }

  function PushWorkspacePopups(sc: Scene, workspaces: seq<WorkspaceId>): seq<Item> {
    if workspaces == [] then []
    else
      PushLayer(sc.bottom, Bottom, true, OnWorkspace(workspaces[0]), false)
      + PushLayer(sc.background, Background, true, OnWorkspace(workspaces[0]), false)
      + PushWorkspacePopups(sc, workspaces[1..])
  }

  function PushWorkspaceToplevels(sc: Scene, workspaces: seq<WorkspaceId>): seq<Item> {
    if workspaces == [] then []
    else
      PushLayer(sc.bottom, Bottom, false, OnWorkspace(workspaces[0]), false)
      + PushLayer(sc.background, Background, false, OnWorkspace(workspaces[0]), false)
      + [WorkspaceBackground]
      + PushWorkspaceToplevels(sc, workspaces[1..])
  }

  /** The pop-ups of a layer that does not move, then its toplevels. */
  function PushScreenLayer(sc: Scene, layer: Layer): seq<Item> {
    PushLayer(SurfacesOn(sc, layer), layer, true, OnScreen, false)
    + PushLayer(SurfacesOn(sc, layer), layer, false, OnScreen, false)
  }

  function PushLowLayersOnce(sc: Scene): seq<Item> {
    PushLayer(sc.bottom, Bottom, true, OnScreen, false)
    + PushLayer(sc.background, Background, true, OnScreen, false)
    + PushLayer(sc.bottom, Bottom, false, OnScreen, false)
    + PushLayer(sc.background, Background, false, OnScreen, false)
  }

  function PushStrip(sc: Scene): seq<Item> {
    if sc.stripSuppressed then []
    else PushWorkspacePopups(sc, sc.workspaces) + [Windows] + PushWorkspaceToplevels(sc, sc.workspaces)
  }

  function PushBehindStrip(sc: Scene): seq<Item> {
    [Panels, Shadows]
    + PushLayer(sc.background, Background, true, OnScreen, true)
    + PushLayer(sc.background, Background, false, OnScreen, true)
    + [Backdrop]
  }

  /** The desktop, below all interfaces. */
  function DesktopOrder(sc: Scene): seq<Item> {
    PushScreenLayer(sc, Overlay)
    + (if sc.aboveTop then
         [MovedWindow, InsertHint, Windows] + PushScreenLayer(sc, Top) + PushLowLayersOnce(sc) + [WorkspaceBackground]
       else
         PushScreenLayer(sc, Top) + [MovedWindow, InsertHint] + PushStrip(sc))
    + PushBehindStrip(sc)
  }

  /** What is drawn below the exit dialog. */
  function BelowDialog(sc: Scene, desktop: seq<Item>): seq<Item> {
    if sc.locked then [LockSurface] + [LockBackdrop]
    else if sc.screenshot then [ScreenshotUi]
    else if sc.switcher && sc.switcherShown && !sc.isolated then [Switcher] + desktop
    else desktop
  }

  function RenderOrder(sc: Scene): seq<Item> {
    (if sc.exitDialog then [ExitDialog] else []) + BelowDialog(sc, DesktopOrder(sc))
  }

  /** Surfaces in the backdrop never receive input, and surfaces that move with the workspaces do not
      while their monitor is in the overview. */
  predicate Eligible(sc: Scene, s: Surface, layer: Layer) {
    !s.withinBackdrop && (MovesWithWorkspaces(layer) ==> !sc.inOverview)
  }

  predicate DrawnAt(sc: Scene, region: seq<Rect>, origin: Origin)
    requires sc.view.Valid()
  {
    DrawnPlace(sc, origin).Some? && Covers(region, DrawnPlace(sc, origin).value)
  }

  function HitOf(sc: Scene, item: Item): Hit
    requires sc.view.Valid()
  {
    match item
    case Popups(s, layer, origin) =>
      if Eligible(sc, s, layer) && DrawnAt(sc, s.popups, origin)
      then OnLayer(s.id, true, DrawnPlace(sc, origin).value) else Nothing
    case Toplevel(s, layer, origin) =>
      if Eligible(sc, s, layer) && DrawnAt(sc, s.toplevel, origin)
      then OnLayer(s.id, false, DrawnPlace(sc, origin).value) else Nothing
    case MovedWindow => WindowHit(sc.moved)
    case Windows => WindowHit(sc.tiled)
    case LockSurface => if Covers(sc.lockSurface, sc.point) then OnLockSurface(sc.point) else Nothing
    case ExitDialog => OnInterface
    case LockBackdrop => OnInterface
    case ScreenshotUi => OnInterface
    case Switcher => OnInterface
    case _ => Nothing
  }

  /** The frontmost of the items that accepts input at the point. */
  function FirstHit(sc: Scene, items: seq<Item>): Hit
    requires sc.view.Valid()
  {
    if items == [] then Nothing else HitOf(sc, items[0]).OrElse(FirstHit(sc, items[1..]))
  }

  // ---------- Agreement ----------

  lemma {:induction false} FirstHitOfConcat(sc: Scene, a: seq<Item>, b: seq<Item>)
    requires sc.view.Valid()
    ensures FirstHit(sc, a + b) == FirstHit(sc, a).OrElse(FirstHit(sc, b))
  {
    if a == [] {
      assert a + b == b;
    } else {
      assert (a + b)[0] == a[0] && (a + b)[1..] == a[1..] + b;
      FirstHitOfConcat(sc, a[1..], b);
    }
  }

  lemma PushLayerStep(sc: Scene, surfaces: seq<Surface>, layer: Layer, popups: bool, origin: Origin, forBackdrop: bool)
    requires sc.view.Valid() && surfaces != []
    ensures var s := surfaces[0];
      var head := if !s.mapped || s.withinBackdrop != forBackdrop then Nothing
                  else HitOf(sc, if popups then Popups(s, layer, origin) else Toplevel(s, layer, origin));
      FirstHit(sc, PushLayer(surfaces, layer, popups, origin, forBackdrop)) ==
        head.OrElse(FirstHit(sc, PushLayer(surfaces[1..], layer, popups, origin, forBackdrop)))
  {
    var s := surfaces[0];
    var first := if !s.mapped || s.withinBackdrop != forBackdrop then []
                 else if popups then [Popups(s, layer, origin)] else [Toplevel(s, layer, origin)];
    FirstHitOfConcat(sc, first, PushLayer(surfaces[1..], layer, popups, origin, forBackdrop));
    assert first != [] ==> FirstHit(sc, first) == HitOf(sc, first[0]).OrElse(FirstHit(sc, first[1..]));
  }

  /** The hit on one layer as drawn from one origin. */
  function LayerHit(sc: Scene, surfaces: seq<Surface>, layer: Layer, popups: bool, origin: Origin): Hit
    requires sc.view.Valid()
  {
    FirstHit(sc, PushLayer(surfaces, layer, popups, origin, false))
  }

  lemma {:induction false} BackdropTakesNoInput(sc: Scene, surfaces: seq<Surface>, layer: Layer, popups: bool, origin: Origin)
    requires sc.view.Valid()
    ensures FirstHit(sc, PushLayer(surfaces, layer, popups, origin, true)) == Nothing
  {
    if surfaces == [] {
    } else {
      PushLayerStep(sc, surfaces, layer, popups, origin, true);
      BackdropTakesNoInput(sc, surfaces[1..], layer, popups, origin);
    }
  }

  lemma {:induction false} LayerHitIsFirstAt(sc: Scene, surfaces: seq<Surface>, layer: Layer, popups: bool, origin: Origin)
    requires sc.view.Valid() && (MovesWithWorkspaces(layer) ==> !sc.inOverview)
    ensures LayerHit(sc, surfaces, layer, popups, origin) == FirstAt(surfaces, popups, DrawnPlace(sc, origin))
  {
    if surfaces == [] {
    } else {
      PushLayerStep(sc, surfaces, layer, popups, origin, false);
      LayerHitIsFirstAt(sc, surfaces[1..], layer, popups, origin);
    }
  }

  lemma {:induction false} IneligibleLayerTakesNoInput(sc: Scene, surfaces: seq<Surface>, layer: Layer, popups: bool,
                                                       origin: Origin)
    requires sc.view.Valid() && ((MovesWithWorkspaces(layer) && sc.inOverview) || DrawnPlace(sc, origin).None?)
    ensures LayerHit(sc, surfaces, layer, popups, origin) == Nothing
  {
    if surfaces == [] {
    } else {
      PushLayerStep(sc, surfaces, layer, popups, origin, false);
      IneligibleLayerTakesNoInput(sc, surfaces[1..], layer, popups, origin);
    }
  }

  /** Two layers that move, the same kind of item of each. */
  function LowAt(sc: Scene, popup: bool, place: Option<Place>): Hit {
    FirstAt(sc.bottom, popup, place).OrElse(FirstAt(sc.background, popup, place))
  }

  /** Of the copies drawn for each workspace only those of the workspace under the point matter, and
      they are hit as if drawn once. */
  lemma {:induction false} WorkspacePopupsHit(sc: Scene, workspaces: seq<WorkspaceId>)
    requires Consistent(sc) && forall w | w in workspaces :: w in sc.workspaces
    requires forall i, j | 0 <= i < j < |workspaces| :: workspaces[i] != workspaces[j]
    ensures FirstHit(sc, PushWorkspacePopups(sc, workspaces)) ==
      if sc.inOverview || Under(sc).None? || Under(sc).value !in workspaces then Nothing
      else LowAt(sc, true, DrawnUnder(sc))
  {
    if workspaces == [] {
    } else {
      var w, rest := workspaces[0], workspaces[1..];
      var bottom := PushLayer(sc.bottom, Bottom, true, OnWorkspace(w), false);
      var background := PushLayer(sc.background, Background, true, OnWorkspace(w), false);
      WorkspacePopupsHit(sc, rest);
      FirstHitOfConcat(sc, bottom + background, PushWorkspacePopups(sc, rest));
      FirstHitOfConcat(sc, bottom, background);
      if sc.inOverview || Under(sc) != Some(w) {
        if Under(sc) != Some(w) {
          OnlyUnderDraws(sc, w);
        }
        IneligibleLayerTakesNoInput(sc, sc.bottom, Bottom, true, OnWorkspace(w));
        IneligibleLayerTakesNoInput(sc, sc.background, Background, true, OnWorkspace(w));
      } else {
        LayerHitIsFirstAt(sc, sc.bottom, Bottom, true, OnWorkspace(w));
        LayerHitIsFirstAt(sc, sc.background, Background, true, OnWorkspace(w));
      }
    }
  }

  lemma {:induction false} WorkspaceToplevelsHit(sc: Scene, workspaces: seq<WorkspaceId>)
    requires Consistent(sc) && forall w | w in workspaces :: w in sc.workspaces
    requires forall i, j | 0 <= i < j < |workspaces| :: workspaces[i] != workspaces[j]
    ensures FirstHit(sc, PushWorkspaceToplevels(sc, workspaces)) ==
      if sc.inOverview || Under(sc).None? || Under(sc).value !in workspaces then Nothing
      else LowAt(sc, false, DrawnUnder(sc))
  {
    if workspaces == [] {
    } else {
      var w, rest := workspaces[0], workspaces[1..];
      var bottom := PushLayer(sc.bottom, Bottom, false, OnWorkspace(w), false);
      var background := PushLayer(sc.background, Background, false, OnWorkspace(w), false);
      WorkspaceToplevelsHit(sc, rest);
      FirstHitOfConcat(sc, bottom + background + [WorkspaceBackground], PushWorkspaceToplevels(sc, rest));
      FirstHitOfConcat(sc, bottom + background, [WorkspaceBackground]);
      FirstHitOfConcat(sc, bottom, background);
      assert FirstHit(sc, [WorkspaceBackground]) == Nothing;
      if sc.inOverview || Under(sc) != Some(w) {
        if Under(sc) != Some(w) {
          OnlyUnderDraws(sc, w);
        }
        IneligibleLayerTakesNoInput(sc, sc.bottom, Bottom, false, OnWorkspace(w));
        IneligibleLayerTakesNoInput(sc, sc.background, Background, false, OnWorkspace(w));
      } else {
        LayerHitIsFirstAt(sc, sc.bottom, Bottom, false, OnWorkspace(w));
        LayerHitIsFirstAt(sc, sc.background, Background, false, OnWorkspace(w));
      }
    }
  }

  /** The surfaces of a layer that is drawn once, fixed to the screen. */
  lemma ScreenLayerHit(sc: Scene, layer: Layer, popups: bool)
    requires Consistent(sc) && (MovesWithWorkspaces(layer) ==> sc.aboveTop)
    ensures FirstHit(sc, PushLayer(SurfacesOn(sc, layer), layer, popups, OnScreen, false))
         == FirstAt(SurfacesOn(sc, layer), popups, SearchedPlace(sc, layer))
  {
    if MovesWithWorkspaces(layer) {
      AboveTopPlaces(sc);
    }
    LayerHitIsFirstAt(sc, SurfacesOn(sc, layer), layer, popups, OnScreen);
  }

  /** The strip outside the overview, with its low layers looked up at some place. */
  function StripAt(sc: Scene, place: Option<Place>): Hit {
    LowAt(sc, true, place).OrElse(WindowHit(sc.tiled)).OrElse(LowAt(sc, false, place))
  }

  /** Everything pushed above the workspace strip, and what input finds there. */
  function AboveStrip(sc: Scene): Hit {
    LayerPopupUnder(sc, Overlay).OrElse(LayerToplevelUnder(sc, Overlay))
    .OrElse(LayerPopupUnder(sc, Top)).OrElse(LayerToplevelUnder(sc, Top)).OrElse(WindowHit(sc.moved))
  }

  lemma BehindStripTakesNoInput(sc: Scene)
    requires sc.view.Valid()
    ensures FirstHit(sc, PushBehindStrip(sc)) == Nothing
  {
    var a := PushLayer(sc.background, Background, true, OnScreen, true);
    var b := PushLayer(sc.background, Background, false, OnScreen, true);
    FirstHitOfConcat(sc, [Panels, Shadows] + a + b, [Backdrop]);
    FirstHitOfConcat(sc, [Panels, Shadows] + a, b);
    FirstHitOfConcat(sc, [Panels, Shadows], a);
    BackdropTakesNoInput(sc, sc.background, Background, true, OnScreen);
    BackdropTakesNoInput(sc, sc.background, Background, false, OnScreen);
    assert FirstHit(sc, [Backdrop]) == Nothing;
    assert [Panels, Shadows][1..] == [Shadows];
    assert FirstHit(sc, [Shadows]) == Nothing;
  }

  lemma StripHit(sc: Scene)
    requires Consistent(sc)
    ensures FirstHit(sc, PushStrip(sc)) ==
      if sc.stripSuppressed then Nothing else if sc.inOverview then WindowHit(sc.tiled) else StripAt(sc, DrawnUnder(sc))
  {
    if !sc.stripSuppressed {
      var a, b := PushWorkspacePopups(sc, sc.workspaces), PushWorkspaceToplevels(sc, sc.workspaces);
      FirstHitOfConcat(sc, a + [Windows], b);
      FirstHitOfConcat(sc, a, [Windows]);
      assert FirstHit(sc, [Windows]) == WindowHit(sc.tiled);
      WorkspacePopupsHit(sc, sc.workspaces);
      WorkspaceToplevelsHit(sc, sc.workspaces);
      if Under(sc).Some? {
        FindWorkspaceMeans(sc.workspaces, sc.view, sc.point, Under(sc).value);
      }
    }
  }

  lemma ScreenLayerPairHit(sc: Scene, layer: Layer)
    requires Consistent(sc) && !MovesWithWorkspaces(layer)
    ensures FirstHit(sc, PushScreenLayer(sc, layer)) == LayerPopupUnder(sc, layer).OrElse(LayerToplevelUnder(sc, layer))
  {
    FirstHitOfConcat(sc, PushLayer(SurfacesOn(sc, layer), layer, true, OnScreen, false),
                     PushLayer(SurfacesOn(sc, layer), layer, false, OnScreen, false));
    ScreenLayerHit(sc, layer, true);
    ScreenLayerHit(sc, layer, false);
  }

  lemma LowLayersOnceHit(sc: Scene)
    requires Consistent(sc) && sc.aboveTop
    ensures FirstHit(sc, PushLowLayersOnce(sc)) ==
      LayerPopupUnder(sc, Bottom).OrElse(LayerPopupUnder(sc, Background))
      .OrElse(LayerToplevelUnder(sc, Bottom)).OrElse(LayerToplevelUnder(sc, Background))
  {
    var b1, b2 := PushLayer(sc.bottom, Bottom, true, OnScreen, false), PushLayer(sc.bottom, Bottom, false, OnScreen, false);
    var g1 := PushLayer(sc.background, Background, true, OnScreen, false);
    var g2 := PushLayer(sc.background, Background, false, OnScreen, false);
    FirstHitOfConcat(sc, b1 + g1 + b2, g2);
    FirstHitOfConcat(sc, b1 + g1, b2);
    FirstHitOfConcat(sc, b1, g1);
    ScreenLayerHit(sc, Bottom, true);
    ScreenLayerHit(sc, Bottom, false);
    ScreenLayerHit(sc, Background, true);
    ScreenLayerHit(sc, Background, false);
  }

  lemma WindowItemsHit(sc: Scene)
    requires sc.view.Valid()
    ensures FirstHit(sc, [MovedWindow, InsertHint]) == WindowHit(sc.moved)
    ensures FirstHit(sc, [MovedWindow, InsertHint, Windows]) == WindowHit(sc.moved).OrElse(WindowHit(sc.tiled))
    ensures FirstHit(sc, [WorkspaceBackground]) == Nothing
  {
    assert [MovedWindow, InsertHint][1..] == [InsertHint];
    assert FirstHit(sc, [InsertHint]) == Nothing;
    assert [MovedWindow, InsertHint, Windows][1..] == [InsertHint, Windows] && [InsertHint, Windows][1..] == [Windows];
    assert FirstHit(sc, [Windows]) == WindowHit(sc.tiled);
  }

  lemma RegularOrderHit(sc: Scene)
    requires Consistent(sc) && !sc.aboveTop
    ensures FirstHit(sc, DesktopOrder(sc)) == AboveStrip(sc).OrElse(FirstHit(sc, PushStrip(sc)))
  {
    var overlay, top, strip := PushScreenLayer(sc, Overlay), PushScreenLayer(sc, Top), PushStrip(sc);
    FirstHitOfConcat(sc, overlay + (top + [MovedWindow, InsertHint] + strip), PushBehindStrip(sc));
    FirstHitOfConcat(sc, overlay, top + [MovedWindow, InsertHint] + strip);
    FirstHitOfConcat(sc, top + [MovedWindow, InsertHint], strip);
    FirstHitOfConcat(sc, top, [MovedWindow, InsertHint]);
    BehindStripTakesNoInput(sc);
    ScreenLayerPairHit(sc, Overlay);
    ScreenLayerPairHit(sc, Top);
    WindowItemsHit(sc);
  }

  lemma BelowOverlayHit(sc: Scene)
    requires Consistent(sc) && sc.aboveTop
    ensures FirstHit(sc, [MovedWindow, InsertHint, Windows] + PushScreenLayer(sc, Top) + PushLowLayersOnce(sc)
                         + [WorkspaceBackground]) ==
      WindowHit(sc.moved).OrElse(WindowHit(sc.tiled))
      .OrElse(LayerPopupUnder(sc, Top)).OrElse(LayerToplevelUnder(sc, Top))
      .OrElse(LayerPopupUnder(sc, Bottom)).OrElse(LayerPopupUnder(sc, Background))
      .OrElse(LayerToplevelUnder(sc, Bottom)).OrElse(LayerToplevelUnder(sc, Background))
  {
    var windows, top, low := [MovedWindow, InsertHint, Windows], PushScreenLayer(sc, Top), PushLowLayersOnce(sc);
    FirstHitOfConcat(sc, windows + top + low, [WorkspaceBackground]);
    FirstHitOfConcat(sc, windows + top, low);
    FirstHitOfConcat(sc, windows, top);
    ScreenLayerPairHit(sc, Top);
    LowLayersOnceHit(sc);
    WindowItemsHit(sc);
  }

  lemma AboveTopOrderHit(sc: Scene)
    requires Consistent(sc) && sc.aboveTop
    ensures FirstHit(sc, DesktopOrder(sc)) ==
      LayerPopupUnder(sc, Overlay).OrElse(LayerToplevelUnder(sc, Overlay))
      .OrElse(WindowHit(sc.moved)).OrElse(WindowHit(sc.tiled))
      .OrElse(LayerPopupUnder(sc, Top)).OrElse(LayerToplevelUnder(sc, Top))
      .OrElse(LayerPopupUnder(sc, Bottom)).OrElse(LayerPopupUnder(sc, Background))
      .OrElse(LayerToplevelUnder(sc, Bottom)).OrElse(LayerToplevelUnder(sc, Background))
  {
    var overlay, top, low := PushScreenLayer(sc, Overlay), PushScreenLayer(sc, Top), PushLowLayersOnce(sc);
    var windows := [MovedWindow, InsertHint, Windows];
    FirstHitOfConcat(sc, overlay + (windows + top + low + [WorkspaceBackground]), PushBehindStrip(sc));
    FirstHitOfConcat(sc, overlay, windows + top + low + [WorkspaceBackground]);
    BehindStripTakesNoInput(sc);
    ScreenLayerPairHit(sc, Overlay);
    BelowOverlayHit(sc);
  }

  /** The strip is replaced by panels, and input still finds its windows. */
  predicate HiddenStripHit(sc: Scene) {
    sc.stripSuppressed && sc.tiled.Some?
  }

  /** The overview is open on other monitors only: this one draws its low layers as usual, and input
      passes them over. */
  predicate PassesOverLayers(sc: Scene) {
    !sc.stripSuppressed && sc.overviewOpen && !sc.inOverview
  }

  /** A low layer is found at some place, in front of any window there or with none there. */
  predicate LowShows(sc: Scene, place: Option<Place>) {
    Hits(LowAt(sc, true, place)) || (sc.tiled.None? && Hits(LowAt(sc, false, place)))
  }

  /** Outside the overview, with the point out of line, the low layers are searched at one place and
      drawn at another. */
  predicate SearchesElsewhere(sc: Scene) {
    !sc.overviewOpen && OutOfLine(sc)
  }

  predicate DesktopAgrees(sc: Scene)
    requires sc.view.Valid()
  {
    DesktopUnder(sc) == FirstHit(sc, DesktopOrder(sc))
  }

  lemma RegularContents(sc: Scene)
    requires !sc.aboveTop && !sc.hotCorner
    ensures DesktopUnder(sc) ==
            AboveStrip(sc).OrElse(if sc.overviewOpen then WindowHit(sc.tiled) else StripAt(sc, SearchedPlace(sc, Bottom)))
  {
  }

  /** The two sides where nothing covers the strip. */
  lemma StripSides(sc: Scene)
    requires Consistent(sc) && !sc.aboveTop && !sc.hotCorner
    ensures AboveStrip(sc) != Nothing ==> DesktopAgrees(sc)
    ensures AboveStrip(sc) == Nothing ==>
      && DesktopUnder(sc) == (if sc.overviewOpen then WindowHit(sc.tiled) else StripAt(sc, SearchedPlace(sc, Bottom)))
      && FirstHit(sc, DesktopOrder(sc)) ==
           if sc.stripSuppressed then Nothing else if sc.inOverview then WindowHit(sc.tiled) else StripAt(sc, DrawnUnder(sc))
  {
    RegularOrderHit(sc);
    StripHit(sc);
    RegularContents(sc);
  }

  /** Input departs from the rendering of the strip: it reaches a hidden window, it passes over a low
      layer that is drawn, or it looks for a low layer elsewhere than it is drawn, with one found at
      either place. */
  predicate Departs(sc: Scene)
    requires sc.view.Valid()
  {
    || HiddenStripHit(sc)
    || (PassesOverLayers(sc) && LowShows(sc, DrawnUnder(sc)))
    || (SearchesElsewhere(sc) && (LowShows(sc, SearchedPlace(sc, Bottom)) || LowShows(sc, DrawnUnder(sc))))
  }

  /** Input goes to the frontmost eligible thing drawn at the point, and to the place on it that is
      drawn there, except exactly where nothing covers the strip and input departs from it. */
  lemma DesktopFollowsRenderingIff(sc: Scene)
    requires Consistent(sc) && (sc.aboveTop || !sc.hotCorner)
    ensures DesktopAgrees(sc) <==> sc.aboveTop || AboveStrip(sc) != Nothing || !Departs(sc)
  {
    if sc.aboveTop {
      AboveTopOrderHit(sc);
      AboveTopContents(sc);
    } else if AboveStrip(sc) != Nothing {
      StripSides(sc);
    } else {
      StripSides(sc);
      PlacesAgreeIff(sc);
      StripAtFacts(sc, SearchedPlace(sc, Bottom));
      StripAtFacts(sc, DrawnUnder(sc));
    }
  }

  /** What the strip shows at a place: a low layer at that very place, or just the window. */
  lemma StripAtFacts(sc: Scene, place: Option<Place>)
    ensures LowShows(sc, place) ==> place.Some? && StripAt(sc, place).OnLayer? && StripAt(sc, place).place == place.value
    ensures !LowShows(sc, place) ==> StripAt(sc, place) == WindowHit(sc.tiled)
  {
    LowHitIsLayer(sc, true, place);
    LowHitIsLayer(sc, false, place);
  }

  lemma AboveTopContents(sc: Scene)
    requires sc.aboveTop
    ensures DesktopUnder(sc) ==
      LayerPopupUnder(sc, Overlay).OrElse(LayerToplevelUnder(sc, Overlay))
      .OrElse(WindowHit(sc.moved)).OrElse(WindowHit(sc.tiled))
      .OrElse(LayerPopupUnder(sc, Top)).OrElse(LayerToplevelUnder(sc, Top))
      .OrElse(LayerPopupUnder(sc, Bottom)).OrElse(LayerPopupUnder(sc, Background))
      .OrElse(LayerToplevelUnder(sc, Bottom)).OrElse(LayerToplevelUnder(sc, Background))
  {
  }

  lemma {:induction false} HitIsLayer(surfaces: seq<Surface>, popup: bool, place: Option<Place>)
    ensures var hit := FirstAt(surfaces, popup, place);
      hit.Nothing? || (hit.OnLayer? && place.Some? && hit.place == place.value)
  {
    if surfaces == [] {
    } else {
      HitIsLayer(surfaces[1..], popup, place);
    }
  }

  lemma LowHitIsLayer(sc: Scene, popup: bool, place: Option<Place>)
    ensures var hit := LowAt(sc, popup, place);
      hit.Nothing? || (hit.OnLayer? && place.Some? && hit.place == place.value)
  {
    HitIsLayer(sc.bottom, popup, place);
    HitIsLayer(sc.background, popup, place);
  }

  // ---------- Full-screen interfaces ----------

  /** No full-screen interface is open. */
  predicate Plain(sc: Scene) {
    !sc.exitDialog && !sc.locked && !sc.screenshot && !sc.switcher
  }

  /** What is left for clients. */
  function ForClients(h: Hit): Hit {
    if h.OnInterface? then Nothing else h
  }

  /** Input finds what is drawn in front, at the place that is drawn there. */
  predicate Agrees(sc: Scene)
    requires sc.view.Valid()
  {
    ContentsUnder(sc) == ForClients(FirstHit(sc, RenderOrder(sc)))
  }

  /** Nothing that takes input is drawn on the desktop at the point. */
  predicate Bare(sc: Scene)
    requires sc.view.Valid()
  {
    && AboveStrip(sc) == Nothing
    && ((sc.stripSuppressed && !sc.aboveTop)
        || (sc.tiled.None? && (sc.inOverview || !LowShows(sc, DrawnUnder(sc)))))
  }

  predicate IsClient(h: Hit) {
    h.Nothing? || h.OnLayer? || h.OnWindow?
  }

  lemma LayersAreClients(sc: Scene)
    ensures forall layer :: IsClient(LayerPopupUnder(sc, layer)) && IsClient(LayerToplevelUnder(sc, layer))
    ensures forall popup, place :: IsClient(LowAt(sc, popup, place))
  {
    forall layer ensures IsClient(LayerPopupUnder(sc, layer)) && IsClient(LayerToplevelUnder(sc, layer)) {
      HitIsLayer(SurfacesOn(sc, layer), true, SearchedPlace(sc, layer));
      HitIsLayer(SurfacesOn(sc, layer), false, SearchedPlace(sc, layer));
    }
    forall popup, place ensures IsClient(LowAt(sc, popup, place)) {
      LowHitIsLayer(sc, popup, place);
    }
  }

  /** The desktop shows clients only, and it is bare just when it shows none. */
  lemma DesktopShows(sc: Scene)
    requires Consistent(sc)
    ensures IsClient(FirstHit(sc, DesktopOrder(sc)))
    ensures FirstHit(sc, DesktopOrder(sc)) == Nothing <==> Bare(sc)
  {
    LayersAreClients(sc);
    if sc.aboveTop {
      AboveTopOrderHit(sc);
      AboveTopPlaces(sc);
      AboveTopDraws(sc);
    } else {
      RegularOrderHit(sc);
      StripHit(sc);
    }
  }

  /** ... where the active workspace draws the same. */
  lemma AboveTopDraws(sc: Scene)
    requires Consistent(sc) && sc.aboveTop
    ensures DrawnUnder(sc) == DrawnPlace(sc, OnScreen)
  {
    AboveTopPlaces(sc);
    PlacesAgreeIff(sc);
  }

  lemma FrontItem(sc: Scene, item: Item, items: seq<Item>)
    requires sc.view.Valid()
    ensures FirstHit(sc, [item] + items) == HitOf(sc, item).OrElse(FirstHit(sc, items))
  {
    assert ([item] + items)[0] == item && ([item] + items)[1..] == items;
  }

  lemma OnlyItem(sc: Scene, item: Item)
    requires sc.view.Valid()
    ensures FirstHit(sc, [item]) == HitOf(sc, item)
  {
    assert [item][1..] == [];
  }

  lemma LockedHit(sc: Scene)
    requires sc.view.Valid()
    ensures FirstHit(sc, [LockSurface] + [LockBackdrop]) ==
            if Covers(sc.lockSurface, sc.point) then OnLockSurface(sc.point) else OnInterface
  {
    OnlyItem(sc, LockBackdrop);
    FrontItem(sc, LockSurface, [LockBackdrop]);
  }

  lemma BelowDialogHit(sc: Scene, desktop: seq<Item>)
    requires sc.view.Valid()
    ensures FirstHit(sc, BelowDialog(sc, desktop)) ==
      if sc.locked then (if Covers(sc.lockSurface, sc.point) then OnLockSurface(sc.point) else OnInterface)
      else if sc.screenshot || (sc.switcher && sc.switcherShown && !sc.isolated) then OnInterface
      else FirstHit(sc, desktop)
  {
    if sc.locked {
      LockedHit(sc);
    } else if sc.screenshot {
      OnlyItem(sc, ScreenshotUi);
    } else if sc.switcher && sc.switcherShown && !sc.isolated {
      FrontItem(sc, Switcher, desktop);
    }
  }

  lemma DialogHit(sc: Scene, below: seq<Item>)
    requires sc.view.Valid()
    ensures FirstHit(sc, (if sc.exitDialog then [ExitDialog] else []) + below) ==
            if sc.exitDialog then OnInterface else FirstHit(sc, below)
  {
    if sc.exitDialog {
      FrontItem(sc, ExitDialog, below);
    } else {
      assert [] + below == below;
    }
  }

  /** What is drawn in front. */
  lemma RenderOrderHit(sc: Scene)
    requires sc.view.Valid()
    ensures FirstHit(sc, RenderOrder(sc)) ==
      if sc.exitDialog then OnInterface
      else if sc.locked then (if Covers(sc.lockSurface, sc.point) then OnLockSurface(sc.point) else OnInterface)
      else if sc.screenshot || (sc.switcher && sc.switcherShown && !sc.isolated) then OnInterface
      else FirstHit(sc, DesktopOrder(sc))
  {
    DialogHit(sc, BelowDialog(sc, DesktopOrder(sc)));
    BelowDialogHit(sc, DesktopOrder(sc));
  }

  /** Input goes to the frontmost eligible thing drawn at the point, and to the place on it that is
      drawn there, except exactly where an open switcher is not drawn, or a hot corner takes the point,
      with something there; or where nothing covers the strip and input departs from it. */
  lemma InputFollowsRenderingIff(sc: Scene)
    requires Consistent(sc)
    ensures Agrees(sc) <==>
      if sc.exitDialog || sc.locked || sc.screenshot then true
      else if sc.switcher then (sc.switcherShown && !sc.isolated) || Bare(sc)
      else if sc.hotCorner && !sc.aboveTop then Bare(sc)
      else sc.aboveTop || AboveStrip(sc) != Nothing || !Departs(sc)
  {
    RenderOrderHit(sc);
    DesktopShows(sc);
    if Plain(sc) && (sc.aboveTop || !sc.hotCorner) {
      DesktopFollowsRenderingIff(sc);
    }
  }

  /** With the exit dialog, a locked session, the screenshot interface or the switcher open, input finds
      no window and no layer surface, whatever the scene; and rendering shows none in front, unless it
      is the switcher and this output does not show it. */
  lemma InterfacesTakeInput(sc: Scene)
    requires sc.exitDialog || sc.locked || sc.screenshot || sc.switcher
    ensures !ContentsUnder(sc).OnWindow? && !ContentsUnder(sc).OnLayer? && WindowUnder(sc) == None
    ensures sc.view.Valid() && (sc.exitDialog || sc.locked || sc.screenshot || (sc.switcherShown && !sc.isolated)) ==>
      FirstHit(sc, RenderOrder(sc)).OnLockSurface? || FirstHit(sc, RenderOrder(sc)).OnInterface?
  {
    if sc.view.Valid() {
      RenderOrderHit(sc);
    }
  }

  /** A locked session gives clients the point just where the output's lock surface covers it. */
  lemma LockedShowsLockSurface(sc: Scene)
    requires sc.locked && !sc.exitDialog
    ensures ContentsUnder(sc) == OnLockSurface(sc.point) <==> Covers(sc.lockSurface, sc.point)
    ensures ContentsUnder(sc) == Nothing <==> !Covers(sc.lockSurface, sc.point)
  {
  }

  // ---------- Whatever the low layers ----------

  function WithLow(sc: Scene, bottom: seq<Surface>, background: seq<Surface>): Scene {
    sc.(bottom := bottom, background := background)
  }

  function Around(place: Option<Place>): Rect {
    if place.None? then Rect(0.0, 0.0, 0.0, 0.0) else Rect(place.value.main, place.value.cross, 1.0, 1.0)
  }

  /** A single pop-up in the bottom layer. */
  function Popup(r: Rect): seq<Surface> {
    [Surface(0, true, false, [r], [])]
  }

  lemma PopupAt(r: Rect, place: Option<Place>)
    ensures FirstAt(Popup(r), true, place) ==
      if place.Some? && r.Contains(place.value) then OnLayer(0, true, place.value) else Nothing
    ensures FirstAt(Popup(r), false, place) == Nothing
  {
    assert Popup(r)[1..] == [];
    assert Popup(r)[0].Region(true) == [r] && Popup(r)[0].Region(false) == [];
    if place.Some? {
      assert Covers([r], place.value) <==> r.Contains(place.value) by {
        assert [r][0] == r;
      }
    }
  }

  lemma LowSceneKeeps(sc: Scene, bottom: seq<Surface>, background: seq<Surface>)
    ensures var low := WithLow(sc, bottom, background);
      && AboveStrip(low) == AboveStrip(sc) && Under(low) == Under(sc) && Plain(low) == Plain(sc)
      && SearchedPlace(low, Bottom) == SearchedPlace(sc, Bottom)
      && (sc.view.Valid() ==> DrawnUnder(low) == DrawnUnder(sc))
  {
  }

  /** Input can depart from rendering for some low layers: a window of a hidden strip is hit, or what
      the workspace under the point draws is passed over, or it is searched elsewhere. These are
      conditions on flags, zoom and point alone. */
  predicate MayDepart(sc: Scene)
    requires sc.view.Valid()
  {
    || HiddenStripHit(sc)
    || (PassesOverLayers(sc) && DrawnUnder(sc).Some?)
    || SearchesElsewhere(sc)
  }

  /** A pop-up at the place in question makes input depart. */
  lemma DepartingStack(sc: Scene) returns (bottom: seq<Surface>)
    requires Consistent(sc) && Plain(sc) && !sc.aboveTop && !sc.hotCorner
    requires AboveStrip(sc) == Nothing && MayDepart(sc)
    ensures Consistent(WithLow(sc, bottom, [])) && !Agrees(WithLow(sc, bottom, []))
  {
    var place := if PassesOverLayers(sc) then DrawnUnder(sc) else SearchedPlace(sc, Bottom);
    bottom := Popup(Around(place));
    var low := WithLow(sc, bottom, []);
    LowSceneKeeps(sc, bottom, []);
    PopupSceneIsConsistent(sc, Around(place));
    PopupAt(Around(place), place);
    InputFollowsRenderingIff(low);
  }

  lemma PopupSceneIsConsistent(sc: Scene, r: Rect)
    requires Consistent(sc)
    ensures Consistent(WithLow(sc, Popup(r), []))
  {
    forall s | s in sc.overlay + sc.top + Popup(r) ensures !s.withinBackdrop {
      if s in sc.overlay + sc.top {
        assert s in sc.overlay + sc.top + sc.bottom;
      }
    }
  }

  ghost predicate AgreesForAllLowLayers(sc: Scene)
    requires sc.view.Valid()
  {
    forall bottom, background | Consistent(WithLow(sc, bottom, background)) :: Agrees(WithLow(sc, bottom, background))
  }

  /** Input follows rendering whatever the low layers are, if and only if something else covers the
      strip or no such condition holds. */
  lemma AgreesForAllLowLayersIff(sc: Scene)
    requires Consistent(sc) && Plain(sc) && (sc.aboveTop || !sc.hotCorner)
    ensures AgreesForAllLowLayers(sc) <==> sc.aboveTop || AboveStrip(sc) != Nothing || !MayDepart(sc)
  {
    if sc.aboveTop || AboveStrip(sc) != Nothing || !MayDepart(sc) {
      forall bottom, background | Consistent(WithLow(sc, bottom, background))
        ensures Agrees(WithLow(sc, bottom, background))
      {
        StaysInLine(sc, bottom, background);
      }
    } else {
      var bottom := DepartingStack(sc);
    }
  }

  /** In particular, with no overview open, as when one closes, it does at an uncovered point if and only
      if the zoom is 1, no workspace is under the point, or the point is the workspace's corner. */
  lemma ClosingAgreesForAllLowLayersIff(sc: Scene)
    requires Consistent(sc) && Plain(sc) && !sc.aboveTop && !sc.hotCorner && !sc.overviewOpen && AboveStrip(sc) == Nothing
    ensures AgreesForAllLowLayers(sc) <==>
            sc.view.zoom == 1.0 || Under(sc).None? || sc.point == sc.view.Corner(Under(sc).value)
  {
    AgreesForAllLowLayersIff(sc);
  }

  lemma {:induction false} NothingNowhere(surfaces: seq<Surface>, popup: bool)
    ensures FirstAt(surfaces, popup, None) == Nothing
  {
  }

  lemma StaysInLine(sc: Scene, bottom: seq<Surface>, background: seq<Surface>)
    requires sc.view.Valid() && Plain(sc) && (sc.aboveTop || !sc.hotCorner)
    requires sc.aboveTop || AboveStrip(sc) != Nothing || !MayDepart(sc)
    requires Consistent(WithLow(sc, bottom, background))
    ensures Agrees(WithLow(sc, bottom, background))
  {
    var low := WithLow(sc, bottom, background);
    LowSceneKeeps(sc, bottom, background);
    InputFollowsRenderingIff(low);
    NothingNowhere(bottom, true);
    NothingNowhere(bottom, false);
    NothingNowhere(background, true);
    NothingNowhere(background, false);
  }

  // ---------- Windows ----------

  lemma {:induction false} CoveredMeansHit(sc: Scene, surfaces: seq<Surface>, layer: Layer)
    requires !MovesWithWorkspaces(layer) && forall s | s in surfaces :: !s.withinBackdrop
    ensures (exists s | s in surfaces :: s.mapped && (Covers(s.popups, sc.point) || Covers(s.toplevel, sc.point))) <==>
      Hits(FirstAt(surfaces, true, SearchedPlace(sc, layer))) || Hits(FirstAt(surfaces, false, SearchedPlace(sc, layer)))
  {
    if surfaces == [] {
    } else {
      CoveredMeansHit(sc, surfaces[1..], layer);
      assert surfaces == [surfaces[0]] + surfaces[1..];
    }
  }

  /** `window_under` and `contents_under` name the same window, except exactly when a window shown
      above the top layer shares the point with a pop-up of the bottom or background layer, which
      `window_under` consults first unless the overview is open somewhere. */
  lemma WindowUnderAgreesIff(sc: Scene)
    requires Consistent(sc)
    ensures WindowUnder(sc) == WindowPart(ContentsUnder(sc)) <==>
      !(&& Plain(sc) && sc.aboveTop && !sc.overviewOpen && sc.moved.None? && sc.tiled.Some?
        && !Hits(LayerPopupUnder(sc, Overlay)) && !Hits(LayerToplevelUnder(sc, Overlay))
        && (Hits(LayerPopupUnder(sc, Bottom)) || Hits(LayerPopupUnder(sc, Background))))
  {
    forall s | s in sc.overlay ensures !s.withinBackdrop {
      assert s in sc.overlay + sc.top + sc.bottom;
    }
    forall s | s in sc.top ensures !s.withinBackdrop {
      assert s in sc.overlay + sc.top + sc.bottom;
    }
    CoveredMeansHit(sc, sc.overlay, Overlay);
    CoveredMeansHit(sc, sc.top, Top);
    LayerHitsAreLayers(sc);
  }

  lemma LayerHitsAreLayers(sc: Scene)
    ensures forall layer :: !LayerPopupUnder(sc, layer).OnWindow? && !LayerToplevelUnder(sc, layer).OnWindow?
  {
    forall layer ensures !LayerPopupUnder(sc, layer).OnWindow? && !LayerToplevelUnder(sc, layer).OnWindow? {
      HitIsLayer(SurfacesOn(sc, layer), true, SearchedPlace(sc, layer));
      HitIsLayer(SurfacesOn(sc, layer), false, SearchedPlace(sc, layer));
    }
  }

  // ---------- Instances ----------

  /** The point (1, 1) of an output of 100 by 100, and its workspace 0. */
  function At(zoom: real): Scene {
    Scene(Place(1.0, 1.0), View(100.0, 100.0, zoom, 10.0, 0.0), [], [], [], [], [0], 0, None, None,
          false, false, false, false, false, false, false, [], false, false, false, false)
  }

  /** The workspace covers the output. */
  lemma AtUnitZoom(sc: Scene)
    requires sc.point == Place(1.0, 1.0) && sc.view == View(100.0, 100.0, 1.0, 10.0, 0.0) && sc.workspaces == [0]
    ensures Under(sc) == Some(0) && SearchedPlace(sc, Bottom) == Some(sc.point) && DrawnUnder(sc) == Some(sc.point)
  {
    UnitZoomCorner(sc.view, 0);
    FindWorkspaceMeans(sc.workspaces, sc.view, sc.point, 0);
    SameProduct(sc.view.height, sc.view.zoom, 1.0);
  }

  /** A scene whose only layer surface is a pop-up in the bottom layer. */
  predicate OnlyPopup(sc: Scene, r: Rect) {
    sc.overlay == [] && sc.top == [] && sc.bottom == Popup(r) && sc.background == [] && sc.moved.None?
  }

  lemma OnlyPopupHit(sc: Scene, r: Rect, place: Option<Place>)
    requires OnlyPopup(sc, r)
    ensures AboveStrip(sc) == Nothing
    ensures StripAt(sc, place) ==
      if place.Some? && r.Contains(place.value) then OnLayer(0, true, place.value) else WindowHit(sc.tiled)
  {
    PopupAt(r, place);
  }

  lemma OnlyPopupConsistent(sc: Scene, r: Rect)
    requires OnlyPopup(sc, r) && sc.workspaces == [0] && sc.active == 0
    requires sc.view.Valid() && sc.view.position == 0.0 && Rect(0.0, 0.0, sc.view.width, sc.view.height).Contains(sc.point)
    requires sc.inOverview || sc.stripSuppressed ==> sc.overviewOpen
    requires sc.aboveTop ==> !sc.inOverview && sc.view.zoom == 1.0
    ensures Consistent(sc)
  {
    forall s | s in sc.overlay + sc.top + sc.bottom ensures !s.withinBackdrop {
      assert s in Popup(r);
    }
  }

  const POPUP_RECT := Rect(0.0, 0.0, 2.0, 2.0)

  /** A full-screen window 3 over a pop-up in the bottom layer. */
  function Covered(overviewOpen: bool): Scene {
    At(1.0).(bottom := Popup(POPUP_RECT), tiled := Some(3), aboveTop := true, overviewOpen := overviewOpen)
  }

  lemma CoveredSides(overviewOpen: bool)
    ensures var sc := Covered(overviewOpen);
      && Consistent(sc) && Hits(LayerPopupUnder(sc, Bottom)) && ContentsUnder(sc) == OnWindow(3)
      && WindowUnder(sc) == if overviewOpen then Some(3) else None
  {
    CoveredFacts(Covered(overviewOpen));
  }

  lemma CoveredFacts(sc: Scene)
    requires OnlyPopup(sc, POPUP_RECT) && sc.tiled == Some(3) && sc.aboveTop && Plain(sc)
    requires sc.point == Place(1.0, 1.0) && sc.view == View(100.0, 100.0, 1.0, 10.0, 0.0)
    requires sc.workspaces == [0] && sc.active == 0 && !sc.inOverview && !sc.stripSuppressed
    ensures Consistent(sc) && Hits(LayerPopupUnder(sc, Bottom)) && ContentsUnder(sc) == OnWindow(3)
    ensures WindowUnder(sc) == if sc.overviewOpen then Some(3) else None
  {
    AtUnitZoom(sc);
    PopupAt(POPUP_RECT, SearchedPlace(sc, Bottom));
    OnlyPopupConsistent(sc, POPUP_RECT);
  }

  /** Such a point exists: a full-screen window 3 over a pop-up in the bottom layer. With the overview
      open on another monitor the two functions agree on it. */
  lemma FullscreenDisagreement()
    ensures exists sc: Scene :: Consistent(sc) && ContentsUnder(sc) == OnWindow(3) && WindowUnder(sc) == None
    ensures exists sc: Scene :: Consistent(sc) && sc.aboveTop && sc.overviewOpen && Hits(LayerPopupUnder(sc, Bottom)) &&
              ContentsUnder(sc) == OnWindow(3) && WindowUnder(sc) == Some(3)
  {
    CoveredSides(false);
    CoveredSides(true);
  }

  ghost predicate Sides(sc: Scene, contents: Hit, drawn: Hit) {
    Consistent(sc) && Plain(sc) && ContentsUnder(sc) == contents && FirstHit(sc, RenderOrder(sc)) == drawn
  }

  /** Without full-screen interfaces only the desktop matters. */
  lemma PlainSides(sc: Scene, contents: Hit, drawn: Hit)
    requires Consistent(sc) && Plain(sc) && DesktopUnder(sc) == contents && FirstHit(sc, DesktopOrder(sc)) == drawn
    ensures Sides(sc, contents, drawn)
  {
    RenderOrderHit(sc);
  }

  /** So does a point where input reaches a window of a strip that is not drawn... */
  lemma HiddenStripTakesInput()
    ensures exists sc: Scene :: sc.stripSuppressed && Sides(sc, OnWindow(3), Nothing)
  {
    var sc := At(1.0).(tiled := Some(3), overviewOpen := true, inOverview := true, stripSuppressed := true);
    StripSides(sc);
    PlainSides(sc, OnWindow(3), Nothing);
  }

  /** ... one on a monitor outside an open overview, where a pop-up is drawn and input finds nothing... */
  lemma OverviewElsewhereIgnoresLayers()
    ensures exists sc: Scene :: sc.overviewOpen && !sc.inOverview && sc.view.zoom == 1.0
                                && Sides(sc, Nothing, OnLayer(0, true, Place(1.0, 1.0)))
  {
    var sc := At(1.0).(bottom := Popup(POPUP_RECT), overviewOpen := true);
    AtUnitZoom(sc);
    OnlyPopupConsistent(sc, POPUP_RECT);
    OnlyPopupHit(sc, POPUP_RECT, DrawnUnder(sc));
    StripSides(sc);
    PlainSides(sc, Nothing, OnLayer(0, true, Place(1.0, 1.0)));
  }

  /** The workspace covers (25, 25) to (75, 75), and the point is at (5, 5) of it. */
  lemma AtHalfZoom(sc: Scene)
    requires sc.point == Place(30.0, 30.0) && sc.view == View(100.0, 100.0, 0.5, 10.0, 0.0) && sc.workspaces == [0]
    ensures SearchedPlace(sc, Bottom) == Some(Place(5.0, 5.0)) && DrawnUnder(sc) == Some(Place(10.0, 10.0))
  {
    assert sc.view.Corner(0) == Place(25.0, 25.0) by {
      ZeroProduct(0.0, 60.0);
    }
    assert Under(sc) == Some(0);
  }

  /** ... and one in a closing overview, at half size, where a surface is drawn and input, searching
      unscaled, misses it. */
  lemma ClosingOverviewMissesLayers()
    ensures exists sc: Scene :: !sc.overviewOpen && sc.view.zoom == 0.5 && Sides(sc, Nothing, OnLayer(0, true, Place(10.0, 10.0)))
  {
    var r := Rect(9.0, 9.0, 2.0, 2.0);
    var sc := At(0.5).(point := Place(30.0, 30.0), bottom := Popup(r));
    AtHalfZoom(sc);
    OnlyPopupConsistent(sc, r);
    OnlyPopupHit(sc, r, DrawnUnder(sc));
    OnlyPopupHit(sc, r, SearchedPlace(sc, Bottom));
    StripSides(sc);
    PlainSides(sc, Nothing, OnLayer(0, true, Place(10.0, 10.0)));
  }
}
