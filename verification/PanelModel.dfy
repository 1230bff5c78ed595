/** The damage-gated ping-pong panel cache of one content output (`PanelSource` and its two
    `OffscreenBuffer`s), together with the panel elements that host outputs retain. */
module PanelModel {
  import opened Wrappers

  type OutputId = nat
  type TextureId = nat
  type Version = nat

  /** A cached texture and what its damage tracker compares against (`None`: a fresh tracker). */
  datatype Cached = Cached(texture: TextureId, seen: Option<Version>)

  /** The published element: a texture clone, and the buffer whose `Id` it carries. */
  datatype Published = Published(buffer: bool, texture: TextureId)

  /** A place in the ring that a host output draws; successive sources share it. */
  datatype Slot = Slot(host: OutputId, index: nat)

  /** A texture that a panel draws, of this source or of another one. */
  datatype Texture = Own(id: TextureId) | Foreign(other: nat)

  /** The element identity that panel parameters carry. */
  datatype Origin = Us(buffer: bool) | Them(element: nat)

  /** Everything but the texture identity that enters `Parameters`; a degenerate quad has no
      sampling matrix. */
  datatype Quad = Quad(shape: nat, degenerate: bool)

  /** A `PanelRenderElement`: the parameters last compared, and the texture clone it draws. */
  datatype Panel = Panel(quad: Quad, origin: Origin, generation: nat, texture: Texture)

  /** `pixels` is what each texture ever created shows (`None`: undefined), `log[g - 1]` the element
      published under generation `g`. */
  datatype State = State(
    output: OutputId,
    flip: bool,
    elem: Option<Published>,
    generation: nat,
    frame: nat,
    hasExtent: bool,
    buffers: map<bool, Cached>,
    panels: map<Slot, Panel>,
    pixels: seq<Option<Version>>,
    log: seq<Published>)

  /** The source of an output that has just been added. */
  function Fresh(output: OutputId): State {
    State(output, false, None, 0, 0, false, map[], map[], [], [])
  }

  /** How the backend and the content treat one render: `invalidated` when the texture is too small
      or belongs to another renderer, `rescaled` when only the tracker is replaced. */
  datatype Render =
    | Succeeds(version: Version, invalidated: bool, rescaled: bool)
    | FailsToCreate(invalidated: bool)
    | FailsToDraw(invalidated: bool, seen: Option<Version>, drawn: Option<Version>)

  predicate HeldOutside(s: State, t: TextureId) {
    (s.elem.Some? && s.elem.value.texture == t) || exists h | h in s.panels :: s.panels[h].texture == Own(t)
  }

  /** `OffscreenBuffer::render` drops its texture unless it is large enough, current and unique. */
  predicate Reusable(s: State, buffer: bool, invalidated: bool) {
    buffer in s.buffers && !invalidated && !HeldOutside(s, s.buffers[buffer].texture)
  }

  function NewTexture(s: State): TextureId {
    |s.pixels|
  }

  /** `PanelSource::clear`. */
  function Clear(s: State): State {
    s.(flip := false, elem := None, frame := 0, hasExtent := false)
  }

  /** The reset on a changed view box. */
  function Reset(s: State): State {
    Clear(s).(hasExtent := true, buffers := map[])
  }

  function Damaged(s: State, buffer: bool, version: Version, invalidated: bool, rescaled: bool): bool {
    !Reusable(s, buffer, invalidated) || rescaled || s.buffers[buffer].seen != Some(version)
  }

  function Target(s: State, buffer: bool, invalidated: bool): TextureId {
    if Reusable(s, buffer, invalidated) then s.buffers[buffer].texture else NewTexture(s)
  }

  /** Drawing `drawn` into the buffer, leaving its tracker at `seen`. */
  function Paint(s: State, buffer: bool, invalidated: bool, seen: Option<Version>, drawn: Option<Version>): State {
    var t := Target(s, buffer, invalidated);
    s.(buffers := s.buffers[buffer := Cached(t, seen)],
       pixels := if t < |s.pixels| then s.pixels[t := drawn] else s.pixels + [drawn])
  }

  function Publish(s: State, e: Published): State {
    s.(elem := Some(e), flip := !s.flip, generation := s.generation + 1, log := s.log + [e])
  }

  /** One target of `update_panel_sources`: `stamp` is the current redraw cycle and `resized` tells
      whether the view box differs from the one last seen. */
  function Refresh(s: State, stamp: nat, resized: bool, r: Render): State {
    if s.frame == stamp then s
    else RefreshDue(if !s.hasExtent || resized then Reset(s) else s, stamp, r)
  }

  function RefreshDue(s: State, stamp: nat, r: Render): State {
    match r
    case Succeeds(version, invalidated, rescaled) =>
      var painted := Paint(s, s.flip, invalidated, Some(version), Some(version)).(frame := stamp);
      if Damaged(s, s.flip, version, invalidated, rescaled)
      then Publish(painted, Published(s.flip, Target(s, s.flip, invalidated)))
      else painted
    case FailsToCreate(invalidated) =>
      var s1 := s.(frame := stamp, elem := None);
      if Reusable(s, s.flip, invalidated) then s1 else s1.(buffers := s.buffers - {s.flip})
    case FailsToDraw(invalidated, seen, drawn) =>
      Paint(s, s.flip, invalidated, seen, drawn).(frame := stamp, elem := None)
  }

  /** `clear_stale_panel_sources` for this output outside the ring: what it publishes and what it
      retains as a host is forgotten. */
  function DropSource(s: State): State {
    RetainPanels((if s.elem.Some? then Clear(s) else s).(buffers := map[]), s.output, {})
  }

  /** A host keeps only the panels at the ring positions it still shows; none if it is swept. */
  function RetainPanels(s: State, host: OutputId, visible: set<nat>): State {
    s.(panels := map h | h in s.panels && (h.host == host ==> h.index in visible) :: s.panels[h])
  }

  /** A host draws a panel: build its element, or update the retained one, which on a degenerate quad
      takes over the parameters and keeps the texture. */
  function DrawPanel(s: State, h: Slot, quad: Quad, origin: Origin, generation: nat, texture: Texture): State {
    var rebuilt := s.(panels := s.panels[h := Panel(quad, origin, generation, texture)]);
    if h !in s.panels then (if quad.degenerate then s else rebuilt)
    else if s.panels[h].quad == quad && s.panels[h].origin == origin && s.panels[h].generation == generation then s
    else if quad.degenerate
    then s.(panels := s.panels[h := Panel(quad, origin, generation, s.panels[h].texture)])
    else rebuilt
  }

  /** A host draws the panel of this source, if it has one. */
  function UpdateHost(s: State, h: Slot, quad: Quad): State {
    if s.elem.None? then s
    else DrawPanel(s, h, quad, Us(s.elem.value.buffer), s.generation, Own(s.elem.value.texture))
  }

  datatype Event =
    | EvRefresh(stamp: nat, resized: bool, render: Render)
    | EvDropSource
    | EvUpdateHost(slot: Slot, quad: Quad)
    | EvOtherSource(slot: Slot, quad: Quad, element: nat, generation: nat, texture: nat)
    | EvRetainPanels(host: OutputId, visible: set<nat>)

  function Step(s: State, e: Event): State {
    match e
    case EvRefresh(stamp, resized, r) => Refresh(s, stamp, resized, r)
    case EvDropSource => DropSource(s)
    case EvUpdateHost(h, quad) => UpdateHost(s, h, quad)
    case EvOtherSource(h, quad, element, generation, texture) =>
      DrawPanel(s, h, quad, Them(element), generation, Foreign(texture))
    case EvRetainPanels(host, visible) => RetainPanels(s, host, visible)
  }

  function Run(s: State, events: seq<Event>): State
    decreases |events|
  {
    if events == [] then s else Run(Step(s, events[0]), events[1..])
  }
}
