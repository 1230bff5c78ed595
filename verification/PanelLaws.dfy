/** What every event does to a panel source, field by field: when a texture is reused, what is published
    and what a host then draws. The laws speak of fields only. */
module PanelLaws {
  import opened Wrappers
  import opened PanelModel

  /** A due refresh on a view box that was not seen before starts from nothing. */
  predicate StartsOver(s: State, resized: bool) {
    !s.hasExtent || resized
  }

  /** The buffer that a due refresh draws into. */
  function Scratch(s: State, resized: bool): bool {
    if StartsOver(s, resized) then false else s.flip
  }

  /** The texture in that buffer is kept: there is one, it is valid, and nobody else holds it. */
  ghost predicate KeepsTexture(s: State, resized: bool, invalidated: bool) {
    && !StartsOver(s, resized) && !invalidated && s.flip in s.buffers
    && (s.elem.Some? ==> s.elem.value.texture != s.buffers[s.flip].texture)
    && forall h | h in s.panels :: s.panels[h].texture != Own(s.buffers[s.flip].texture)
  }

  /** The texture that is drawn into, the next one if none is kept. */
  ghost function Drawn(s: State, resized: bool, invalidated: bool): TextureId {
    if KeepsTexture(s, resized, invalidated) then s.buffers[s.flip].texture else |s.pixels|
  }

  /** There is something new to show: a new texture, a new tracker, or content other than the tracker
      last saw. */
  ghost predicate HasDamage(s: State, resized: bool, r: Render)
    requires r.Succeeds?
  {
    !KeepsTexture(s, resized, r.invalidated) || r.rescaled || s.buffers[s.flip].seen != Some(r.version)
  }

  /** The scratch buffer holds `cached` afterwards, and the other buffer what it held. */
  ghost predicate BuffersAre(s: State, resized: bool, cached: Option<Cached>, t: State) {
    && (Scratch(s, resized) in t.buffers <==> cached.Some?)
    && (cached.Some? ==> t.buffers[Scratch(s, resized)] == cached.value)
    && (!Scratch(s, resized) in t.buffers <==> !StartsOver(s, resized) && !Scratch(s, resized) in s.buffers)
    && (!Scratch(s, resized) in t.buffers ==> t.buffers[!Scratch(s, resized)] == s.buffers[!Scratch(s, resized)])
  }

  /** A texture shows `drawn` afterwards, and all others what they showed. */
  ghost predicate PixelsAre(s: State, texture: TextureId, drawn: Option<Version>, t: State) {
    && |t.pixels| == (if texture < |s.pixels| then |s.pixels| else |s.pixels| + 1)
    && texture < |t.pixels| && t.pixels[texture] == drawn
    && forall k | 0 <= k < |s.pixels| && k != texture :: t.pixels[k] == s.pixels[k]
  }

  ghost predicate SamePanels(s: State, t: State) {
    t.output == s.output && t.panels == s.panels
  }

  /** A due refresh that succeeds draws the content, and publishes it if and only if there is damage. */
  lemma RefreshPublishesIff(s: State, stamp: nat, resized: bool, r: Render)
    requires s.frame != stamp && r.Succeeds?
    ensures var t, texture, published := Refresh(s, stamp, resized, r), Drawn(s, resized, r.invalidated), HasDamage(s, resized, r);
      && t.frame == stamp && t.hasExtent && SamePanels(s, t)
      && t.generation == s.generation + (if published then 1 else 0)
      && t.elem == (if published then Some(Published(Scratch(s, resized), texture)) else s.elem)
      && t.flip == (if published then !Scratch(s, resized) else Scratch(s, resized))
      && t.log == s.log + (if published then [Published(Scratch(s, resized), texture)] else [])
  {
    ReusesIff(s, resized, r.invalidated);
  }

  lemma ReusesIff(s: State, resized: bool, invalidated: bool)
    ensures var s1 := if StartsOver(s, resized) then Reset(s) else s;
      && (Reusable(s1, s1.flip, invalidated) <==> KeepsTexture(s, resized, invalidated))
      && Target(s1, s1.flip, invalidated) == Drawn(s, resized, invalidated)
      && s1.flip == Scratch(s, resized) && s1.pixels == s.pixels
  {
  }

  lemma RefreshDraws(s: State, stamp: nat, resized: bool, r: Render)
    requires s.frame != stamp && r.Succeeds? && TexturesExist(s)
    ensures var t, texture := Refresh(s, stamp, resized, r), Drawn(s, resized, r.invalidated);
      BuffersAre(s, resized, Some(Cached(texture, Some(r.version))), t) && PixelsAre(s, texture, Some(r.version), t)
  {
    ReusesIff(s, resized, r.invalidated);
  }

  ghost predicate TexturesExist(s: State) {
    forall b | b in s.buffers :: s.buffers[b].texture < |s.pixels|
  }

  /** A texture that is too small or belongs to another renderer is never drawn into again: the refresh
      publishes a new one. */
  lemma InvalidatedIsReplaced(s: State, stamp: nat, resized: bool, r: Render)
    requires s.frame != stamp && r.Succeeds? && r.invalidated
    ensures var t := Refresh(s, stamp, resized, r);
      t.generation == s.generation + 1 && t.elem.Some? && t.elem.value.texture >= |s.pixels|
  {
    RefreshPublishesIff(s, stamp, resized, r);
  }

  /** A due refresh that fails leaves no element, publishes nothing, and keeps in the buffer what was kept
      or drawn before the failure. */
  lemma RefreshFails(s: State, stamp: nat, resized: bool, r: Render)
    requires s.frame != stamp && !r.Succeeds? && TexturesExist(s)
    ensures var t := Refresh(s, stamp, resized, r);
      && t.frame == stamp && t.hasExtent && SamePanels(s, t)
      && t.elem == None && t.generation == s.generation && t.log == s.log && t.flip == Scratch(s, resized)
      && match r
         case FailsToCreate(invalidated) =>
           && t.pixels == s.pixels
           && BuffersAre(s, resized, if KeepsTexture(s, resized, invalidated) then Some(s.buffers[s.flip]) else None, t)
         case FailsToDraw(invalidated, seen, drawn) =>
           && PixelsAre(s, Drawn(s, resized, invalidated), drawn, t)
           && BuffersAre(s, resized, Some(Cached(Drawn(s, resized, invalidated), seen)), t)
         case Succeeds(_, _, _) => true
  {
    match r
    case FailsToCreate(invalidated) => ReusesIff(s, resized, invalidated);
    case FailsToDraw(invalidated, _, _) => ReusesIff(s, resized, invalidated);
  }

  /** A refresh runs at most once in a redraw cycle. */
  lemma OncePerCycle(s: State, resized: bool, r: Render, again: bool, other: Render)
    ensures Refresh(s, s.frame, resized, r) == s
    ensures forall stamp :: Refresh(Refresh(s, stamp, resized, r), stamp, again, other) == Refresh(s, stamp, resized, r)
  {
    forall stamp ensures Refresh(Refresh(s, stamp, resized, r), stamp, again, other) == Refresh(s, stamp, resized, r) {
    }
  }

  /** A sweep forgets what the source publishes and what its output retains as a host, but neither the
      generation nor what other hosts retain. */
  lemma SweepForgets(s: State)
    ensures var t := DropSource(s);
      && t.elem == None && t.buffers == map[] && t.output == s.output
      && t.generation == s.generation && t.log == s.log && t.pixels == s.pixels
      && (s.elem.Some? ==> !t.flip && t.frame == 0 && !t.hasExtent)
      && (s.elem.None? ==> t.flip == s.flip && t.frame == s.frame && t.hasExtent == s.hasExtent)
    ensures RetainsOnly(s, s.output, {}, DropSource(s))
  {
  }

  ghost predicate RetainsOnly(s: State, host: OutputId, visible: set<nat>, t: State) {
    forall h :: (h in t.panels <==> h in s.panels && (h.host == host ==> h.index in visible))
             && (h in t.panels ==> t.panels[h] == s.panels[h])
  }

  /** A host that shows fewer positions drops the panels at the others, and nothing else. */
  lemma RetainingDrops(s: State, host: OutputId, visible: set<nat>)
    ensures RetainsOnly(s, host, visible, RetainPanels(s, host, visible))
    ensures RetainPanels(s, host, visible) == s.(panels := RetainPanels(s, host, visible).panels)
  {
  }

  /** Drawing a panel in a slot: it is there afterwards unless it was not and its quad is degenerate; it
      has taken over the parameters, and the texture too unless the quad is degenerate or the parameters
      are those it had. Other slots are left alone. */
  lemma DrawingMeans(s: State, h: Slot, quad: Quad, origin: Origin, generation: nat, texture: Texture)
    ensures var t := DrawPanel(s, h, quad, origin, generation, texture);
      var had := h in s.panels;
      && t == s.(panels := t.panels)
      && (h in t.panels <==> had || !quad.degenerate)
      && (h in t.panels ==>
            && t.panels[h].quad == quad && t.panels[h].origin == origin && t.panels[h].generation == generation
            && t.panels[h].texture ==
                 if had && (quad.degenerate
                            || (s.panels[h].quad == quad && s.panels[h].origin == origin && s.panels[h].generation == generation))
                 then s.panels[h].texture else texture)
      && forall k | k != h :: (k in t.panels <==> k in s.panels) && (k in t.panels ==> t.panels[k] == s.panels[k])
  {
  }

  /** A host that draws this source does so under the identity of its element and its generation, and
      with its texture unless the quad is degenerate or the identity is what it had. */
  lemma HostDraws(s: State, h: Slot, quad: Quad)
    ensures s.elem.None? ==> UpdateHost(s, h, quad) == s
    ensures s.elem.Some? && (h in s.panels || !quad.degenerate) ==>
      var t := UpdateHost(s, h, quad);
      && h in t.panels && t.panels[h].quad == quad
      && t.panels[h].origin == Us(s.elem.value.buffer) && t.panels[h].generation == s.generation
      && t.panels[h].texture ==
           if h in s.panels && (quad.degenerate || s.panels[h] == t.panels[h].(texture := s.panels[h].texture))
           then s.panels[h].texture else Own(s.elem.value.texture)
  {
    if s.elem.Some? {
      DrawingMeans(s, h, quad, Us(s.elem.value.buffer), s.generation, Own(s.elem.value.texture));
    }
  }
}
