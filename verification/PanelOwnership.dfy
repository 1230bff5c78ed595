/** Who may hold which texture: what publish-on-damage keeps, renderer errors included. */
module PanelOwnership {
  import opened Wrappers
  import opened PanelModel

  ghost predicate TexturesKnown(s: State) {
    && (forall b | b in s.buffers :: s.buffers[b].texture < |s.pixels|)
    && (forall h | h in s.panels && s.panels[h].texture.Own? :: s.panels[h].texture.id < |s.pixels|)
  }

  ghost predicate BuffersDistinct(s: State) {
    false in s.buffers && true in s.buffers ==> s.buffers[false].texture != s.buffers[true].texture
  }

  /** The published element is backed by the buffer that `flip` does not name, and is the last one
      logged. */
  ghost predicate ScratchIsNotPublished(s: State) {
    s.elem.Some? ==>
      && s.elem.value.buffer != s.flip
      && s.elem.value.buffer in s.buffers
      && s.buffers[s.elem.value.buffer].texture == s.elem.value.texture
      && s.log != [] && s.log[|s.log| - 1] == s.elem.value
  }

  /** A retained panel compares equal to a publication only if it draws that publication. */
  ghost predicate HostsMatchLog(s: State) {
    && |s.log| == s.generation
    && forall h | h in s.panels && s.panels[h].origin.Us? ::
         && 1 <= s.panels[h].generation <= s.generation
         && (!s.panels[h].quad.degenerate ==>
               && s.panels[h].texture.Own?
               && Published(s.panels[h].origin.buffer, s.panels[h].texture.id) == s.log[s.panels[h].generation - 1])
  }

  ghost predicate Inv(s: State) {
    TexturesKnown(s) && BuffersDistinct(s) && ScratchIsNotPublished(s) && HostsMatchLog(s)
  }

  lemma PaintKeepsInv(s: State, invalidated: bool, seen: Option<Version>, drawn: Option<Version>)
    requires Inv(s)
    ensures Inv(Paint(s, s.flip, invalidated, seen, drawn))
    ensures !HeldOutside(s, Target(s, s.flip, invalidated))
  {
  }

  lemma PublishKeepsInv(s: State, stamp: nat, e: Published)
    requires Inv(s) && e.buffer == s.flip && s.flip in s.buffers && s.buffers[s.flip].texture == e.texture
    ensures Inv(Publish(s.(frame := stamp), e))
  {
  }

  lemma SuccessKeepsInv(s: State, stamp: nat, r: Render)
    requires Inv(s) && r.Succeeds?
    ensures Inv(RefreshDue(s, stamp, r))
  {
    var version := Some(r.version);
    PaintKeepsInv(s, r.invalidated, version, version);
    PublishKeepsInv(Paint(s, s.flip, r.invalidated, version, version), stamp, Published(s.flip, Target(s, s.flip, r.invalidated)));
  }

  lemma RefreshDueKeepsInv(s: State, stamp: nat, r: Render)
    requires Inv(s)
    ensures Inv(RefreshDue(s, stamp, r))
  {
    match r
    case Succeeds(_, _, _) => SuccessKeepsInv(s, stamp, r);
    case FailsToCreate(_) =>
    case FailsToDraw(invalidated, seen, drawn) => PaintKeepsInv(s, invalidated, seen, drawn);
  }

  /** A panel that a host may retain. */
  ghost predicate Fits(s: State, p: Panel) {
    && (p.texture.Own? ==> p.texture.id < |s.pixels|)
    && (p.origin.Us? ==>
          && 1 <= p.generation <= s.generation == |s.log|
          && (!p.quad.degenerate ==>
                p.texture.Own? && Published(p.origin.buffer, p.texture.id) == s.log[p.generation - 1]))
  }

  lemma PutPanelKeepsInv(s: State, h: Slot, p: Panel)
    requires Inv(s) && Fits(s, p)
    ensures Inv(s.(panels := s.panels[h := p]))
  {
  }

  lemma DrawPanelKeepsInv(s: State, h: Slot, quad: Quad, origin: Origin, generation: nat, texture: Texture)
    requires Inv(s) && Fits(s, Panel(quad, origin, generation, texture))
    ensures Inv(DrawPanel(s, h, quad, origin, generation, texture))
  {
    PutPanelKeepsInv(s, h, Panel(quad, origin, generation, texture));
    if h in s.panels && quad.degenerate {
      PutPanelKeepsInv(s, h, Panel(quad, origin, generation, s.panels[h].texture));
    }
  }

  lemma UpdateHostKeepsInv(s: State, h: Slot, quad: Quad)
    requires Inv(s)
    ensures Inv(UpdateHost(s, h, quad))
  {
    if s.elem.Some? {
      DrawPanelKeepsInv(s, h, quad, Us(s.elem.value.buffer), s.generation, Own(s.elem.value.texture));
    }
  }

  lemma OtherSourceKeepsInv(s: State, h: Slot, quad: Quad, element: nat, generation: nat, texture: nat)
    requires Inv(s)
    ensures Inv(DrawPanel(s, h, quad, Them(element), generation, Foreign(texture)))
  {
    DrawPanelKeepsInv(s, h, quad, Them(element), generation, Foreign(texture));
  }

  lemma RefreshKeepsInv(s: State, stamp: nat, resized: bool, r: Render)
    requires Inv(s)
    ensures Inv(Refresh(s, stamp, resized, r))
  {
    if !s.hasExtent || resized {
      RefreshDueKeepsInv(Reset(s), stamp, r);
    } else {
      RefreshDueKeepsInv(s, stamp, r);
    }
  }

  lemma StepKeepsInv(s: State, e: Event)
    requires Inv(s)
    ensures Inv(Step(s, e))
  {
    match e
    case EvRefresh(stamp, resized, r) => RefreshKeepsInv(s, stamp, resized, r);
    case EvUpdateHost(h, quad) => UpdateHostKeepsInv(s, h, quad);
    case EvOtherSource(h, quad, element, generation, texture) => OtherSourceKeepsInv(s, h, quad, element, generation, texture);
    case _ =>
  }

  lemma {:induction false} RunKeepsInv(s: State, events: seq<Event>)
    requires Inv(s)
    ensures Inv(Run(s, events))
    decreases |events|
  {
    if events == [] {
    } else {
      StepKeepsInv(s, events[0]);
      RunKeepsInv(Step(s, events[0]), events[1..]);
    }
  }

  /** In every reachable state the buffer the next render targets is not the one being shown, and
      neither is its texture. */
  lemma ScratchNeverShown(output: OutputId, events: seq<Event>)
    ensures var s := Run(Fresh(output), events);
      s.elem.Some? ==>
        && s.elem.value.buffer != s.flip
        && (s.flip in s.buffers ==> s.buffers[s.flip].texture != s.elem.value.texture)
  {
    RunKeepsInv(Fresh(output), events);
  }

  lemma PaintLeaves(s: State, invalidated: bool, seen: Option<Version>, drawn: Option<Version>, t: TextureId)
    requires t < |s.pixels| && Target(s, s.flip, invalidated) != t
    ensures var u := Paint(s, s.flip, invalidated, seen, drawn); |s.pixels| <= |u.pixels| && u.pixels[t] == s.pixels[t]
  {
  }

  lemma DueLeaves(s: State, stamp: nat, r: Render, t: TextureId)
    requires t < |s.pixels| && Target(s, s.flip, r.invalidated) != t
    ensures var u := RefreshDue(s, stamp, r); |s.pixels| <= |u.pixels| && u.pixels[t] == s.pixels[t]
  {
    match r
    case Succeeds(version, invalidated, _) => PaintLeaves(s, invalidated, Some(version), Some(version), t);
    case FailsToCreate(_) =>
    case FailsToDraw(invalidated, seen, drawn) => PaintLeaves(s, invalidated, seen, drawn, t);
  }

  /** No render ever draws into a texture that the source publishes or a host retains. */
  lemma HeldTexturesUntouched(s: State, e: Event, t: TextureId)
    requires Inv(s) && HeldOutside(s, t)
    ensures t < |s.pixels| <= |Step(s, e).pixels| && Step(s, e).pixels[t] == s.pixels[t]
  {
    match e
    case EvRefresh(stamp, resized, r) =>
      if s.frame != stamp {
        var s1 := if !s.hasExtent || resized then Reset(s) else s;
        TargetIsNotHeld(s, s1, r.invalidated, t);
        DueLeaves(s1, stamp, r, t);
      }
    case _ =>
  }

  lemma TargetIsNotHeld(s: State, s1: State, invalidated: bool, t: TextureId)
    requires Inv(s) && (s1 == s || s1 == Reset(s)) && HeldOutside(s, t)
    ensures t < |s.pixels| && Target(s1, s1.flip, invalidated) != t
  {
  }

  lemma DueLogGrows(s: State, stamp: nat, r: Render)
    ensures RefreshDue(s, stamp, r).log == s.log || exists p :: RefreshDue(s, stamp, r).log == s.log + [p]
  {
  }

  lemma LogGrows(s: State, e: Event)
    ensures Step(s, e).log == s.log || exists p :: Step(s, e).log == s.log + [p]
  {
    match e
    case EvRefresh(stamp, resized, r) => DueLogGrows(if !s.hasExtent || resized then Reset(s) else s, stamp, r);
    case _ =>
  }

  lemma {:induction false} LogOnlyGrows(s: State, events: seq<Event>)
    ensures s.log <= Run(s, events).log
    decreases |events|
  {
    if events == [] {
    } else {
      LogGrows(s, events[0]);
      LogOnlyGrows(Step(s, events[0]), events[1..]);
    }
  }

  /** Generations are never reused: whatever happens, clears included, later states extend the log
      of publications, and the generation is its length. */
  lemma GenerationsAreNeverReused(s: State, events: seq<Event>)
    requires Inv(s)
    ensures s.log <= Run(s, events).log && |Run(s, events).log| == Run(s, events).generation
  {
    LogOnlyGrows(s, events);
    RunKeepsInv(s, events);
  }

  /** The host side comparison is sound, whatever other sources were drawn in the same slot: a
      drawable panel whose retained identity equals the source's current one already draws the
      published texture. */
  lemma EqualIdentityMeansSameTexture(output: OutputId, events: seq<Event>, h: Slot)
    requires var s := Run(Fresh(output), events);
      && h in s.panels && s.elem.Some? && !s.panels[h].quad.degenerate
      && s.panels[h].origin.Us? && s.panels[h].generation == s.generation
    ensures var s := Run(Fresh(output), events);
      s.panels[h].texture == Own(s.elem.value.texture) && s.panels[h].origin.buffer == s.elem.value.buffer
  {
    RunKeepsInv(Fresh(output), events);
  }

  /** Updating a host leaves it drawing the published texture if and only if its quad is drawable or
      it already drew that texture. */
  lemma UpdateShowsPublished(s: State, h: Slot, quad: Quad)
    requires Inv(s) && s.elem.Some?
    ensures var t := UpdateHost(s, h, quad);
      (h in t.panels && t.panels[h].texture == Own(s.elem.value.texture)) <==>
      (!quad.degenerate || (h in s.panels && s.panels[h].texture == Own(s.elem.value.texture)))
  {
  }

  /** So on a degenerate quad a panel that names this source may go on showing another one. */
  lemma DegenerateQuadShowsOther(s: State, h: Slot, element: nat, generation: nat, texture: nat, good: Quad, bad: Quad)
    requires Inv(s) && s.elem.Some? && h !in s.panels && !good.degenerate && bad.degenerate
    ensures var t := UpdateHost(Step(s, EvOtherSource(h, good, element, generation, texture)), h, bad);
      h in t.panels && t.panels[h].origin == Us(s.elem.value.buffer) && t.panels[h].texture == Foreign(texture)
  {
  }
}
