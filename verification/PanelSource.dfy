/** The panel cache as the object that `src/niri.rs` updates in place, proved against PanelModel. */
module PanelSources {
  import opened Wrappers
  import opened PanelCoherence
  import opened PanelModel
  import opened PanelOwnership

  datatype Outcome = Rendered(texture: TextureId, damaged: bool) | Failed

  class PanelSource {
    const output: OutputId
    var flip: bool
    var elem: Option<Published>
    var generation: nat
    var frame: nat
    var hasExtent: bool
    var buffers: map<bool, Cached>
    var panels: map<Slot, Panel>
    var pixels: seq<Option<Version>>
    var log: seq<Published>

    function View(): State
      reads this
    {
      State(output, flip, elem, generation, frame, hasExtent, buffers, panels, pixels, log)
    }

    constructor (output: OutputId)
      ensures View() == Fresh(output) && Inv(View())
    {
      this.output := output;
      flip, elem, generation, frame, hasExtent := false, None, 0, 0, false;
      buffers, panels, pixels, log := map[], map[], [], [];
    }

    /** Back to the fresh state, except for the generation counter. */
    method Clear()
      modifies this`flip, this`elem, this`generation, this`frame, this`hasExtent
      ensures View() == PanelModel.Clear(old(View()))
      ensures old(Inv(View())) ==> Inv(View())
    {
      var kept := generation;
      flip, elem, generation, frame, hasExtent := false, None, 0, 0, false;
      generation := kept;
    }

    method DiscardUnlessReusable(buffer: bool, invalidated: bool)
      modifies this`buffers
      ensures View() == if Reusable(old(View()), buffer, invalidated) then old(View())
                        else old(View()).(buffers := old(buffers) - {buffer})
    {
      if buffer in buffers && (invalidated || HeldOutside(View(), buffers[buffer].texture)) {
        buffers := buffers - {buffer};
      } else if buffer !in buffers {
        assert buffers == buffers - {buffer};
      }
    }

    /** Keep the texture if it can be drawn into in place, otherwise create one. */
    method EnsureTexture(buffer: bool, invalidated: bool) returns (cached: Cached)
      modifies this`buffers, this`pixels
      ensures cached == if Reusable(old(View()), buffer, invalidated) then old(buffers)[buffer]
                        else Cached(NewTexture(old(View())), None)
      ensures View() == old(View()).(
        buffers := old(buffers)[buffer := cached],
        pixels := if Reusable(old(View()), buffer, invalidated) then old(pixels) else old(pixels) + [None])
    {
      DiscardUnlessReusable(buffer, invalidated);
      if buffer !in buffers {
        buffers := buffers[buffer := Cached(|pixels|, None)];
        pixels := pixels + [None];
      }
      cached := buffers[buffer];
    }

    /** `OffscreenBuffer::render`: draw what the damage tracker finds changed. */
    method RenderOffscreen(buffer: bool, r: Render) returns (outcome: Outcome)
      requires buffer in buffers ==> buffers[buffer].texture < |pixels|
      modifies this`buffers, this`pixels
      ensures match r
        case Succeeds(version, invalidated, rescaled) =>
          && View() == Paint(old(View()), buffer, invalidated, Some(version), Some(version))
          && outcome == Rendered(Target(old(View()), buffer, invalidated),
                                 Damaged(old(View()), buffer, version, invalidated, rescaled))
        case FailsToCreate(invalidated) =>
          && outcome == Failed
          && View() == if Reusable(old(View()), buffer, invalidated) then old(View())
                       else old(View()).(buffers := old(buffers) - {buffer})
        case FailsToDraw(invalidated, seen, drawn) =>
          outcome == Failed && View() == Paint(old(View()), buffer, invalidated, seen, drawn)
    {
      match r {
        case FailsToCreate(invalidated) =>
          DiscardUnlessReusable(buffer, invalidated);
          outcome := Failed;
        case FailsToDraw(invalidated, seen, drawn) =>
          var before := PaintTexture(buffer, invalidated, seen, drawn);
          outcome := Failed;
        case Succeeds(version, invalidated, rescaled) =>
          var before := PaintTexture(buffer, invalidated, Some(version), Some(version));
          outcome := Rendered(before.texture, rescaled || before.seen != Some(version));
      }
    }

    /** Draws into the buffer and returns what it held, or the fresh texture it got. */
    method PaintTexture(buffer: bool, invalidated: bool, seen: Option<Version>, drawn: Option<Version>) returns (before: Cached)
      requires buffer in buffers ==> buffers[buffer].texture < |pixels|
      modifies this`buffers, this`pixels
      ensures View() == Paint(old(View()), buffer, invalidated, seen, drawn)
      ensures before == if Reusable(old(View()), buffer, invalidated) then old(buffers)[buffer]
                        else Cached(NewTexture(old(View())), None)
    {
      PaintedInTwoSteps(View(), buffer, invalidated, seen, drawn);
      before := EnsureTexture(buffer, invalidated);
      Draw(buffer, before.texture, seen, drawn);
      assert buffers == old(buffers)[buffer := Cached(before.texture, seen)];
    }

    method Draw(buffer: bool, texture: TextureId, seen: Option<Version>, drawn: Option<Version>)
      requires texture < |pixels|
      modifies this`buffers, this`pixels
      ensures View() == old(View()).(buffers := old(buffers)[buffer := Cached(texture, seen)],
                                     pixels := old(pixels)[texture := drawn])
    {
      buffers := buffers[buffer := Cached(texture, seen)];
      pixels := pixels[texture := drawn];
    }

    /** Ensuring the texture and then drawing into it is what the model calls painting. */
    lemma PaintedInTwoSteps(s: State, buffer: bool, invalidated: bool, seen: Option<Version>, drawn: Option<Version>)
      requires buffer in s.buffers ==> s.buffers[buffer].texture < |s.pixels|
      ensures var t := Target(s, buffer, invalidated);
        var ensured := if Reusable(s, buffer, invalidated) then s.pixels else s.pixels + [None];
        && t < |ensured|
        && Paint(s, buffer, invalidated, seen, drawn)
           == s.(buffers := s.buffers[buffer := Cached(t, seen)], pixels := ensured[t := drawn])
    {
      if !Reusable(s, buffer, invalidated) {
        assert (s.pixels + [None])[|s.pixels| := drawn] == s.pixels + [drawn];
      }
    }

    method Reset()
      modifies this`flip, this`elem, this`generation, this`frame, this`hasExtent, this`buffers
      ensures View() == PanelModel.Reset(old(View()))
    {
      Clear();
      hasExtent := true;
      buffers := map[];
    }

    method Publish(e: Published)
      modifies this`elem, this`flip, this`generation, this`log
      ensures View() == PanelModel.Publish(old(View()), e)
    {
      elem := Some(e);
      flip := !flip;
      generation := generation + 1;
      log := log + [e];
    }

    /** One target of `update_panel_sources`. If the content never went back so far, a due refresh that
        succeeds leaves the published texture showing exactly the version rendered. */
    method Update(stamp: nat, resized: bool, r: Render) returns (published: bool)
      requires Inv(View())
      modifies this
      ensures View() == Refresh(old(View()), stamp, resized, r)
      ensures published <==> generation != old(generation)
      ensures Inv(View())
      ensures r.Succeeds? ==> forall low: Version | old(Coherent(View(), low)) && low <= r.version ::
        Coherent(View(), r.version) && (old(frame) != stamp ==> elem.Some? && Shown(View()) == Some(r.version))
    {
      RefreshKeepsInv(View(), stamp, resized, r);
      if r.Succeeds? {
        forall low: Version | Coherent(View(), low) && low <= r.version
          ensures Coherent(Refresh(View(), stamp, resized, r), r.version)
          ensures frame != stamp ==> var t := Refresh(View(), stamp, resized, r); t.elem.Some? && Shown(t) == Some(r.version)
        {
          RefreshKeepsCoherent(View(), low, stamp, resized, r);
        }
      }
      published := RefreshInPlace(stamp, resized, r);
    }

    method RefreshInPlace(stamp: nat, resized: bool, r: Render) returns (published: bool)
      requires forall b | b in buffers :: buffers[b].texture < |pixels|
      modifies this
      ensures View() == Refresh(old(View()), stamp, resized, r)
      ensures published <==> generation != old(generation)
    {
      published := false;
      if frame == stamp {
        return;
      }
      if !hasExtent || resized {
        Reset();
      }
      var scratch := flip;
      var outcome := RenderOffscreen(scratch, r);
      frame := stamp;
      match outcome {
        case Rendered(texture, damaged) =>
          if damaged {
            Publish(Published(scratch, texture));
            published := true;
          }
        case Failed =>
          elem := None;
      }
    }

    /** This output no longer takes part in the carousel: its content goes, and so do the panels that it
        retained as a host. */
    method Drop()
      requires Inv(View())
      modifies this
      ensures View() == DropSource(old(View()))
      ensures Inv(View()) && elem == None && buffers == map[] && forall h | h in panels :: h.host != output
    {
      StepKeepsInv(View(), EvDropSource);
      if elem.Some? {
        Clear();
      }
      buffers := map[];
      KeepPanels(output, {});
    }

    /** A host output draws this panel; on a drawable quad it then draws the published texture. */
    method DrawOn(h: Slot, quad: Quad)
      requires Inv(View())
      modifies this`panels
      ensures View() == UpdateHost(old(View()), h, quad)
      ensures Inv(View())
      ensures elem.Some? && !quad.degenerate ==> h in panels && panels[h].texture == Own(elem.value.texture)
    {
      UpdateHostKeepsInv(View(), h, quad);
      if elem.Some? {
        UpdateShowsPublished(View(), h, quad);
        DrawSlot(h, quad, Us(elem.value.buffer), generation, Own(elem.value.texture));
      }
    }

    /** The host draws another source at one of its ring positions. */
    method DrawOther(h: Slot, quad: Quad, element: nat, otherGeneration: nat, texture: nat)
      requires Inv(View())
      modifies this`panels
      ensures View() == Step(old(View()), EvOtherSource(h, quad, element, otherGeneration, texture))
      ensures Inv(View())
    {
      OtherSourceKeepsInv(View(), h, quad, element, otherGeneration, texture);
      DrawSlot(h, quad, Them(element), otherGeneration, Foreign(texture));
    }

    /** `PanelRenderElement::new` and `PanelRenderElement::update`. */
    method DrawSlot(h: Slot, quad: Quad, origin: Origin, generation: nat, texture: Texture)
      modifies this`panels
      ensures View() == DrawPanel(old(View()), h, quad, origin, generation, texture)
    {
      if h !in panels {
        if !quad.degenerate {
          panels := panels[h := Panel(quad, origin, generation, texture)];
        }
        return;
      }
      var panel := panels[h];
      if panel.quad == quad && panel.origin == origin && panel.generation == generation {
        return;
      }
      panel := panel.(quad := quad, origin := origin, generation := generation);
      if !quad.degenerate {
        panel := panel.(texture := texture);
      }
      panels := panels[h := panel];
    }

    /** The ring of a host shrinks, or the host is swept. */
    method Retain(host: OutputId, visible: set<nat>)
      requires Inv(View())
      modifies this`panels
      ensures View() == RetainPanels(old(View()), host, visible)
      ensures Inv(View())
    {
      StepKeepsInv(View(), EvRetainPanels(host, visible));
      KeepPanels(host, visible);
    }

    method KeepPanels(host: OutputId, visible: set<nat>)
      modifies this`panels
      ensures View() == RetainPanels(old(View()), host, visible)
    {
      panels := map h | h in panels && (h.host == host ==> h.index in visible) :: panels[h];
    }
  }
}
