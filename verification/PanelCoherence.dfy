/** What the panels show: the current content, as long as content versions never recur. */
module PanelCoherence {
  import opened Wrappers
  import opened PanelModel
  import opened PanelOwnership

  /** The version shown by the published element, if any. */
  function Shown(s: State): Option<Version>
    requires s.elem.Some? ==> s.elem.value.texture < |s.pixels|
  {
    if s.elem.Some? then s.pixels[s.elem.value.texture] else None
  }

  /** The scratch buffer is no newer than the published texture, which is no newer than `current`;
      nothing is retained without being published. */
  ghost predicate Coherent(s: State, current: Version) {
    && Inv(s)
    && (s.elem.None? ==> s.buffers == map[])
    && (s.elem.Some? ==>
          && Shown(s).Some? && Shown(s).value <= current
          && s.buffers[s.elem.value.buffer].seen == Shown(s)
          && (s.flip in s.buffers ==>
                && s.buffers[s.flip].seen.Some?
                && s.buffers[s.flip].seen.value <= Shown(s).value))
  }

  /** All renders succeed, and content versions, at least `low`, never go back. */
  predicate Monotone(events: seq<Event>, low: Version)
    decreases |events|
  {
    events == [] ||
    match events[0]
    case EvRefresh(_, _, Succeeds(version, _, _)) => low <= version && Monotone(events[1..], version)
    case EvRefresh(_, _, _) => false
    case _ => Monotone(events[1..], low)
  }

  lemma RefreshKeepsCoherent(s: State, low: Version, stamp: nat, resized: bool, r: Render)
    requires Coherent(s, low) && r.Succeeds? && low <= r.version
    ensures var t := Refresh(s, stamp, resized, r);
      Coherent(t, r.version) && (s.frame != stamp ==> t.elem.Some? && Shown(t) == Some(r.version))
  {
    StepKeepsInv(s, EvRefresh(stamp, resized, r));
    if s.frame != stamp {
      if !s.hasExtent || resized {
        DueKeepsCoherent(Reset(s), low, stamp, r);
      } else {
        DueKeepsCoherent(s, low, stamp, r);
      }
    }
  }

  lemma DueKeepsCoherent(s: State, low: Version, stamp: nat, r: Render)
    requires Coherent(s, low) && r.Succeeds? && low <= r.version && Inv(RefreshDue(s, stamp, r))
    ensures var t := RefreshDue(s, stamp, r);
      Coherent(t, r.version) && t.elem.Some? && Shown(t) == Some(r.version)
  {
    if s.elem.Some? {
      assert !HeldOutside(s, Target(s, s.flip, r.invalidated));
    }
  }

  lemma OtherStepKeepsCoherent(s: State, low: Version, e: Event)
    requires Coherent(s, low) && !e.EvRefresh?
    ensures Coherent(Step(s, e), low)
  {
    StepKeepsInv(s, e);
  }

  /** The version of the last refresh, or `low`. */
  function LastVersion(events: seq<Event>, low: Version): Version {
    if events == [] then low
    else LastVersion(events[1..], if events[0].EvRefresh? && events[0].render.Succeeds? then events[0].render.version else low)
  }

  lemma {:induction false} RunKeepsCoherent(s: State, low: Version, events: seq<Event>, e: Event)
    requires Coherent(s, low) && Monotone(events + [e], low) && e.EvRefresh? && e.render.Succeeds?
    ensures Coherent(Run(s, events), LastVersion(events, low)) && LastVersion(events, low) <= e.render.version
    decreases |events|
  {
    if events == [] {
      assert events + [e] == [e];
    } else {
      var first, rest := events[0], events[1..];
      assert (events + [e])[0] == first && (events + [e])[1..] == rest + [e];
      if first.EvRefresh? {
        RefreshKeepsCoherent(s, low, first.stamp, first.resized, first.render);
        RunKeepsCoherent(Step(s, first), first.render.version, rest, e);
      } else {
        OtherStepKeepsCoherent(s, low, first);
        RunKeepsCoherent(Step(s, first), low, rest, e);
      }
    }
  }

  /** After every due refresh the published texture shows exactly the content of that refresh, even
      when the render reported no damage and published nothing. */
  lemma PublishedIsCurrent(output: OutputId, events: seq<Event>, e: Event)
    requires e.EvRefresh? && e.render.Succeeds? && Monotone(events + [e], 0)
    requires Run(Fresh(output), events).frame != e.stamp
    ensures var t := Step(Run(Fresh(output), events), e);
      t.elem.Some? && t.elem.value.texture < |t.pixels| && t.pixels[t.elem.value.texture] == Some(e.render.version)
  {
    RunKeepsCoherent(Fresh(output), 0, events, e);
    var s := Run(Fresh(output), events);
    RefreshKeepsCoherent(s, LastVersion(events, 0), e.stamp, e.resized, e.render);
  }

  /** So does every host that then draws the panel with a drawable quad. */
  lemma HostDrawsCurrent(output: OutputId, events: seq<Event>, e: Event, h: Slot, quad: Quad)
    requires e.EvRefresh? && e.render.Succeeds? && Monotone(events + [e], 0)
    requires Run(Fresh(output), events).frame != e.stamp && !quad.degenerate
    ensures var u := UpdateHost(Step(Run(Fresh(output), events), e), h, quad);
      && h in u.panels && u.panels[h].texture.Own?
      && u.panels[h].texture.id < |u.pixels| && u.pixels[u.panels[h].texture.id] == Some(e.render.version)
  {
    PublishedIsCurrent(output, events, e);
    RunKeepsInv(Fresh(output), events);
    var t := Step(Run(Fresh(output), events), e);
    StepKeepsInv(Run(Fresh(output), events), e);
    UpdateShowsPublished(t, h, quad);
    assert UpdateHost(t, h, quad).pixels == t.pixels;
  }

  /** Without the hypothesis a due refresh shows the current content exactly when it publishes or the
      published texture happens to show it already. */
  lemma RefreshIsCurrentIff(s: State, stamp: nat, resized: bool, r: Render)
    requires Inv(s) && s.frame != stamp && r.Succeeds?
    requires s.elem.Some? ==> s.elem.value.texture < |s.pixels|
    ensures var s1 := if !s.hasExtent || resized then Reset(s) else s;
      var t := Refresh(s, stamp, resized, r);
      && (t.elem.Some? ==> t.elem.value.texture < |t.pixels|)
      && (Shown(t) == Some(r.version) <==>
          Damaged(s1, s1.flip, r.version, r.invalidated, r.rescaled) || Shown(s1) == Some(r.version))
  {
    StepKeepsInv(s, EvRefresh(stamp, resized, r));
    if !s.hasExtent || resized {
      DueIsCurrentIff(Reset(s), stamp, r);
    } else {
      DueIsCurrentIff(s, stamp, r);
    }
  }

  lemma DueIsCurrentIff(s: State, stamp: nat, r: Render)
    requires Inv(s) && r.Succeeds? && Inv(RefreshDue(s, stamp, r))
    requires s.elem.Some? ==> s.elem.value.texture < |s.pixels|
    ensures var t := RefreshDue(s, stamp, r);
      && (t.elem.Some? ==> t.elem.value.texture < |t.pixels|)
      && (Shown(t) == Some(r.version) <==>
          Damaged(s, s.flip, r.version, r.invalidated, r.rescaled) || Shown(s) == Some(r.version))
  {
    if s.elem.Some? {
      assert s.elem.value.texture != Target(s, s.flip, r.invalidated);
    }
  }

  function Plain(stamp: nat, version: Version): Event {
    EvRefresh(stamp, false, Succeeds(version, false, false))
  }

  const AFTER_FIRST := State(0, true, Some(Published(false, 0)), 1, 1, true, map[false := Cached(0, Some(1))], map[],
                            [Some(1)], [Published(false, 0)])

  const AFTER_SECOND := AFTER_FIRST.(flip := false, elem := Some(Published(true, 1)), generation := 2, frame := 2,
                                   buffers := map[false := Cached(0, Some(1)), true := Cached(1, Some(1))],
                                   pixels := [Some(1), Some(1)], log := [Published(false, 0), Published(true, 1)])

  /** Two redraws of unchanged content fill both buffers. */
  lemma BothBuffersFilled()
    ensures Step(Step(Fresh(0), Plain(1, 1)), Plain(2, 1)) == AFTER_SECOND
  {
    assert Step(Fresh(0), Plain(1, 1)) == AFTER_FIRST;
  }

  const AFTER_EXCURSION := AFTER_SECOND.(flip := true, elem := Some(Published(false, 0)), generation := 3, frame := 3,
                                       buffers := map[false := Cached(0, Some(2)), true := Cached(1, Some(1))],
                                       pixels := [Some(2), Some(1)], log := AFTER_SECOND.log + [Published(false, 0)])

  lemma ExcursionPublishes()
    ensures Step(AFTER_SECOND, Plain(3, 2)) == AFTER_EXCURSION
  {
    assert AFTER_SECOND.pixels[0 := Some(2)] == AFTER_EXCURSION.pixels;
  }

  /** The hypothesis is needed: content that leaves version 1 for a single frame and returns to it
      leaves version 2 on screen. */
  lemma ExcursionShowsStaleContent()
    ensures var t := Step(Step(Step(Step(Fresh(0), Plain(1, 1)), Plain(2, 1)), Plain(3, 2)), Plain(4, 1));
      t.elem.Some? && t.elem.value.texture < |t.pixels| && t.pixels[t.elem.value.texture] == Some(2)
  {
    BothBuffersFilled();
    ExcursionPublishes();
  }

  const AFTER_FAILURE := AFTER_SECOND.(elem := None, frame := 3)

  lemma FailureDropsElement()
    ensures Step(AFTER_SECOND, EvRefresh(3, false, FailsToDraw(false, Some(1), Some(1)))) == AFTER_FAILURE
  {
    assert AFTER_SECOND.pixels[0 := Some(1)] == AFTER_SECOND.pixels;
  }

  /** So is the absence of renderer errors: one failed render of unchanged content leaves the panel
      without an element for as long as the content stays unchanged. */
  lemma FailureLeavesPanelEmpty()
    ensures var t := Step(Step(Step(Step(Fresh(0), Plain(1, 1)), Plain(2, 1)),
                               EvRefresh(3, false, FailsToDraw(false, Some(1), Some(1)))), Plain(4, 1));
      t.elem == None && t.flip in t.buffers && t.buffers[t.flip].seen == Some(1)
  {
    BothBuffersFilled();
    FailureDropsElement();
  }

  // ---------- Settling ----------

  /** The scratch buffer would be redrawn in place with what it already shows. */
  ghost predicate Settled(s: State, v: Version) {
    && s.hasExtent
    && Reusable(s, s.flip, false)
    && s.buffers[s.flip].seen == Some(v)
  }

  /** Only the element and the drawing host hold the published texture, which shows `v`. */
  ghost predicate HalfSettled(s: State, v: Version, h: Slot) {
    && s.hasExtent
    && s.elem.Some?
    && s.elem.value.buffer in s.buffers
    && s.buffers[s.elem.value.buffer].seen == Some(v)
    && forall k | k in s.panels && k != h :: s.panels[k].texture != Own(s.elem.value.texture)
  }

  ghost function PublishesLeft(s: State, v: Version, h: Slot): nat {
    if Settled(s, v) then 0 else if HalfSettled(s, v, h) then 1 else 2
  }

  /** One redraw of the drawing host: its prepass refreshes the source, then its panel is updated. */
  function Round(s: State, stamp: nat, v: Version, h: Slot, quad: Quad): State {
    UpdateHost(Refresh(s, stamp, false, Succeeds(v, false, false)), h, quad)
  }

  lemma RoundKeepsInv(s: State, stamp: nat, v: Version, h: Slot, quad: Quad)
    requires Inv(s)
    ensures Inv(Round(s, stamp, v, h, quad))
    ensures Round(s, stamp, v, h, quad).generation == Refresh(s, stamp, false, Succeeds(v, false, false)).generation
  {
    RefreshKeepsInv(s, stamp, false, Succeeds(v, false, false));
    UpdateHostKeepsInv(Refresh(s, stamp, false, Succeeds(v, false, false)), h, quad);
  }

  lemma RoundPublishesLess(s: State, stamp: nat, v: Version, h: Slot, quad: Quad)
    requires Inv(s) && !quad.degenerate
    ensures var t := Round(s, stamp, v, h, quad);
      Inv(t) && t.generation - s.generation <= PublishesLeft(s, v, h) - PublishesLeft(t, v, h)
  {
    RoundKeepsInv(s, stamp, v, h, quad);
    if Round(s, stamp, v, h, quad).generation == s.generation {
      StaticRound(s, stamp, v, h, quad);
    } else {
      PublishingRound(s, stamp, v, h, quad);
    }
  }

  lemma StaticRound(s: State, stamp: nat, v: Version, h: Slot, quad: Quad)
    requires Inv(s) && !quad.degenerate
    requires Refresh(s, stamp, false, Succeeds(v, false, false)).generation == s.generation
    ensures PublishesLeft(Round(s, stamp, v, h, quad), v, h) <= PublishesLeft(s, v, h)
  {
    var u := Refresh(s, stamp, false, Succeeds(v, false, false));
    var t := Round(s, stamp, v, h, quad);
    if s.frame == stamp {
      assert u == s;
      if Settled(s, v) {
        assert Settled(t, v);
      } else if HalfSettled(s, v, h) {
        assert HalfSettled(t, v, h);
      }
    } else {
      assert Reusable(s, s.flip, false) && s.buffers[s.flip].seen == Some(v);
      assert u.buffers == s.buffers && u.elem == s.elem && u.panels == s.panels;
      assert Settled(t, v);
    }
  }

  /** A refresh that publishes puts its target on show, and leaves the panels and the other buffer alone. */
  lemma PublishingRefresh(s: State, stamp: nat, v: Version)
    requires Inv(s)
    requires Refresh(s, stamp, false, Succeeds(v, false, false)).generation != s.generation
    ensures var u := Refresh(s, stamp, false, Succeeds(v, false, false));
      var s1 := if s.hasExtent then s else Reset(s);
      var target := Target(s1, s1.flip, false);
      && u.generation == s.generation + 1 && u.hasExtent && u.flip == !s1.flip && u.panels == s.panels
      && !HeldOutside(s1, target)
      && u.elem == Some(Published(s1.flip, target))
      && u.buffers == s1.buffers[s1.flip := Cached(target, Some(v))]
      && !(s.hasExtent && Settled(s, v))
  {
    var s1 := if s.hasExtent then s else Reset(s);
    assert Inv(s1);
    assert !HeldOutside(s1, Target(s1, s1.flip, false));
  }

  lemma PublishingRound(s: State, stamp: nat, v: Version, h: Slot, quad: Quad)
    requires Inv(s) && !quad.degenerate
    requires Refresh(s, stamp, false, Succeeds(v, false, false)).generation != s.generation
    ensures var t := Round(s, stamp, v, h, quad);
      && t.generation == s.generation + 1
      && PublishesLeft(s, v, h) >= 1
      && PublishesLeft(t, v, h) <= PublishesLeft(s, v, h) - 1
  {
    PublishingRefresh(s, stamp, v);
    RefreshKeepsInv(s, stamp, false, Succeeds(v, false, false));
    var u := Refresh(s, stamp, false, Succeeds(v, false, false));
    var t := UpdateHost(u, h, quad);
    UpdateShowsPublished(u, h, quad);
    assert HalfSettled(t, v, h);
    if HalfSettled(s, v, h) {
      assert u.buffers[u.flip] == s.buffers[s.elem.value.buffer];
      assert Settled(t, v);
    }
  }

  function Rounds(s: State, stamps: seq<nat>, v: Version, h: Slot, quads: seq<Quad>): State
    requires |stamps| == |quads|
    decreases |stamps|
  {
    if stamps == [] then s else Rounds(Round(s, stamps[0], v, h, quads[0]), stamps[1..], v, h, quads[1..])
  }

  lemma {:induction false} RoundsPublishLess(s: State, stamps: seq<nat>, v: Version, h: Slot, quads: seq<Quad>)
    requires Inv(s) && |stamps| == |quads| && forall q | q in quads :: !q.degenerate
    ensures Rounds(s, stamps, v, h, quads).generation <= s.generation + PublishesLeft(s, v, h)
    decreases |stamps|
  {
    if stamps == [] {
    } else {
      RoundPublishesLess(s, stamps[0], v, h, quads[0]);
      RoundsPublishLess(Round(s, stamps[0], v, h, quads[0]), stamps[1..], v, h, quads[1..]);
    }
  }

  /** Once the content stops changing, the source publishes at most twice more, in however many
      redraws with drawable quads, from any reachable state and whatever other hosts still retain. */
  lemma AtMostTwoMorePublishes(output: OutputId, events: seq<Event>, stamps: seq<nat>, v: Version, h: Slot, quads: seq<Quad>)
    requires |stamps| == |quads| && forall q | q in quads :: !q.degenerate
    ensures Rounds(Run(Fresh(output), events), stamps, v, h, quads).generation <= Run(Fresh(output), events).generation + 2
  {
    RunKeepsInv(Fresh(output), events);
    RoundsPublishLess(Run(Fresh(output), events), stamps, v, h, quads);
}

  // ---------- Settling with degenerate quads ----------

  /** Half settled, with the other buffer showing `v` as well, which only the drawing host retains. */
  ghost predicate Retaining(s: State, v: Version, h: Slot) {
    && HalfSettled(s, v, h)
    && s.flip in s.buffers
    && s.buffers[s.flip].seen == Some(v)
    && h in s.panels && s.panels[h].texture == Own(s.buffers[s.flip].texture)
    && forall k | k in s.panels && k != h :: s.panels[k].texture != Own(s.buffers[s.flip].texture)
  }

  ghost function AnyPublishesLeft(s: State, v: Version, h: Slot): nat {
    if Settled(s, v) then 0 else if Retaining(s, v, h) then 1 else if HalfSettled(s, v, h) then 2 else 3
  }

  /** With any quad a host goes on drawing what it drew, or takes the published texture. */
  lemma HostKeepsOrTakes(u: State, h: Slot, quad: Quad)
    requires u.elem.Some?
    ensures var t := UpdateHost(u, h, quad);
      && t == u.(panels := t.panels)
      && (forall k | k in t.panels && k != h :: k in u.panels && t.panels[k] == u.panels[k])
      && (h in t.panels ==> t.panels[h].texture == Own(u.elem.value.texture)
                            || (h in u.panels && t.panels[h].texture == u.panels[h].texture))
  {
  }

  lemma SettledRound(s: State, stamp: nat, v: Version, h: Slot, quad: Quad)
    requires Inv(s) && Settled(s, v)
    ensures Settled(Round(s, stamp, v, h, quad), v) && Round(s, stamp, v, h, quad).generation == s.generation
  {
    RefreshKeepsInv(s, stamp, false, Succeeds(v, false, false));
    var u := Refresh(s, stamp, false, Succeeds(v, false, false));
    assert u.buffers == s.buffers && u.elem == s.elem && u.panels == s.panels;
    if u.elem.Some? {
      HostKeepsOrTakes(u, h, quad);
    }
  }

  /** Between refreshes a host changes nothing for the worse. */
  lemma SameCycleRound(s: State, v: Version, h: Slot, quad: Quad)
    requires Inv(s)
    ensures AnyPublishesLeft(Round(s, s.frame, v, h, quad), v, h) <= AnyPublishesLeft(s, v, h)
  {
    if Settled(s, v) {
      SettledRound(s, s.frame, v, h, quad);
    } else if HalfSettled(s, v, h) {
      var t := Round(s, s.frame, v, h, quad);
      HostKeepsOrTakes(s, h, quad);
      assert HalfSettled(t, v, h);
      if Retaining(s, v, h) {
        assert Settled(t, v) || Retaining(t, v, h);
      }
    }
  }

  lemma AnyPublishingRound(s: State, stamp: nat, v: Version, h: Slot, quad: Quad)
    requires Inv(s)
    requires Refresh(s, stamp, false, Succeeds(v, false, false)).generation != s.generation
    ensures var t := Round(s, stamp, v, h, quad);
      && t.generation == s.generation + 1
      && AnyPublishesLeft(t, v, h) + 1 <= AnyPublishesLeft(s, v, h)
  {
    PublishingRefresh(s, stamp, v);
    RefreshKeepsInv(s, stamp, false, Succeeds(v, false, false));
    var u := Refresh(s, stamp, false, Succeeds(v, false, false));
    var t := Round(s, stamp, v, h, quad);
    HostKeepsOrTakes(u, h, quad);
    assert HalfSettled(t, v, h);
    if HalfSettled(s, v, h) {
      assert u.buffers[u.flip] == s.buffers[s.elem.value.buffer];
      if Retaining(s, v, h) {
        assert Settled(t, v);
      } else {
        assert Settled(t, v) || Retaining(t, v, h);
      }
    }
  }

  lemma AnyRoundPublishesLess(s: State, stamp: nat, v: Version, h: Slot, quad: Quad)
    requires Inv(s)
    ensures var t := Round(s, stamp, v, h, quad);
      Inv(t) && t.generation + AnyPublishesLeft(t, v, h) <= s.generation + AnyPublishesLeft(s, v, h)
  {
    RoundKeepsInv(s, stamp, v, h, quad);
    if Refresh(s, stamp, false, Succeeds(v, false, false)).generation != s.generation {
      AnyPublishingRound(s, stamp, v, h, quad);
    } else if s.frame == stamp {
      SameCycleRound(s, v, h, quad);
    } else {
      assert Settled(s, v);
      SettledRound(s, stamp, v, h, quad);
    }
  }

  lemma {:induction false} AnyRoundsPublishLess(s: State, stamps: seq<nat>, v: Version, h: Slot, quads: seq<Quad>)
    requires Inv(s) && |stamps| == |quads|
    ensures Rounds(s, stamps, v, h, quads).generation <= s.generation + AnyPublishesLeft(s, v, h)
    decreases |stamps|
  {
    if stamps == [] {
    } else {
      AnyRoundPublishesLess(s, stamps[0], v, h, quads[0]);
      AnyRoundsPublishLess(Round(s, stamps[0], v, h, quads[0]), stamps[1..], v, h, quads[1..]);
    }
  }

  /** Whatever the quads, it publishes at most three times more. */
  lemma AtMostThreeMorePublishes(output: OutputId, events: seq<Event>, stamps: seq<nat>, v: Version, h: Slot, quads: seq<Quad>)
    requires |stamps| == |quads|
    ensures Rounds(Run(Fresh(output), events), stamps, v, h, quads).generation <= Run(Fresh(output), events).generation + 3
  {
    RunKeepsInv(Fresh(output), events);
    AnyRoundsPublishLess(Run(Fresh(output), events), stamps, v, h, quads);
  }

  const GOOD := Quad(0, false)
  const BAD := Quad(1, true)
  const HOST := Slot(0, 0)

  const DRAWN_ONCE := State(7, true, Some(Published(false, 0)), 1, 1, true, map[false := Cached(0, Some(5))],
                            map[HOST := Panel(GOOD, Us(false), 1, Own(0))], [Some(5)], [Published(false, 0)])

  const DRAWN_TWICE := DRAWN_ONCE.(flip := false, elem := Some(Published(true, 1)), generation := 2, frame := 2,
                                   buffers := map[false := Cached(0, Some(5)), true := Cached(1, Some(5))],
                                   panels := map[HOST := Panel(BAD, Us(true), 2, Own(0))],
                                   pixels := [Some(5), Some(5)], log := [Published(false, 0), Published(true, 1)])

  lemma FirstRounds()
    ensures Round(Round(Fresh(7), 1, 5, HOST, GOOD), 2, 5, HOST, BAD) == DRAWN_TWICE
  {
    assert Round(Fresh(7), 1, 5, HOST, GOOD) == DRAWN_ONCE;
  }

  lemma ThirdRound()
    ensures Round(DRAWN_TWICE, 3, 5, HOST, BAD).generation == 3
  {
    assert HOST in DRAWN_TWICE.panels && DRAWN_TWICE.panels[HOST].texture == Own(0);
    assert HeldOutside(DRAWN_TWICE, 0);
  }

  lemma FirstOfRounds(s: State, stamp: nat, stamps: seq<nat>, v: Version, h: Slot, quad: Quad, quads: seq<Quad>)
    requires |stamps| == |quads|
    ensures Rounds(s, [stamp] + stamps, v, h, [quad] + quads) == Rounds(Round(s, stamp, v, h, quad), stamps, v, h, quads)
  {
    assert ([stamp] + stamps)[1..] == stamps && ([quad] + quads)[1..] == quads;
  }

  lemma ThreeRounds(s: State, a: nat, b: nat, c: nat, v: Version, h: Slot, p: Quad, q: Quad, r: Quad)
    ensures Rounds(s, [a, b, c], v, h, [p, q, r]) == Round(Round(Round(s, a, v, h, p), b, v, h, q), c, v, h, r)
  {
    var s1 := Round(s, a, v, h, p);
    var s2 := Round(s1, b, v, h, q);
    assert [a] + ([b] + ([c] + [])) == [a, b, c] && [p] + ([q] + ([r] + [])) == [p, q, r];
    FirstOfRounds(s, a, [b] + ([c] + []), v, h, p, [q] + ([r] + []));
    FirstOfRounds(s1, b, [c] + [], v, h, q, [r] + []);
    FirstOfRounds(s2, c, [], v, h, r, []);
  }

  /** And it can publish three times: the host draws the first texture, keeps it on a degenerate quad
      while the second is published, and so the first buffer has to be created again. */
  lemma ThreePublishesHappen()
    ensures Rounds(Fresh(7), [1, 2, 3], 5, HOST, [GOOD, BAD, BAD]).generation == Fresh(7).generation + 3
  {
    ThreeRounds(Fresh(7), 1, 2, 3, 5, HOST, GOOD, BAD, BAD);
    FirstRounds();
    ThirdRound();
  }
}
