/** What the displays show while the session is locked. The compositor's marks are safe in every run
    (LockSafety.dfy); this module proves exactly when the displays are. */
module LockDisplays {
  import opened Wrappers
  import opened LockModel
  import opened LockSafety

  predicate ShowsSessionNow(st: OutputState) {
    st.lit && st.lastFrame.SessionFrame?
  }

  /** No output marked locked shows the session. */
  ghost predicate Hidden(s: State) {
    forall o | o in s.outputs && s.outputs[o].lockRender.ShowsLocked? :: !ShowsSessionNow(s.outputs[o])
  }

  /** The render of this redraw is skipped: the output is inactive, or the backend fails. */
  predicate SkipsRender(s: State, o: OutputId, r: RenderOutcome)
    requires o in s.outputs
  {
    OutputActive(s, o) ==> r.result.Skipped?
  }

  /** While locking with the monitors inactive, a render is skipped on a display that is still lit and
      shows the session: the redraw marks it locked without having drawn a locked frame. */
  predicate Exposes(s: State, e: Event)
    requires Enabled(s, e)
  {
    && e.EvRedraw?
    && IsLocked(s.lock)
    && !s.monitorsActive
    && SkipsRender(s, e.output, e.outcome)
    && ShowsSessionNow(s.outputs[e.output])
  }

  /** The outputs marked locked that show the session. */
  function ExposedOutputs(s: State): set<OutputId> {
    set o | o in s.outputs && s.outputs[o].lockRender.ShowsLocked? && ShowsSessionNow(s.outputs[o])
  }

  // One step.

  /** The two agree on everything that matters for displays. */
  ghost predicate SameDisplay(a: OutputState, b: OutputState) {
    a.lockRender == b.lockRender && a.lit == b.lit && a.lastFrame == b.lastFrame && a.isolated == b.isolated
  }

  ghost predicate SameDisplays(s: State, t: State) {
    && s.outputs.Keys == t.outputs.Keys
    && s.monitorsActive == t.monitorsActive && s.powerOffSkipIsolated == t.powerOffSkipIsolated
    && forall o | o in s.outputs :: SameDisplay(s.outputs[o], t.outputs[o])
  }

  lemma SameDisplaysSameExposed(s: State, t: State)
    requires SameDisplays(s, t)
    ensures ExposedOutputs(t) == ExposedOutputs(s)
  {
    assert forall o | o in s.outputs :: SameDisplay(s.outputs[o], t.outputs[o]);
  }

  lemma PrepassKeepsDisplays(s: State, o: OutputId, c: Carousel, p: Prepass)
    ensures SameDisplays(s, PanelPrepass(s, o, c, p)) && PanelPrepass(s, o, c, p).lock == s.lock
  {
  }

  lemma PreparingKeepsDisplays(s: State, o: OutputId, c: Carousel, r: RenderOutcome)
    requires o in s.outputs
    ensures SameDisplays(s, Prepare(s, o, c, r)) && Prepare(s, o, c, r).lock == s.lock
  {
    var u := s.(outputs := s.outputs[o := s.outputs[o].(animating := r.animating)]);
    PrepassKeepsDisplays(u, o, c, r.prepass);
    assert SameDisplays(s, u);
  }

  lemma DecidingKeepsDisplays(s: State, o: OutputId)
    requires o in s.outputs
    ensures SameDisplays(s, Decide(s, o))
  {
  }

  /** What a redraw with this result makes of the outputs exposed before it. */
  function ExposedByRender(s: State, o: OutputId, r: RenderResult, exposed: set<OutputId>): set<OutputId>
    requires o in s.outputs
  {
    if r.Skipped? && s.monitorsActive then exposed
    else if r.Skipped? && IsLocked(s.lock) && ShowsSessionNow(s.outputs[o]) then exposed + {o}
    else exposed - {o}
  }

  lemma FinishingExposes(s: State, o: OutputId, r: RenderResult)
    requires o in s.outputs
    ensures ExposedOutputs(Finish(s, o, r)) == ExposedByRender(s, o, r, ExposedOutputs(s))
  {
    var t := Finish(s, o, r);
    forall k | k in s.outputs && k != o ensures t.outputs[k] == s.outputs[k] {
    }
    assert t.outputs[o] == FinishRender(s.outputs[o], r, IsLocked(s.lock), s.monitorsActive);
  }

  lemma RedrawFromExposes(s: State, o: OutputId, c: Carousel, r: RenderResult, capture: Prepass)
    requires o in s.outputs
    ensures ExposedOutputs(PanelPrepass(Decide(Finish(s, o, r), o), o, c, capture)) == ExposedByRender(s, o, r, ExposedOutputs(s))
  {
    var t := Finish(s, o, r);
    FinishingExposes(s, o, r);
    DecidingKeepsDisplays(t, o);
    SameDisplaysSameExposed(t, Decide(t, o));
    PrepassKeepsDisplays(Decide(t, o), o, c, capture);
    SameDisplaysSameExposed(Decide(t, o), PanelPrepass(Decide(t, o), o, c, capture));
  }

  /** The result that the redraw goes by. */
  function EffectiveResult(s: State, o: OutputId, r: RenderOutcome): RenderResult
    requires o in s.outputs
  {
    if OutputActive(s, o) then r.result else Skipped(false)
  }

  lemma RedrawExposes(s: State, o: OutputId, c: Carousel, r: RenderOutcome)
    requires o in s.outputs
    ensures ExposedOutputs(Redraw(s, o, c, r)) == ExposedByRender(s, o, EffectiveResult(s, o, r), ExposedOutputs(s))
  {
    if OutputActive(s, o) {
      PreparingKeepsDisplays(s, o, c, r);
      SameDisplaysSameExposed(s, Prepare(s, o, c, r));
      assert SameDisplay(s.outputs[o], Prepare(s, o, c, r).outputs[o]);
      RedrawFromExposes(Prepare(s, o, c, r), o, c, r.result, r.capture);
    } else {
      RedrawFromExposes(s, o, c, Skipped(false), r.capture);
    }
  }

  /** What an event makes of the outputs exposed before it: a redraw may expose its output, and an
      output stops being exposed when it is drawn, turned off, removed or no longer marked. */
  function ExposedAfter(s: State, e: Event, exposed: set<OutputId>): set<OutputId>
    requires Enabled(s, e)
  {
    match e
    case EvRedraw(o, _, r) => ExposedByRender(s, o, EffectiveResult(s, o, r), exposed)
    case EvRemoveOutput(o, _, _) => exposed - {o}
    case EvDeactivateMonitors(skipIsolated, stuck) =>
      if s.monitorsActive
      then set o | o in exposed && o in s.outputs && ((skipIsolated && s.outputs[o].isolated) || o in stuck)
      else exposed
    case _ => exposed
  }

  lemma SameDisplaysCompose(s: State, t: State, u: State)
    requires SameDisplays(s, t) && SameDisplays(t, u)
    ensures SameDisplays(s, u)
  {
    forall o | o in s.outputs ensures SameDisplay(s.outputs[o], u.outputs[o]) {
      assert SameDisplay(s.outputs[o], t.outputs[o]) && SameDisplay(t.outputs[o], u.outputs[o]);
    }
  }

  lemma QueueingKeepsDisplays(s: State, which: set<OutputId>)
    ensures SameDisplays(s, s.(outputs := QueueAll(s.outputs)))
    ensures SameDisplays(s, s.(outputs := QueueAmong(s.outputs, which)))
  {
  }

  lemma ContinuingKeepsDisplays(s: State)
    ensures SameDisplays(s, ContinueToLocking(s)) && SameDisplays(s, MaybeContinueToLocking(s))
  {
    QueueingKeepsDisplays(s, {});
    assert ContinueToLocking(s).outputs == s.outputs || ContinueToLocking(s).outputs == QueueAll(s.outputs);
  }

  lemma UnlockingKeepsDisplays(s: State)
    ensures SameDisplays(s, Unlock(s))
  {
    var t := s.(outputs := WithoutSurfaces(s.outputs));
    assert SameDisplays(s, t);
    QueueingKeepsDisplays(t, {});
    assert Unlock(s).outputs == QueueAll(t.outputs);
    SameDisplaysCompose(s, t, Unlock(s));
  }

  lemma CommittingKeepsDisplays(s: State, o: OutputId, mapped: bool)
    requires o in s.outputs && s.outputs[o].lockSurface.Some?
    ensures SameDisplays(s, CommitLockSurface(s, o, mapped))
  {
    var st := s.outputs[o];
    var t := s.(outputs := s.outputs[o := st.(lockSurface := Some(st.lockSurface.value.(mapped := mapped)))]);
    assert SameDisplays(s, t);
    QueueingKeepsDisplays(t, {o});
    ContinuingKeepsDisplays(t);
    SameDisplaysCompose(s, t, CommitLockSurface(s, o, mapped));
  }

  lemma LockKeepsDisplays(s: State, l: LockId, alive: bool)
    ensures SameDisplays(s, LockSession(s, l, alive))
  {
    if s.lock.Unlocked? && s.outputs == map[] {
      var s1 := StartWaiting(s, l);
      ContinuingKeepsDisplays(s1);
      SameDisplaysCompose(s, s1, ContinueToLocking(s1));
    }
  }

  lemma SchedulerKeepsDisplays(s: State, e: Event)
    requires Enabled(s, e) && (e.EvBeginCycle? || e.EvQueue? || e.EvVBlank? || e.EvEstimatedVBlank?)
    ensures SameDisplays(s, Step(s, e))
  {
  }

  /** The events that touch neither outputs as such, nor power, nor settings, nor frames. */
  predicate LeavesDisplays(e: Event) {
    || e.EvLock? || e.EvUnlock? || e.EvNewLockSurface? || e.EvCommit? || e.EvDeadline?
    || e.EvBeginCycle? || e.EvQueue? || e.EvVBlank? || e.EvEstimatedVBlank?
  }

  lemma LeavingKeepsDisplays(s: State, e: Event)
    requires Enabled(s, e) && LeavesDisplays(e)
    ensures SameDisplays(s, Step(s, e))
  {
    match e
    case EvLock(l, alive) => LockKeepsDisplays(s, l, alive);
    case EvUnlock => UnlockingKeepsDisplays(s);
    case EvCommit(o, mapped) => CommittingKeepsDisplays(s, o, mapped);
    case EvDeadline(_) => ContinuingKeepsDisplays(s);
    case EvNewLockSurface(_, _, _, _) =>
    case _ => SchedulerKeepsDisplays(s, e);
  }

  lemma ActivatingExposesNothing(s: State)
    ensures ExposedOutputs(ActivateMonitors(s)) == ExposedOutputs(s)
  {
    assert forall o | o in s.outputs :: SameDisplay(s.outputs[o], QueueAll(s.outputs)[o]);
  }

  lemma AddingExposesNothing(s: State, o: OutputId, isolated: bool, moved: set<OutputId>)
    requires o !in s.outputs
    ensures ExposedOutputs(AddOutput(s, o, isolated, moved)) == ExposedOutputs(s)
  {
    var t := AddOutput(s, o, isolated, moved);
    assert forall k | k in s.outputs :: k in t.outputs && SameDisplay(s.outputs[k], t.outputs[k]);
    assert !t.outputs[o].lit;
  }

  lemma ForgettingOutput(s: State, o: OutputId, moved: set<OutputId>)
    requires o in s.outputs
    ensures ExposedOutputs(s.(outputs := QueueAmong(s.outputs, moved) - {o})) == ExposedOutputs(s) - {o}
  {
    var t := s.(outputs := QueueAmong(s.outputs, moved) - {o});
    assert forall k | k in t.outputs :: SameDisplay(s.outputs[k], t.outputs[k]);
  }

  lemma RemovingForgets(s: State, o: OutputId, moved: set<OutputId>, screenshotOpen: bool)
    requires o in s.outputs
    ensures ExposedOutputs(RemoveOutput(s, o, moved, screenshotOpen)) == ExposedOutputs(s) - {o}
  {
    ForgettingOutput(s, o, moved);
    var s1 := s.(outputs := QueueAmong(s.outputs, moved) - {o});
    var s2 := if s.lock.Locking? then CheckLocked(s1) else MaybeContinueToLocking(s1);
    ContinuingKeepsDisplays(s1);
    SameDisplaysSameExposed(s1, s2);
    QueueingKeepsDisplays(s2, {});
    SameDisplaysSameExposed(s2, s2.(outputs := QueueAll(s2.outputs)));
  }

  lemma DeactivatingClears(s: State, skipIsolated: bool, stuck: set<OutputId>)
    requires s.monitorsActive
    ensures ExposedOutputs(DeactivateMonitors(s, skipIsolated, stuck)) ==
            set o | o in ExposedOutputs(s) && ((skipIsolated && s.outputs[o].isolated) || o in stuck)
  {
    var t, cleared := DeactivateMonitors(s, skipIsolated, stuck), ClearDisplays(s.outputs, skipIsolated, stuck);
    assert forall o | o in s.outputs :: o in t.outputs && SameDisplay(cleared[o], t.outputs[o]);
  }

  lemma StepExposes(s: State, e: Event)
    requires Enabled(s, e)
    ensures ExposedOutputs(Step(s, e)) == ExposedAfter(s, e, ExposedOutputs(s))
  {
    match e
    case EvRedraw(o, c, r) => RedrawExposes(s, o, c, r);
    case EvAddOutput(o, isolated, moved) => AddingExposesNothing(s, o, isolated, moved);
    case EvRemoveOutput(o, moved, screenshotOpen) => RemovingForgets(s, o, moved, screenshotOpen);
    case EvDeactivateMonitors(skipIsolated, stuck) =>
      if s.monitorsActive {
        DeactivatingClears(s, skipIsolated, stuck);
      }
    case EvActivateMonitors => ActivatingExposesNothing(s);
    case EvSetIsolated(o, isolated) => SettingExposesNothing(s, o, isolated);
    case _ =>
      LeavingKeepsDisplays(s, e);
      SameDisplaysSameExposed(s, Step(s, e));
  }

  lemma SettingExposesNothing(s: State, o: OutputId, isolated: bool)
    requires o in s.outputs
    ensures ExposedOutputs(SetIsolated(s, o, isolated)) == ExposedOutputs(s)
  {
    var t := SetIsolated(s, o, isolated);
    assert forall k | k in s.outputs && k != o :: t.outputs[k] == s.outputs[k];
  }

  /** From a state in which the marks tell the truth, an event breaks that if and only if it exposes. */
  lemma StepHidesIff(s: State, e: Event)
    requires Hidden(s) && Enabled(s, e)
    ensures Hidden(Step(s, e)) <==> !Exposes(s, e)
  {
    StepExposes(s, e);
    HiddenMeansNoneExposed(s);
    HiddenMeansNoneExposed(Step(s, e));
    if Exposes(s, e) {
      assert e.output in ExposedAfter(s, e, ExposedOutputs(s));
    }
  }

  lemma HiddenMeansNoneExposed(s: State)
    ensures Hidden(s) <==> ExposedOutputs(s) == {}
  {
    if Hidden(s) {
      assert ExposedOutputs(s) == {};
    } else {
      var o :| o in s.outputs && s.outputs[o].lockRender.ShowsLocked? && ShowsSessionNow(s.outputs[o]);
      assert o in ExposedOutputs(s);
    }
  }

  // Whole runs.

  ghost predicate HiddenThroughout(s: State, events: seq<Event>)
    requires CanRun(s, events)
    decreases |events|
  {
    Hidden(s) && (events == [] || HiddenThroughout(Step(s, events[0]), events[1..]))
  }

  predicate NeverExposes(s: State, events: seq<Event>)
    requires CanRun(s, events)
    decreases |events|
  {
    events == [] || (!Exposes(s, events[0]) && NeverExposes(Step(s, events[0]), events[1..]))
  }

  lemma {:induction false} HiddenThroughoutFrom(s: State, events: seq<Event>)
    requires Hidden(s) && CanRun(s, events)
    ensures HiddenThroughout(s, events) <==> NeverExposes(s, events)
    decreases |events|
  {
    if events == [] {
    } else {
      StepHidesIff(s, events[0]);
      if !Exposes(s, events[0]) {
        HiddenThroughoutFrom(Step(s, events[0]), events[1..]);
      }
    }
  }

  /** At every moment of a run the marks tell the truth about the displays, if and only if no render
      is ever skipped on a display that shows the session while locking with the monitors inactive. */
  lemma MarksAreTrueIff(events: seq<Event>)
    requires CanRun(INITIAL, events)
    ensures HiddenThroughout(INITIAL, events) <==> NeverExposes(INITIAL, events)
  {
    HiddenThroughoutFrom(INITIAL, events);
  }

  /** The outputs left exposed by a run. */
  function LeftExposed(s: State, exposed: set<OutputId>, events: seq<Event>): set<OutputId>
    requires CanRun(s, events)
    decreases |events|
  {
    if events == [] then exposed
    else LeftExposed(Step(s, events[0]), ExposedAfter(s, events[0], exposed), events[1..])
  }

  lemma {:induction false} LeftExposedIsExposed(s: State, events: seq<Event>)
    requires CanRun(s, events)
    ensures LeftExposed(s, ExposedOutputs(s), events) == ExposedOutputs(Run(s, events))
    decreases |events|
  {
    if events == [] {
    } else {
      StepExposes(s, events[0]);
      LeftExposedIsExposed(Step(s, events[0]), events[1..]);
    }
  }

  /** A locked session hides the session on every lit display if and only if the run left no output
      exposed; the displays that show the session are exactly those. */
  lemma LockedSessionHidesIff(events: seq<Event>)
    requires CanRun(INITIAL, events) && Run(INITIAL, events).lock.Locked?
    ensures var s, left := Run(INITIAL, events), LeftExposed(INITIAL, {}, events);
      && (forall o | o in s.outputs :: ShowsSessionNow(s.outputs[o]) <==> o in left)
      && ((forall o | o in s.outputs && s.outputs[o].lit :: !s.outputs[o].lastFrame.SessionFrame?) <==> left == {})
  {
    var s, left := Run(INITIAL, events), LeftExposed(INITIAL, {}, events);
    LockedSessionsAreMarked(events);
    assert ExposedOutputs(INITIAL) == {};
    LeftExposedIsExposed(INITIAL, events);
    assert left == ExposedOutputs(s);
    if left != {} {
      var o :| o in left;
    }
  }

  // When it cannot happen.

  /** Power-offs really turn displays off, and the isolated setting is not changed. */
  predicate Orderly(e: Event) {
    !e.EvSetIsolated? && (e.EvDeactivateMonitors? ==> e.stuck == {})
  }

  /** Then only outputs that keep rendering are lit. */
  ghost predicate LitAreActive(s: State) {
    forall o | o in s.outputs && s.outputs[o].lit :: OutputActive(s, o)
  }

  lemma SameDisplaysStayActive(s: State, t: State)
    requires LitAreActive(s) && SameDisplays(s, t)
    ensures LitAreActive(t)
  {
    forall o | o in t.outputs && t.outputs[o].lit ensures OutputActive(t, o) {
      assert SameDisplay(s.outputs[o], t.outputs[o]) && OutputActive(s, o);
    }
  }

  lemma FinishingLights(s: State, o: OutputId, r: RenderResult)
    requires o in s.outputs && LitAreActive(s) && (r.Drawn? ==> OutputActive(s, o))
    ensures LitAreActive(Finish(s, o, r))
  {
    var t := Finish(s, o, r);
    forall k | k in t.outputs && t.outputs[k].lit ensures OutputActive(t, k) {
      if k != o || !r.Drawn? {
        assert OutputActive(s, k);
      }
    }
  }

  lemma RedrawFromLights(s: State, o: OutputId, c: Carousel, r: RenderResult, capture: Prepass)
    requires o in s.outputs && LitAreActive(s) && (r.Drawn? ==> OutputActive(s, o))
    ensures LitAreActive(PanelPrepass(Decide(Finish(s, o, r), o), o, c, capture))
  {
    var t := Finish(s, o, r);
    FinishingLights(s, o, r);
    DecidingKeepsDisplays(t, o);
    SameDisplaysStayActive(t, Decide(t, o));
    PrepassKeepsDisplays(Decide(t, o), o, c, capture);
    SameDisplaysStayActive(Decide(t, o), PanelPrepass(Decide(t, o), o, c, capture));
  }

  lemma RedrawLights(s: State, o: OutputId, c: Carousel, r: RenderOutcome)
    requires o in s.outputs && LitAreActive(s)
    ensures LitAreActive(Redraw(s, o, c, r))
  {
    if OutputActive(s, o) {
      PreparingKeepsDisplays(s, o, c, r);
      SameDisplaysStayActive(s, Prepare(s, o, c, r));
      assert SameDisplay(s.outputs[o], Prepare(s, o, c, r).outputs[o]);
      RedrawFromLights(Prepare(s, o, c, r), o, c, r.result, r.capture);
    } else {
      RedrawFromLights(s, o, c, Skipped(false), r.capture);
    }
  }

  lemma PowerLights(s: State, e: Event)
    requires Enabled(s, e) && Orderly(e) && LitAreActive(s) && (e.EvDeactivateMonitors? || e.EvActivateMonitors?)
    ensures LitAreActive(Step(s, e))
  {
  }

  lemma AddingLights(s: State, o: OutputId, isolated: bool, moved: set<OutputId>)
    requires o !in s.outputs && LitAreActive(s)
    ensures LitAreActive(AddOutput(s, o, isolated, moved))
  {
    var t := AddOutput(s, o, isolated, moved);
    forall k | k in t.outputs && t.outputs[k].lit ensures OutputActive(t, k) {
      assert OutputActive(s, k);
    }
  }

  lemma RemovingLights(s: State, o: OutputId, moved: set<OutputId>, screenshotOpen: bool)
    requires o in s.outputs && LitAreActive(s)
    ensures LitAreActive(RemoveOutput(s, o, moved, screenshotOpen))
  {
    var s1 := s.(outputs := QueueAmong(s.outputs, moved) - {o});
    forall k | k in s1.outputs && s1.outputs[k].lit ensures OutputActive(s1, k) {
      assert OutputActive(s, k);
    }
    var s2 := if s.lock.Locking? then CheckLocked(s1) else MaybeContinueToLocking(s1);
    ContinuingKeepsDisplays(s1);
    SameDisplaysStayActive(s1, s2);
    QueueingKeepsDisplays(s2, {});
    SameDisplaysStayActive(s2, s2.(outputs := QueueAll(s2.outputs)));
  }

  lemma StepLights(s: State, e: Event)
    requires Enabled(s, e) && Orderly(e) && LitAreActive(s)
    ensures LitAreActive(Step(s, e))
  {
    match e
    case EvRedraw(o, c, r) => RedrawLights(s, o, c, r);
    case EvDeactivateMonitors(_, _) => PowerLights(s, e);
    case EvActivateMonitors => PowerLights(s, e);
    case EvAddOutput(o, isolated, moved) => AddingLights(s, o, isolated, moved);
    case EvRemoveOutput(o, moved, screenshotOpen) => RemovingLights(s, o, moved, screenshotOpen);
    case _ =>
      LeavingKeepsDisplays(s, e);
      SameDisplaysStayActive(s, Step(s, e));
  }

  lemma {:induction false} OrderlyRunsExposeOnlyActive(s: State, events: seq<Event>, e: Event)
    requires LitAreActive(s) && CanRun(s, events) && forall x | x in events :: Orderly(x)
    requires Enabled(Run(s, events), e) && Exposes(Run(s, events), e)
    ensures var t := Run(s, events);
      t.powerOffSkipIsolated && t.outputs[e.output].isolated && e.outcome.result.Skipped?
    decreases |events|
  {
    if events == [] {
      assert OutputActive(s, e.output);
    } else {
      StepLights(s, events[0]);
      OrderlyRunsExposeOnlyActive(Step(s, events[0]), events[1..], e);
    }
  }

  /** With power-offs that work and settings that stay, the one way to expose an output is a failed
      render of an isolated one that a power-off with skip-isolated kept on. */
  lemma OnlySkippedIsolatedOutputsExpose(events: seq<Event>, e: Event)
    requires CanRun(INITIAL, events) && forall x | x in events :: Orderly(x)
    requires Enabled(Run(INITIAL, events), e) && Exposes(Run(INITIAL, events), e)
    ensures var t := Run(INITIAL, events);
      t.powerOffSkipIsolated && t.outputs[e.output].isolated && e.outcome.result.Skipped?
  {
    OrderlyRunsExposeOnlyActive(INITIAL, events, e);
  }

  /** The events, all orderly, can happen from `s` and lead to `t`. */
  ghost predicate Leads(s: State, events: seq<Event>, t: State) {
    CanRun(s, events) && Run(s, events) == t && forall e | e in events :: Orderly(e)
  }

  lemma LeadsOne(s: State, e: Event, t: State, rest: seq<Event>, u: State)
    requires Enabled(s, e) && Step(s, e) == t && Orderly(e) && Leads(t, rest, u)
    ensures Leads(s, [e] + rest, u)
  {
    assert ([e] + rest)[1..] == rest;
  }

  const NO_CAROUSEL := Carousel(0, false, {})

  function RedrawOf0(result: RenderResult): Event {
    EvRedraw(0, NO_CAROUSEL, RenderOutcome(false, NotEntered, result, NotEntered))
  }

  /** An output 0, isolated, and nothing else. */
  function With0(s: State, redraw: RedrawState, lockRender: LockRender, lit: bool, frame: Frame): State {
    s.(outputs := map[0 := OutputState(redraw, lockRender, None, false, true, lit, frame, false, 0)])
  }

  const ADDED := With0(INITIAL, Queued, ShowsSession, false, NoFrame)

  const DRAWN := With0(INITIAL, Idle, ShowsSession, true, SessionFrame)

  const POWERED_OFF := With0(INITIAL, Queued, ShowsSession, true, SessionFrame).(monitorsActive := false, powerOffSkipIsolated := true)

  const WAITING := POWERED_OFF.(lock := WaitingForSurfaces(7, 0), armed := {0}, nextToken := 1, issued := {7})

  const LOCKING := POWERED_OFF.(lock := Locking(7), nextToken := 1, issued := {7})

  const EXPOSED := With0(LOCKING, WaitingForEstimatedVBlank, ShowsLocked, true, SessionFrame).(lock := Locked(7), confirmed := [7])

  lemma SessionIsDrawn(events: seq<Event>, t: State)
    requires Leads(DRAWN, events, t)
    ensures Leads(INITIAL, [EvAddOutput(0, true, {})] + ([RedrawOf0(Drawn(BackToIdle))] + events), t)
  {
    LeadsOne(ADDED, RedrawOf0(Drawn(BackToIdle)), DRAWN, events, t);
    LeadsOne(INITIAL, EvAddOutput(0, true, {}), ADDED, [RedrawOf0(Drawn(BackToIdle))] + events, t);
  }

  lemma PoweredOffLocks(events: seq<Event>, t: State)
    requires Leads(LOCKING, events, t)
    ensures Leads(POWERED_OFF, [EvLock(7, true)] + ([EvDeadline(0)] + events), t)
  {
    assert 0 in WAITING.outputs && QueueAll(WAITING.outputs) == LOCKING.outputs;
    assert WAITING.armed - {0} == LOCKING.armed && LOCKING.armed - {0} == LOCKING.armed;
    LeadsOne(WAITING, EvDeadline(0), LOCKING, events, t);
    LeadsOne(POWERED_OFF, EvLock(7, true), WAITING, [EvDeadline(0)] + events, t);
  }

  lemma FailedRenderConfirms()
    ensures Leads(LOCKING, [RedrawOf0(Skipped(true))], EXPOSED)
  {
    var finished := Finish(LOCKING, 0, Skipped(true));
    assert finished == With0(LOCKING, WaitingForEstimatedVBlank, ShowsLocked, true, SessionFrame);
    assert Prepare(LOCKING, 0, NO_CAROUSEL, RenderOutcome(false, NotEntered, Skipped(true), NotEntered)) == LOCKING;
    assert Decide(finished, 0) == EXPOSED;
    LeadsOne(LOCKING, RedrawOf0(Skipped(true)), EXPOSED, [], EXPOSED);
    assert [RedrawOf0(Skipped(true))] + [] == [RedrawOf0(Skipped(true))];
  }

  /** It does happen. A display shows the session; the monitors are powered off except for that
      isolated one; a client locks the session, and the display's locked render fails: the client is
      told that the session is locked while the display goes on showing it. */
  lemma ExposureHappens() returns (events: seq<Event>)
    ensures CanRun(INITIAL, events) && forall e | e in events :: Orderly(e)
    ensures var s := Run(INITIAL, events);
      s.lock == Locked(7) && s.confirmed == [7] && 0 in s.outputs && ShowsSessionNow(s.outputs[0])
  {
    FailedRenderConfirms();
    PoweredOffLocks([RedrawOf0(Skipped(true))], EXPOSED);
    var locked := [EvLock(7, true)] + ([EvDeadline(0)] + [RedrawOf0(Skipped(true))]);
    LeadsOne(DRAWN, EvDeactivateMonitors(true, {}), POWERED_OFF, locked, EXPOSED);
    SessionIsDrawn([EvDeactivateMonitors(true, {})] + locked, EXPOSED);
    events := [EvAddOutput(0, true, {})] + ([RedrawOf0(Drawn(BackToIdle))] + ([EvDeactivateMonitors(true, {})] + locked));
  }
}
