/** Locking a session ends: redrawing each output that still shows the session once is enough. */
module LockProgress {
  import opened LockModel
  import opened LockSafety

  function SessionOutputs(s: State): set<OutputId> {
    set o | o in s.outputs && s.outputs[o].lockRender.ShowsSession?
  }

  function Redrawn(events: seq<Event>): set<OutputId> {
    set e | e in events && e.EvRedraw? :: e.output
  }

  /** While the same locker keeps establishing the lock, outputs only stop showing the session, a
      redrawn output has stopped, and the check after a redraw left some output to wait for. */
  ghost predicate Shrinks(s: State, t: State, redrawn: set<OutputId>) {
    && SessionOutputs(t) <= SessionOutputs(s) - redrawn
    && (redrawn != {} || SessionOutputs(s) != {} ==> SessionOutputs(t) != {})
  }

  lemma PrepassKeepsLockFields(s: State, o: OutputId, c: Carousel, p: Prepass)
    ensures var t := PanelPrepass(s, o, c, p);
      && SessionOutputs(t) == SessionOutputs(s) && t.lock == s.lock && t.outputs.Keys == s.outputs.Keys
      && t.issued == s.issued && t.confirmed == s.confirmed && t.dropped == s.dropped
  {
  }

  lemma PreparingKeepsLockFields(s: State, o: OutputId, c: Carousel, r: RenderOutcome)
    requires o in s.outputs
    ensures var t := Prepare(s, o, c, r);
      && SessionOutputs(t) == SessionOutputs(s) && t.lock == s.lock && t.outputs.Keys == s.outputs.Keys
      && t.issued == s.issued && t.confirmed == s.confirmed && t.dropped == s.dropped
  {
    var u := s.(outputs := s.outputs[o := s.outputs[o].(animating := r.animating)]);
    assert SessionOutputs(u) == SessionOutputs(s);
    PrepassKeepsLockFields(u, o, c, r.prepass);
  }

  lemma DecidingShrinks(s: State, o: OutputId, r: RenderResult)
    requires s.lock.Locking? && o in s.outputs
    ensures var t := Decide(Finish(s, o, r), o);
      t.lock.Locking? ==> t.lock == s.lock && Shrinks(s, t, {o})
  {
    var t := Finish(s, o, r);
    if Decide(t, o).lock.Locking? {
      assert Decide(t, o) == t && o !in SessionOutputs(t);
      var k :| k in t.outputs && t.outputs[k].lockRender.ShowsSession?;
      assert k in SessionOutputs(t);
    }
  }

  lemma RedrawShrinks(s: State, o: OutputId, c: Carousel, r: RenderOutcome)
    requires s.lock.Locking? && o in s.outputs
    ensures var t := Redraw(s, o, c, r);
      t.lock.Locking? ==> t.lock == s.lock && Shrinks(s, t, {o})
  {
    if OutputActive(s, o) {
      PreparingKeepsLockFields(s, o, c, r);
      var s1 := Prepare(s, o, c, r);
      DecidingShrinks(s1, o, r.result);
      PrepassKeepsLockFields(Decide(Finish(s1, o, r.result), o), o, c, r.capture);
    } else {
      DecidingShrinks(s, o, Skipped(false));
      PrepassKeepsLockFields(Decide(Finish(s, o, Skipped(false)), o), o, c, r.capture);
    }
  }

  lemma RemovalShrinks(s: State, o: OutputId, moved: set<OutputId>, screenshotOpen: bool)
    requires s.lock.Locking? && o in s.outputs
    ensures var t := RemoveOutput(s, o, moved, screenshotOpen);
      t.lock.Locking? ==> t.lock == s.lock && Shrinks(s, t, {})
  {
    var s1 := s.(outputs := QueueAmong(s.outputs, moved) - {o});
    assert SessionOutputs(s1) <= SessionOutputs(s);
    if !AllShowLocked(s1.outputs) {
      var k :| k in s1.outputs && s1.outputs[k].lockRender.ShowsSession?;
      assert k in SessionOutputs(s1);
      assert SessionOutputs(s1.(outputs := QueueAll(s1.outputs))) == SessionOutputs(s1);
    }
  }

  lemma StepShrinks(s: State, e: Event)
    requires Inv(s) && Enabled(s, e) && s.lock.Locking? && Step(s, e).lock == s.lock
    ensures Shrinks(s, Step(s, e), if e.EvRedraw? then {e.output} else {})
  {
    match e
    case EvRedraw(o, c, r) => RedrawShrinks(s, o, c, r);
    case EvRemoveOutput(o, moved, screenshotOpen) => RemovalShrinks(s, o, moved, screenshotOpen);
    case EvDeadline(token) => DeadlineKeepsInv(s, token);
    case EvUnlock =>
    case _ => assert SessionOutputs(Step(s, e)) == SessionOutputs(s);
  }

  predicate Settled(s: State, l: LockId) {
    l in s.confirmed || l in s.dropped
  }

  lemma SettledStaysSettled(s: State, e: Event, l: LockId)
    requires Enabled(s, e) && Settled(s, l)
    ensures Settled(Step(s, e), l)
  {
    LogsOnlyGrow(s, e);
  }

  ghost predicate LogsGrow(s: State, t: State) {
    s.confirmed <= t.confirmed && s.dropped <= t.dropped && s.issued <= t.issued
  }

  lemma DecidingLogsGrow(s: State, o: OutputId, r: RenderResult)
    requires o in s.outputs
    ensures LogsGrow(s, Decide(Finish(s, o, r), o))
  {
  }

  lemma RedrawLogsGrow(s: State, o: OutputId, c: Carousel, r: RenderOutcome)
    requires o in s.outputs
    ensures LogsGrow(s, Redraw(s, o, c, r))
  {
    if OutputActive(s, o) {
      PreparingKeepsLockFields(s, o, c, r);
      DecidingLogsGrow(Prepare(s, o, c, r), o, r.result);
      PrepassKeepsLockFields(Decide(Finish(Prepare(s, o, c, r), o, r.result), o), o, c, r.capture);
    } else {
      DecidingLogsGrow(s, o, Skipped(false));
      PrepassKeepsLockFields(Decide(Finish(s, o, Skipped(false)), o), o, c, r.capture);
    }
  }

  lemma LockLogsGrow(s: State, l: LockId, alive: bool)
    ensures LogsGrow(s, LockSession(s, l, alive))
  {
  }

  lemma RemovalLogsGrow(s: State, o: OutputId, moved: set<OutputId>, screenshotOpen: bool)
    requires o in s.outputs
    ensures LogsGrow(s, RemoveOutput(s, o, moved, screenshotOpen))
  {
  }

  lemma LogsOnlyGrow(s: State, e: Event)
    requires Enabled(s, e)
    ensures LogsGrow(s, Step(s, e))
  {
    match e
    case EvRedraw(o, c, r) => RedrawLogsGrow(s, o, c, r);
    case EvLock(l, alive) => LockLogsGrow(s, l, alive);
    case EvRemoveOutput(o, moved, screenshotOpen) => RemovalLogsGrow(s, o, moved, screenshotOpen);
    case _ =>
  }

  /** A settled locker is never held again. */
  lemma {:induction false} SettledNeverHeld(s: State, events: seq<Event>, l: LockId)
    requires Inv(s) && CanRun(s, events) && Settled(s, l)
    ensures l !in Held(Run(s, events).lock)
    decreases |events|
  {
    if events == [] {
      assert multiset(s.issued)[l] <= 1;
      assert multiset(s.issued)[l] == (Held(s.lock) + multiset(s.confirmed) + multiset(s.dropped))[l];
    } else {
      StepKeepsInv(s, events[0]);
      SettledStaysSettled(s, events[0], l);
      SettledNeverHeld(Step(s, events[0]), events[1..], l);
    }
  }

  lemma LeavingSettles(s: State, e: Event)
    requires Inv(s) && Enabled(s, e) && s.lock.Locking? && Step(s, e).lock != s.lock
    ensures Settled(Step(s, e), s.lock.locker)
  {
    var l, t := s.lock.locker, Step(s, e);
    StepKeepsInv(s, e);
    LogsOnlyGrow(s, e);
    assert l in multiset(s.issued) by {
      assert l in Held(s.lock) + multiset(s.confirmed) + multiset(s.dropped);
    }
    assert l in multiset(t.issued);
    assert l in Held(t.lock) + multiset(t.confirmed) + multiset(t.dropped);
    NeverBackToWaiting(s, e);
  }

  lemma NeverBackToWaiting(s: State, e: Event)
    requires Inv(s) && Enabled(s, e) && s.lock.Locking?
    ensures !Step(s, e).lock.WaitingForSurfaces? && (Step(s, e).lock.Locking? ==> Step(s, e).lock == s.lock)
  {
    match e
    case EvDeadline(token) => DeadlineKeepsInv(s, token);
    case EvRedraw(o, c, r) => RedrawNeverWaits(s, o, c, r);
    case _ =>
  }

  lemma RedrawNeverWaits(s: State, o: OutputId, c: Carousel, r: RenderOutcome)
    requires o in s.outputs && s.lock.Locking?
    ensures !Redraw(s, o, c, r).lock.WaitingForSurfaces?
    ensures Redraw(s, o, c, r).lock.Locking? ==> Redraw(s, o, c, r).lock == s.lock
  {
    if OutputActive(s, o) {
      PreparingKeepsLockFields(s, o, c, r);
      PrepassKeepsLockFields(Decide(Finish(Prepare(s, o, c, r), o, r.result), o), o, c, r.capture);
    } else {
      PrepassKeepsLockFields(Decide(Finish(s, o, Skipped(false)), o), o, c, r.capture);
    }
  }

  lemma {:induction false} RunShrinks(s: State, events: seq<Event>)
    requires Inv(s) && CanRun(s, events) && s.lock.Locking? && Run(s, events).lock == s.lock
    ensures Shrinks(s, Run(s, events), Redrawn(events))
    decreases |events|
  {
    if events == [] {
    } else {
      var e, rest := events[0], events[1..];
      var t := Step(s, e);
      StepKeepsInv(s, e);
      if t.lock != s.lock {
        LeavingSettles(s, e);
        SettledNeverHeld(t, rest, s.lock.locker);
        assert false;
      }
      StepShrinks(s, e);
      RunShrinks(t, rest);
      assert events == [e] + rest;
      assert Redrawn(events) == Redrawn(rest) + if e.EvRedraw? then {e.output} else {};
    }
  }

  /** Whatever else happens in between (new outputs, removals, surfaces, power changes, other
      clients), locking is over, one way or the other, once every output that showed the session
      when it began has been redrawn, and at least one redraw took place. */
  lemma LockingEnds(before: seq<Event>, events: seq<Event>)
    requires CanRun(INITIAL, before) && Run(INITIAL, before).lock.Locking?
    requires CanRun(Run(INITIAL, before), events)
    requires Redrawn(events) != {} && SessionOutputs(Run(INITIAL, before)) <= Redrawn(events)
    ensures Run(Run(INITIAL, before), events).lock != Run(INITIAL, before).lock
  {
    RunKeepsInv(INITIAL, before);
    var s := Run(INITIAL, before);
    if Run(s, events).lock == s.lock {
      RunShrinks(s, events);
    }
  }
}
