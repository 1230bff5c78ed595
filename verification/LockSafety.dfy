/** Safety, progress and resource discipline of the session lock, over every run. */
module LockSafety {
  import opened Wrappers
  import opened LockModel

  function Held(lock: LockState): multiset<LockId> {
    match lock
    case WaitingForSurfaces(l, _) => multiset{l}
    case Locking(l) => multiset{l}
    case _ => multiset{}
  }

  /** Exactly one deadline timer while waiting for surfaces, none otherwise. */
  ghost predicate TimerDiscipline(s: State) {
    && s.armed == (if s.lock.WaitingForSurfaces? then {s.lock.deadline} else {})
    && forall t | t in s.armed :: t < s.nextToken
  }

  /** Every locker ever received is held, confirmed or dropped, once and in one way only. */
  ghost predicate LockersConserved(s: State) {
    && multiset(s.issued) == Held(s.lock) + multiset(s.confirmed) + multiset(s.dropped)
    && (s.lock.Locked? ==> s.confirmed != [] && s.confirmed[|s.confirmed| - 1] == s.lock.lock)
  }

  /** While locking, an output that still shows the session has a redraw coming, and so does at
      least one output. */
  ghost predicate LockingProgresses(s: State) {
    s.lock.Locking? ==>
      && (forall o | o in s.outputs && s.outputs[o].lockRender.ShowsSession? :: s.outputs[o].redraw.HasPendingRedraw())
      && (exists o :: o in s.outputs && s.outputs[o].redraw.HasPendingRedraw())
  }

  /** No surfaces while unlocked; until locked, only surfaces of the lock being established. */
  ghost predicate SurfacesBelong(s: State) {
    forall o | o in s.outputs && s.outputs[o].lockSurface.Some? ::
      && !s.lock.Unlocked?
      && (!s.lock.Locked? ==> CurrentLock(s.lock) == Some(s.outputs[o].lockSurface.value.lock))
  }

  ghost predicate LockedMeansAllLocked(s: State) {
    s.lock.Locked? ==> AllShowLocked(s.outputs)
  }

  ghost predicate Inv(s: State) {
    && TimerDiscipline(s)
    && LockersConserved(s)
    && LockingProgresses(s)
    && SurfacesBelong(s)
    && LockedMeansAllLocked(s)
  }

  /** The outputs differ at most in scheduling and panel fields, and no pending redraw is lost. */
  ghost predicate SameLockFields(a: OutputState, b: OutputState) {
    && a.lockRender == b.lockRender
    && a.lockSurface == b.lockSurface
    && (a.redraw.HasPendingRedraw() ==> b.redraw.HasPendingRedraw())
  }

  ghost predicate SchedulingOnly(s: State, t: State) {
    && s.outputs.Keys == t.outputs.Keys
    && (forall o | o in s.outputs :: SameLockFields(s.outputs[o], t.outputs[o]))
    && t.lock == s.lock && t.armed == s.armed && t.nextToken == s.nextToken
    && t.issued == s.issued && t.confirmed == s.confirmed && t.dropped == s.dropped
  }

  lemma SchedulingKeepsInv(s: State, t: State)
    requires Inv(s) && SchedulingOnly(s, t)
    ensures Inv(t)
  {
    assert forall o | o in s.outputs :: SameLockFields(s.outputs[o], t.outputs[o]);
    if t.lock.Locking? {
      var o :| o in s.outputs && s.outputs[o].redraw.HasPendingRedraw();
      assert t.outputs[o].redraw.HasPendingRedraw();
    }
  }

  lemma QueueAllKeepsInv(s: State)
    requires Inv(s)
    ensures Inv(s.(outputs := QueueAll(s.outputs)))
  {
    SchedulingKeepsInv(s, s.(outputs := QueueAll(s.outputs)));
  }

  lemma QueueAmongKeepsInv(s: State, which: set<OutputId>)
    requires Inv(s)
    ensures Inv(s.(outputs := QueueAmong(s.outputs, which)))
  {
    SchedulingKeepsInv(s, s.(outputs := QueueAmong(s.outputs, which)));
  }

  lemma PrepassIsScheduling(s: State, o: OutputId, c: Carousel, p: Prepass)
    ensures SchedulingOnly(s, PanelPrepass(s, o, c, p))
  {
  }

  lemma ConfirmKeepsInv(s: State, l: LockId)
    requires TimerDiscipline(s) && s.armed == {} && AllShowLocked(s.outputs)
    requires multiset(s.issued) == multiset{l} + multiset(s.confirmed) + multiset(s.dropped)
    ensures Inv(Confirm(s, l))
  {
    var t := Confirm(s, l);
    assert multiset(t.confirmed) == multiset(s.confirmed) + multiset{l};
  }

  lemma ConfirmEmptyKeepsInv(s: State)
    requires Inv(s) && s.lock.WaitingForSurfaces? && s.outputs == map[]
    ensures Inv(ContinueToLocking(s))
  {
    var s2 := s.(armed := s.armed - {s.lock.deadline}, lock := Unlocked);
    ConfirmKeepsInv(s2, s.lock.locker);
    assert ContinueToLocking(s) == Confirm(s2, s.lock.locker);
  }

  /** Beginning to lock, short of queueing the redraws. */
  function BeginLocking(s: State): State
    requires s.lock.WaitingForSurfaces?
  {
    s.(armed := s.armed - {s.lock.deadline}, lock := Locking(s.lock.locker))
  }

  /** The invariant, except that nothing need be queued. */
  ghost predicate InvButProgress(s: State) {
    && TimerDiscipline(s)
    && LockersConserved(s)
    && SurfacesBelong(s)
    && LockedMeansAllLocked(s)
  }

  lemma BeginningKeepsInv(s: State)
    requires Inv(s) && s.lock.WaitingForSurfaces?
    ensures InvButProgress(BeginLocking(s))
  {
  }

  lemma QueueingBringsProgress(s: State)
    requires InvButProgress(s) && s.outputs != map[]
    ensures Inv(s.(outputs := QueueAll(s.outputs)))
  {
    var t := s.(outputs := QueueAll(s.outputs));
    var o :| o in s.outputs;
    assert o in t.outputs && t.outputs[o].redraw.HasPendingRedraw();
    assert SurfacesBelong(t);
  }

  lemma ContinueKeepsInv(s: State)
    requires Inv(s)
    ensures Inv(ContinueToLocking(s))
  {
    if s.lock.WaitingForSurfaces? {
      if s.outputs == map[] {
        ConfirmEmptyKeepsInv(s);
      } else {
        BeginningKeepsInv(s);
        QueueingBringsProgress(BeginLocking(s));
      }
    }
  }

  lemma RefuseKeepsInv(s: State, l: LockId)
    requires Inv(s) && l !in s.issued
    ensures Inv(Drop(s.(issued := s.issued + {l}), l))
  {
    var t := Drop(s.(issued := s.issued + {l}), l);
    assert multiset(t.issued) == multiset(s.issued) + multiset{l};
    assert multiset(t.dropped) == multiset(s.dropped) + multiset{l};
    assert LockersConserved(t);
  }

  lemma StartWaitingKeepsInv(s: State, l: LockId)
    requires Inv(s) && l !in s.issued && s.lock.Unlocked?
    ensures Inv(StartWaiting(s, l))
  {
    assert multiset(s.issued + {l}) == multiset(s.issued) + multiset{l};
  }

  lemma ReplaceKeepsInv(s: State, l: LockId)
    requires Inv(s) && l !in s.issued && s.lock.Locked?
    ensures Inv(Confirm(s.(issued := s.issued + {l}), l))
  {
    var s0 := s.(issued := s.issued + {l});
    assert multiset(s0.issued) == multiset(s.issued) + multiset{l};
    ConfirmKeepsInv(s0, l);
  }

  lemma LockKeepsInv(s: State, l: LockId, alive: bool)
    requires Inv(s) && l !in s.issued
    ensures Inv(LockSession(s, l, alive))
  {
    match s.lock
    case Unlocked =>
      StartWaitingKeepsInv(s, l);
      ContinueKeepsInv(StartWaiting(s, l));
    case Locked(_) =>
      if alive {
        RefuseKeepsInv(s, l);
      } else {
        ReplaceKeepsInv(s, l);
      }
    case _ => RefuseKeepsInv(s, l);
  }

  lemma UnlockKeepsInv(s: State)
    requires TimerDiscipline(s) && LockersConserved(s)
    ensures Inv(Unlock(s))
  {
  }

  /** The invariant, except that `o` may have lost its pending redraw. */
  ghost predicate InvExcept(s: State, o: OutputId) {
    && TimerDiscipline(s)
    && LockersConserved(s)
    && SurfacesBelong(s)
    && LockedMeansAllLocked(s)
    && (s.lock.Locking? ==>
          forall k | k in s.outputs && k != o && s.outputs[k].lockRender.ShowsSession? ::
            s.outputs[k].redraw.HasPendingRedraw())
  }

  lemma CheckLockedKeepsInv(s: State, o: OutputId)
    requires InvExcept(s, o)
    requires s.lock.Locking? && o in s.outputs ==> s.outputs[o].lockRender.ShowsLocked?
    ensures Inv(CheckLocked(s))
  {
    if s.lock.Locking? {
      if AllShowLocked(s.outputs) {
        var s1 := s.(lock := Unlocked);
        ConfirmKeepsInv(s1, s.lock.locker);
        assert CheckLocked(s) == Confirm(s1, s.lock.locker);
      } else {
        var k :| k in s.outputs && s.outputs[k].lockRender.ShowsSession?;
        assert s.outputs[k].redraw.HasPendingRedraw();
      }
    }
  }

  lemma PreparingKeepsInv(s: State, o: OutputId, c: Carousel, r: RenderOutcome)
    requires Inv(s) && o in s.outputs
    ensures Inv(Prepare(s, o, c, r))
  {
    var u := s.(outputs := s.outputs[o := s.outputs[o].(animating := r.animating)]);
    SchedulingKeepsInv(s, u);
    PrepassIsScheduling(u, o, c, r.prepass);
    SchedulingKeepsInv(u, PanelPrepass(u, o, c, r.prepass));
  }

  lemma FinishingKeepsOthers(s: State, o: OutputId, r: RenderResult)
    requires Inv(s) && o in s.outputs
    ensures InvExcept(Finish(s, o, r), o)
  {
  }

  lemma DecidingKeepsInv(s: State, o: OutputId)
    requires InvExcept(s, o) && o in s.outputs
    ensures Inv(Decide(s, o))
  {
    if s.lock.Locking? && s.outputs[o].lockRender.ShowsSession? {
      UnlockKeepsInv(s);
    } else {
      CheckLockedKeepsInv(s, o);
    }
  }

  lemma RedrawFromKeepsInv(s: State, o: OutputId, c: Carousel, r: RenderResult, capture: Prepass)
    requires Inv(s) && o in s.outputs
    ensures Inv(PanelPrepass(Decide(Finish(s, o, r), o), o, c, capture))
  {
    FinishingKeepsOthers(s, o, r);
    DecidingKeepsInv(Finish(s, o, r), o);
    var u := Decide(Finish(s, o, r), o);
    PrepassIsScheduling(u, o, c, capture);
    SchedulingKeepsInv(u, PanelPrepass(u, o, c, capture));
  }

  lemma RedrawKeepsInv(s: State, o: OutputId, c: Carousel, r: RenderOutcome)
    requires Inv(s) && o in s.outputs
    ensures Inv(Redraw(s, o, c, r))
  {
    if OutputActive(s, o) {
      PreparingKeepsInv(s, o, c, r);
      RedrawFromKeepsInv(Prepare(s, o, c, r), o, c, r.result, r.capture);
    } else {
      RedrawFromKeepsInv(s, o, c, Skipped(false), r.capture);
    }
  }

  lemma MaybeContinueKeepsInv(s: State)
    requires Inv(s)
    ensures Inv(MaybeContinueToLocking(s))
  {
    ContinueKeepsInv(s);
  }

  lemma SetSurfaceKeepsInv(s: State, o: OutputId, surface: LockSurface)
    requires Inv(s) && o in s.outputs && !s.lock.Unlocked?
    requires !s.lock.Locked? ==> CurrentLock(s.lock) == Some(surface.lock)
    ensures Inv(s.(outputs := s.outputs[o := s.outputs[o].(lockSurface := Some(surface))]))
  {
    var t := s.(outputs := s.outputs[o := s.outputs[o].(lockSurface := Some(surface))]);
    assert forall k | k in s.outputs :: k in t.outputs && t.outputs[k].redraw == s.outputs[k].redraw;
    if t.lock.Locking? {
      var k :| k in s.outputs && s.outputs[k].redraw.HasPendingRedraw();
      assert t.outputs[k].redraw.HasPendingRedraw();
    }
  }

  lemma CommitKeepsInv(s: State, o: OutputId, mapped: bool)
    requires Inv(s) && o in s.outputs && s.outputs[o].lockSurface.Some?
    ensures Inv(CommitLockSurface(s, o, mapped))
  {
    var surface := s.outputs[o].lockSurface.value.(mapped := mapped);
    SetSurfaceKeepsInv(s, o, surface);
    var s1 := s.(outputs := s.outputs[o := s.outputs[o].(lockSurface := Some(surface))]);
    if s.lock.WaitingForSurfaces? {
      MaybeContinueKeepsInv(s1);
    } else {
      QueueAmongKeepsInv(s1, {o});
    }
  }

  lemma NewSurfaceKeepsInv(s: State, o: OutputId, l: LockId, sameClient: bool, mapped: bool)
    requires Inv(s)
    ensures Inv(NewLockSurface(s, o, l, sameClient, mapped))
  {
    if CurrentLock(s.lock) == Some(l) && sameClient && o in s.outputs {
      SetSurfaceKeepsInv(s, o, LockSurface(l, mapped));
    }
  }

  lemma AddOutputKeepsInv(s: State, o: OutputId, isolated: bool, moved: set<OutputId>)
    requires Inv(s) && o !in s.outputs
    ensures Inv(AddOutput(s, o, isolated, moved))
  {
    var t := AddOutput(s, o, isolated, moved);
    assert forall k | k in s.outputs :: SameLockFields(s.outputs[k], t.outputs[k]);
    if t.lock.Locking? {
      var k :| k in s.outputs && s.outputs[k].redraw.HasPendingRedraw();
      assert t.outputs[k].redraw.HasPendingRedraw();
    }
  }

  lemma ForgettingKeepsOthers(s: State, o: OutputId, moved: set<OutputId>)
    requires Inv(s) && o in s.outputs
    ensures InvExcept(s.(outputs := QueueAmong(s.outputs, moved) - {o}), o)
    ensures !s.lock.Locking? ==> Inv(s.(outputs := QueueAmong(s.outputs, moved) - {o}))
  {
    var t := s.(outputs := QueueAmong(s.outputs, moved) - {o});
    assert forall k | k in t.outputs :: k in s.outputs && SameLockFields(s.outputs[k], t.outputs[k]);
  }

  lemma DecidingAfterRemovalKeepsInv(s: State, o: OutputId)
    requires InvExcept(s, o) && o !in s.outputs && (!s.lock.Locking? ==> Inv(s))
    ensures Inv(if s.lock.Locking? then CheckLocked(s) else MaybeContinueToLocking(s))
  {
    if s.lock.Locking? {
      CheckLockedKeepsInv(s, o);
    } else {
      MaybeContinueKeepsInv(s);
    }
  }

  lemma RemoveOutputKeepsInv(s: State, o: OutputId, moved: set<OutputId>, screenshotOpen: bool)
    requires Inv(s) && o in s.outputs
    ensures Inv(RemoveOutput(s, o, moved, screenshotOpen))
  {
    ForgettingKeepsOthers(s, o, moved);
    var s1 := s.(outputs := QueueAmong(s.outputs, moved) - {o});
    DecidingAfterRemovalKeepsInv(s1, o);
    var s2 := if s.lock.Locking? then CheckLocked(s1) else MaybeContinueToLocking(s1);
    QueueAllKeepsInv(s2);
  }

  lemma DeadlineKeepsInv(s: State, token: Token)
    requires Inv(s) && token in s.armed
    ensures s.lock.WaitingForSurfaces?
    ensures Inv(DeadlineExpired(s, token))
  {
    ContinueKeepsInv(s);
    var t := ContinueToLocking(s);
    assert t.armed == {};
    assert t.armed - {token} == {};
    assert DeadlineExpired(s, token) == t;
  }

  lemma PresentingKeepsInv(s: State, o: OutputId, st: OutputState)
    requires Inv(s) && o in s.outputs && SameLockFields(s.outputs[o], st)
    ensures Inv(s.(outputs := s.outputs[o := st]))
  {
    SchedulingKeepsInv(s, s.(outputs := s.outputs[o := st]));
  }

  lemma PowerKeepsInv(s: State, skipIsolated: bool, stuck: set<OutputId>)
    requires Inv(s)
    ensures Inv(DeactivateMonitors(s, skipIsolated, stuck)) && Inv(ActivateMonitors(s))
  {
    var cleared := s.(monitorsActive := false, powerOffSkipIsolated := skipIsolated,
                      outputs := ClearDisplays(s.outputs, skipIsolated, stuck));
    SchedulingKeepsInv(s, cleared);
    QueueAllKeepsInv(cleared);
    var lit := s.(monitorsActive := true, powerOffSkipIsolated := false);
    SchedulingKeepsInv(s, lit);
    QueueAllKeepsInv(lit);
  }

  lemma SchedulerStepKeepsInv(s: State, e: Event)
    requires Inv(s) && Enabled(s, e)
    requires e.EvQueue? || e.EvVBlank? || e.EvEstimatedVBlank? || e.EvSetIsolated? || e.EvBeginCycle?
    ensures Inv(Step(s, e))
  {
    match e
    case EvQueue(which) => QueueAmongKeepsInv(s, which);
    case EvVBlank(o) => PresentingKeepsInv(s, o, VBlank(s.outputs[o]));
    case EvEstimatedVBlank(o) => PresentingKeepsInv(s, o, EstimatedVBlank(s.outputs[o]));
    case EvSetIsolated(o, isolated) => PresentingKeepsInv(s, o, s.outputs[o].(isolated := isolated));
    case EvBeginCycle => SchedulingKeepsInv(s, Step(s, e));
  }

  /** Every event keeps every part of the invariant. */
  lemma StepKeepsInv(s: State, e: Event)
    requires Inv(s) && Enabled(s, e)
    ensures Inv(Step(s, e))
  {
    match e
    case EvLock(l, alive) => LockKeepsInv(s, l, alive);
    case EvUnlock => UnlockKeepsInv(s);
    case EvNewLockSurface(o, l, sameClient, mapped) => NewSurfaceKeepsInv(s, o, l, sameClient, mapped);
    case EvCommit(o, mapped) => CommitKeepsInv(s, o, mapped);
    case EvDeadline(token) => DeadlineKeepsInv(s, token);
    case EvRedraw(o, c, r) => RedrawKeepsInv(s, o, c, r);
    case EvAddOutput(o, isolated, moved) => AddOutputKeepsInv(s, o, isolated, moved);
    case EvRemoveOutput(o, moved, screenshotOpen) => RemoveOutputKeepsInv(s, o, moved, screenshotOpen);
    case EvDeactivateMonitors(skipIsolated, stuck) => PowerKeepsInv(s, skipIsolated, stuck);
    case EvActivateMonitors => PowerKeepsInv(s, false, {});
    case _ => SchedulerStepKeepsInv(s, e);
  }

  lemma {:induction false} RunKeepsInv(s: State, events: seq<Event>)
    requires Inv(s) && CanRun(s, events)
    ensures Inv(Run(s, events))
    decreases |events|
  {
    if events == [] {
    } else {
      StepKeepsInv(s, events[0]);
      RunKeepsInv(Step(s, events[0]), events[1..]);
    }
  }

  lemma {:induction false} RunSplits(s: State, events: seq<Event>, more: seq<Event>)
    ensures CanRun(s, events + more) <==> CanRun(s, events) && CanRun(Run(s, events), more)
    ensures CanRun(s, events + more) ==> Run(s, events + more) == Run(Run(s, events), more)
    decreases |events|
  {
    if events == [] {
      assert events + more == more;
    } else {
      assert (events + more)[0] == events[0] && (events + more)[1..] == events[1..] + more;
      if Enabled(s, events[0]) {
        RunSplits(Step(s, events[0]), events[1..], more);
      }
    }
  }

  /** Safety of the `locked` event on the compositor's own marks: whatever happened before, a session
      that is locked has every output marked locked. LockDisplays.dfy proves what that means for what
      the displays show. */
  lemma LockedSessionsAreMarked(events: seq<Event>)
    requires CanRun(INITIAL, events)
    ensures Run(INITIAL, events).lock.Locked? ==> AllShowLocked(Run(INITIAL, events).outputs)
  {
    RunKeepsInv(INITIAL, events);
  }

  /** The same at the instant of each confirmation, by whichever event: a step confirms at most one
      locker, the one it received or the one being established, which then holds the lock, with
      every tracked output marked locked. */
  lemma ConfirmationsAreSafe(events: seq<Event>, e: Event)
    requires CanRun(INITIAL, events) && Enabled(Run(INITIAL, events), e)
    ensures var s, t := Run(INITIAL, events), Step(Run(INITIAL, events), e);
      t.confirmed == s.confirmed ||
      (exists l ::
        && t.confirmed == s.confirmed + [l] && t.lock == Locked(l) && AllShowLocked(t.outputs)
        && ((e.EvLock? && e.locker == l) || l in Held(s.lock)))
  {
    var s := Run(INITIAL, events);
    RunKeepsInv(INITIAL, events);
    StepKeepsInv(s, e);
    ConfirmsAtMostOne(s, e);
    var t := Step(s, e);
    if t.confirmed != s.confirmed {
      assert t.confirmed == s.confirmed + [t.lock.lock];
    }
  }

  /** From `s` to `t` nothing is confirmed, or the locker that `s` held. */
  ghost predicate ConfirmsHeld(s: State, t: State) {
    || t.confirmed == s.confirmed
    || (t.lock.Locked? && t.confirmed == s.confirmed + [t.lock.lock] && t.lock.lock in Held(s.lock))
  }

  lemma RedrawConfirmsHeld(s: State, o: OutputId, c: Carousel, r: RenderOutcome)
    requires o in s.outputs
    ensures ConfirmsHeld(s, Redraw(s, o, c, r))
  {
    var active := OutputActive(s, o);
    var s1 := if active then Finish(Prepare(s, o, c, r), o, r.result) else Finish(s, o, Skipped(false));
    assert s1.lock == s.lock && s1.confirmed == s.confirmed;
    var s2 := Decide(s1, o);
    assert ConfirmsHeld(s1, s2);
    assert PanelPrepass(s2, o, c, r.capture).confirmed == s2.confirmed;
  }

  lemma RemovalConfirmsHeld(s: State, o: OutputId, moved: set<OutputId>, screenshotOpen: bool)
    requires o in s.outputs
    ensures ConfirmsHeld(s, RemoveOutput(s, o, moved, screenshotOpen))
  {
    var s1 := s.(outputs := QueueAmong(s.outputs, moved) - {o});
    assert ConfirmsHeld(s1, if s.lock.Locking? then CheckLocked(s1) else MaybeContinueToLocking(s1));
  }

  lemma LockConfirmsAtMostOne(s: State, l: LockId, alive: bool)
    ensures var t := LockSession(s, l, alive);
      t.confirmed == s.confirmed || (t.lock == Locked(l) && t.confirmed == s.confirmed + [l])
  {
  }

  lemma ConfirmsAtMostOne(s: State, e: Event)
    requires Enabled(s, e)
    ensures var t := Step(s, e);
      ConfirmsHeld(s, t) || (e.EvLock? && t.lock == Locked(e.locker) && t.confirmed == s.confirmed + [e.locker])
  {
    match e
    case EvLock(l, alive) => LockConfirmsAtMostOne(s, l, alive);
    case EvRedraw(o, c, r) => RedrawConfirmsHeld(s, o, c, r);
    case EvRemoveOutput(o, moved, screenshotOpen) => RemovalConfirmsHeld(s, o, moved, screenshotOpen);
    case _ =>
  }

  /** From an invariant state to another, confirming nothing, or the locker being established with
      every output marked locked. */
  ghost predicate Safe(s: State, t: State) {
    Inv(s) ==> Inv(t) && ConfirmsHeld(s, t) && (t.confirmed != s.confirmed ==> AllShowLocked(t.outputs))
  }

  lemma StepIsSafe(s: State, e: Event)
    requires Enabled(s, e) && !e.EvLock?
    ensures Safe(s, Step(s, e))
  {
    if Inv(s) {
      StepKeepsInv(s, e);
      ConfirmsAtMostOne(s, e);
    }
  }

  /** The same for a lock request, which may confirm the locker it brings. */
  ghost predicate LockSafe(s: State, l: LockId, t: State) {
    && (Inv(s) ==> Inv(t))
    && (t.confirmed == s.confirmed || (t.confirmed == s.confirmed + [l] && t.lock == Locked(l)))
  }

  lemma LockIsSafe(s: State, l: LockId, alive: bool)
    requires l !in s.issued
    ensures LockSafe(s, l, LockSession(s, l, alive))
  {
    if Inv(s) {
      LockKeepsInv(s, l, alive);
    }
    LockConfirmsAtMostOne(s, l, alive);
  }

  /** Each `SessionLocker` handed to the compositor is at any time in exactly one place: held by the
      lock state, confirmed once, or dropped once. */
  lemma LockersSettleOnce(events: seq<Event>, l: LockId)
    requires CanRun(INITIAL, events)
    ensures var s := Run(INITIAL, events);
      Held(s.lock)[l] + multiset(s.confirmed)[l] + multiset(s.dropped)[l] == if l in s.issued then 1 else 0
  {
    RunKeepsInv(INITIAL, events);
    var s := Run(INITIAL, events);
    assert multiset(s.issued)[l] == (Held(s.lock) + multiset(s.confirmed) + multiset(s.dropped))[l];
  }

  /** A deadline timer that fires always finds the state it was armed for, so the wrong-state
      branch of `continue_to_locking` is never taken. */
  lemma DeadlinesFindTheirState(events: seq<Event>, token: Token)
    requires CanRun(INITIAL, events)
    ensures token in Run(INITIAL, events).armed <==>
      exists l :: Run(INITIAL, events).lock == WaitingForSurfaces(l, token)
  {
    RunKeepsInv(INITIAL, events);
    var s := Run(INITIAL, events);
    if token in s.armed {
      assert s.lock == WaitingForSurfaces(s.lock.locker, token);
    }
  }

  /** Locking never gets stuck: some output is queued, or has a frame in flight whose presentation
      queues it. */
  lemma LockingAlwaysHasNextStep(events: seq<Event>)
    requires CanRun(INITIAL, events) && Run(INITIAL, events).lock.Locking?
    ensures var s := Run(INITIAL, events);
      exists o :: o in s.outputs &&
        (s.outputs[o].redraw.IsQueued() || Step(s, EvVBlank(o)).outputs[o].redraw.IsQueued())
  {
    RunKeepsInv(INITIAL, events);
    var s := Run(INITIAL, events);
    var o :| o in s.outputs && s.outputs[o].redraw.HasPendingRedraw();
    assert Step(s, EvVBlank(o)).outputs[o] == VBlank(s.outputs[o]);
  }

  /** A session that is not being locked has no lock surfaces, and while it is being locked only
      the establishing lock has some. */
  lemma SurfacesFollowTheLock(events: seq<Event>, o: OutputId)
    requires CanRun(INITIAL, events) && o in Run(INITIAL, events).outputs
    ensures var s := Run(INITIAL, events);
      && (s.lock.Unlocked? ==> s.outputs[o].lockSurface == None)
      && ((s.lock.WaitingForSurfaces? || s.lock.Locking?) && s.outputs[o].lockSurface.Some? ==>
            s.outputs[o].lockSurface.value.lock == s.lock.locker)
  {
    RunKeepsInv(INITIAL, events);
    var s := Run(INITIAL, events);
    assert s.outputs[o].lockSurface.Some? ==> !s.lock.Unlocked?;
  }
}
