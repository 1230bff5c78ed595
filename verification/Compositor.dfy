/** The compositor object of `src/niri.rs`, reduced to what the session lock and the redraw
    scheduler read and write. Every method is proved to perform the step of LockModel. */
module Compositors {
  import opened Wrappers
  import opened LockModel
  import opened LockSafety

  function LockingRank(s: State): nat {
    if s.lock.Locking? then 1 else 0
  }

  function PanelsPending(s: State): set<OutputId> {
    set o | o in s.outputs && s.outputs[o].panelRedrawPending
  }

  function QueuedOutputs(s: State): set<OutputId> {
    set o | o in s.outputs && s.outputs[o].redraw.IsQueued()
  }

  /** The measure of a redraw cycle: still locking, ring sources not yet refreshed, panel flags set,
      outputs queued; the earlier components weigh more. */
  ghost predicate CycleAdvances(s: State, t: State, c: Carousel) {
    || LockingRank(t) < LockingRank(s)
    || (LockingRank(t) == LockingRank(s) &&
        (|| Unstamped(t, c) < Unstamped(s, c)
         || (Unstamped(t, c) == Unstamped(s, c) &&
             (|| PanelsPending(t) < PanelsPending(s)
              || (PanelsPending(t) == PanelsPending(s) && QueuedOutputs(t) < QueuedOutputs(s))))))
  }

  lemma PrepassAdvances(s: State, o: OutputId, c: Carousel, p: Prepass)
    requires o in s.outputs
    ensures var t := PanelPrepass(s, o, c, p);
      && t.lock == s.lock && t.panelFrame == s.panelFrame && t.outputs.Keys == s.outputs.Keys
      && Unstamped(t, c) <= Unstamped(s, c)
      && (Unstamped(t, c) == Unstamped(s, c) ==> PanelsPending(t) == PanelsPending(s))
      && QueuedOutputs(t) == QueuedOutputs(s)
      && t.outputs[o].redraw == s.outputs[o].redraw
  {
    var t := PanelPrepass(s, o, c, p);
    if p.Entered? && o == c.host {
      assert Unstamped(t, c) == {};
      if Unstamped(s, c) == {} {
        assert forall k | k in s.outputs :: t.outputs[k].panelRedrawPending == s.outputs[k].panelRedrawPending;
      }
    }
  }

  lemma FinishAdvances(s: State, o: OutputId, c: Carousel, r: RenderResult)
    requires o in s.outputs && s.outputs[o].redraw.IsQueued()
    ensures var t := Finish(s, o, r);
      && t.lock == s.lock && t.panelFrame == s.panelFrame && t.outputs.Keys == s.outputs.Keys
      && Unstamped(t, c) == Unstamped(s, c)
      && (PanelsPending(t) < PanelsPending(s)
          || (PanelsPending(t) == PanelsPending(s) && QueuedOutputs(t) < QueuedOutputs(s)))
  {
    var t := Finish(s, o, r);
    if s.outputs[o].panelRedrawPending && r.Drawn? {
      assert o in PanelsPending(s) && o !in PanelsPending(t);
    } else {
      assert o in QueuedOutputs(s) && o !in QueuedOutputs(t);
    }
  }

  lemma DecideAdvances(s: State, o: OutputId, c: Carousel)
    requires o in s.outputs
    ensures var t := Decide(s, o);
      t == s || (LockingRank(t) < LockingRank(s) && t.outputs.Keys == s.outputs.Keys && t.panelFrame == s.panelFrame)
  {
  }

  lemma RedrawFromAdvances(s: State, o: OutputId, c: Carousel, r: RenderResult, capture: Prepass)
    requires o in s.outputs && s.outputs[o].redraw.IsQueued()
    ensures CycleAdvances(s, PanelPrepass(Decide(Finish(s, o, r), o), o, c, capture), c)
  {
    FinishAdvances(s, o, c, r);
    var t := Finish(s, o, r);
    DecideAdvances(t, o, c);
    PrepassAdvances(Decide(t, o), o, c, capture);
  }

  /** Redrawing a queued output advances the cycle, although it may queue that output again (a panel
      published) or all outputs (locking failed). */
  lemma RedrawAdvances(s: State, o: OutputId, c: Carousel, r: RenderOutcome)
    requires o in s.outputs && s.outputs[o].redraw.IsQueued()
    ensures CycleAdvances(s, Redraw(s, o, c, r), c)
  {
    if OutputActive(s, o) {
      var u := s.(outputs := s.outputs[o := s.outputs[o].(animating := r.animating)]);
      assert Unstamped(u, c) == Unstamped(s, c);
      assert PanelsPending(u) == PanelsPending(s);
      assert QueuedOutputs(u) == QueuedOutputs(s);
      PrepassAdvances(u, o, c, r.prepass);
      RedrawFromAdvances(Prepare(s, o, c, r), o, c, r.result, r.capture);
    } else {
      RedrawFromAdvances(s, o, c, Skipped(false), r.capture);
    }
  }

  lemma RedrawKeepsOutputs(s: State, o: OutputId, c: Carousel, r: RenderOutcome)
    requires o in s.outputs
    ensures Redraw(s, o, c, r).outputs.Keys == s.outputs.Keys
  {
    if OutputActive(s, o) {
      assert Prepare(s, o, c, r).outputs.Keys == s.outputs.Keys;
      RedrawFromKeepsOutputs(Prepare(s, o, c, r), o, c, r.result, r.capture);
    } else {
      RedrawFromKeepsOutputs(s, o, c, Skipped(false), r.capture);
    }
  }

  lemma RedrawFromKeepsOutputs(s: State, o: OutputId, c: Carousel, r: RenderResult, capture: Prepass)
    requires o in s.outputs
    ensures PanelPrepass(Decide(Finish(s, o, r), o), o, c, capture).outputs.Keys == s.outputs.Keys
  {
    assert Decide(Finish(s, o, r), o).outputs.Keys == s.outputs.Keys;
  }

  /** One iteration of a redraw cycle. */
  lemma CycleStep(start: State, events: seq<Event>, o: OutputId, c: Carousel, r: RenderOutcome)
    requires CanRun(start, events)
    requires o in Run(start, events).outputs && Run(start, events).outputs[o].redraw.IsQueued()
    ensures var s, t := Run(start, events), Redraw(Run(start, events), o, c, r);
      && CanRun(start, events + [EvRedraw(o, c, r)]) && Run(start, events + [EvRedraw(o, c, r)]) == t
      && t.outputs.Keys == s.outputs.Keys && CycleAdvances(s, t, c)
  {
    var s := Run(start, events);
    var e := EvRedraw(o, c, r);
    assert Run(s, [e]) == Run(Step(s, e), []);
    RunSplits(start, events, [e]);
    RedrawKeepsOutputs(s, o, c, r);
    RedrawAdvances(s, o, c, r);
  }

  /** Once nothing is queued, a session still being locked waits for a frame in flight only. */
  lemma CycleEnds(s: State, events: seq<Event>, t: State)
    requires Inv(s) && CanRun(Step(s, EvBeginCycle), events) && t == Run(Step(s, EvBeginCycle), events)
    requires forall o | o in t.outputs :: !t.outputs[o].redraw.IsQueued()
    ensures Inv(t)
    ensures t.lock.Locking? ==> exists o :: o in t.outputs && t.outputs[o].redraw == WaitingForVBlank(true)
  {
    StepKeepsInv(s, EvBeginCycle);
    RunKeepsInv(Step(s, EvBeginCycle), events);
    if t.lock.Locking? {
      var o :| o in t.outputs && t.outputs[o].redraw.HasPendingRedraw();
      assert t.outputs[o].redraw == WaitingForVBlank(true);
    }
  }

  ghost predicate Keeps(s: State, t: State) {
    Inv(s) ==> Inv(t)
  }

  /** What queueing adds: from the invariant but for pending redraws, the whole of it. */
  ghost predicate BringsProgress(s: State, t: State) {
    InvButProgress(s) && s.outputs != map[] ==> Inv(t)
  }

  /** All of the invariant is kept, except that `o` may have lost its pending redraw. */
  ghost predicate KeepsOthers(s: State, t: State, o: OutputId) {
    Inv(s) ==> InvExcept(t, o)
  }

  lemma QueueingAllKeeps(s: State)
    ensures Keeps(s, s.(outputs := QueueAll(s.outputs))) && BringsProgress(s, s.(outputs := QueueAll(s.outputs)))
  {
    if Inv(s) {
      QueueAllKeepsInv(s);
    }
    if InvButProgress(s) && s.outputs != map[] {
      QueueingBringsProgress(s);
    }
  }

  lemma ContinuingKeeps(s: State)
    ensures Keeps(s, ContinueToLocking(s))
  {
    if Inv(s) {
      ContinueKeepsInv(s);
    }
  }

  lemma MaybeContinuingKeeps(s: State)
    ensures Keeps(s, MaybeContinueToLocking(s))
  {
    if Inv(s) {
      MaybeContinueKeepsInv(s);
    }
  }

  /** The invariant is whole again. */
  ghost predicate Completes(s: State, t: State, o: OutputId) {
    InvExcept(s, o) ==> Inv(t)
  }

  lemma DecidingCompletes(s: State, o: OutputId)
    requires o in s.outputs
    ensures Completes(s, Decide(s, o), o)
  {
    if InvExcept(s, o) {
      DecidingKeepsInv(s, o);
    }
  }

  lemma PrepassKeeps(s: State, o: OutputId, c: Carousel, p: Prepass)
    ensures Keeps(s, PanelPrepass(s, o, c, p))
  {
    PrepassIsScheduling(s, o, c, p);
    if Inv(s) {
      SchedulingKeepsInv(s, PanelPrepass(s, o, c, p));
    }
  }

  lemma FinishingKeeps(s: State, o: OutputId, r: RenderResult)
    requires o in s.outputs
    ensures KeepsOthers(s, Finish(s, o, r), o)
  {
    if Inv(s) {
      FinishingKeepsOthers(s, o, r);
    }
  }

  class Compositor {
    var lockState: LockState
    var outputs: map<OutputId, OutputState>
    var monitorsActive: bool
    var powerOffSkipIsolated: bool
    var armed: set<Token>
    var nextToken: Token
    var panelFrame: nat
    var issued: set<LockId>
    var confirmed: seq<LockId>
    var dropped: seq<LockId>

    function View(): State
      reads this
    {
      State(lockState, outputs, monitorsActive, powerOffSkipIsolated, armed, nextToken, panelFrame,
            issued, confirmed, dropped)
    }

    constructor ()
      ensures View() == INITIAL && Inv(View())
    {
      lockState, outputs, monitorsActive, powerOffSkipIsolated := Unlocked, map[], true, false;
      armed, nextToken, panelFrame := {}, 0, 0;
      issued, confirmed, dropped := {}, [], [];
    }

    method QueueRedraw(o: OutputId)
      requires o in outputs
      modifies this`outputs
      ensures View() == old(View()).(outputs := QueueAmong(old(outputs), {o}))
    {
      outputs := outputs[o := outputs[o].(redraw := outputs[o].redraw.Queue())];
      assert outputs == QueueAmong(old(outputs), {o});
    }

    method QueueRedrawAll()
      modifies this`outputs
      ensures View() == old(View()).(outputs := QueueAll(old(outputs)))
      ensures Keeps(old(View()), View())
      ensures BringsProgress(old(View()), View())
    {
      QueueingAllKeeps(View());
      var todo := outputs.Keys;
      while todo != {}
        invariant todo <= outputs.Keys == old(outputs).Keys
        invariant forall o | o in outputs ::
          outputs[o] == if o in todo then old(outputs)[o] else QueueOutput(old(outputs)[o])
      {
        var o :| o in todo;
        outputs := outputs[o := outputs[o].(redraw := outputs[o].redraw.Queue())];
        todo := todo - {o};
      }
      assert outputs == QueueAll(old(outputs));
    }

    /** `SessionLocker::lock`: report success to the client and keep the lock. */
    method ConfirmLock(l: LockId)
      modifies this`lockState, this`confirmed
      ensures View() == Confirm(old(View()), l)
    {
      confirmed := confirmed + [l];
      lockState := Locked(l);
    }

    method Lock(l: LockId, alive: bool)
      requires l !in issued
      modifies this
      ensures View() == LockSession(old(View()), l, alive)
      ensures LockSafe(old(View()), l, View())
    {
      LockIsSafe(View(), l, alive);
      Receive(l, alive);
    }

    method Receive(l: LockId, alive: bool)
      modifies this
      ensures View() == LockSession(old(View()), l, alive)
    {
      issued := issued + {l};
      if lockState.WaitingForSurfaces? || lockState.Locking? {
        dropped := dropped + [l];
        return;
      }
      if lockState.Locked? {
        if alive {
          dropped := dropped + [l];
        } else {
          ConfirmLock(l);
        }
        return;
      }
      WaitForSurfaces(l);
      if outputs == map[] {
        ContinueToLocking();
      }
    }

    method WaitForSurfaces(l: LockId)
      modifies this`lockState, this`armed, this`nextToken
      ensures View() == old(View()).(lock := WaitingForSurfaces(l, old(nextToken)),
                                     armed := old(armed) + {old(nextToken)}, nextToken := old(nextToken) + 1)
    {
      var token := nextToken;
      nextToken := nextToken + 1;
      armed := armed + {token};
      lockState := WaitingForSurfaces(l, token);
    }

    method MaybeContinueToLocking()
      modifies this
      ensures View() == LockModel.MaybeContinueToLocking(old(View()))
      ensures Keeps(old(View()), View())
    {
      MaybeContinuingKeeps(View());
      if !lockState.WaitingForSurfaces? {
        return;
      }
      var todo := outputs.Keys;
      while todo != {}
        invariant todo <= outputs.Keys
        invariant forall o | o in outputs && o !in todo :: SurfaceReady(outputs[o])
        invariant View() == old(View())
      {
        var o :| o in todo;
        if outputs[o].lockSurface.None? || !outputs[o].lockSurface.value.mapped {
          return;
        }
        todo := todo - {o};
      }
      ContinueToLocking();
    }

    method ContinueToLocking()
      modifies this
      ensures View() == LockModel.ContinueToLocking(old(View()))
      ensures Keeps(old(View()), View())
    {
      ContinuingKeeps(View());
      match lockState
      case WaitingForSurfaces(l, deadline) =>
        armed := armed - {deadline};
        if outputs == map[] {
          ConfirmLock(l);
        } else {
          lockState := Locking(l);
          QueueRedrawAll();
        }
      case _ =>
    }

    method ExpireDeadline(token: Token)
      requires token in armed
      modifies this
      ensures View() == DeadlineExpired(old(View()), token)
      ensures Safe(old(View()), View())
    {
      StepIsSafe(View(), EvDeadline(token));
      ContinueToLocking();
      armed := armed - {token};
    }

    method Unlock()
      modifies this
      ensures View() == LockModel.Unlock(old(View()))
      ensures Safe(old(View()), View())
    {
      StepIsSafe(View(), EvUnlock);
      match lockState {
        case WaitingForSurfaces(l, deadline) =>
          armed := armed - {deadline};
          dropped := dropped + [l];
        case Locking(l) =>
          dropped := dropped + [l];
        case _ =>
      }
      lockState := Unlocked;
      DropLockSurfaces();
      QueueRedrawAll();
    }

    method DropLockSurfaces()
      modifies this`outputs
      ensures View() == old(View()).(outputs := WithoutSurfaces(old(outputs)))
    {
      var todo := outputs.Keys;
      while todo != {}
        invariant todo <= outputs.Keys == old(outputs).Keys
        invariant forall o | o in outputs ::
          outputs[o] == if o in todo then old(outputs)[o] else old(outputs)[o].(lockSurface := None)
      {
        var o :| o in todo;
        outputs := outputs[o := outputs[o].(lockSurface := None)];
        todo := todo - {o};
      }
      assert outputs == WithoutSurfaces(old(outputs));
    }

    method NewLockSurface(o: OutputId, l: LockId, sameClient: bool, mapped: bool)
      modifies this
      ensures View() == LockModel.NewLockSurface(old(View()), o, l, sameClient, mapped)
      ensures Safe(old(View()), View())
    {
      StepIsSafe(View(), EvNewLockSurface(o, l, sameClient, mapped));
      var current: LockId;
      match lockState {
        case Unlocked => return;
        case WaitingForSurfaces(k, _) => current := k;
        case Locking(k) => current := k;
        case Locked(k) => current := k;
      }
      if !sameClient || current != l || o !in outputs {
        return;
      }
      outputs := outputs[o := outputs[o].(lockSurface := Some(LockSurface(l, mapped)))];
    }

    method CommitLockSurface(o: OutputId, mapped: bool)
      requires o in outputs && outputs[o].lockSurface.Some?
      modifies this
      ensures View() == LockModel.CommitLockSurface(old(View()), o, mapped)
      ensures Safe(old(View()), View())
    {
      StepIsSafe(View(), EvCommit(o, mapped));
      var surface := outputs[o].lockSurface.value;
      outputs := outputs[o := outputs[o].(lockSurface := Some(surface.(mapped := mapped)))];
      if lockState.WaitingForSurfaces? {
        MaybeContinueToLocking();
      } else {
        QueueRedraw(o);
      }
    }

    /** Panel refresh and sweep of one `Niri::render` call, up to what they publish. */
    method RefreshPanels(o: OutputId, c: Carousel, p: Prepass)
      modifies this`outputs
      ensures View() == PanelPrepass(old(View()), o, c, p)
      ensures Keeps(old(View()), View())
    {
      PrepassKeeps(View(), o, c, p);
      if p.NotEntered? || o != c.host {
        return;
      }
      RefreshAll(o, Unstamped(View(), c), p.swept - Kept(c), p.published);
    }

    method RefreshAll(o: OutputId, due: set<OutputId>, swept: set<OutputId>, published: bool)
      modifies this`outputs
      ensures View() == old(View()).(outputs := LockModel.RefreshAll(old(View()), o, due, swept, published))
    {
      ghost var s := View();
      var todo := outputs.Keys;
      while todo != {}
        invariant todo <= outputs.Keys == s.outputs.Keys
        invariant forall k | k in outputs ::
          outputs[k] == if k in todo then s.outputs[k] else Refreshed(s, o, due, swept, published, k)
      {
        var k :| k in todo;
        RefreshEntry(k, o, due, swept, published, s);
        todo := todo - {k};
      }
      assert outputs == LockModel.RefreshAll(s, o, due, swept, published);
    }

    method RefreshEntry(k: OutputId, o: OutputId, due: set<OutputId>, swept: set<OutputId>, published: bool, ghost s: State)
      requires k in outputs && k in s.outputs && outputs[k] == s.outputs[k] && panelFrame == s.panelFrame
      modifies this`outputs
      ensures outputs == old(outputs)[k := Refreshed(s, o, due, swept, published, k)]
    {
      var st := RefreshOne(outputs[k], k in due, k in swept, k == o && published && due != {});
      outputs := outputs[k := st];
    }

    method RefreshOne(st: OutputState, due: bool, swept: bool, hostPublished: bool) returns (r: OutputState)
      ensures r == RefreshOutput(st, panelFrame, due, swept, hostPublished)
    {
      r := st;
      if due {
        r := r.(panelStamp := panelFrame);
      } else if swept {
        r := r.(panelStamp := 0);
      }
      if hostPublished {
        r := r.(panelRedrawPending := true);
      }
    }

    method FinishRedraw(o: OutputId, result: RenderResult)
      requires o in outputs
      modifies this`outputs
      ensures View() == Finish(old(View()), o, result)
      ensures KeepsOthers(old(View()), View(), o)
    {
      FinishingKeeps(View(), o, result);
      var st := outputs[o];
      st := st.(redraw := RedrawStateAfter(result, st.redraw));
      if result.Drawn? && st.panelRedrawPending {
        st := st.(panelRedrawPending := false);
        st := st.(redraw := st.redraw.Queue());
      }
      if result.Skipped? {
        if st.redraw.WaitingForEstimatedVBlank? || st.redraw.WaitingForEstimatedVBlankAndQueued? {
          st := st.(redraw := WaitingForEstimatedVBlank);
        } else {
          st := st.(redraw := Idle);
        }
      }
      if result.Drawn? || !monitorsActive {
        st := st.(lockRender := if IsLocked(lockState) then ShowsLocked else ShowsSession);
      }
      if result.Drawn? {
        st := st.(lit := true, lastFrame := if IsLocked(lockState) then LockFrame else SessionFrame);
      }
      outputs := outputs[o := st];
    }

    method Redraw(o: OutputId, c: Carousel, r: RenderOutcome)
      requires o in outputs && outputs[o].redraw.IsQueued()
      modifies this
      ensures View() == LockModel.Redraw(old(View()), o, c, r)
      ensures Safe(old(View()), View())
    {
      StepIsSafe(View(), EvRedraw(o, c, r));
      if monitorsActive || (powerOffSkipIsolated && outputs[o].isolated) {
        outputs := outputs[o := outputs[o].(animating := r.animating)];
        RefreshPanels(o, c, r.prepass);
        FinishRedraw(o, r.result);
      } else {
        FinishRedraw(o, Skipped(false));
      }
      DecideLock(o);
      RefreshPanels(o, c, r.capture);
    }

    /** The check at the end of a redraw: a session that showed its content again is unlocked, and one
        with every output locked is confirmed. */
    method DecideLock(o: OutputId)
      requires o in outputs
      modifies this
      ensures View() == Decide(old(View()), o)
      ensures Completes(old(View()), View(), o)
    {
      DecidingCompletes(View(), o);
      if lockState.Locking? {
        if outputs[o].lockRender.ShowsSession? {
          Unlock();
        } else if AllShowLocked(outputs) {
          ConfirmLock(lockState.locker);
        }
      }
    }

    /** The backend and the clients decide how a render goes. */
    method BackendRender() returns (r: RenderOutcome) {
      r := *;
    }

    /** Redraws until no output is queued, and ends for every behaviour of the backend. */
    method RedrawQueuedOutputs(c: Carousel)
      requires Inv(View())
      modifies this
      ensures Inv(View())
      ensures forall o | o in outputs :: !outputs[o].redraw.IsQueued()
      ensures outputs.Keys == old(outputs).Keys
      ensures lockState.Locking? ==> exists o :: o in outputs && outputs[o].redraw == WaitingForVBlank(true)
      ensures exists events: seq<Event> ::
        && (forall e | e in events :: e.EvRedraw? && e.carousel == c)
        && CanRun(Step(old(View()), EvBeginCycle), events)
        && View() == Run(Step(old(View()), EvBeginCycle), events)
    {
      ghost var start := Step(View(), EvBeginCycle);
      ghost var events: seq<Event> := [];
      panelFrame := panelFrame + 1;
      while exists o :: o in outputs && outputs[o].redraw.IsQueued()
        invariant outputs.Keys == old(outputs).Keys
        invariant forall e | e in events :: e.EvRedraw? && e.carousel == c
        invariant CanRun(start, events) && View() == Run(start, events)
        decreases LockingRank(View()), Unstamped(View(), c), PanelsPending(View()), QueuedOutputs(View())
      {
        var o :| o in outputs && outputs[o].redraw.IsQueued();
        var r := BackendRender();
        CycleStep(start, events, o, c, r);
        Redraw(o, c, r);
        events := events + [EvRedraw(o, c, r)];
      }
      CycleEnds(old(View()), events, View());
    }

    method AddOutput(o: OutputId, isolated: bool, moved: set<OutputId>)
      requires o !in outputs
      modifies this`outputs
      ensures View() == LockModel.AddOutput(old(View()), o, isolated, moved)
      ensures Safe(old(View()), View())
    {
      StepIsSafe(View(), EvAddOutput(o, isolated, moved));
      var shown := if IsLocked(lockState) then ShowsLocked else ShowsSession;
      outputs := outputs[o := OutputState(Idle, shown, None, false, isolated, false, NoFrame, false, 0)];
      QueueMoved(moved + {o});
    }

    method QueueMoved(moved: set<OutputId>)
      modifies this`outputs
      ensures View() == old(View()).(outputs := QueueAmong(old(outputs), moved))
    {
      var todo := moved * outputs.Keys;
      while todo != {}
        invariant todo <= moved * outputs.Keys && outputs.Keys == old(outputs).Keys
        invariant forall o | o in outputs ::
          outputs[o] == if o in moved && o !in todo then QueueOutput(old(outputs)[o]) else old(outputs)[o]
      {
        var o :| o in todo;
        QueueRedraw(o);
        todo := todo - {o};
      }
      assert outputs == QueueAmong(old(outputs), moved);
    }

    method RemoveOutput(o: OutputId, moved: set<OutputId>, screenshotOpen: bool)
      requires o in outputs
      modifies this
      ensures View() == LockModel.RemoveOutput(old(View()), o, moved, screenshotOpen)
      ensures Safe(old(View()), View())
    {
      StepIsSafe(View(), EvRemoveOutput(o, moved, screenshotOpen));
      QueueMoved(moved);
      outputs := outputs - {o};
      if lockState.Locking? {
        if AllShowLocked(outputs) {
          ConfirmLock(lockState.locker);
        }
      } else {
        MaybeContinueToLocking();
      }
      if screenshotOpen {
        QueueRedrawAll();
      }
    }

    method OnVBlank(o: OutputId)
      requires o in outputs
      modifies this`outputs
      ensures View() == old(View()).(outputs := old(outputs)[o := VBlank(old(outputs)[o])])
      ensures Safe(old(View()), View())
    {
      StepIsSafe(View(), EvVBlank(o));
      var needed := true;
      if outputs[o].redraw.WaitingForVBlank? {
        needed := outputs[o].redraw.redrawNeeded;
      }
      outputs := outputs[o := outputs[o].(redraw := Idle)];
      if needed || outputs[o].animating {
        QueueRedraw(o);
      }
    }

    method OnEstimatedVBlank(o: OutputId)
      requires o in outputs
      requires outputs[o].redraw.WaitingForEstimatedVBlank? || outputs[o].redraw.WaitingForEstimatedVBlankAndQueued?
      modifies this`outputs
      ensures View() == old(View()).(outputs := old(outputs)[o := EstimatedVBlank(old(outputs)[o])])
      ensures Safe(old(View()), View())
    {
      StepIsSafe(View(), EvEstimatedVBlank(o));
      var st := outputs[o];
      if st.redraw.WaitingForEstimatedVBlankAndQueued? {
        outputs := outputs[o := st.(redraw := Queued)];
      } else {
        outputs := outputs[o := st.(redraw := if st.animating then Idle.Queue() else Idle)];
      }
    }

    method ActivateMonitors()
      modifies this
      ensures View() == LockModel.ActivateMonitors(old(View()))
      ensures Safe(old(View()), View())
    {
      StepIsSafe(View(), EvActivateMonitors);
      if !monitorsActive {
        monitorsActive, powerOffSkipIsolated := true, false;
        QueueRedrawAll();
      }
    }

    method DeactivateMonitors(skipIsolated: bool, stuck: set<OutputId>)
      modifies this
      ensures View() == LockModel.DeactivateMonitors(old(View()), skipIsolated, stuck)
      ensures Safe(old(View()), View())
    {
      StepIsSafe(View(), EvDeactivateMonitors(skipIsolated, stuck));
      if monitorsActive {
        monitorsActive, powerOffSkipIsolated := false, skipIsolated;
        ClearDisplays(skipIsolated, stuck);
        if skipIsolated {
          QueueRedrawAll();
        }
      }
    }

    /** The backend's part of powering off. */
    method ClearDisplays(skipIsolated: bool, stuck: set<OutputId>)
      modifies this`outputs
      ensures View() == old(View()).(outputs := LockModel.ClearDisplays(old(outputs), skipIsolated, stuck))
    {
      var todo := outputs.Keys;
      while todo != {}
        invariant todo <= outputs.Keys == old(outputs).Keys
        invariant forall o | o in outputs ::
          outputs[o] == if o in todo || (skipIsolated && old(outputs)[o].isolated) || o in stuck then old(outputs)[o]
                        else old(outputs)[o].(lit := false)
      {
        var o :| o in todo;
        if !(skipIsolated && outputs[o].isolated) && o !in stuck {
          outputs := outputs[o := outputs[o].(lit := false)];
        }
        todo := todo - {o};
      }
      assert outputs == LockModel.ClearDisplays(old(outputs), skipIsolated, stuck);
    }
  }
}
