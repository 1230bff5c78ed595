/** What every event does to an output, field by field: its place in the redraw cycle, its mark and
    surface, what is on its display, and the panel flag and stamp. The laws speak of fields only; over
    runs they say that a panel published during a render is never lost track of. */
module OutputLaws {
  import opened Wrappers
  import opened LockModel
  import opened LockLaws

  /** What an output waits for before it can be drawn. */
  datatype Wait = ForNothing | ForVBlank | ForTimer

  function WaitOf(redraw: RedrawState): Wait {
    match redraw
    case WaitingForVBlank(_) => ForVBlank
    case WaitingForEstimatedVBlank => ForTimer
    case WaitingForEstimatedVBlankAndQueued => ForTimer
    case _ => ForNothing
  }

  /** A redraw is due, now or after the wait. */
  predicate Pending(redraw: RedrawState) {
    match redraw
    case Idle => false
    case Queued => true
    case WaitingForVBlank(needed) => needed
    case WaitingForEstimatedVBlank => false
    case WaitingForEstimatedVBlankAndQueued => true
  }

  // ---------- The laws ----------

  predicate Renders(s: State, o: OutputId)
    requires o in s.outputs
  {
    s.monitorsActive || (s.powerOffSkipIsolated && s.outputs[o].isolated)
  }

  predicate IsRedrawOf(e: Event, o: OutputId) {
    e.EvRedraw? && e.output == o
  }

  predicate Draws(s: State, e: Event, o: OutputId)
    requires o in s.outputs
  {
    IsRedrawOf(e, o) && Renders(s, o) && e.outcome.result.Drawn?
  }

  /** Some source in the ring has not been refreshed in this cycle. */
  predicate Stale(s: State, c: Carousel) {
    c.panelsNeeded && exists k | k in s.outputs :: k in c.ring && s.outputs[k].panelStamp != s.panelFrame
  }

  /** The render proper refreshes panels. */
  predicate RefreshesFirst(s: State, e: Event, o: OutputId)
    requires o in s.outputs
  {
    IsRedrawOf(e, o) && e.carousel.host == o && Renders(s, o) && e.outcome.prepass.Entered?
  }

  /** A capture after it refreshes panels. */
  predicate RefreshesLast(e: Event, o: OutputId) {
    IsRedrawOf(e, o) && e.carousel.host == o && e.outcome.capture.Entered?
  }

  predicate PublishesFirst(s: State, e: Event, o: OutputId)
    requires o in s.outputs
  {
    RefreshesFirst(s, e, o) && e.outcome.prepass.published && Stale(s, e.carousel)
  }

  predicate PublishesLast(s: State, e: Event, o: OutputId)
    requires o in s.outputs
  {
    RefreshesLast(e, o) && !RefreshesFirst(s, e, o) && e.outcome.capture.published && Stale(s, e.carousel)
  }

  predicate FlagAfter(s: State, e: Event, o: OutputId)
    requires o in s.outputs
  {
    PublishesLast(s, e, o) || (!Draws(s, e, o) && (s.outputs[o].panelRedrawPending || PublishesFirst(s, e, o)))
  }

  /** All outputs are queued. */
  predicate RequestsAll(s: State, e: Event)
    requires Enabled(s, e)
  {
    || e.EvUnlock? || FailsToLock(s, e) || SurfacesComplete(s, e)
    || (e.EvRemoveOutput? && e.screenshotOpen)
    || (e.EvDeactivateMonitors? && s.monitorsActive && e.skipIsolated)
    || (e.EvActivateMonitors? && !s.monitorsActive)
  }

  /** A redraw of this output is asked for. */
  predicate Requests(s: State, e: Event, o: OutputId)
    requires Enabled(s, e) && o in s.outputs
  {
    var st := s.outputs[o];
    RequestsAll(s, e) ||
    match e
    case EvRedraw(_, _, _) => Draws(s, e, o) && (st.panelRedrawPending || PublishesFirst(s, e, o))
    case EvCommit(k, _) => k == o && !s.lock.WaitingForSurfaces?
    case EvQueue(which) => o in which
    case EvAddOutput(_, _, moved) => o in moved
    case EvRemoveOutput(_, moved, _) => o in moved
    case EvVBlank(k) => k == o && (st.redraw != WaitingForVBlank(false) || st.animating)
    case EvEstimatedVBlank(k) => k == o && st.animating
    case _ => false
  }

  predicate PendingAfter(s: State, e: Event, o: OutputId)
    requires Enabled(s, e) && o in s.outputs
  {
    Requests(s, e, o) || (Pending(s.outputs[o].redraw) && !IsRedrawOf(e, o) && e != EvVBlank(o))
  }

  function WaitAfter(s: State, e: Event, o: OutputId): Wait
    requires o in s.outputs
  {
    if Draws(s, e, o) then
      match e.outcome.result.after
      case BackToIdle => ForNothing
      case FrameQueued => ForVBlank
      case EstimatedVBlankTimer => ForTimer
    else if IsRedrawOf(e, o) then
      if WaitOf(s.outputs[o].redraw).ForTimer? || (Renders(s, o) && e.outcome.result.timerArmed) then ForTimer
      else ForNothing
    else if e == EvVBlank(o) || e == EvEstimatedVBlank(o) then ForNothing
    else WaitOf(s.outputs[o].redraw)
  }

  predicate SessionLocked(s: State) {
    s.lock.Locking? || s.lock.Locked?
  }

  function MarkAfter(s: State, e: Event, o: OutputId): LockRender
    requires o in s.outputs
  {
    if Draws(s, e, o) || (IsRedrawOf(e, o) && !s.monitorsActive)
    then (if SessionLocked(s) then ShowsLocked else ShowsSession)
    else s.outputs[o].lockRender
  }

  /** The client's lock, being established or established. */
  predicate BelongsToLock(s: State, l: LockId) {
    match s.lock
    case Unlocked => false
    case WaitingForSurfaces(k, _) => k == l
    case Locking(k) => k == l
    case Locked(k) => k == l
  }

  function SurfaceAfter(s: State, e: Event, o: OutputId): Option<LockSurface>
    requires Enabled(s, e) && o in s.outputs
  {
    if e.EvUnlock? || FailsToLock(s, e) then None
    else if e.EvNewLockSurface? && e.output == o && e.sameClient && BelongsToLock(s, e.lock)
    then Some(LockSurface(e.lock, e.mapped))
    else if e.EvCommit? && e.output == o then Some(LockSurface(s.outputs[o].lockSurface.value.lock, e.mapped))
    else s.outputs[o].lockSurface
  }

  function LitAfter(s: State, e: Event, o: OutputId): bool
    requires o in s.outputs
  {
    if Draws(s, e, o) then true
    else if e.EvDeactivateMonitors? && s.monitorsActive
    then s.outputs[o].lit && ((e.skipIsolated && s.outputs[o].isolated) || o in e.stuck)
    else s.outputs[o].lit
  }

  function FrameAfter(s: State, e: Event, o: OutputId): Frame
    requires o in s.outputs
  {
    if Draws(s, e, o) then (if SessionLocked(s) then LockFrame else SessionFrame) else s.outputs[o].lastFrame
  }

  function AnimatingAfter(s: State, e: Event, o: OutputId): bool
    requires o in s.outputs
  {
    if IsRedrawOf(e, o) && Renders(s, o) then e.outcome.animating else s.outputs[o].animating
  }

  function IsolatedAfter(s: State, e: Event, o: OutputId): bool
    requires o in s.outputs
  {
    if e.EvSetIsolated? && e.output == o then e.isolated else s.outputs[o].isolated
  }

  /** The stamp of a content output `k`: refreshed with its ring, or swept with the sources outside. */
  function StampAfter(s: State, e: Event, k: OutputId): nat
    requires Enabled(s, e) && k in s.outputs
  {
    if !e.EvRedraw? then s.outputs[k].panelStamp
    else
      var first, last := RefreshesFirst(s, e, e.output), RefreshesLast(e, e.output);
      var needed := e.carousel.panelsNeeded && k in e.carousel.ring;
      if (first || last) && needed then s.panelFrame
      else if (first && k in e.outcome.prepass.swept) || (last && k in e.outcome.capture.swept) then 0
      else s.outputs[k].panelStamp
  }

  ghost predicate ChangesOutput(s: State, e: Event, o: OutputId, st: OutputState)
    requires Enabled(s, e) && o in s.outputs
  {
    && Pending(st.redraw) == PendingAfter(s, e, o)
    && WaitOf(st.redraw) == WaitAfter(s, e, o)
    && ChangesRest(s, e, o, st)
  }

  ghost predicate ChangesRest(s: State, e: Event, o: OutputId, st: OutputState)
    requires Enabled(s, e) && o in s.outputs
  {
    && st.lockRender == MarkAfter(s, e, o)
    && st.lockSurface == SurfaceAfter(s, e, o)
    && st.animating == AnimatingAfter(s, e, o)
    && st.isolated == IsolatedAfter(s, e, o)
    && st.lit == LitAfter(s, e, o)
    && st.lastFrame == FrameAfter(s, e, o)
    && st.panelRedrawPending == FlagAfter(s, e, o)
    && st.panelStamp == StampAfter(s, e, o)
  }

  // ---------- Queueing ----------

  /** Queueing makes a redraw due and changes nothing else. */
  lemma QueueMeans(st: OutputState)
    ensures Pending(QueueOutput(st).redraw) && WaitOf(QueueOutput(st).redraw) == WaitOf(st.redraw)
    ensures QueueOutput(st).(redraw := st.redraw) == st
  {
  }

  /** The state of a redraw is what it waits for, and whether one is due. */
  lemma WaitAndPendingDecide(a: RedrawState, b: RedrawState)
    requires WaitOf(a) == WaitOf(b) && Pending(a) == Pending(b)
    ensures a == b
  {
  }

  // ---------- A redraw, stage by stage ----------

  /** A refresh and sweep of panels on behalf of `o`, seen from one output. */
  lemma PrepassOutput(s: State, o: OutputId, c: Carousel, p: Prepass, k: OutputId)
    requires k in s.outputs
    ensures var t := PanelPrepass(s, o, c, p);
      var enters := p.Entered? && c.host == o;
      && t.outputs.Keys == s.outputs.Keys
      && t.outputs[k] == s.outputs[k].(
           panelStamp := if enters && c.panelsNeeded && k in c.ring then s.panelFrame
                         else if enters && k in p.swept then 0 else s.outputs[k].panelStamp,
           panelRedrawPending := s.outputs[k].panelRedrawPending || (enters && k == o && p.published && Stale(s, c)))
  {
    if p.Entered? && c.host == o {
      StaleMeansDue(s, c);
    }
  }

  lemma StaleMeansDue(s: State, c: Carousel)
    ensures Stale(s, c) <==> Unstamped(s, c) != {}
  {
    if Stale(s, c) {
      var k :| k in s.outputs && k in c.ring && s.outputs[k].panelStamp != s.panelFrame;
      assert k in Unstamped(s, c);
    }
  }

  /** The two agree on how fresh the sources are. */
  ghost predicate SameStamps(s: State, t: State) {
    && t.panelFrame == s.panelFrame && t.outputs.Keys == s.outputs.Keys
    && forall k | k in s.outputs :: t.outputs[k].panelStamp == s.outputs[k].panelStamp
  }

  lemma SameStampsSameStale(s: State, t: State, c: Carousel)
    requires SameStamps(s, t)
    ensures Stale(t, c) == Stale(s, c)
  {
    if Stale(s, c) {
      var k :| k in s.outputs && k in c.ring && s.outputs[k].panelStamp != s.panelFrame;
      assert t.outputs[k].panelStamp != t.panelFrame;
    }
  }

  lemma PrepassFreshens(s: State, o: OutputId, c: Carousel, p: Prepass)
    ensures Stale(PanelPrepass(s, o, c, p), c) == (Stale(s, c) && !(p.Entered? && c.host == o))
  {
    if p.Entered? && c.host == o {
      var t := PanelPrepass(s, o, c, p);
      forall k | k in t.outputs && k in c.ring && c.panelsNeeded ensures t.outputs[k].panelStamp == t.panelFrame {
        PrepassOutput(s, o, c, p, k);
      }
    }
  }

  /** The render proper, up to and including the bookkeeping after it. */
  function Rendered(s: State, o: OutputId, c: Carousel, r: RenderOutcome): State
    requires o in s.outputs
  {
    if OutputActive(s, o) then Finish(Prepare(s, o, c, r), o, r.result) else Finish(s, o, Skipped(false))
  }

  /** Unlocking queues every output and drops its surface. */
  lemma DecidedOutput(s: State, o: OutputId, k: OutputId)
    requires o in s.outputs && k in s.outputs
    ensures var t, fails := Decide(s, o), s.lock.Locking? && s.outputs[o].lockRender.ShowsSession?;
      && t.outputs.Keys == s.outputs.Keys && t.panelFrame == s.panelFrame
      && t.outputs[k] == if fails then QueueOutput(s.outputs[k].(lockSurface := None)) else s.outputs[k]
  {
  }

  lemma DecisionKeepsStamps(s: State, o: OutputId)
    requires o in s.outputs
    ensures SameStamps(s, Decide(s, o))
  {
  }

  lemma FinishKeepsStamps(s: State, o: OutputId, r: RenderResult)
    requires o in s.outputs
    ensures SameStamps(s, Finish(s, o, r))
  {
  }

  /** The output being redrawn when it enters the backend. */
  lemma PreparedOutput(s: State, o: OutputId, c: Carousel, r: RenderOutcome)
    requires o in s.outputs && Renders(s, o)
    ensures var t, before := Prepare(s, o, c, r), s.outputs[o];
      && t.outputs.Keys == s.outputs.Keys && t.lock == s.lock && t.monitorsActive == s.monitorsActive
      && t.outputs[o] == before.(
           animating := r.animating, panelStamp := t.outputs[o].panelStamp,
           panelRedrawPending := before.panelRedrawPending || PublishesFirst(s, EvRedraw(o, c, r), o))
  {
    var a := s.(outputs := s.outputs[o := s.outputs[o].(animating := r.animating)]);
    assert SameStamps(s, a);
    SameStampsSameStale(s, a, c);
    PrepassOutput(a, o, c, r.prepass, o);
  }

  /** The bookkeeping after the backend has returned. */
  lemma FinishedOutput(st: OutputState, r: RenderResult, locked: bool, active: bool)
    ensures var t := FinishRender(st, r, locked, active);
      && Pending(t.redraw) == (r.Drawn? && st.panelRedrawPending)
      && WaitOf(t.redraw) == (if r.Drawn? then (match r.after case BackToIdle => ForNothing case FrameQueued => ForVBlank
                                                case EstimatedVBlankTimer => ForTimer)
                              else if WaitOf(st.redraw).ForTimer? || r.timerArmed then ForTimer else ForNothing)
      && t.panelRedrawPending == (r.Skipped? && st.panelRedrawPending)
      && t.lockRender == (if r.Drawn? || !active then (if locked then ShowsLocked else ShowsSession) else st.lockRender)
      && t.lit == (r.Drawn? || st.lit)
      && t.lastFrame == (if r.Drawn? then (if locked then LockFrame else SessionFrame) else st.lastFrame)
      && t.lockSurface == st.lockSurface && t.animating == st.animating && t.isolated == st.isolated
  {
  }

  /** The output being redrawn after the render proper. */
  ghost predicate RendersOutput(s: State, e: Event, o: OutputId, st: OutputState)
    requires Enabled(s, e) && o in s.outputs
  {
    var before := s.outputs[o];
    var owed := before.panelRedrawPending || PublishesFirst(s, e, o);
    && Pending(st.redraw) == (Draws(s, e, o) && owed)
    && WaitOf(st.redraw) == WaitAfter(s, e, o)
    && st.panelRedrawPending == (!Draws(s, e, o) && owed)
    && st.lockRender == MarkAfter(s, e, o) && st.lockSurface == before.lockSurface
    && st.animating == AnimatingAfter(s, e, o) && st.isolated == before.isolated
    && st.lit == LitAfter(s, e, o) && st.lastFrame == FrameAfter(s, e, o)
  }

  lemma RenderedOutput(s: State, o: OutputId, c: Carousel, r: RenderOutcome)
    requires Enabled(s, EvRedraw(o, c, r))
    ensures Rendered(s, o, c, r).outputs.Keys == s.outputs.Keys
    ensures RendersOutput(s, EvRedraw(o, c, r), o, Rendered(s, o, c, r).outputs[o])
  {
    if Renders(s, o) {
      PreparedOutput(s, o, c, r);
      FinishedOutput(Prepare(s, o, c, r).outputs[o], r.result, SessionLocked(s), s.monitorsActive);
    } else {
      FinishedOutput(s.outputs[o], Skipped(false), SessionLocked(s), s.monitorsActive);
    }
  }

  lemma RenderedOther(s: State, o: OutputId, c: Carousel, r: RenderOutcome, k: OutputId)
    requires Enabled(s, EvRedraw(o, c, r)) && k in s.outputs && k != o
    ensures Rendered(s, o, c, r).outputs.Keys == s.outputs.Keys
    ensures Rendered(s, o, c, r).outputs[k].(panelStamp := 0) == s.outputs[k].(panelStamp := 0)
  {
    if OutputActive(s, o) {
      var a := s.(outputs := s.outputs[o := s.outputs[o].(animating := r.animating)]);
      PrepassOutput(a, o, c, r.prepass, k);
    }
  }

  /** The sources after the render proper: whether any is stale, and one stamp. */
  ghost predicate RendersStamps(s: State, o: OutputId, c: Carousel, first: bool, swept: set<OutputId>, u: State, k: OutputId)
    requires k in s.outputs
  {
    && u.panelFrame == s.panelFrame && u.outputs.Keys == s.outputs.Keys
    && Stale(u, c) == (Stale(s, c) && !first)
    && u.outputs[k].panelStamp == (if first && c.panelsNeeded && k in c.ring then s.panelFrame
                                   else if first && k in swept then 0 else s.outputs[k].panelStamp)
  }

  lemma PreparedStamps(s: State, o: OutputId, c: Carousel, r: RenderOutcome, k: OutputId)
    requires o in s.outputs && k in s.outputs
    ensures RendersStamps(s, o, c, c.host == o && r.prepass.Entered?, if r.prepass.Entered? then r.prepass.swept else {},
                          Prepare(s, o, c, r), k)
  {
    var a := s.(outputs := s.outputs[o := s.outputs[o].(animating := r.animating)]);
    assert SameStamps(s, a);
    SameStampsSameStale(s, a, c);
    PrepassOutput(a, o, c, r.prepass, k);
    PrepassFreshens(a, o, c, r.prepass);
  }

  lemma RenderedStamps(s: State, o: OutputId, c: Carousel, r: RenderOutcome, k: OutputId)
    requires Enabled(s, EvRedraw(o, c, r)) && k in s.outputs
    ensures RendersStamps(s, o, c, RefreshesFirst(s, EvRedraw(o, c, r), o),
                          if r.prepass.Entered? then r.prepass.swept else {}, Rendered(s, o, c, r), k)
  {
    if Renders(s, o) {
      PreparedStamps(s, o, c, r, k);
      FinishKeepsStamps(Prepare(s, o, c, r), o, r.result);
      SameStampsSameStale(Prepare(s, o, c, r), Rendered(s, o, c, r), c);
    } else {
      FinishKeepsStamps(s, o, Skipped(false));
      SameStampsSameStale(s, Rendered(s, o, c, r), c);
    }
  }

  lemma RedrawUnfolds(s: State, o: OutputId, c: Carousel, r: RenderOutcome)
    requires o in s.outputs
    ensures Redraw(s, o, c, r) == PanelPrepass(Decide(Rendered(s, o, c, r), o), o, c, r.capture)
    ensures Rendered(s, o, c, r).lock == s.lock
  {
  }

  /** The output being redrawn fails to lock just when the decision after its render unlocks. */
  lemma FailureUnlocks(s: State, o: OutputId, c: Carousel, r: RenderOutcome)
    requires Enabled(s, EvRedraw(o, c, r))
    ensures var u := Rendered(s, o, c, r);
      u.outputs.Keys == s.outputs.Keys
      && (FailsToLock(s, EvRedraw(o, c, r)) <==> u.lock.Locking? && u.outputs[o].lockRender.ShowsSession?)
  {
    RenderedOutput(s, o, c, r);
    RedrawUnfolds(s, o, c, r);
  }

  /** From the render proper to the end of the redraw, seen from one output. */
  lemma RedrawnFromRendered(s: State, o: OutputId, c: Carousel, r: RenderOutcome, k: OutputId)
    requires Enabled(s, EvRedraw(o, c, r)) && k in s.outputs
    ensures var e, u, t := EvRedraw(o, c, r), Rendered(s, o, c, r), Redraw(s, o, c, r);
      && u.outputs.Keys == s.outputs.Keys && t.outputs.Keys == s.outputs.Keys
      && (var before := if FailsToLock(s, e) then QueueOutput(u.outputs[k].(lockSurface := None)) else u.outputs[k];
          t.outputs[k] == before.(panelStamp := StampAfter(s, e, k),
                                  panelRedrawPending := before.panelRedrawPending || (k == o && PublishesLast(s, e, o))))
  {
    FailureUnlocks(s, o, c, r);
    RedrawUnfolds(s, o, c, r);
    RenderedStamps(s, o, c, r, k);
    var u := Rendered(s, o, c, r);
    DecidedOutput(u, o, k);
    DecisionKeepsStamps(u, o);
    SameStampsSameStale(u, Decide(u, o), c);
    PrepassOutput(Decide(u, o), o, c, r.capture, k);
  }

  lemma RedrawChangesOutput(s: State, o: OutputId, c: Carousel, r: RenderOutcome, k: OutputId)
    requires Enabled(s, EvRedraw(o, c, r)) && k in s.outputs
    ensures Redraw(s, o, c, r).outputs.Keys == s.outputs.Keys
    ensures ChangesOutput(s, EvRedraw(o, c, r), k, Redraw(s, o, c, r).outputs[k])
  {
    RedrawnFromRendered(s, o, c, r, k);
    var st := Rendered(s, o, c, r).outputs[k];
    QueueMeans(st.(lockSurface := None));
    if k == o {
      RenderedOutput(s, o, c, r);
    } else {
      RenderedOther(s, o, c, r, k);
    }
  }

  // ---------- The other events ----------

  /** Before any queueing. */
  ghost function Touched(s: State, e: Event, k: OutputId): OutputState
    requires Enabled(s, e) && k in s.outputs
  {
    s.outputs[k].(lockSurface := SurfaceAfter(s, e, k), isolated := IsolatedAfter(s, e, k), lit := LitAfter(s, e, k))
  }

  /** An event that neither redraws nor presents this output at most queues it. */
  lemma AtMostQueued(s: State, e: Event, k: OutputId, st: OutputState)
    requires Enabled(s, e) && k in s.outputs && !e.EvRedraw? && e != EvVBlank(k) && e != EvEstimatedVBlank(k)
    requires st == if Requests(s, e, k) then QueueOutput(Touched(s, e, k)) else Touched(s, e, k)
    ensures ChangesOutput(s, e, k, st)
  {
    QueueMeans(Touched(s, e, k));
  }

  lemma PresentedOutput(s: State, k: OutputId)
    requires k in s.outputs
    ensures ChangesOutput(s, EvVBlank(k), k, VBlank(s.outputs[k]))
    ensures Enabled(s, EvEstimatedVBlank(k)) ==> ChangesOutput(s, EvEstimatedVBlank(k), k, EstimatedVBlank(s.outputs[k]))
  {
  }

  lemma PresentationChangesOutput(s: State, e: Event, k: OutputId)
    requires Enabled(s, e) && (e.EvVBlank? || e.EvEstimatedVBlank?) && k in s.outputs
    ensures k in Step(s, e).outputs && ChangesOutput(s, e, k, Step(s, e).outputs[k])
  {
    if e.output == k {
      PresentedOutput(s, k);
    } else {
      AtMostQueued(s, e, k, Step(s, e).outputs[k]);
    }
  }

  lemma ContinuedOutput(s: State, k: OutputId)
    requires k in s.outputs
    ensures ContinueToLocking(s).outputs.Keys == s.outputs.Keys
    ensures ContinueToLocking(s).outputs[k] == if s.lock.WaitingForSurfaces? then QueueOutput(s.outputs[k]) else s.outputs[k]
  {
  }

  lemma RequestChangesOutput(s: State, l: LockId, alive: bool, k: OutputId)
    requires l !in s.issued && k in s.outputs
    ensures k in LockSession(s, l, alive).outputs
    ensures ChangesOutput(s, EvLock(l, alive), k, LockSession(s, l, alive).outputs[k])
  {
    AtMostQueued(s, EvLock(l, alive), k, LockSession(s, l, alive).outputs[k]);
  }

  lemma UnlockChangesOutput(s: State, k: OutputId)
    requires k in s.outputs
    ensures k in Unlock(s).outputs && ChangesOutput(s, EvUnlock, k, Unlock(s).outputs[k])
  {
    AtMostQueued(s, EvUnlock, k, Unlock(s).outputs[k]);
  }

  lemma DeadlineChangesOutput(s: State, token: Token, k: OutputId)
    requires token in s.armed && k in s.outputs
    ensures k in DeadlineExpired(s, token).outputs
    ensures ChangesOutput(s, EvDeadline(token), k, DeadlineExpired(s, token).outputs[k])
  {
    ContinuedOutput(s, k);
    AtMostQueued(s, EvDeadline(token), k, DeadlineExpired(s, token).outputs[k]);
  }

  lemma SurfaceChangesOutput(s: State, e: Event, k: OutputId)
    requires Enabled(s, e) && e.EvNewLockSurface? && k in s.outputs
    ensures k in Step(s, e).outputs && ChangesOutput(s, e, k, Step(s, e).outputs[k])
  {
    AtMostQueued(s, e, k, Step(s, e).outputs[k]);
  }

  lemma CommittedOutput(s: State, s1: State, o: OutputId, mapped: bool, k: OutputId)
    requires o in s.outputs && s.outputs[o].lockSurface.Some? && k in s.outputs
    requires s1 == s.(outputs := s.outputs[o := s.outputs[o].(lockSurface :=
                        Some(s.outputs[o].lockSurface.value.(mapped := mapped)))])
    ensures s1.outputs[k] == Touched(s, EvCommit(o, mapped), k)
    ensures s.lock.WaitingForSurfaces? ==>
      (SurfacesComplete(s, EvCommit(o, mapped)) <==> forall j | j in s1.outputs :: SurfaceReady(s1.outputs[j]))
  {
    CommittedSurfaces(s, s1.outputs, o, mapped);
  }

  lemma CommitChangesOutput(s: State, o: OutputId, mapped: bool, k: OutputId)
    requires o in s.outputs && s.outputs[o].lockSurface.Some? && k in s.outputs
    ensures k in CommitLockSurface(s, o, mapped).outputs
    ensures ChangesOutput(s, EvCommit(o, mapped), k, CommitLockSurface(s, o, mapped).outputs[k])
  {
    var st := s.outputs[o];
    var s1 := s.(outputs := s.outputs[o := st.(lockSurface := Some(st.lockSurface.value.(mapped := mapped)))]);
    CommittedOutput(s, s1, o, mapped, k);
    ContinuedOutput(s1, k);
    AtMostQueued(s, EvCommit(o, mapped), k, CommitLockSurface(s, o, mapped).outputs[k]);
  }

  lemma AddingChangesOutput(s: State, o: OutputId, isolated: bool, moved: set<OutputId>, k: OutputId)
    requires o !in s.outputs && k in s.outputs
    ensures k in AddOutput(s, o, isolated, moved).outputs
    ensures ChangesOutput(s, EvAddOutput(o, isolated, moved), k, AddOutput(s, o, isolated, moved).outputs[k])
  {
    AtMostQueued(s, EvAddOutput(o, isolated, moved), k, AddOutput(s, o, isolated, moved).outputs[k]);
  }

  lemma PowerChangesOutput(s: State, e: Event, k: OutputId)
    requires Enabled(s, e) && (e.EvDeactivateMonitors? || e.EvActivateMonitors?) && k in s.outputs
    ensures k in Step(s, e).outputs && ChangesOutput(s, e, k, Step(s, e).outputs[k])
  {
    AtMostQueued(s, e, k, Step(s, e).outputs[k]);
  }

  lemma SettingsChangeOutput(s: State, e: Event, k: OutputId)
    requires Enabled(s, e) && (e.EvQueue? || e.EvSetIsolated? || e.EvBeginCycle?) && k in s.outputs
    ensures k in Step(s, e).outputs && ChangesOutput(s, e, k, Step(s, e).outputs[k])
  {
    AtMostQueued(s, e, k, Step(s, e).outputs[k]);
  }

  lemma QueueingTwice(st: OutputState)
    ensures QueueOutput(QueueOutput(st)) == QueueOutput(st)
  {
  }

  lemma RemovingContinues(s: State, o: OutputId, moved: set<OutputId>, k: OutputId)
    requires o in s.outputs && k in s.outputs && k != o
    ensures var s1 := s.(outputs := QueueAmong(s.outputs, moved) - {o});
      var s2 := if s.lock.Locking? then CheckLocked(s1) else MaybeContinueToLocking(s1);
      && s1.outputs.Keys == s.outputs.Keys - {o} && s2.outputs.Keys == s1.outputs.Keys
      && s2.outputs[k] == if k in moved || (s.lock.WaitingForSurfaces? && OthersMapped(s, o)) then QueueOutput(s.outputs[k])
                          else s.outputs[k]
  {
    var s1 := s.(outputs := QueueAmong(s.outputs, moved) - {o});
    RemainingOutputs(s, o, moved);
    ContinuedOutput(s1, k);
    QueueingTwice(s.outputs[k]);
  }

  lemma RemovingChangesOutput(s: State, o: OutputId, moved: set<OutputId>, screenshotOpen: bool, k: OutputId)
    requires o in s.outputs && k in s.outputs && k != o
    ensures k in RemoveOutput(s, o, moved, screenshotOpen).outputs
    ensures ChangesOutput(s, EvRemoveOutput(o, moved, screenshotOpen), k,
                          RemoveOutput(s, o, moved, screenshotOpen).outputs[k])
  {
    RemovingContinues(s, o, moved, k);
    QueueingTwice(s.outputs[k]);
    AtMostQueued(s, EvRemoveOutput(o, moved, screenshotOpen), k, RemoveOutput(s, o, moved, screenshotOpen).outputs[k]);
  }

  /** Every event changes every output exactly as the laws say. */
  lemma StepChangesOutput(s: State, e: Event, k: OutputId)
    requires Enabled(s, e) && k in s.outputs && !(e.EvRemoveOutput? && e.output == k)
    ensures k in Step(s, e).outputs && ChangesOutput(s, e, k, Step(s, e).outputs[k])
  {
    match e
    case EvRedraw(o, c, r) => RedrawChangesOutput(s, o, c, r, k);
    case EvCommit(o, mapped) => CommitChangesOutput(s, o, mapped, k);
    case EvAddOutput(o, isolated, moved) => AddingChangesOutput(s, o, isolated, moved, k);
    case EvRemoveOutput(o, moved, screenshotOpen) => RemovingChangesOutput(s, o, moved, screenshotOpen, k);
    case EvVBlank(_) => PresentationChangesOutput(s, e, k);
    case EvEstimatedVBlank(_) => PresentationChangesOutput(s, e, k);
    case EvDeactivateMonitors(_, _) => PowerChangesOutput(s, e, k);
    case EvActivateMonitors => PowerChangesOutput(s, e, k);
    case EvQueue(_) => SettingsChangeOutput(s, e, k);
    case EvSetIsolated(_, _) => SettingsChangeOutput(s, e, k);
    case EvBeginCycle => SettingsChangeOutput(s, e, k);
    case EvLock(l, alive) => RequestChangesOutput(s, l, alive, k);
    case EvUnlock => UnlockChangesOutput(s, k);
    case EvDeadline(token) => DeadlineChangesOutput(s, token, k);
    case EvNewLockSurface(_, _, _, _) => SurfaceChangesOutput(s, e, k);
  }

  /** The outputs that there are, and the state of the monitors. */
  ghost predicate SameFrame(s: State, t: State) {
    && t.outputs.Keys == s.outputs.Keys && t.monitorsActive == s.monitorsActive
    && t.powerOffSkipIsolated == s.powerOffSkipIsolated && t.panelFrame == s.panelFrame
  }

  lemma DecisionKeepsFrame(s: State, o: OutputId)
    requires o in s.outputs
    ensures SameFrame(s, Decide(s, o))
  {
  }

  lemma PrepassKeepsFrame(s: State, o: OutputId, c: Carousel, p: Prepass)
    ensures SameFrame(s, PanelPrepass(s, o, c, p))
  {
  }

  lemma RenderedKeepsFrame(s: State, o: OutputId, c: Carousel, r: RenderOutcome)
    requires o in s.outputs
    ensures SameFrame(s, Rendered(s, o, c, r))
  {
    if OutputActive(s, o) {
      var a := s.(outputs := s.outputs[o := s.outputs[o].(animating := r.animating)]);
      PrepassKeepsFrame(a, o, c, r.prepass);
      assert SameFrame(s, a);
    }
  }

  lemma RedrawKeepsFrame(s: State, o: OutputId, c: Carousel, r: RenderOutcome)
    requires o in s.outputs
    ensures SameFrame(s, Redraw(s, o, c, r))
  {
    RenderedKeepsFrame(s, o, c, r);
    var u := Rendered(s, o, c, r);
    DecisionKeepsFrame(u, o);
    PrepassKeepsFrame(Decide(u, o), o, c, r.capture);
    RedrawUnfolds(s, o, c, r);
  }

  lemma RemovalKeepsFrame(s: State, o: OutputId, moved: set<OutputId>, screenshotOpen: bool)
    requires o in s.outputs
    ensures SameFrame(s.(outputs := s.outputs - {o}), RemoveOutput(s, o, moved, screenshotOpen))
  {
    var s1 := s.(outputs := QueueAmong(s.outputs, moved) - {o});
    assert SameFrame(s1, if s.lock.Locking? then CheckLocked(s1) else MaybeContinueToLocking(s1));
  }

  lemma CommitKeepsFrame(s: State, o: OutputId, mapped: bool)
    requires o in s.outputs && s.outputs[o].lockSurface.Some?
    ensures SameFrame(s, CommitLockSurface(s, o, mapped))
  {
    var st := s.outputs[o];
    var s1 := s.(outputs := s.outputs[o := st.(lockSurface := Some(st.lockSurface.value.(mapped := mapped)))]);
    assert SameFrame(s, s1);
    assert SameFrame(s1, MaybeContinueToLocking(s1));
  }

  lemma MostKeepFrame(s: State, e: Event)
    requires Enabled(s, e) && !e.EvRedraw? && !e.EvRemoveOutput? && !e.EvAddOutput? && !e.EvCommit?
    requires !e.EvDeactivateMonitors? && !e.EvActivateMonitors? && !e.EvBeginCycle?
    ensures SameFrame(s, Step(s, e))
  {
  }

  /** Which outputs there are afterwards, and the state of the monitors. */
  lemma StepChangesFrame(s: State, e: Event)
    requires Enabled(s, e)
    ensures var t := Step(s, e);
      && t.outputs.Keys == s.outputs.Keys + (if e.EvAddOutput? then {e.output} else {})
                           - (if e.EvRemoveOutput? then {e.output} else {})
      && t.monitorsActive == ((s.monitorsActive && !e.EvDeactivateMonitors?) || e.EvActivateMonitors?)
      && t.powerOffSkipIsolated == (if s.monitorsActive && e.EvDeactivateMonitors? then e.skipIsolated
                                    else s.powerOffSkipIsolated && (s.monitorsActive || !e.EvActivateMonitors?))
      && t.panelFrame == s.panelFrame + (if e.EvBeginCycle? then 1 else 0)
  {
    match e
    case EvRedraw(o, c, r) => RedrawKeepsFrame(s, o, c, r);
    case EvRemoveOutput(o, moved, screenshotOpen) => RemovalKeepsFrame(s, o, moved, screenshotOpen);
    case EvCommit(o, mapped) => CommitKeepsFrame(s, o, mapped);
    case EvAddOutput(_, _, _) =>
    case EvDeactivateMonitors(_, _) =>
    case EvActivateMonitors =>
    case EvBeginCycle =>
    case _ => MostKeepFrame(s, e);
  }

  /** A new output starts queued, unlit and without a surface, marked as the session is. */
  lemma NewOutputStarts(s: State, o: OutputId, isolated: bool, moved: set<OutputId>)
    requires Enabled(s, EvAddOutput(o, isolated, moved))
    ensures o in Step(s, EvAddOutput(o, isolated, moved)).outputs
    ensures Step(s, EvAddOutput(o, isolated, moved)).outputs[o] ==
            OutputState(Queued, if SessionLocked(s) then ShowsLocked else ShowsSession, None, false, isolated, false, NoFrame,
                        false, 0)
  {
  }

  // ---------- Panel publications ----------

  /** The redraw of a host that refreshes a stale source which publishes, before or after the render
      proper. */
  predicate Publishes(s: State, e: Event, o: OutputId)
    requires o in s.outputs
  {
    PublishesFirst(s, e, o) || PublishesLast(s, e, o)
  }

  /** A redraw that is to show what was published: its flag is set, or it is pending. */
  predicate Owed(s: State, o: OutputId) {
    o in s.outputs && (s.outputs[o].panelRedrawPending || s.outputs[o].redraw.HasPendingRedraw())
  }

  lemma PendingIsPending(redraw: RedrawState)
    ensures redraw.HasPendingRedraw() <==> Pending(redraw)
    ensures redraw.IsQueued() <==> Pending(redraw) && !WaitOf(redraw).ForVBlank?
  {
  }

  /** A publication leaves a redraw owed; one during a render that succeeds, or whose flag was left
      over from before, leaves it pending. */
  lemma PublicationIsOwed(s: State, e: Event, o: OutputId)
    requires Enabled(s, e) && o in s.outputs
    ensures Publishes(s, e, o) ==> Owed(Step(s, e), o)
    ensures Draws(s, e, o) && (s.outputs[o].panelRedrawPending || PublishesFirst(s, e, o)) ==>
              o in Step(s, e).outputs && Step(s, e).outputs[o].redraw.HasPendingRedraw()
  {
    if e.EvRedraw? {
      StepChangesOutput(s, e, o);
      PendingIsPending(Step(s, e).outputs[o].redraw);
    }
  }

  /** A redraw that is owed stays owed, except exactly when this output is removed, or is redrawn with
      no flag set and nothing published, and is not queued again by an unlock: it has then been shown if
      the redraw draws, and is lost if the redraw fails. */
  lemma OwedEndsIff(s: State, e: Event, o: OutputId)
    requires Enabled(s, e) && Owed(s, o)
    ensures !Owed(Step(s, e), o) <==>
      || (e.EvRemoveOutput? && e.output == o)
      || (IsRedrawOf(e, o) && !s.outputs[o].panelRedrawPending && !Publishes(s, e, o) && !FailsToLock(s, e))
  {
    PendingIsPending(s.outputs[o].redraw);
    StepChangesFrame(s, e);
    if !(e.EvRemoveOutput? && e.output == o) {
      StepChangesOutput(s, e, o);
      PendingIsPending(Step(s, e).outputs[o].redraw);
    }
  }

  /** No event of a run draws the output or removes it. */
  predicate Undrawn(s: State, events: seq<Event>, o: OutputId)
    requires CanRun(s, events)
    decreases |events|
  {
    events == [] ||
    (o in s.outputs && !Draws(s, events[0], o) && !(events[0].EvRemoveOutput? && events[0].output == o)
     && Undrawn(Step(s, events[0]), events[1..], o))
  }

  /** The flag survives every run until its output is drawn, failed redraws included; drawing it then
      leaves a redraw pending. */
  lemma {:induction false} FlagWaitsForDrawing(s: State, events: seq<Event>, o: OutputId)
    requires CanRun(s, events) && o in s.outputs && s.outputs[o].panelRedrawPending && Undrawn(s, events, o)
    ensures o in Run(s, events).outputs && Run(s, events).outputs[o].panelRedrawPending
    ensures forall e | Enabled(Run(s, events), e) && Draws(Run(s, events), e, o) ::
      o in Step(Run(s, events), e).outputs && Step(Run(s, events), e).outputs[o].redraw.HasPendingRedraw()
    decreases |events|
  {
    if events == [] {
      forall e | Enabled(s, e) && Draws(s, e, o)
        ensures o in Step(s, e).outputs && Step(s, e).outputs[o].redraw.HasPendingRedraw()
      {
        PublicationIsOwed(s, e, o);
      }
    } else {
      StepChangesOutput(s, events[0], o);
      FlagWaitsForDrawing(Step(s, events[0]), events[1..], o);
    }
  }

  /** No publication is lost track of: whatever happens after it, the host's flag is set or a redraw of
      it is pending, until the host is redrawn or removed. */
  lemma {:induction false} OwedUntilRedrawn(s: State, events: seq<Event>, o: OutputId)
    requires CanRun(s, events) && Owed(s, o)
    requires forall e | e in events :: !IsRedrawOf(e, o) && !(e.EvRemoveOutput? && e.output == o)
    ensures Owed(Run(s, events), o)
    decreases |events|
  {
    if events == [] {
    } else {
      assert events[0] in events && forall x | x in events[1..] :: x in events;
      OwedEndsIff(s, events[0], o);
      OwedUntilRedrawn(Step(s, events[0]), events[1..], o);
    }
  }

  /** An output that hosts panels is drawn and publishes, which leaves it queued and its flag clear. */
  lemma DrawnPublication(s: State, o: OutputId, e: Event)
    requires o in s.outputs && s.outputs[o].redraw == Queued && s.outputs[o].panelStamp != s.panelFrame
    requires s.monitorsActive && s.lock == Unlocked
    requires e == EvRedraw(o, Carousel(o, true, {o}), RenderOutcome(false, Entered(true, {}), Drawn(BackToIdle), NotEntered))
    ensures var t := Step(s, e);
      && Draws(s, e, o) && Publishes(s, e, o) && t.lock == Unlocked
      && o in t.outputs && t.outputs[o].redraw == Queued && !t.outputs[o].panelRedrawPending
  {
    StepChangesOutput(s, e, o);
    StepMovesLock(s, e);
    WaitAndPendingDecide(Step(s, e).outputs[o].redraw, Queued);
  }

  /** A redraw that is pending, with no flag left, is lost if it fails. */
  lemma FailedFollowUp(t: State, o: OutputId, e: Event)
    requires o in t.outputs && t.outputs[o].redraw == Queued && !t.outputs[o].panelRedrawPending && t.lock == Unlocked
    requires e == EvRedraw(o, Carousel(o, true, {o}), RenderOutcome(false, NotEntered, Skipped(false), NotEntered))
    ensures Owed(t, o) && Enabled(t, e) && !Draws(t, e, o) && !Owed(Step(t, e), o)
  {
    OwedEndsIff(t, e, o);
  }

  /** It happens: the first panels of a session are published and drawn along with, the redraw that was to
      show them fails, and nothing is owed any more. */
  lemma FollowUpCanBeLost(before: seq<Event>, publishes: Event, fails: Event)
    requires before == [EvAddOutput(0, false, {}), EvBeginCycle]
    requires publishes == EvRedraw(0, Carousel(0, true, {0}), RenderOutcome(false, Entered(true, {}), Drawn(BackToIdle), NotEntered))
    requires fails == EvRedraw(0, Carousel(0, true, {0}), RenderOutcome(false, NotEntered, Skipped(false), NotEntered))
    ensures CanRun(INITIAL, before) && Enabled(Run(INITIAL, before), publishes)
    ensures var s := Run(INITIAL, before);
      && 0 in s.outputs && Draws(s, publishes, 0) && Publishes(s, publishes, 0)
      && Owed(Step(s, publishes), 0) && Enabled(Step(s, publishes), fails)
      && !Draws(Step(s, publishes), fails, 0) && !Owed(Step(Step(s, publishes), fails), 0)
  {
    FirstCycle(before);
    var s := Run(INITIAL, before);
    DrawnPublication(s, 0, publishes);
    FailedFollowUp(Step(s, publishes), 0, fails);
  }

  lemma FirstCycle(before: seq<Event>)
    requires before == [EvAddOutput(0, false, {}), EvBeginCycle]
    ensures CanRun(INITIAL, before)
    ensures var s := Run(INITIAL, before);
      && 0 in s.outputs && s.outputs[0].redraw == Queued && s.outputs[0].panelStamp == 0 && s.panelFrame == 1
      && s.monitorsActive && s.lock == Unlocked
  {
    NewOutputStarts(INITIAL, 0, false, {});
    var rest := before[1..];
    assert rest == [EvBeginCycle] && rest[1..] == [];
    var added := Step(INITIAL, before[0]);
    var s := Step(added, rest[0]);
    assert CanRun(s, rest[1..]) && Run(s, rest[1..]) == s;
    assert CanRun(added, rest) && Run(added, rest) == s;
    assert Run(INITIAL, before) == s;
    StepChangesFrame(added, rest[0]);
    StepMovesLock(INITIAL, before[0]);
  }
}
