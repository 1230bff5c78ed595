/** The session lock and the redraw scheduler of `src/niri.rs`, as a step function on values.

    The class `Compositor` (Compositor.dfy) performs the same steps in place and is proved against
    the functions of this module; LockSafety.dfy proves what holds over every run.
  */
module LockModel {
  import opened Wrappers

  type OutputId = nat
  type LockId = nat
  type Token = nat

  datatype RedrawState =
    | Idle
    | Queued
    | WaitingForVBlank(redrawNeeded: bool)
    | WaitingForEstimatedVBlank
    | WaitingForEstimatedVBlankAndQueued
  {
    function Queue(): RedrawState {
      match this
      case Idle => Queued
      case WaitingForEstimatedVBlank => WaitingForEstimatedVBlankAndQueued
      case Queued => this
      case WaitingForEstimatedVBlankAndQueued => this
      case WaitingForVBlank(_) => WaitingForVBlank(true)
    }

    /** The scheduler will pick this output in the current cycle. */
    predicate IsQueued() {
      Queued? || WaitingForEstimatedVBlankAndQueued?
    }

    /** A redraw of this output is due now, or right after the frame in flight is presented. */
    predicate HasPendingRedraw() {
      IsQueued() || this == WaitingForVBlank(true)
    }
  }

  /** `LockRenderState`: what the compositor believes the output displays. */
  datatype LockRender = ShowsSession | ShowsLocked

  /** What the last successful render of an output contained. */
  datatype Frame = NoFrame | SessionFrame | LockFrame

  datatype LockSurface = LockSurface(lock: LockId, mapped: bool)

  datatype OutputState = OutputState(
    redraw: RedrawState,
    lockRender: LockRender,
    lockSurface: Option<LockSurface>,
    animating: bool,
    // The `isolated` setting of the output.
    isolated: bool,
    // What is on the glass: whether the display is scanning out, and the last frame drawn for it.
    lit: bool,
    lastFrame: Frame,
    // Host side flag and content side stamp of the carousel panels.
    panelRedrawPending: bool,
    panelStamp: nat)

  datatype LockState =
    | Unlocked
    | WaitingForSurfaces(locker: LockId, deadline: Token)
    | Locking(locker: LockId)
    | Locked(lock: LockId)

  /** `issued`, `confirmed` and `dropped` record what happened to each `SessionLocker`. */
  datatype State = State(
    lock: LockState,
    outputs: map<OutputId, OutputState>,
    monitorsActive: bool,
    powerOffSkipIsolated: bool,
    armed: set<Token>,
    nextToken: Token,
    panelFrame: nat,
    issued: set<LockId>,
    confirmed: seq<LockId>,
    dropped: seq<LockId>)

  const INITIAL := State(Unlocked, map[], true, false, {}, 0, 0, {}, [], [])

  /** The carousel as the layout presents it during one redraw cycle: the active output, whether
      panels are drawn on it, and the outputs whose content the panels show. */
  datatype Carousel = Carousel(host: OutputId, panelsNeeded: bool, ring: set<OutputId>)

  /** The outcome of entering `Niri::render` once: whether some refreshed source published, and
      which retained sources outside the ring were dropped. */
  datatype Prepass = NotEntered | Entered(published: bool, swept: set<OutputId>)

  /** What a backend may leave behind: `Submitted` and `NoDamage` are `Drawn`. */
  datatype AfterRender = BackToIdle | FrameQueued | EstimatedVBlankTimer
  datatype RenderResult = Skipped(timerArmed: bool) | Drawn(after: AfterRender)

  datatype RenderOutcome = RenderOutcome(
    animating: bool,
    prepass: Prepass,
    result: RenderResult,
    capture: Prepass)

  predicate IsLocked(lock: LockState) {
    lock.Locking? || lock.Locked?
  }

  predicate AllShowLocked(outputs: map<OutputId, OutputState>) {
    forall o | o in outputs :: outputs[o].lockRender.ShowsLocked?
  }

  predicate SurfaceReady(st: OutputState) {
    st.lockSurface.Some? && st.lockSurface.value.mapped
  }

  function QueueOutput(st: OutputState): OutputState {
    st.(redraw := st.redraw.Queue())
  }

  function QueueAmong(outputs: map<OutputId, OutputState>, which: set<OutputId>): map<OutputId, OutputState> {
    map o | o in outputs :: if o in which then QueueOutput(outputs[o]) else outputs[o]
  }

  function QueueAll(outputs: map<OutputId, OutputState>): map<OutputId, OutputState> {
    map o | o in outputs :: QueueOutput(outputs[o])
  }

  function Confirm(s: State, l: LockId): State {
    s.(lock := Locked(l), confirmed := s.confirmed + [l])
  }

  function Drop(s: State, l: LockId): State {
    s.(dropped := s.dropped + [l])
  }

  function ContinueToLocking(s: State): State {
    match s.lock
    case WaitingForSurfaces(l, deadline) =>
      var s1 := s.(armed := s.armed - {deadline});
      if s.outputs == map[] then Confirm(s1, l)
      else s1.(lock := Locking(l), outputs := QueueAll(s.outputs))
    case _ => s
  }

  function MaybeContinueToLocking(s: State): State {
    if s.lock.WaitingForSurfaces? && forall o | o in s.outputs :: SurfaceReady(s.outputs[o])
    then ContinueToLocking(s) else s
  }

  /** `alive` tells whether the client of a session that is already locked still exists. */
  function LockSession(s: State, l: LockId, alive: bool): State {
    var s0 := s.(issued := s.issued + {l});
    match s.lock
    case WaitingForSurfaces(_, _) => Drop(s0, l)
    case Locking(_) => Drop(s0, l)
    case Locked(_) => if alive then Drop(s0, l) else Confirm(s0, l)
    case Unlocked =>
      var s1 := StartWaiting(s, l);
      if s.outputs == map[] then ContinueToLocking(s1) else s1
  }

  function StartWaiting(s: State, l: LockId): State {
    s.(issued := s.issued + {l}, lock := WaitingForSurfaces(l, s.nextToken),
       armed := s.armed + {s.nextToken}, nextToken := s.nextToken + 1)
  }

  function WithoutSurfaces(outputs: map<OutputId, OutputState>): map<OutputId, OutputState> {
    map o | o in outputs :: outputs[o].(lockSurface := None)
  }

  function Unlock(s: State): State {
    var s1 := match s.lock
      case WaitingForSurfaces(l, deadline) => Drop(s.(armed := s.armed - {deadline}), l)
      case Locking(l) => Drop(s, l)
      case _ => s;
    s1.(lock := Unlocked, outputs := QueueAll(WithoutSurfaces(s.outputs)))
  }

  /** The lock a new surface must belong to. */
  function CurrentLock(lock: LockState): Option<LockId> {
    match lock
    case Unlocked => None
    case WaitingForSurfaces(l, _) => Some(l)
    case Locking(l) => Some(l)
    case Locked(l) => Some(l)
  }

  function NewLockSurface(s: State, o: OutputId, l: LockId, sameClient: bool, mapped: bool): State {
    if CurrentLock(s.lock) == Some(l) && sameClient && o in s.outputs
    then s.(outputs := s.outputs[o := s.outputs[o].(lockSurface := Some(LockSurface(l, mapped)))])
    else s
  }

  function CommitLockSurface(s: State, o: OutputId, mapped: bool): State
    requires o in s.outputs && s.outputs[o].lockSurface.Some?
  {
    var st := s.outputs[o];
    var s1 := s.(outputs := s.outputs[o := st.(lockSurface := Some(st.lockSurface.value.(mapped := mapped)))]);
    if s.lock.WaitingForSurfaces? then MaybeContinueToLocking(s1)
    else s1.(outputs := QueueAmong(s1.outputs, {o}))
  }

  /** The deadline timer fires once and is then dropped by the event loop. */
  function DeadlineExpired(s: State, token: Token): State {
    var s1 := ContinueToLocking(s);
    s1.(armed := s1.armed - {token})
  }

  /** Ring members whose source was not yet refreshed in this cycle. */
  function Unstamped(s: State, c: Carousel): set<OutputId> {
    if c.panelsNeeded then set o | o in s.outputs && o in c.ring && s.outputs[o].panelStamp != s.panelFrame
    else {}
  }

  function RefreshOutput(st: OutputState, stamp: nat, due: bool, swept: bool, hostPublished: bool): OutputState {
    st.(panelStamp := if due then stamp else if swept then 0 else st.panelStamp,
        panelRedrawPending := st.panelRedrawPending || hostPublished)
  }

  /** The ring members whose sources stay. */
  function Kept(c: Carousel): set<OutputId> {
    if c.panelsNeeded then c.ring else {}
  }

  /** One output after a refresh of the `due` sources and a sweep, on behalf of the host `o`. */
  function Refreshed(s: State, o: OutputId, due: set<OutputId>, swept: set<OutputId>, published: bool, k: OutputId): OutputState
    requires k in s.outputs
  {
    RefreshOutput(s.outputs[k], s.panelFrame, k in due, k in swept, k == o && published && due != {})
  }

  function RefreshAll(s: State, o: OutputId, due: set<OutputId>, swept: set<OutputId>, published: bool): map<OutputId, OutputState> {
    map k | k in s.outputs :: Refreshed(s, o, due, swept, published, k)
  }

  /** `update_panel_sources` followed by `clear_stale_panel_sources`, as far as stamps and the host's
      pending flag go. Only the render of the active output does either. */
  function PanelPrepass(s: State, o: OutputId, c: Carousel, p: Prepass): State {
    if p.NotEntered? || o != c.host then s
    else s.(outputs := RefreshAll(s, o, Unstamped(s, c), p.swept - Kept(c), p.published))
  }

  function RedrawStateAfter(r: RenderResult, before: RedrawState): RedrawState {
    match r
    case Skipped(timerArmed) => if timerArmed then WaitingForEstimatedVBlank else before
    case Drawn(BackToIdle) => Idle
    case Drawn(FrameQueued) => WaitingForVBlank(false)
    case Drawn(EstimatedVBlankTimer) => WaitingForEstimatedVBlank
  }

  /** One output's own bookkeeping after the backend returned. */
  function FinishRender(st: OutputState, r: RenderResult, locked: bool, monitorsActive: bool): OutputState {
    var redraw := RedrawStateAfter(r, st.redraw);
    var shown := if locked then ShowsLocked else ShowsSession;
    match r
    case Drawn(_) =>
      st.(redraw := if st.panelRedrawPending then redraw.Queue() else redraw,
          panelRedrawPending := false,
          lockRender := shown,
          lit := true,
          lastFrame := if locked then LockFrame else SessionFrame)
    case Skipped(_) =>
      st.(redraw := if redraw.WaitingForEstimatedVBlank? || redraw.WaitingForEstimatedVBlankAndQueued?
                    then WaitingForEstimatedVBlank else Idle,
          lockRender := if monitorsActive then st.lockRender else shown)
  }

  /** The check at the end of a redraw or of an output removal while locking. */
  function CheckLocked(s: State): State {
    if s.lock.Locking? && AllShowLocked(s.outputs) then Confirm(s, s.lock.locker) else s
  }

  /** A redraw up to entering the backend. */
  function Prepare(s: State, o: OutputId, c: Carousel, r: RenderOutcome): State
    requires o in s.outputs
  {
    PanelPrepass(s.(outputs := s.outputs[o := s.outputs[o].(animating := r.animating)]), o, c, r.prepass)
  }

  /** ... its bookkeeping once the backend has returned ... */
  function Finish(s: State, o: OutputId, r: RenderResult): State
    requires o in s.outputs
  {
    s.(outputs := s.outputs[o := FinishRender(s.outputs[o], r, IsLocked(s.lock), s.monitorsActive)])
  }

  /** ... and what it means for a session being locked. */
  function Decide(s: State, o: OutputId): State
    requires o in s.outputs
  {
    if s.lock.Locking? && s.outputs[o].lockRender.ShowsSession? then Unlock(s) else CheckLocked(s)
  }

  /** Isolated outputs keep rendering while the others are powered off with skip-isolated. */
  predicate OutputActive(s: State, o: OutputId)
    requires o in s.outputs
  {
    s.monitorsActive || (s.powerOffSkipIsolated && s.outputs[o].isolated)
  }

  function Redraw(s: State, o: OutputId, c: Carousel, r: RenderOutcome): State
    requires o in s.outputs
  {
    if OutputActive(s, o)
    then PanelPrepass(Decide(Finish(Prepare(s, o, c, r), o, r.result), o), o, c, r.capture)
    else PanelPrepass(Decide(Finish(s, o, Skipped(false)), o), o, c, r.capture)
  }

  function FreshOutput(lock: LockState, isolated: bool): OutputState {
    OutputState(Idle, if IsLocked(lock) then ShowsLocked else ShowsSession, None, false, isolated, false, NoFrame, false, 0)
  }

  /** `moved` are the outputs that repositioning moves; a new output always gets a position. */
  function AddOutput(s: State, o: OutputId, isolated: bool, moved: set<OutputId>): State {
    s.(outputs := QueueAmong(s.outputs[o := FreshOutput(s.lock, isolated)], moved + {o}))
  }

  function RemoveOutput(s: State, o: OutputId, moved: set<OutputId>, screenshotOpen: bool): State {
    var s1 := s.(outputs := QueueAmong(s.outputs, moved) - {o});
    var s2 := if s.lock.Locking? then CheckLocked(s1) else MaybeContinueToLocking(s1);
    if screenshotOpen then s2.(outputs := QueueAll(s2.outputs)) else s2
  }

  function VBlank(st: OutputState): OutputState {
    var needed := if st.redraw.WaitingForVBlank? then st.redraw.redrawNeeded else true;
    var st1 := st.(redraw := Idle);
    if needed || st.animating then QueueOutput(st1) else st1
  }

  function EstimatedVBlank(st: OutputState): OutputState
    requires st.redraw.WaitingForEstimatedVBlank? || st.redraw.WaitingForEstimatedVBlankAndQueued?
  {
    if st.redraw.WaitingForEstimatedVBlankAndQueued? then st.(redraw := Queued)
    else if st.animating then st.(redraw := Queued)
    else st.(redraw := Idle)
  }

  /** The backend turns every display off but the isolated ones that it is told to skip; `stuck` are
      those that stay lit all the same: clearing failed, or the backend has no displays to clear. */
  function ClearDisplays(outputs: map<OutputId, OutputState>, skipIsolated: bool, stuck: set<OutputId>): map<OutputId, OutputState> {
    map o | o in outputs :: if (skipIsolated && outputs[o].isolated) || o in stuck then outputs[o] else outputs[o].(lit := false)
  }

  function DeactivateMonitors(s: State, skipIsolated: bool, stuck: set<OutputId>): State {
    if !s.monitorsActive then s
    else
      var cleared := ClearDisplays(s.outputs, skipIsolated, stuck);
      s.(monitorsActive := false, powerOffSkipIsolated := skipIsolated,
         outputs := if skipIsolated then QueueAll(cleared) else cleared)
  }

  /** A configuration reload that changes the `isolated` setting of an output. */
  function SetIsolated(s: State, o: OutputId, isolated: bool): State
    requires o in s.outputs
  {
    s.(outputs := s.outputs[o := s.outputs[o].(isolated := isolated)])
  }

  function ActivateMonitors(s: State): State {
    if s.monitorsActive then s
    else s.(monitorsActive := true, powerOffSkipIsolated := false, outputs := QueueAll(s.outputs))
  }

  /** Everything that can happen to the lock and to the scheduler. */
  datatype Event =
    | EvLock(locker: LockId, alive: bool)
    | EvUnlock
    | EvNewLockSurface(output: OutputId, lock: LockId, sameClient: bool, mapped: bool)
    | EvCommit(output: OutputId, mapped: bool)
    | EvDeadline(token: Token)
    | EvBeginCycle
    | EvRedraw(output: OutputId, carousel: Carousel, outcome: RenderOutcome)
    | EvQueue(which: set<OutputId>)
    | EvVBlank(output: OutputId)
    | EvEstimatedVBlank(output: OutputId)
    | EvAddOutput(output: OutputId, isolated: bool, moved: set<OutputId>)
    | EvRemoveOutput(output: OutputId, moved: set<OutputId>, screenshotOpen: bool)
    | EvDeactivateMonitors(skipIsolated: bool, stuck: set<OutputId>)
    | EvSetIsolated(output: OutputId, isolated: bool)
    | EvActivateMonitors

  /** What the surrounding code guarantees when it delivers an event. */
  predicate Enabled(s: State, e: Event) {
    match e
    case EvLock(l, _) => l !in s.issued
    case EvCommit(o, _) => o in s.outputs && s.outputs[o].lockSurface.Some?
    case EvDeadline(token) => token in s.armed
    case EvRedraw(o, _, _) => o in s.outputs && s.outputs[o].redraw.IsQueued()
    case EvVBlank(o) => o in s.outputs
    case EvEstimatedVBlank(o) =>
      && o in s.outputs
      && (s.outputs[o].redraw.WaitingForEstimatedVBlank? || s.outputs[o].redraw.WaitingForEstimatedVBlankAndQueued?)
    case EvAddOutput(o, _, _) => o !in s.outputs
    case EvSetIsolated(o, _) => o in s.outputs
    case EvRemoveOutput(o, _, _) => o in s.outputs
    case _ => true
  }

  function Step(s: State, e: Event): State
    requires Enabled(s, e)
  {
    match e
    case EvLock(l, alive) => LockSession(s, l, alive)
    case EvUnlock => Unlock(s)
    case EvNewLockSurface(o, l, sameClient, mapped) => NewLockSurface(s, o, l, sameClient, mapped)
    case EvCommit(o, mapped) => CommitLockSurface(s, o, mapped)
    case EvDeadline(token) => DeadlineExpired(s, token)
    case EvBeginCycle => s.(panelFrame := s.panelFrame + 1)
    case EvRedraw(o, c, r) => Redraw(s, o, c, r)
    case EvQueue(which) => s.(outputs := QueueAmong(s.outputs, which))
    case EvVBlank(o) => s.(outputs := s.outputs[o := VBlank(s.outputs[o])])
    case EvEstimatedVBlank(o) => s.(outputs := s.outputs[o := EstimatedVBlank(s.outputs[o])])
    case EvAddOutput(o, isolated, moved) => AddOutput(s, o, isolated, moved)
    case EvRemoveOutput(o, moved, screenshotOpen) => RemoveOutput(s, o, moved, screenshotOpen)
    case EvDeactivateMonitors(skipIsolated, stuck) => DeactivateMonitors(s, skipIsolated, stuck)
    case EvSetIsolated(o, isolated) => SetIsolated(s, o, isolated)
    case EvActivateMonitors => ActivateMonitors(s)
  }

  /** Whether `events` can happen one after the other from `s`. */
  predicate CanRun(s: State, events: seq<Event>)
    decreases |events|
  {
    events == [] || (Enabled(s, events[0]) && CanRun(Step(s, events[0]), events[1..]))
  }

  function Run(s: State, events: seq<Event>): State
    requires CanRun(s, events)
    decreases |events|
  {
    if events == [] then s else Run(Step(s, events[0]), events[1..])
  }
}
