/** What every event does to the lock, field by field: from each state of the lock, which events move
    it, and what becomes of the lockers. The laws speak of fields only; over runs they say who holds a
    lock and for how long. */
module LockLaws {
  import opened Wrappers
  import opened LockModel
  import opened LockSafety
  import opened LockProgress

  /** While locking with the monitors active, an output that still shows the session fails to render. */
  predicate FailsToLock(s: State, e: Event)
    requires Enabled(s, e)
  {
    && s.lock.Locking? && e.EvRedraw? && s.monitorsActive
    && e.outcome.result.Skipped? && s.outputs[e.output].lockRender.ShowsSession?
  }

  predicate OthersShowLocked(s: State, o: OutputId) {
    forall k | k in s.outputs && k != o :: s.outputs[k].lockRender == ShowsLocked
  }

  predicate OthersMapped(s: State, o: OutputId) {
    forall k | k in s.outputs && k != o :: s.outputs[k].lockSurface.Some? && s.outputs[k].lockSurface.value.mapped
  }

  /** Waiting for surfaces is over: the deadline, or the last missing surface is committed, or the last
      output that missed one goes. */
  predicate SurfacesComplete(s: State, e: Event)
    requires Enabled(s, e)
  {
    s.lock.WaitingForSurfaces? &&
    match e
    case EvDeadline(_) => true
    case EvCommit(o, mapped) => mapped && OthersMapped(s, o)
    case EvRemoveOutput(o, _, _) => OthersMapped(s, o)
    case _ => false
  }

  /** Locking is over: the last output that showed the session is redrawn or goes. */
  predicate LockingComplete(s: State, e: Event)
    requires Enabled(s, e)
  {
    s.lock.Locking? &&
    match e
    case EvRedraw(o, _, _) => !FailsToLock(s, e) && OthersShowLocked(s, o)
    case EvRemoveOutput(o, _, _) => OthersShowLocked(s, o)
    case _ => false
  }

  /** No output is left once this event is over. */
  predicate WithoutOutputs(s: State, e: Event) {
    s.outputs.Keys == (if e.EvRemoveOutput? then {e.output} else {})
  }

  /** The locker that an event confirms. */
  function Confirms(s: State, e: Event): Option<LockId>
    requires Enabled(s, e)
  {
    match s.lock
    case Unlocked => if e.EvLock? && WithoutOutputs(s, e) then Some(e.locker) else None
    case WaitingForSurfaces(l, _) => if SurfacesComplete(s, e) && WithoutOutputs(s, e) then Some(l) else None
    case Locking(l) => if LockingComplete(s, e) then Some(l) else None
    case Locked(_) => if e.EvLock? && !e.alive then Some(e.locker) else None
  }

  /** The locker that an event drops: one that comes too early or too late, or the one being
      established. */
  function Drops(s: State, e: Event): Option<LockId>
    requires Enabled(s, e)
  {
    match s.lock
    case Unlocked => None
    case WaitingForSurfaces(l, _) => if e.EvLock? then Some(e.locker) else if e.EvUnlock? then Some(l) else None
    case Locking(l) =>
      if e.EvLock? then Some(e.locker) else if e.EvUnlock? || FailsToLock(s, e) then Some(l) else None
    case Locked(_) => if e.EvLock? && e.alive then Some(e.locker) else None
  }

  ghost function LockAfter(s: State, e: Event): LockState
    requires Enabled(s, e)
  {
    if Confirms(s, e).Some? then Locked(Confirms(s, e).value)
    else if e.EvUnlock? || FailsToLock(s, e) then Unlocked
    else if s.lock.Unlocked? && e.EvLock? then WaitingForSurfaces(e.locker, s.nextToken)
    else if SurfacesComplete(s, e) then Locking(s.lock.locker)
    else s.lock
  }

  function Appended(log: seq<LockId>, l: Option<LockId>): seq<LockId> {
    if l.Some? then log + [l.value] else log
  }

  /** The lock and the logs are as the laws say. */
  ghost predicate MovesLock(s: State, e: Event, t: State)
    requires Enabled(s, e)
  {
    && t.lock == LockAfter(s, e)
    && t.confirmed == Appended(s.confirmed, Confirms(s, e))
    && t.dropped == Appended(s.dropped, Drops(s, e))
    && t.issued == s.issued + (if e.EvLock? then {e.locker} else {})
    && t.nextToken == s.nextToken + (if s.lock.Unlocked? && e.EvLock? then 1 else 0)
  }

  lemma RedrawMovesLock(s: State, o: OutputId, c: Carousel, r: RenderOutcome)
    requires Enabled(s, EvRedraw(o, c, r))
    ensures MovesLock(s, EvRedraw(o, c, r), Redraw(s, o, c, r))
  {
    if OutputActive(s, o) {
      var s1 := Prepare(s, o, c, r);
      PreparedMarks(s, o, c, r);
      DecidedLock(s, s1, o, r.result);
      PrepassKeepsLockFields(Decide(Finish(s1, o, r.result), o), o, c, r.capture);
      PrepassKeepsTokens(Decide(Finish(s1, o, r.result), o), o, c, r.capture);
    } else {
      DecidedLock(s, s, o, Skipped(false));
      PrepassKeepsLockFields(Decide(Finish(s, o, Skipped(false)), o), o, c, r.capture);
      PrepassKeepsTokens(Decide(Finish(s, o, Skipped(false)), o), o, c, r.capture);
    }
  }

  lemma PrepassKeepsTokens(s: State, o: OutputId, c: Carousel, p: Prepass)
    ensures PanelPrepass(s, o, c, p).nextToken == s.nextToken && PanelPrepass(s, o, c, p).armed == s.armed
  {
  }

  /** Same lock, same logs and the same marks. */
  ghost predicate SameMarks(s: State, t: State) {
    && t.lock == s.lock && t.confirmed == s.confirmed && t.dropped == s.dropped && t.issued == s.issued
    && t.nextToken == s.nextToken && t.monitorsActive == s.monitorsActive && t.outputs.Keys == s.outputs.Keys
    && forall k | k in s.outputs :: t.outputs[k].lockRender == s.outputs[k].lockRender
  }

  lemma PreparedMarks(s: State, o: OutputId, c: Carousel, r: RenderOutcome)
    requires o in s.outputs
    ensures SameMarks(s, Prepare(s, o, c, r))
  {
    var u := s.(outputs := s.outputs[o := s.outputs[o].(animating := r.animating)]);
    PrepassKeepsMarks(u, o, c, r.prepass);
    assert SameMarks(s, u);
  }

  lemma PrepassKeepsMarks(s: State, o: OutputId, c: Carousel, p: Prepass)
    ensures SameMarks(s, PanelPrepass(s, o, c, p))
  {
  }

  /** A redraw with this result, from preparation on. */
  ghost predicate DecidesLock(s: State, o: OutputId, r: RenderResult, t: State)
    requires o in s.outputs
  {
    var fails := s.lock.Locking? && s.monitorsActive && r.Skipped? && s.outputs[o].lockRender.ShowsSession?;
    var completes := s.lock.Locking? && !fails && OthersShowLocked(s, o);
    && t.lock == (if fails then Unlocked else if completes then Locked(s.lock.locker) else s.lock)
    && t.confirmed == s.confirmed + (if completes then [s.lock.locker] else [])
    && t.dropped == s.dropped + (if fails then [s.lock.locker] else [])
    && t.issued == s.issued && t.nextToken == s.nextToken
  }

  lemma DecidedLock(s: State, s1: State, o: OutputId, r: RenderResult)
    requires o in s.outputs && SameMarks(s, s1)
    ensures DecidesLock(s, o, r, Decide(Finish(s1, o, r), o))
  {
    var u := Finish(s1, o, r);
    assert forall k | k in s.outputs && k != o :: u.outputs[k].lockRender == s.outputs[k].lockRender;
    if s.lock.Locking? && u.outputs[o].lockRender.ShowsLocked? {
      assert AllShowLocked(u.outputs) <==> OthersShowLocked(s, o);
    }
  }

  /** What is left when output `o` goes, as far as the lock cares. */
  lemma RemainingOutputs(s: State, o: OutputId, moved: set<OutputId>)
    requires o in s.outputs
    ensures var rest := QueueAmong(s.outputs, moved) - {o};
      && (rest == map[] <==> s.outputs.Keys == {o})
      && (AllShowLocked(rest) <==> OthersShowLocked(s, o))
      && ((forall k | k in rest :: SurfaceReady(rest[k])) <==> OthersMapped(s, o))
  {
    var rest := QueueAmong(s.outputs, moved) - {o};
    assert rest.Keys == s.outputs.Keys - {o};
    forall k | k in rest
      ensures rest[k].lockRender == s.outputs[k].lockRender && rest[k].lockSurface == s.outputs[k].lockSurface
    {
    }
    forall k | k in s.outputs && k != o ensures k in rest {
    }
    if rest == map[] {
      assert rest.Keys == {};
      assert s.outputs.Keys == {o};
    }
    if s.outputs.Keys == {o} {
      assert rest.Keys == {};
    }
  }

  lemma RemovalMovesLock(s: State, o: OutputId, moved: set<OutputId>, screenshotOpen: bool)
    requires o in s.outputs
    ensures MovesLock(s, EvRemoveOutput(o, moved, screenshotOpen), RemoveOutput(s, o, moved, screenshotOpen))
  {
    RemainingOutputs(s, o, moved);
    var s1 := s.(outputs := QueueAmong(s.outputs, moved) - {o});
    var s2 := if s.lock.Locking? then CheckLocked(s1) else MaybeContinueToLocking(s1);
    assert MovesLock(s, EvRemoveOutput(o, moved, screenshotOpen), s2);
  }

  lemma CommitMovesLock(s: State, o: OutputId, mapped: bool)
    requires o in s.outputs && s.outputs[o].lockSurface.Some?
    ensures MovesLock(s, EvCommit(o, mapped), CommitLockSurface(s, o, mapped))
  {
    var st := s.outputs[o];
    var s1 := s.(outputs := s.outputs[o := st.(lockSurface := Some(st.lockSurface.value.(mapped := mapped)))]);
    CommittedSurfaces(s, s1.outputs, o, mapped);
  }

  lemma CommittedSurfaces(s: State, outputs: map<OutputId, OutputState>, o: OutputId, mapped: bool)
    requires o in s.outputs && outputs.Keys == s.outputs.Keys && forall k | k in s.outputs && k != o :: outputs[k] == s.outputs[k]
    requires outputs[o].lockSurface.Some? && outputs[o].lockSurface.value.mapped == mapped
    ensures (forall k | k in outputs :: SurfaceReady(outputs[k])) <==> mapped && OthersMapped(s, o)
  {
    if mapped && OthersMapped(s, o) {
      forall k | k in outputs ensures SurfaceReady(outputs[k]) {
      }
    } else if mapped {
      var k :| k in s.outputs && k != o && !SurfaceReady(s.outputs[k]);
      assert outputs[k] == s.outputs[k];
    }
  }

  lemma QuietMovesLock(s: State, e: Event)
    requires Enabled(s, e) && (LeavesLock(e) || e.EvAddOutput? || e.EvDeactivateMonitors? || e.EvActivateMonitors?)
    ensures MovesLock(s, e, Step(s, e))
  {
  }

  predicate LeavesLock(e: Event) {
    || e.EvNewLockSurface? || e.EvBeginCycle? || e.EvQueue? || e.EvVBlank? || e.EvEstimatedVBlank? || e.EvSetIsolated?
  }

  lemma RequestMovesLock(s: State, l: LockId, alive: bool)
    requires l !in s.issued
    ensures MovesLock(s, EvLock(l, alive), LockSession(s, l, alive))
  {
    assert s.outputs == map[] <==> s.outputs.Keys == {};
  }

  lemma UnlockMovesLock(s: State)
    ensures MovesLock(s, EvUnlock, Unlock(s))
  {
  }

  lemma DeadlineMovesLock(s: State, token: Token)
    requires token in s.armed
    ensures MovesLock(s, EvDeadline(token), DeadlineExpired(s, token))
  {
    assert s.outputs == map[] <==> s.outputs.Keys == {};
  }

  /** Every event moves the lock, confirms and drops exactly as the laws say. */
  lemma StepMovesLock(s: State, e: Event)
    requires Enabled(s, e)
    ensures MovesLock(s, e, Step(s, e))
  {
    match e
    case EvRedraw(o, c, r) => RedrawMovesLock(s, o, c, r);
    case EvRemoveOutput(o, moved, screenshotOpen) => RemovalMovesLock(s, o, moved, screenshotOpen);
    case EvCommit(o, mapped) => CommitMovesLock(s, o, mapped);
    case EvLock(l, alive) => RequestMovesLock(s, l, alive);
    case EvUnlock => UnlockMovesLock(s);
    case EvDeadline(token) => DeadlineMovesLock(s, token);
    case _ => QuietMovesLock(s, e);
  }

  // ---------- Holding a lock ----------

  /** Only an unlock, or another request once its client is gone, takes a lock away from its holder. */
  predicate Releases(e: Event) {
    e.EvUnlock? || (e.EvLock? && !e.alive)
  }

  /** A held lock, spelled out: a request while the holder lives is dropped, one after its death gets
      the lock and is confirmed at once, an unlock ends it, and nothing else touches it. */
  lemma LockIsHeld(s: State, e: Event)
    requires Enabled(s, e) && s.lock.Locked?
    ensures var t := Step(s, e);
      match e
      case EvUnlock => t.lock == Unlocked && t.confirmed == s.confirmed && t.dropped == s.dropped
      case EvLock(k, true) => t.lock == s.lock && t.confirmed == s.confirmed && t.dropped == s.dropped + [k]
      case EvLock(k, false) => t.lock == Locked(k) && t.confirmed == s.confirmed + [k] && t.dropped == s.dropped
      case _ => t.lock == s.lock && t.confirmed == s.confirmed && t.dropped == s.dropped
  {
    StepMovesLock(s, e);
  }

  /** A locker that is settled and does not hold the lock never holds it again. */
  lemma LostIsNotRegained(s: State, e: Event, l: LockId)
    requires Inv(s) && Enabled(s, e) && l in s.issued && s.lock != Locked(l) && l !in Held(s.lock)
    ensures l in Step(s, e).issued && Step(s, e).lock != Locked(l) && l !in Held(Step(s, e).lock)
  {
    StepMovesLock(s, e);
  }

  lemma {:induction false} LostStaysLost(s: State, events: seq<Event>, l: LockId)
    requires Inv(s) && CanRun(s, events) && l in s.issued && s.lock != Locked(l) && l !in Held(s.lock)
    ensures Run(s, events).lock != Locked(l)
    decreases |events|
  {
    if events == [] {
    } else {
      StepKeepsInv(s, events[0]);
      LostIsNotRegained(s, events[0], l);
      LostStaysLost(Step(s, events[0]), events[1..], l);
    }
  }

  lemma HolderIsIssued(s: State)
    requires Inv(s) && s.lock.Locked?
    ensures s.lock.lock in s.issued
  {
    assert s.lock.lock in s.confirmed;
    assert s.lock.lock in multiset(s.confirmed);
    assert s.lock.lock in Held(s.lock) + multiset(s.confirmed) + multiset(s.dropped);
  }

  lemma {:induction false} HolderKeepsLock(s: State, events: seq<Event>, l: LockId)
    requires Inv(s) && CanRun(s, events) && s.lock == Locked(l)
    ensures Run(s, events).lock == Locked(l) <==> forall e | e in events :: !Releases(e)
    decreases |events|
  {
    if events == [] {
    } else {
      var e, rest := events[0], events[1..];
      assert e in events && forall x | x in rest :: x in events;
      assert events == [e] + rest;
      LockIsHeld(s, e);
      StepKeepsInv(s, e);
      if Releases(e) {
        HolderIsIssued(s);
        assert l in Step(s, e).issued by {
          StepMovesLock(s, e);
        }
        LostStaysLost(Step(s, e), rest, l);
      } else {
        HolderKeepsLock(Step(s, e), rest, l);
      }
    }
  }

  /** Over every run, the client that holds the lock goes on holding it if and only if nothing unlocks
      the session and no other client asks for the lock once the holder is gone. */
  lemma HolderChangesIff(before: seq<Event>, events: seq<Event>)
    requires CanRun(INITIAL, before) && Run(INITIAL, before).lock.Locked? && CanRun(Run(INITIAL, before), events)
    ensures Run(Run(INITIAL, before), events).lock == Run(INITIAL, before).lock <==> forall e | e in events :: !Releases(e)
  {
    RunKeepsInv(INITIAL, before);
    HolderKeepsLock(Run(INITIAL, before), events, Run(INITIAL, before).lock.lock);
  }
}
