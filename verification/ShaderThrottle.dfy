/** The `shader-animation-max-fps` throttle of one output: a last-frame stamp, a one-shot wake and
    the decision made at each redraw. Times and intervals are nanoseconds. */
module ShaderThrottle {
  import opened Wrappers

  type Instant = nat

  datatype Decision = Due | Wait(remaining: nat)

  /** `now.saturating_duration_since(last)`. */
  function SaturatingSince(now: Instant, last: Instant): nat {
    if last <= now then now - last else 0
  }

  function Decide(last: Option<Instant>, now: Instant, interval: nat): Decision {
    match last
    case None => Due
    case Some(l) =>
      var elapsed := SaturatingSince(now, l);
      if elapsed >= interval then Due else Wait(interval - elapsed)
  }

  /** A frame is due once the interval is over, and a wait lasts until then; a clock that reads earlier than
      the last frame waits a whole interval. */
  lemma DecideMeans(last: Instant, now: Instant, interval: nat)
    ensures Decide(None, now, interval) == Due
    ensures Decide(Some(last), now, interval) == Due <==> last + interval <= now || interval == 0
    ensures last <= now < last + interval ==> Decide(Some(last), now, interval) == Wait(last + interval - now)
    ensures now < last && interval > 0 ==> Decide(Some(last), now, interval) == Wait(interval)
  {
  }

  /** Why an output redraws, as far as shaders go: nothing time-driven; a shader riding along with
      another animation; shaders alone. */
  datatype Load = NoShader | RidingAlong | ShaderOnly

  /** `clock` is the latest instant observed, `woken` says that a wake fired and its redraw is still
      to come. */
  datatype State = State(last: Option<Instant>, wake: Option<Instant>, clock: Instant, woken: bool)

  const INITIAL := State(None, None, 0, false)

  /** `lag` is the time between reading the clock for the decision and starting the timer. A redraw of
      an inactive output decides nothing, and may be the one that a wake queued. */
  datatype Event =
    | Redraw(now: Instant, load: Load, lag: nat)
    | InactiveRedraw(now: Instant)
    | WakeFires(now: Instant)

  predicate Enabled(s: State, e: Event) {
    match e
    case Redraw(now, _, _) => s.clock <= now
    case InactiveRedraw(now) => s.clock <= now
    case WakeFires(now) => s.clock <= now && s.wake.Some? && s.wake.value <= now
  }

  predicate IsDue(s: State, e: Event, interval: nat) {
    e.Redraw? && e.load.ShaderOnly? && Decide(s.last, e.now, interval).Due?
  }

  function Step(s: State, e: Event, interval: nat): State
    requires Enabled(s, e)
  {
    match e
    case WakeFires(now) => s.(wake := None, clock := now, woken := true)
    case InactiveRedraw(now) => s.(clock := now, woken := false)
    case Redraw(now, load, lag) =>
      var s1 := s.(clock := now + lag, woken := false);
      match load
      case NoShader => s1.(wake := None)
      case RidingAlong => s1.(wake := None, last := Some(now))
      case ShaderOnly =>
        match Decide(s.last, now, interval)
        case Due => s1.(last := Some(now), wake := Some(now + lag + interval))
        case Wait(remaining) => if s.wake.Some? then s1 else s1.(wake := Some(now + lag + remaining))
  }

  predicate CanRun(s: State, events: seq<Event>, interval: nat)
    decreases |events|
  {
    events == [] || (Enabled(s, events[0]) && CanRun(Step(s, events[0], interval), events[1..], interval))
  }

  function Run(s: State, events: seq<Event>, interval: nat): State
    requires CanRun(s, events, interval)
    decreases |events|
  {
    if events == [] then s else Run(Step(s, events[0], interval), events[1..], interval)
  }

  /** The instants of the shader frames that a trace renders. */
  function DueFrames(s: State, events: seq<Event>, interval: nat): seq<Instant>
    requires CanRun(s, events, interval)
    decreases |events|
  {
    if events == [] then []
    else (if IsDue(s, events[0], interval) then [events[0].now] else [])
         + DueFrames(Step(s, events[0], interval), events[1..], interval)
  }

  ghost predicate Inv(s: State, interval: nat) {
    && (s.last.Some? ==> s.last.value <= s.clock)
    && (s.wake.Some? ==> s.last.Some? && s.last.value + interval <= s.wake.value)
    && (s.woken ==> s.wake.None? && s.last.Some? && s.last.value + interval <= s.clock)
  }

  lemma StepKeepsInv(s: State, e: Event, interval: nat)
    requires Inv(s, interval) && Enabled(s, e)
    ensures Inv(Step(s, e, interval), interval)
  {
  }

  lemma {:induction false} RunKeepsInv(s: State, events: seq<Event>, interval: nat)
    requires Inv(s, interval) && CanRun(s, events, interval)
    ensures Inv(Run(s, events, interval), interval)
    decreases |events|
  {
    if events == [] {
    } else {
      StepKeepsInv(s, events[0], interval);
      RunKeepsInv(Step(s, events[0], interval), events[1..], interval);
    }
  }

  /** The total time lost between a decision and its timer. */
  function TotalLag(events: seq<Event>): nat {
    if events == [] then 0 else (if events[0].Redraw? then events[0].lag else 0) + TotalLag(events[1..])
  }

  lemma {:induction false} WakeDeadlineFrom(s: State, events: seq<Event>, interval: nat, bound: nat)
    requires Inv(s, interval) && CanRun(s, events, interval)
    requires s.wake.Some? ==> s.wake.value <= s.last.value + interval + bound
    ensures var t := Run(s, events, interval);
      t.wake.Some? ==> t.last.Some? && t.last.value + interval <= t.wake.value <= t.last.value + interval + bound + TotalLag(events)
    decreases |events|
  {
    if events == [] {
    } else {
      var e := events[0];
      StepKeepsInv(s, e, interval);
      WakeDeadlineFrom(Step(s, e, interval), events[1..], interval, bound + if e.Redraw? then e.lag else 0);
    }
  }

  /** An armed wake is never early, and is late by no more than the time lost arming timers: with
      none lost, its deadline is one interval after the last shader frame. */
  lemma ArmedWakeIsOneIntervalOut(events: seq<Event>, interval: nat)
    requires CanRun(INITIAL, events, interval)
    ensures var s := Run(INITIAL, events, interval);
      s.wake.Some? ==>
        s.last.Some? && s.last.value + interval <= s.wake.value <= s.last.value + interval + TotalLag(events)
  {
    WakeDeadlineFrom(INITIAL, events, interval, 0);
  }

  /** What the latest active redraw of a trace was for. */
  function Latest(earlier: Option<Load>, events: seq<Event>): Option<Load>
    decreases |events|
  {
    if events == [] then earlier
    else Latest(if events[0].Redraw? then Some(events[0].load) else earlier, events[1..])
  }

  /** Since the latest active redraw, a wake has fired and the output was inactive when its redraw came.
      `fired` says that the latest wake still awaits its redraw, `spent` that an earlier one got it. */
  function WakeSpent(fired: bool, spent: bool, events: seq<Event>): bool
    decreases |events|
  {
    if events == [] then spent
    else
      match events[0]
      case Redraw(_, _, _) => WakeSpent(false, false, events[1..])
      case InactiveRedraw(_) => WakeSpent(false, spent || fired, events[1..])
      case WakeFires(_) => WakeSpent(true, spent, events[1..])
  }

  /** No wake is armed, and none has fired whose redraw is to come. */
  predicate Stalled(s: State) {
    s.wake.None? && !s.woken
  }

  ghost predicate Driven(s: State, latest: Option<Load>, spent: bool, interval: nat) {
    latest == Some(ShaderOnly) ==>
      && (Stalled(s) <==> spent)
      && (spent ==> s.wake.None?)
      && s.last.Some?
      && (s.wake.None? ==> s.last.value + interval <= s.clock)
  }

  lemma StepKeepsDriven(s: State, latest: Option<Load>, spent: bool, e: Event, interval: nat)
    requires Enabled(s, e) && Inv(s, interval) && Driven(s, latest, spent, interval)
    ensures Driven(Step(s, e, interval), if e.Redraw? then Some(e.load) else latest,
                   !e.Redraw? && (spent || (e.InactiveRedraw? && s.woken)), interval)
  {
  }

  lemma {:induction false} StaysDriven(s: State, latest: Option<Load>, spent: bool, events: seq<Event>, interval: nat)
    requires CanRun(s, events, interval) && Inv(s, interval) && Driven(s, latest, spent, interval)
    ensures Driven(Run(s, events, interval), Latest(latest, events), WakeSpent(s.woken, spent, events), interval)
    decreases |events|
  {
    if events == [] {
    } else {
      var e := events[0];
      StepKeepsInv(s, e, interval);
      StepKeepsDriven(s, latest, spent, e, interval);
      StaysDriven(Step(s, e, interval), if e.Redraw? then Some(e.load) else latest,
                  !e.Redraw? && (spent || (e.InactiveRedraw? && s.woken)), events[1..], interval);
    }
  }

  /** Once the latest active redraw was for shaders alone, a wake is armed, or has fired with its redraw
      to come, unless a redraw of the inactive output has used one up since; then, and only then, the
      animation waits for a redraw that something else queues. */
  lemma AnimationStallsIff(events: seq<Event>, interval: nat)
    requires CanRun(INITIAL, events, interval) && Latest(None, events) == Some(ShaderOnly)
    ensures Stalled(Run(INITIAL, events, interval)) <==> WakeSpent(false, false, events)
  {
    StaysDriven(INITIAL, None, false, events, interval);
  }

  lemma {:induction false} NothingSpent(fired: bool, events: seq<Event>)
    requires forall e | e in events :: !e.InactiveRedraw?
    ensures !WakeSpent(fired, false, events)
    decreases |events|
  {
    if events == [] {
    } else {
      assert events[0] in events;
      NothingSpent(!events[0].Redraw?, events[1..]);
    }
  }

  /** An output that stays active never stalls. */
  lemma AnimationNeverStalls(events: seq<Event>, interval: nat)
    requires CanRun(INITIAL, events, interval) && Latest(None, events) == Some(ShaderOnly)
    requires forall e | e in events :: !e.InactiveRedraw?
    ensures Run(INITIAL, events, interval).wake.Some? || Run(INITIAL, events, interval).woken
  {
    AnimationStallsIff(events, interval);
    NothingSpent(false, events);
  }

  /** While no wake is armed, fired or used up, the next redraw for shaders alone renders a shader frame
      at once and so arms the next wake: an animation that has stalled resumes with any such redraw. */
  lemma UnarmedRedrawIsDue(events: seq<Event>, interval: nat, now: Instant, lag: nat)
    requires CanRun(INITIAL, events, interval) && Latest(None, events) == Some(ShaderOnly)
    requires Run(INITIAL, events, interval).wake.None?
    requires Enabled(Run(INITIAL, events, interval), Redraw(now, ShaderOnly, lag))
    ensures var s, e := Run(INITIAL, events, interval), Redraw(now, ShaderOnly, lag);
      IsDue(s, e, interval) && Step(s, e, interval).wake == Some(now + lag + interval)
  {
    StaysDriven(INITIAL, None, false, events, interval);
  }

  /** At any interval the animation can stall: the wake of the first frame fires, and its redraw finds
      the output inactive. */
  lemma StallHappens(interval: nat)
    ensures exists events :: CanRun(INITIAL, events, interval) && Latest(None, events) == Some(ShaderOnly)
                             && Stalled(Run(INITIAL, events, interval))
  {
    var e1, e2, e3 := Redraw(0, ShaderOnly, 0), WakeFires(interval), InactiveRedraw(interval);
    var s1 := Step(INITIAL, e1, interval);
    var s2 := Step(s1, e2, interval);
    var s3 := Step(s2, e3, interval);
    FirstOfRun(s2, Some(ShaderOnly), e3, [], interval);
    FirstOfRun(s1, Some(ShaderOnly), e2, [e3] + [], interval);
    FirstOfRun(INITIAL, None, e1, [e2] + ([e3] + []), interval);
    assert Stalled(s3);
  }

  lemma FirstOfRun(s: State, earlier: Option<Load>, e: Event, events: seq<Event>, interval: nat)
    requires Enabled(s, e) && CanRun(Step(s, e, interval), events, interval)
    ensures CanRun(s, [e] + events, interval)
    ensures Run(s, [e] + events, interval) == Run(Step(s, e, interval), events, interval)
    ensures Latest(earlier, [e] + events) == Latest(if e.Redraw? then Some(e.load) else earlier, events)
  {
    assert ([e] + events)[0] == e && ([e] + events)[1..] == events;
  }

  /** A wake is never wasted: the redraw it queued renders a shader frame, whenever it comes. */
  lemma WokenRedrawIsDue(events: seq<Event>, interval: nat, now: Instant, lag: nat)
    requires CanRun(INITIAL, events, interval) && Run(INITIAL, events, interval).woken
    requires Enabled(Run(INITIAL, events, interval), Redraw(now, ShaderOnly, lag))
    ensures IsDue(Run(INITIAL, events, interval), Redraw(now, ShaderOnly, lag), interval)
  {
    RunKeepsInv(INITIAL, events, interval);
  }

  // ---------- When a frame is due ----------

  /** The instant of the last frame that showed shaders, told from the trace alone: every one that rode
      along, and of those for shaders alone each that came an interval or more after the one before. */
  function LastShown(earlier: Option<Instant>, events: seq<Event>, interval: nat): Option<Instant>
    decreases |events|
  {
    if events == [] then earlier
    else LastShown(ShownBy(earlier, events[0], interval), events[1..], interval)
  }

  function ShownBy(earlier: Option<Instant>, e: Event, interval: nat): Option<Instant> {
    if e.Redraw? && (e.load.RidingAlong? || (e.load.ShaderOnly? && (earlier.None? || earlier.value + interval <= e.now)))
    then Some(e.now) else earlier
  }

  lemma {:induction false} StampIsLastShown(s: State, events: seq<Event>, interval: nat)
    requires Inv(s, interval) && CanRun(s, events, interval)
    ensures Run(s, events, interval).last == LastShown(s.last, events, interval)
    decreases |events|
  {
    if events == [] {
    } else {
      StepKeepsInv(s, events[0], interval);
      assert Step(s, events[0], interval).last == ShownBy(s.last, events[0], interval);
      StampIsLastShown(Step(s, events[0], interval), events[1..], interval);
    }
  }

  /** On any trace, a redraw for shaders alone renders a shader frame if and only if no frame with shaders
      was shown less than an interval ago. It then arms a wake one interval out; if it waits, a wake is
      armed that comes no sooner than the frame is due. */
  lemma FrameIsDueIff(events: seq<Event>, interval: nat, now: Instant, lag: nat)
    requires CanRun(INITIAL, events, interval) && Enabled(Run(INITIAL, events, interval), Redraw(now, ShaderOnly, lag))
    ensures var s, e, shown := Run(INITIAL, events, interval), Redraw(now, ShaderOnly, lag), LastShown(None, events, interval);
      var t := Step(s, e, interval);
      && (IsDue(s, e, interval) <==> shown.None? || shown.value + interval <= now)
      && (IsDue(s, e, interval) ==> t.wake == Some(now + lag + interval))
      && (!IsDue(s, e, interval) ==>
            t.wake == if s.wake.Some? then s.wake else Some(shown.value + interval + lag))
  {
    RunKeepsInv(INITIAL, events, interval);
    StampIsLastShown(INITIAL, events, interval);
  }

  /** A wake is only ever armed for shaders alone: any other active redraw cancels it. */
  lemma {:induction false} WakeNeedsShaders(s: State, latest: Option<Load>, events: seq<Event>, interval: nat)
    requires CanRun(s, events, interval) && (s.wake.Some? ==> latest == Some(ShaderOnly))
    ensures Run(s, events, interval).wake.Some? ==> Latest(latest, events) == Some(ShaderOnly)
    decreases |events|
  {
    if events == [] {
    } else {
      var e := events[0];
      WakeNeedsShaders(Step(s, e, interval), if e.Redraw? then Some(e.load) else latest, events[1..], interval);
    }
  }

  /** ... from the start. */
  lemma OnlyShadersArm(events: seq<Event>, interval: nat)
    requires CanRun(INITIAL, events, interval)
    ensures Run(INITIAL, events, interval).wake.Some? ==> Latest(None, events) == Some(ShaderOnly)
  {
    WakeNeedsShaders(INITIAL, None, events, interval);
  }

  // ---------- The cap ----------

  ghost predicate Apart(frames: seq<Instant>, interval: nat) {
    forall i, j | 0 <= i < j < |frames| :: frames[i] + interval <= frames[j]
  }

  ghost predicate AllFrom(frames: seq<Instant>, bound: Instant) {
    forall i | 0 <= i < |frames| :: bound <= frames[i]
  }

  lemma PrependApart(first: Instant, frames: seq<Instant>, interval: nat, bound: Instant)
    requires Apart(frames, interval) && AllFrom(frames, first + interval) && bound <= first
    ensures Apart([first] + frames, interval) && AllFrom([first] + frames, bound)
  {
  }

  /** The earliest instant at which the next shader frame may be due. */
  function NextDue(s: State, interval: nat): Instant {
    if s.last.Some? then s.last.value + interval else 0
  }

  lemma StepPostponesDue(s: State, e: Event, interval: nat)
    requires Inv(s, interval) && Enabled(s, e)
    ensures NextDue(s, interval) <= NextDue(Step(s, e, interval), interval)
    ensures IsDue(s, e, interval) ==>
      NextDue(s, interval) <= e.now && NextDue(Step(s, e, interval), interval) == e.now + interval
  {
  }

  /** Shader frames are at least one interval apart, from the last one on. */
  lemma {:induction false} DueFramesApart(s: State, events: seq<Event>, interval: nat)
    requires Inv(s, interval) && CanRun(s, events, interval)
    ensures Apart(DueFrames(s, events, interval), interval)
    ensures AllFrom(DueFrames(s, events, interval), NextDue(s, interval))
    decreases |events|
  {
    if events != [] {
      var e, rest := events[0], events[1..];
      StepKeepsInv(s, e, interval);
      StepPostponesDue(s, e, interval);
      DueFramesApart(Step(s, e, interval), rest, interval);
      var d := DueFrames(Step(s, e, interval), rest, interval);
      if IsDue(s, e, interval) {
        PrependApart(e.now, d, interval, NextDue(s, interval));
      } else {
        assert [] + d == d;
      }
    }
  }

  lemma {:induction false} ApartGap(frames: seq<Instant>, interval: nat, i: nat, j: nat)
    requires Apart(frames, interval) && i <= j < |frames|
    ensures frames[i] + (j - i) * interval <= frames[j]
    decreases j
  {
    if i < j {
      ApartGap(frames, interval, i, j - 1);
      assert (j - i) * interval == (j - 1 - i) * interval + interval;
    }
  }

  /** The frames rendered in the window from `start` to `start + length`. */
  function FramesWithin(frames: seq<Instant>, start: Instant, length: nat): seq<Instant> {
    if frames == [] then []
    else (if start <= frames[0] <= start + length then [frames[0]] else []) + FramesWithin(frames[1..], start, length)
  }

  lemma {:induction false} WithinKeepsApart(frames: seq<Instant>, interval: nat, start: Instant, length: nat, bound: Instant)
    requires Apart(frames, interval) && AllFrom(frames, bound)
    ensures Apart(FramesWithin(frames, start, length), interval)
    ensures AllFrom(FramesWithin(frames, start, length), bound)
  {
    if frames != [] {
      var first, later := frames[0], frames[1..];
      assert AllFrom(later, first + interval);
      WithinKeepsApart(later, interval, start, length, first + interval);
      var rest := FramesWithin(later, start, length);
      if start <= first <= start + length {
        PrependApart(first, rest, interval, bound);
      } else {
        assert [] + rest == rest;
      }
    }
  }

  lemma {:induction false} WithinIsWithin(frames: seq<Instant>, start: Instant, length: nat)
    ensures forall t | t in FramesWithin(frames, start, length) :: start <= t <= start + length
  {
    if frames == [] {
    } else {
      WithinIsWithin(frames[1..], start, length);
    }
  }

  /** The cap: any window of length `length` holds at most `length / interval + 1` shader frames, on
      any trace of redraws and wakes. */
  lemma FrameRateIsCapped(events: seq<Event>, interval: nat, start: Instant, length: nat)
    requires interval > 0 && CanRun(INITIAL, events, interval)
    ensures |FramesWithin(DueFrames(INITIAL, events, interval), start, length)| <= length / interval + 1
  {
    var frames := DueFrames(INITIAL, events, interval);
    DueFramesApart(INITIAL, events, interval);
    WithinKeepsApart(frames, interval, start, length, 0);
    WithinIsWithin(frames, start, length);
    ApartInWindow(FramesWithin(frames, start, length), interval, start, length);
  }

  lemma ApartInWindow(frames: seq<Instant>, interval: nat, start: Instant, length: nat)
    requires interval > 0 && Apart(frames, interval)
    requires forall t | t in frames :: start <= t <= start + length
    ensures |frames| <= length / interval + 1
  {
    if frames != [] {
      var gaps: nat := |frames| - 1;
      assert gaps * interval <= length by {
        ApartGap(frames, interval, 0, gaps);
        assert frames[0] in frames && frames[gaps] in frames;
        assert gaps - 0 == gaps;
      }
      AtMostQuotient(gaps, interval, length);
    }
  }

  lemma AtMostQuotient(n: nat, interval: nat, t: nat)
    requires interval > 0 && n * interval <= t
    ensures n <= t / interval
  {
    if t / interval < n {
      MultiplyOrdered(t / interval + 1, n, interval);
    }
  }

  lemma MultiplyOrdered(a: nat, b: nat, c: nat)
    requires a <= b
    ensures a * c <= b * c
  {
  }

  /** The fields that `OutputState` keeps for the throttle, and the methods that update them. */
  class Throttle {
    var lastShaderFrame: Option<Instant>
    var timer: Option<Instant>

    constructor ()
      ensures lastShaderFrame == None && timer == None
    {
      lastShaderFrame, timer := None, None;
    }

    method CancelTimer()
      modifies this`timer
      ensures timer == None
    {
      if timer.Some? {
        timer := None;
      }
    }

    method ArmTimer(start: Instant, delay: nat)
      modifies this`timer
      ensures timer == Some(start + delay)
    {
      CancelTimer();
      timer := Some(start + delay);
    }

    method OnRedraw(now: Instant, load: Load, lag: nat, interval: nat)
      modifies this
      ensures forall s: State | s.last == old(lastShaderFrame) && s.wake == old(timer) && s.clock <= now ::
        var t := Step(s, Redraw(now, load, lag), interval);
        lastShaderFrame == t.last && timer == t.wake
    {
      match load {
        case NoShader => CancelTimer();
        case RidingAlong =>
          lastShaderFrame := Some(now);
          CancelTimer();
        case ShaderOnly =>
          match Decide(lastShaderFrame, now, interval) {
            case Due =>
              lastShaderFrame := Some(now);
              ArmTimer(now + lag, interval);
            case Wait(remaining) =>
              if timer.None? {
                ArmTimer(now + lag, remaining);
              }
          }
      }
    }
  }
}
