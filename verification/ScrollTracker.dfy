/** Scroll accumulation: continuous scroll amounts become whole ticks. */
module ScrollTrackers {
  import opened RealProducts

  /** The tick size is an `i8` in the program, held as a float. */
  datatype Tracker = Tracker(tick: int, last: real, acc: real)
  {
    predicate Valid() {
      && 0 < tick <= 127
      && Abs(acc) < tick as real
    }

    function Reset(): Tracker {
      this.(last := 0.0, acc := 0.0)
    }

    function Mirror(): Tracker {
      this.(last := -last, acc := -acc)
    }

    predicate TurnsOn(amount: real) {
      (last > 0.0 && amount < 0.0) || (last < 0.0 && amount > 0.0)
    }

    /** The amount that is pending once `amount` has arrived. */
    function Pending(amount: real): real {
      (if TurnsOn(amount) then 0.0 else acc) + amount
    }

    predicate Saturates(amount: real) {
      Abs(Pending(amount)) >= (128 * tick) as real
    }
  }

  /** Conversion of a float to an integer type: towards zero. */
  function Truncate(x: real): int {
    if x >= 0.0 then x.Floor else -((-x).Floor)
  }

  /** Division of machine integers: towards zero. */
  function Divide(n: int, d: int): int
    requires d > 0
  {
    if n >= 0 then n / d else -((-n) / d)
  }

  /** The float remainder, with the sign of the dividend. */
  function Remainder(x: real, d: real): real
    requires d > 0.0
  {
    x - d * (Truncate(x / d) as real)
  }

  datatype Outcome = Outcome(tracker: Tracker, ticks: int)

  /** What stays pending of `x`. */
  function Kept(x: real, tick: int): real
    requires tick > 0
  {
    if Abs(x) >= tick as real then Remainder(x, tick as real) else x
  }

  /** The ticks given for a pending `x`. */
  function Given(x: real, tick: int): int
    requires tick > 0
  {
    var size := tick as real;
    if Abs(x) >= size then Divide(Truncate(ClampReal(x, -127.0 * size, 127.0 * size)), tick) else 0
  }

  function Step(t: Tracker, amount: real): Outcome
    requires t.tick > 0
  {
    var pending := t.Pending(amount);
    Outcome(t.(last := amount, acc := Kept(pending, t.tick)), Given(pending, t.tick))
  }

  function Run(t: Tracker, amounts: seq<real>): (o: Outcome)
    requires t.tick > 0
    ensures o.tracker.tick == t.tick
  {
    if amounts == [] then
      Outcome(t, 0)
    else
      var before := Run(t, amounts[..|amounts| - 1]);
      var step := Step(before.tracker, amounts[|amounts| - 1]);
      Outcome(step.tracker, before.ticks + step.ticks)
  }

  function Sum(amounts: seq<real>): real {
    if amounts == [] then 0.0 else Sum(amounts[..|amounts| - 1]) + amounts[|amounts| - 1]
  }

  // Whole ticks in a non-negative amount, counted one by one.

  function Whole(x: real, tick: int): nat
    requires tick > 0 && x >= 0.0
    decreases x.Floor
  {
    if x < tick as real then 0 else 1 + Whole(x - tick as real, tick)
  }

  /** What is left below one tick. */
  function Rest(x: real, tick: int): (r: real)
    requires tick > 0 && x >= 0.0
    ensures 0.0 <= r < tick as real
    decreases x.Floor
  {
    if x < tick as real then x else Rest(x - tick as real, tick)
  }

  lemma OneMore(q: int, tick: int)
    ensures (q + 1) * tick == q * tick + tick
  {
  }

  lemma {:induction false} WholeAndRest(x: real, tick: int)
    requires tick > 0 && x >= 0.0
    ensures x == (Whole(x, tick) * tick) as real + Rest(x, tick)
    decreases x.Floor
  {
    if x < tick as real {
    } else {
      WholeAndRest(x - tick as real, tick);
      OneMore(Whole(x - tick as real, tick), tick);
    }
  }

  /** Adding `n` ticks, `m` in all, adds `n` and leaves the same rest. */
  lemma {:induction false} AddTicks(x: real, n: nat, m: int, tick: int)
    requires tick > 0 && x >= 0.0 && m == n * tick && m >= 0
    ensures Whole(x + m as real, tick) == Whole(x, tick) + n
    ensures Rest(x + m as real, tick) == Rest(x, tick)
    decreases n
  {
    if n == 0 {
      assert m == 0;
    } else {
      OneMore(n - 1, tick);
      Multiple(n - 1, tick);
      AddTicks(x, n - 1, m - tick, tick);
      assert x + m as real - tick as real == x + (m - tick) as real;
    }
  }

  lemma Multiple(n: nat, tick: int)
    requires tick > 0
    ensures n * tick >= 0
  {
  }

  /** Amounts below `n` ticks hold fewer than `n`. */
  lemma {:induction false} WholeReaches(x: real, n: nat, m: int, tick: int)
    requires tick > 0 && x >= 0.0 && m == n * tick
    ensures x >= m as real <==> Whole(x, tick) >= n
    decreases n
  {
    if n == 0 {
      assert m == 0;
    } else {
      OneMore(n - 1, tick);
      Multiple(n - 1, tick);
      if x >= tick as real {
        WholeReaches(x - tick as real, n - 1, m - tick, tick);
      }
    }
  }

  /** A number between the same two multiples is the quotient. */
  lemma {:induction false} QuotientIsWhole(x: real, q: int, m: int, tick: int)
    requires tick > 0 && x >= 0.0 && m == q * tick && m as real <= x < (m + tick) as real
    ensures q == Whole(x, tick)
  {
    if q < 0 {
      Multiple(-q - 1, tick);
      OneMore(q, tick);
      NegatedMultiple(-q - 1, tick);
    } else {
      WholeReaches(x, q, m, tick);
      OneMore(q, tick);
      WholeReaches(x, q + 1, m + tick, tick);
    }
  }

  lemma NegatedMultiple(n: int, tick: int)
    ensures (-n) * tick == -(n * tick)
  {
  }

  /** The division of machine integers counts the same. */
  lemma FloorQuotient(x: real, tick: int)
    requires tick > 0 && x >= 0.0
    ensures x.Floor / tick == Whole(x, tick)
  {
    var n := x.Floor;
    DivisionParts(n, tick);
    QuotientIsWhole(x, n / tick, n / tick * tick, tick);
  }

  lemma DivisionParts(n: int, d: int)
    requires d > 0
    ensures n / d * d <= n < n / d * d + d
  {
    assert n == n / d * d + n % d;
  }

  // The same by division of floats.

  lemma Fraction(r: real, size: real)
    requires size > 0.0 && 0.0 <= r < 1.0
    ensures 0.0 <= r * size < size
  {
    NonNegative(r, size);
    PositiveProduct(1.0 - r, size);
  }

  lemma Split(q: real, r: real, size: real)
    ensures (q + r) * size == q * size + r * size
  {
  }

  lemma ScaleShare(q: real, r: real, size: real, x: real)
    requires size > 0.0 && 0.0 <= r < 1.0 && x == (q + r) * size
    ensures q * size <= x < q * size + size
  {
    Fraction(r, size);
    Split(q, r, size);
  }

  lemma ShareTimesSize(x: real, size: real)
    requires size > 0.0
    ensures x / size * size == x
  {
  }

  lemma ScaleFloor(x: real, size: real)
    requires size > 0.0
    ensures var q := (x / size).Floor as real; q * size <= x < q * size + size
  {
    var q := (x / size).Floor as real;
    ShareTimesSize(x, size);
    ScaleShare(q, x / size - q, size, x);
  }

  lemma PositiveShare(x: real, size: real)
    requires size > 0.0 && x >= 0.0
    ensures x / size >= 0.0
  {
  }

  lemma ProductOfCasts(p: int, q: int)
    ensures (p as real) * (q as real) == (p * q) as real
  {
  }

  /** The truncated quotient of a non-negative amount is the number of its whole ticks. */
  lemma ShareIsWhole(x: real, tick: int)
    requires tick > 0 && x >= 0.0
    ensures Truncate(x / (tick as real)) == Whole(x, tick)
  {
    var q := (x / (tick as real)).Floor;
    PositiveShare(x, tick as real);
    ScaleFloor(x, tick as real);
    ProductOfCasts(q, tick);
    QuotientIsWhole(x, q, q * tick, tick);
  }

  lemma SameTimes(d: real, q: int, w: int)
    requires q == w
    ensures d * (q as real) == d * (w as real)
  {
  }

  lemma RemainderIsRest(x: real, tick: int)
    requires tick > 0 && x >= 0.0
    ensures Remainder(x, tick as real) == Rest(x, tick)
  {
    var w := Whole(x, tick);
    ShareIsWhole(x, tick);
    SameTimes(tick as real, Truncate(x / (tick as real)), w);
    ProductOfCasts(tick, w);
    WholeAndRest(x, tick);
  }

  // One step, going forward.

  lemma ClampedFloor(x: real, tick: int, m: int)
    requires tick > 0 && x >= 0.0 && m == 127 * tick
    ensures Truncate(ClampReal(x, -127.0 * (tick as real), 127.0 * (tick as real))) == if x > m as real then m else x.Floor
  {
    assert 127.0 * (tick as real) == m as real;
    assert (m as real).Floor == m;
  }

  /** The ticks given for a non-negative pending amount are its whole ticks, but never more than 127. */
  lemma ForwardGiven(x: real, tick: int)
    requires tick > 0 && x >= 0.0
    ensures Given(x, tick) == if Whole(x, tick) > 127 then 127 else Whole(x, tick)
  {
    var m := 127 * tick;
    ClampedFloor(x, tick, m);
    FloorQuotient(x, tick);
    FloorQuotient(m as real, tick);
    WholeReaches(x, 127, m, tick);
    WholeReaches(m as real, 127, m, tick);
    WholeReaches(m as real, 128, m + tick, tick);
  }

  /** And what is kept is the rest below one tick. */
  lemma ForwardKept(x: real, tick: int)
    requires tick > 0 && x >= 0.0
    ensures Kept(x, tick) == Rest(x, tick)
  {
    if x >= tick as real {
      RemainderIsRest(x, tick);
    }
  }

  // Scrolling the other way is the mirror image.

  lemma MirrorRemainder(x: real, d: real)
    requires d > 0.0
    ensures Truncate(-x) == -Truncate(x)
    ensures Remainder(-x, d) == -Remainder(x, d)
  {
    MirrorQuotient(x, d);
    MirrorTruncate(x);
    MirrorTruncate(x / d);
    MirrorProduct(d, Truncate(x / d) as real);
  }

  lemma MirrorTruncate(x: real)
    ensures Truncate(-x) == -Truncate(x)
  {
  }

  lemma MirrorQuotient(x: real, d: real)
    requires d > 0.0
    ensures (-x) / d == -(x / d)
  {
  }

  lemma MirrorProduct(d: real, q: real)
    ensures d * (-q) == -(d * q)
  {
  }

  lemma MirrorClamp(x: real, bound: real)
    requires bound >= 0.0
    ensures Truncate(ClampReal(-x, -bound, bound)) == -Truncate(ClampReal(x, -bound, bound))
  {
    MirrorTruncate(ClampReal(x, -bound, bound));
  }

  lemma MirrorPending(x: real, tick: int)
    requires tick > 0
    ensures Kept(-x, tick) == -Kept(x, tick)
    ensures Given(-x, tick) == -Given(x, tick)
  {
    var size := tick as real;
    if Abs(x) >= size {
      MirrorRemainder(x, size);
      assert -127.0 * size == -(127.0 * size);
      MirrorClamp(x, 127.0 * size);
      MirrorDivide(Truncate(ClampReal(x, -(127.0 * size), 127.0 * size)), tick);
    }
  }

  lemma MirrorDivide(n: int, d: int)
    requires d > 0
    ensures Divide(-n, d) == -Divide(n, d)
  {
  }

  lemma MirrorStep(t: Tracker, amount: real)
    requires t.tick > 0
    ensures Step(t.Mirror(), -amount) == Outcome(Step(t, amount).tracker.Mirror(), -Step(t, amount).ticks)
  {
    assert t.Mirror().Pending(-amount) == -t.Pending(amount);
    MirrorPending(t.Pending(amount), t.tick);
  }

  function Negated(amounts: seq<real>): (r: seq<real>)
    ensures |r| == |amounts|
  {
    seq(|amounts|, i requires 0 <= i < |amounts| => -amounts[i])
  }

  /** Some step of the run has 128 ticks or more pending. */
  ghost predicate Saturated(t: Tracker, amounts: seq<real>)
    requires t.tick > 0
  {
    && amounts != []
    && var init := amounts[..|amounts| - 1];
    || Saturated(t, init)
    || Run(t, init).tracker.Saturates(amounts[|amounts| - 1])
  }

  lemma {:induction false} MirrorRun(t: Tracker, amounts: seq<real>)
    requires t.tick > 0
    ensures var o := Run(t, amounts);
      Run(t.Mirror(), Negated(amounts)) == Outcome(o.tracker.Mirror(), -o.ticks)
    ensures Sum(Negated(amounts)) == -Sum(amounts)
    ensures Saturated(t.Mirror(), Negated(amounts)) == Saturated(t, amounts)
  {
    if amounts == [] {
    } else {
      var init, last := amounts[..|amounts| - 1], amounts[|amounts| - 1];
      var negated := Negated(amounts);
      assert negated[..|negated| - 1] == Negated(init);
      MirrorRun(t, init);
      MirrorStep(Run(t, init).tracker, last);
    }
  }

  // The invariant of every run.

  /** The scrolling that a step does not lose. */
  function Accounted(x: real, tick: int): real
    requires tick > 0
  {
    Kept(x, tick) + (Given(x, tick) * tick) as real
  }

  lemma MirrorCast(n: int, d: int)
    ensures ((-n) * d) as real == -((n * d) as real)
  {
  }

  lemma MirrorAccounted(x: real, tick: int)
    requires tick > 0
    ensures Accounted(-x, tick) == -Accounted(x, tick)
  {
    MirrorPending(x, tick);
    MirrorCast(Given(x, tick), tick);
  }

  lemma ForwardAccounted(x: real, tick: int)
    requires tick > 0 && x >= 0.0
    ensures 0.0 <= Kept(x, tick) < tick as real
    ensures 0 <= Given(x, tick) <= 127
    ensures Given(x, tick) > 0 ==> x >= tick as real
    ensures x >= (128 * tick) as real <==> x != Accounted(x, tick)
  {
    var w := Whole(x, tick);
    ForwardKept(x, tick);
    ForwardGiven(x, tick);
    WholeReaches(x, 128, 128 * tick, tick);
    WholeAndRest(x, tick);
    AccountedMeans(x, tick, w);
  }

  lemma AccountedMeans(x: real, tick: int, w: nat)
    requires tick > 0 && x == (w * tick) as real + Kept(x, tick)
    requires Given(x, tick) == if w > 127 then 127 else w
    ensures w <= 127 <==> x == Accounted(x, tick)
  {
    if w > 127 {
      Multiple(w - 128, tick);
      Distribute(w - 128, 128, tick);
      assert (w - 128 + 128) * tick == w * tick;
    }
  }

  lemma Distribute(p: int, q: int, tick: int)
    ensures (p + q) * tick == p * tick + q * tick
  {
  }

  lemma GivenFacts(x: real, tick: int)
    requires tick > 0
    ensures Abs(Kept(x, tick)) < tick as real
    ensures -127 <= Given(x, tick) <= 127
    ensures Given(x, tick) > 0 ==> x >= tick as real
    ensures Given(x, tick) < 0 ==> x <= -(tick as real)
    ensures Abs(x) >= (128 * tick) as real <==> x != Accounted(x, tick)
  {
    if x >= 0.0 {
      ForwardAccounted(x, tick);
    } else {
      ForwardAccounted(-x, tick);
      MirrorPending(x, tick);
      MirrorAccounted(x, tick);
    }
  }

  /** One step keeps less than a tick pending, gives between -127 and 127 ticks, never against the
      amount that came in, and loses scrolling exactly when it saturates. */
  lemma StepFacts(t: Tracker, amount: real)
    requires t.Valid()
    ensures var o := Step(t, amount);
      && o.tracker.Valid()
      && -127 <= o.ticks <= 127
      && (o.ticks > 0 ==> amount > 0.0)
      && (o.ticks < 0 ==> amount < 0.0)
      && (t.Saturates(amount) <==> t.Pending(amount) != o.tracker.acc + (o.ticks * t.tick) as real)
  {
    GivenFacts(t.Pending(amount), t.tick);
  }

  /** What becomes of an amount, spelled out: it adds to what was pending, unless its direction is opposite
      to that of the last amount; nothing of the sum is lost while it is below 128 ticks, and beyond that
      127 ticks are given and whole ticks are lost. */
  lemma StepMeans(t: Tracker, amount: real)
    requires t.Valid()
    ensures var o := Step(t, amount);
      var turns := (t.last > 0.0 && amount < 0.0) || (t.last < 0.0 && amount > 0.0);
      var sum := if turns then amount else t.acc + amount;
      && o.tracker.last == amount && o.tracker.tick == t.tick
      && (-((128 * t.tick) as real) < sum < (128 * t.tick) as real ==> o.tracker.acc + (o.ticks * t.tick) as real == sum)
      && (sum >= (128 * t.tick) as real ==> o.ticks == 127) && (sum <= -((128 * t.tick) as real) ==> o.ticks == -127)
      && (sum >= 0.0 ==> o.tracker.acc >= 0.0) && (sum <= 0.0 ==> o.tracker.acc <= 0.0)
  {
    var sum := t.Pending(amount);
    GivenFacts(sum, t.tick);
    SaturatedGives(sum, t.tick);
  }

  lemma SaturatedGives(x: real, tick: int)
    requires tick > 0
    ensures x >= (128 * tick) as real ==> Given(x, tick) == 127
    ensures x <= -((128 * tick) as real) ==> Given(x, tick) == -127
    ensures (x >= 0.0 ==> Kept(x, tick) >= 0.0) && (x <= 0.0 ==> Kept(x, tick) <= 0.0)
  {
    if x >= 0.0 {
      ForwardKept(x, tick);
      ForwardGiven(x, tick);
      WholeReaches(x, 128, 128 * tick, tick);
    }
    if x <= 0.0 {
      MirrorPending(x, tick);
      ForwardKept(-x, tick);
      ForwardGiven(-x, tick);
      WholeReaches(-x, 128, 128 * tick, tick);
    }
  }

  /** Whatever is scrolled, in whatever directions, every step of the run starts and ends with less
      than one tick pending, gives ticks that fit an `i8`, and gives none against its own amount. */
  lemma {:induction false} TicksFollowTheScroll(t: Tracker, amounts: seq<real>, k: nat)
    requires t.Valid() && k < |amounts|
    ensures var before := Run(t, amounts[..k]).tracker;
      var o := Step(before, amounts[k]);
      && before.Valid() && o.tracker.Valid()
      && -127 <= o.ticks <= 127
      && (o.ticks > 0 ==> amounts[k] > 0.0)
      && (o.ticks < 0 ==> amounts[k] < 0.0)
    decreases k
  {
    if k == 0 {
    } else {
      TicksFollowTheScroll(t, amounts, k - 1);
      assert amounts[..k][..k - 1] == amounts[..k - 1];
    }
    StepFacts(Run(t, amounts[..k]).tracker, amounts[k]);
  }

  // Scrolling in one direction.

  ghost predicate Forward(amounts: seq<real>) {
    forall i :: 0 <= i < |amounts| ==> amounts[i] >= 0.0
  }

  ghost predicate Backward(amounts: seq<real>) {
    forall i :: 0 <= i < |amounts| ==> amounts[i] <= 0.0
  }

  ghost predicate IsReset(t: Tracker) {
    t.last == 0.0 && t.acc == 0.0
  }

  /** More scrolling on top of `x` goes by what was left of it. */
  lemma AddAmount(x: real, amount: real, tick: int)
    requires tick > 0 && x >= 0.0 && amount >= 0.0
    ensures Whole(x + amount, tick) == Whole(x, tick) + Whole(Rest(x, tick) + amount, tick)
    ensures Rest(x + amount, tick) == Rest(Rest(x, tick) + amount, tick)
  {
    var w := Whole(x, tick);
    WholeAndRest(x, tick);
    Multiple(w, tick);
    AddTicks(Rest(x, tick) + amount, w, w * tick, tick);
    assert Rest(x, tick) + amount + (w * tick) as real == x + amount;
  }

  /** A forward run from a reset gives the whole ticks of the sum, exactly unless a step saturates,
      and in any case leaves the rest of the sum pending. */
  lemma {:induction false} ForwardRun(t: Tracker, amounts: seq<real>)
    requires t.Valid() && IsReset(t) && Forward(amounts)
    ensures var o, sum := Run(t, amounts), Sum(amounts);
      && sum >= 0.0
      && o.tracker.last >= 0.0
      && o.tracker.acc == Rest(sum, t.tick)
      && 0 <= o.ticks <= Whole(sum, t.tick)
      && (o.ticks == Whole(sum, t.tick) <==> !Saturated(t, amounts))
  {
    if amounts == [] {
    } else {
      var init, last := amounts[..|amounts| - 1], amounts[|amounts| - 1];
      ForwardRun(t, init);
      AddAmount(Sum(init), last, t.tick);
      ForwardStep(Run(t, init).tracker, last);
    }
  }

  lemma ForwardStep(t: Tracker, amount: real)
    requires t.tick > 0 && t.acc >= 0.0 && t.last >= 0.0 && amount >= 0.0
    ensures var o, pending := Step(t, amount), t.acc + amount;
      && o.tracker.acc == Rest(pending, t.tick) && o.tracker.last == amount
      && 0 <= o.ticks <= Whole(pending, t.tick)
      && (o.ticks == Whole(pending, t.tick) <==> !t.Saturates(amount))
  {
    var pending := t.acc + amount;
    assert t.Pending(amount) == pending;
    ForwardKept(pending, t.tick);
    ForwardGiven(pending, t.tick);
    WholeReaches(pending, 128, 128 * t.tick, t.tick);
  }

  /** The run gives the truncated quotient of the sum by the tick unless it saturates, and leaves
      the truncated remainder, both in the program's own arithmetic. */
  ghost predicate Conserves(t: Tracker, amounts: seq<real>)
    requires t.tick > 0
  {
    var o := Run(t, amounts);
    && o.tracker.acc == Remainder(Sum(amounts), t.tick as real)
    && (o.ticks == Truncate(Sum(amounts) / t.tick as real) <==> !Saturated(t, amounts))
  }

  lemma ForwardConserves(t: Tracker, amounts: seq<real>)
    requires t.Valid() && IsReset(t) && Forward(amounts)
    ensures Conserves(t, amounts)
  {
    ForwardRun(t, amounts);
    ShareIsWhole(Sum(amounts), t.tick);
    RemainderIsRest(Sum(amounts), t.tick);
  }

  lemma MirrorShare(x: real, d: real)
    requires d > 0.0
    ensures Remainder(-x, d) == -Remainder(x, d)
    ensures Truncate((-x) / d) == -Truncate(x / d)
  {
    MirrorRemainder(x, d);
    MirrorQuotient(x, d);
    MirrorTruncate(x / d);
  }

  lemma MirrorConserves(t: Tracker, amounts: seq<real>)
    requires t.tick > 0 && Conserves(t.Mirror(), Negated(amounts))
    ensures Conserves(t, amounts)
  {
    MirrorRun(t, amounts);
    MirrorShare(Sum(amounts), t.tick as real);
  }

  /** Scrolling in one direction from a reset, either way, is conserved. */
  lemma OneDirectionConserves(t: Tracker, amounts: seq<real>)
    requires t.Valid() && IsReset(t) && (Forward(amounts) || Backward(amounts))
    ensures Conserves(t, amounts)
  {
    if Forward(amounts) {
      ForwardConserves(t, amounts);
    } else {
      assert t.Mirror() == t;
      ForwardConserves(t, Negated(amounts));
      MirrorConserves(t, amounts);
    }
  }

  /** How one scroll is cut into events does not matter: as long as no event saturates, equal sums
      give equal ticks and leave the same amount pending. */
  lemma BatchingDoesNotMatter(t: Tracker, one: seq<real>, other: seq<real>)
    requires t.Valid() && IsReset(t) && Sum(one) == Sum(other)
    requires Forward(one) || Backward(one)
    requires Forward(other) || Backward(other)
    requires !Saturated(t, one) && !Saturated(t, other)
    ensures Run(t, one).ticks == Run(t, other).ticks
    ensures Run(t, one).tracker.acc == Run(t, other).tracker.acc
  {
    OneDirectionConserves(t, one);
    OneDirectionConserves(t, other);
  }

  /** A turn forgets what was pending: from then on the run is one from a reset, so the two results
      above hold for every one-directional stretch that starts with a turn. */
  lemma {:induction false} TurnStartsOver(t: Tracker, amounts: seq<real>)
    requires t.Valid() && amounts != []
    requires (t.last > 0.0 && amounts[0] < 0.0) || (t.last < 0.0 && amounts[0] > 0.0)
    ensures Run(t, amounts) == Run(t.Reset(), amounts)
    ensures Saturated(t, amounts) == Saturated(t.Reset(), amounts)
  {
    var init, last := amounts[..|amounts| - 1], amounts[|amounts| - 1];
    if init == [] {
      assert Run(t, init).tracker == t && Run(t.Reset(), init).tracker == t.Reset();
      assert t.Reset().Pending(last) == t.Pending(last);
    } else {
      TurnStartsOver(t, init);
    }
  }

  /** The tracker as the program keeps it, updated in place. */
  class ScrollTracker {
    const tick: int
    var last: real
    var acc: real

    ghost function State(): Tracker
      reads this
    {
      Tracker(tick, last, acc)
    }

    constructor (tick: int)
      requires 0 < tick <= 127
      ensures State() == Tracker(tick, 0.0, 0.0) && State().Valid()
    {
      this.tick := tick;
      last, acc := 0.0, 0.0;
    }

    method Accumulate(amount: real) returns (ticks: int)
      requires State().Valid()
      modifies `last, `acc
      ensures Outcome(State(), ticks) == Step(old(State()), amount)
      ensures State().Valid() && -127 <= ticks <= 127
    {
      ghost var before := State();
      var changedDirection := (last > 0.0 && amount < 0.0) || (last < 0.0 && amount > 0.0);
      if changedDirection {
        acc := 0.0;
      }
      last := amount;
      acc := acc + amount;
      ticks := 0;
      var size := tick as real;
      if Abs(acc) >= size {
        var clamped := ClampReal(acc, -127.0 * size, 127.0 * size);
        ticks := Divide(Truncate(clamped), tick);
        acc := Remainder(acc, size);
      }
      StepFacts(before, amount);
    }

    method Reset()
      modifies `last, `acc
      ensures State() == old(State()).Reset() && IsReset(State())
      ensures old(State().Valid()) ==> State().Valid()
    {
      last, acc := 0.0, 0.0;
    }
  }
}
