/**
 * The fixed-window limiter for one key: a shared counter that callers
 * increment, and an expiry that the caller who finds it at one sets. The two
 * commands of a call are separate steps, so calls may interleave. A command may
 * also not be carried out, or be carried out without its answer arriving.
 */
module RateLimit {
  import opened Common

  datatype Limits = Limits(limit: int, window: nat)

  /** The counter at its key, and when the key expires, if it does. */
  datatype Counter = Counter(count: nat, expires: Option<nat>)

  /**
   * `arming`: the callers that are to set the expiry. The times of the events
   * that callers were told are within the limit: `ours` by the counter there
   * is, which began at `began`, and `earlier` by the counters before it.
   */
  datatype State = State(now: nat, counter: Option<Counter>, arming: nat, earlier: seq<nat>, ours: seq<nat>, began: nat)

  const IDLE := State(0, None, 0, [], [], 0)

  /**
   * `wait` is the time since the step before. A command that fails is not
   * carried out. One that is lost is, but its caller does not learn so: having
   * lost an INCR it gives up (or starts over, seeing a greater count), having
   * lost an EXPIRE it may try again or give up.
   */
  datatype Step =
    | Incr(wait: nat)
    | IncrLost(wait: nat)
    | IncrFails(wait: nat)
    | Expire(wait: nat)
    | ExpireLost(wait: nat)
    | ExpireFails(wait: nat)

  function Live(counter: Option<Counter>, now: nat): Option<Counter> {
    if counter.Some? && counter.value.expires.Some? && counter.value.expires.value <= now then None else counter
  }

  /** INCR; `told` says whether its answer arrives. */
  function Incremented(l: Limits, h: State, told: bool): State {
    match Live(h.counter, h.now)
    case Some(c) =>
      var count := c.count + 1;
      h.(counter := Some(c.(count := count)), ours := if told && count <= l.limit then h.ours + [h.now] else h.ours)
    case None =>
      h.(counter := Some(Counter(1, None)), arming := if told then h.arming + 1 else h.arming,
         earlier := h.earlier + h.ours, ours := if told && 1 <= l.limit then [h.now] else [], began := h.now)
  }

  /** EXPIRE on the counter, if it is still there. */
  function Expiring(l: Limits, h: State): State {
    match Live(h.counter, h.now)
    case Some(c) => h.(counter := Some(c.(expires := Some(h.now + l.window))))
    case None => h
  }

  function GivenUp(h: State): State {
    h.(arming := if h.arming == 0 then 0 else h.arming - 1)
  }

  function After(l: Limits, before: State, s: Step): State {
    var h := before.(now := before.now + s.wait);
    match s
    case Incr(_) => Incremented(l, h, true)
    case IncrLost(_) => Incremented(l, h, false)
    case IncrFails(_) => h
    case Expire(_) => if h.arming == 0 then h else GivenUp(Expiring(l, h))
    case ExpireLost(_) => if h.arming == 0 then h else Expiring(l, h)
    case ExpireFails(_) => GivenUp(h)
  }

  function Run(l: Limits, steps: seq<Step>): State {
    if steps == [] then IDLE else After(l, Run(l, steps[..|steps| - 1]), steps[|steps| - 1])
  }

  function Between(lo: nat, hi: nat): nat -> bool {
    (t: nat) => lo <= t < hi
  }

  /** How many of the events were granted from `lo` up to, but not including, a window later. */
  function InWindow(l: Limits, granted: seq<nat>, lo: nat): nat {
    Count(granted, Between(lo, lo + l.window))
  }

  function Granted(h: State): seq<nat> {
    h.earlier + h.ours
  }

  function Most(l: Limits): nat {
    if l.limit > 0 then l.limit else 0
  }

  // ----- Counting -----

  lemma {:induction false} CountConcat(a: seq<nat>, b: seq<nat>, wanted: nat -> bool)
    ensures Count(a + b, wanted) == Count(a, wanted) + Count(b, wanted)
  {
    if b == [] {
      assert a + b == a;
    } else {
      CountConcat(a, b[..|b| - 1], wanted);
      assert (a + b)[..|a + b| - 1] == a + b[..|b| - 1];
    }
  }

  lemma {:induction false} CountAtMost(a: seq<nat>, wanted: nat -> bool)
    ensures Count(a, wanted) <= |a|
  {
    if a == [] {
    } else {
      CountAtMost(a[..|a| - 1], wanted);
    }
  }

  lemma CountWithoutFirst(a: seq<nat>, wanted: nat -> bool)
    requires a != [] && !wanted(a[0])
    ensures Count(a, wanted) <= |a| - 1
  {
    assert a == a[..1] + a[1..];
    CountConcat(a[..1], a[1..], wanted);
    CountAtMost(a[1..], wanted);
    assert Count(a[..1], wanted) == 0 by {
      CountNone(a[..1], wanted);
    }
  }

  // ----- The invariant -----

  function Min(a: nat, b: nat): nat {
    if a < b then a else b
  }

  /** The event that began the counter was granted. */
  predicate FirstGranted(h: State) {
    h.ours != [] && h.ours[0] == h.began
  }

  /**
   * A counter grants at most what it has counted and at most the limit, and one
   * less when the event that began it was not granted.
   */
  ghost predicate Tidy(l: Limits, h: State) {
    && (h.counter.None? ==> h.earlier == [] && h.ours == [] && h.arming == 0)
    && (h.counter.Some? ==>
          && h.counter.value.count >= 1 && h.began <= h.now
          && |h.ours| <= Min(h.counter.value.count, Most(l))
          && (Most(l) > 0 && !FirstGranted(h) ==> |h.ours| < Min(h.counter.value.count, Most(l))))
  }

  /** Events come in the life of their counter, which lasts a window at least once its end is set. */
  ghost predicate Dated(l: Limits, h: State) {
    && (forall i | 0 <= i < |h.earlier| :: h.earlier[i] <= h.began && (l.window >= 1 ==> h.earlier[i] < h.began))
    && (forall i | 0 <= i < |h.ours| :: h.ours[i] <= h.now)
    && (h.counter.Some? && h.counter.value.expires.Some? ==>
          && h.counter.value.expires.value >= h.began + l.window
          && (l.window >= 1 ==> forall i | 0 <= i < |h.ours| :: h.ours[i] < h.counter.value.expires.value))
  }

  /** How many events of earlier counters a window that reaches into a counter's life can hold. */
  function Few(l: Limits): nat {
    if l.window <= 1 || Most(l) == 0 then 0 else Most(l) - 1
  }

  ghost predicate FewRecent(l: Limits, earlier: seq<nat>, began: nat) {
    forall lo: nat | lo + l.window > began :: InWindow(l, earlier, lo) <= Few(l)
  }

  /** The most events that come within a window. */
  function Bound(l: Limits): nat {
    if l.window == 0 || Most(l) == 0 then 0 else if l.window == 1 then Most(l) else 2 * Most(l) - 1
  }

  ghost predicate Bounded(l: Limits, granted: seq<nat>) {
    forall lo: nat :: InWindow(l, granted, lo) <= Bound(l)
  }

  ghost predicate Inv(l: Limits, h: State) {
    Tidy(l, h) && Dated(l, h) && FewRecent(l, h.earlier, h.began) && Bounded(l, Granted(h))
  }

  /** A counter that begins does so a window after the one before, too late to share one with all its events. */
  lemma BirthKeepsFew(l: Limits, h: State)
    requires Tidy(l, h) && Dated(l, h) && Live(h.counter, h.now).None?
    ensures FewRecent(l, h.earlier + h.ours, h.now)
  {
    forall lo: nat | lo + l.window > h.now ensures InWindow(l, h.earlier + h.ours, lo) <= Few(l) {
      var within := Between(lo, lo + l.window);
      CountConcat(h.earlier, h.ours, within);
      CountNone(h.earlier, within);
      if l.window <= 1 {
        CountNone(h.ours, within);
      } else if FirstGranted(h) {
        CountWithoutFirst(h.ours, within);
      } else {
        CountAtMost(h.ours, within);
      }
    }
  }

  lemma BirthKeepsDated(l: Limits, h: State)
    requires Tidy(l, h) && Dated(l, h) && Live(h.counter, h.now).None?
    ensures forall i | 0 <= i < |h.earlier + h.ours| ::
              (h.earlier + h.ours)[i] <= h.now && (l.window >= 1 ==> (h.earlier + h.ours)[i] < h.now)
  {
  }

  lemma GrantKeepsBounded(l: Limits, granted: seq<nat>, h: State)
    requires Bounded(l, granted) && FewRecent(l, h.earlier, h.began) && h.began <= h.now
    requires h.earlier + h.ours == granted + [h.now] && 0 < |h.ours| <= Most(l)
    ensures Bounded(l, Granted(h))
  {
    forall lo: nat ensures InWindow(l, Granted(h), lo) <= Bound(l) {
      assert InWindow(l, granted, lo) <= Bound(l);
      var within := Between(lo, lo + l.window);
      CountAppend(granted, h.now, within);
      if within(h.now) {
        assert InWindow(l, h.earlier, lo) <= Few(l);
        CountConcat(h.earlier, h.ours, within);
        CountAtMost(h.ours, within);
      }
    }
  }

  lemma IncrKeepsParts(l: Limits, h: State, told: bool)
    requires Inv(l, h)
    ensures var h' := Incremented(l, h, told); Tidy(l, h') && Dated(l, h') && FewRecent(l, h'.earlier, h'.began)
  {
    if Live(h.counter, h.now).None? {
      BirthKeepsFew(l, h);
      BirthKeepsDated(l, h);
    }
  }

  lemma IncrKeepsInv(l: Limits, h: State, told: bool)
    requires Inv(l, h)
    ensures Inv(l, Incremented(l, h, told))
  {
    var h' := Incremented(l, h, told);
    IncrKeepsParts(l, h, told);
    if |h'.earlier + h'.ours| == |h.earlier + h.ours| {
      assert h'.earlier + h'.ours == h.earlier + h.ours;
    } else {
      assert h'.earlier + h'.ours == h.earlier + h.ours + [h.now];
      GrantKeepsBounded(l, h.earlier + h.ours, h');
    }
  }

  lemma TimePasses(l: Limits, h: State, wait: nat)
    requires Inv(l, h)
    ensures Inv(l, h.(now := h.now + wait))
  {
  }

  lemma ExpiringKeepsInv(l: Limits, h: State)
    requires Inv(l, h) && h.arming > 0
    ensures Inv(l, Expiring(l, h)) && Expiring(l, h).arming > 0
  {
  }

  lemma GivingUpKeepsInv(l: Limits, h: State)
    requires Inv(l, h)
    ensures Inv(l, GivenUp(h))
  {
  }

  lemma ExpireKeepsInv(l: Limits, h: State)
    requires Inv(l, h)
    ensures h.arming > 0 ==> Inv(l, Expiring(l, h)) && Inv(l, GivenUp(Expiring(l, h)))
  {
    if h.arming > 0 {
      ExpiringKeepsInv(l, h);
      GivingUpKeepsInv(l, Expiring(l, h));
    }
  }

  lemma IncrStepKeepsInv(l: Limits, h: State, s: Step)
    requires Inv(l, h) && (s.Incr? || s.IncrLost?)
    ensures Inv(l, After(l, h, s))
  {
    TimePasses(l, h, s.wait);
    IncrKeepsInv(l, h.(now := h.now + s.wait), s.Incr?);
    assert After(l, h, s) == Incremented(l, h.(now := h.now + s.wait), s.Incr?);
  }

  lemma ExpireStepKeepsInv(l: Limits, h: State, s: Step)
    requires Inv(l, h) && (s.Expire? || s.ExpireLost?)
    ensures Inv(l, After(l, h, s))
  {
    TimePasses(l, h, s.wait);
    var later := h.(now := h.now + s.wait);
    ExpireKeepsInv(l, later);
    assert After(l, h, s) == if later.arming == 0 then later
                             else if s.Expire? then GivenUp(Expiring(l, later)) else Expiring(l, later);
  }

  lemma FailedStepKeepsInv(l: Limits, h: State, s: Step)
    requires Inv(l, h) && (s.IncrFails? || s.ExpireFails?)
    ensures Inv(l, After(l, h, s))
  {
    TimePasses(l, h, s.wait);
    GivingUpKeepsInv(l, h.(now := h.now + s.wait));
  }

  /** Every command, whatever becomes of it, keeps the invariant. */
  lemma InvKept(l: Limits, h: State, s: Step)
    requires Inv(l, h)
    ensures Inv(l, After(l, h, s))
  {
    if s.Incr? || s.IncrLost? {
      IncrStepKeepsInv(l, h, s);
    } else if s.Expire? || s.ExpireLost? {
      ExpireStepKeepsInv(l, h, s);
    } else {
      FailedStepKeepsInv(l, h, s);
    }
  }

  lemma StartsBounded(l: Limits)
    ensures Inv(l, IDLE)
  {
    assert Granted(IDLE) == [];
  }

  lemma {:induction false} InvHolds(l: Limits, steps: seq<Step>)
    ensures Inv(l, Run(l, steps))
  {
    if steps == [] {
      StartsBounded(l);
    } else {
      InvHolds(l, steps[..|steps| - 1]);
      InvKept(l, Run(l, steps[..|steps| - 1]), steps[|steps| - 1]);
    }
  }

  /** Over any run, one counter grants at most the limit, and no more than the bound come within a window. */
  lemma LimitHolds(l: Limits, steps: seq<Step>, lo: nat)
    ensures |Run(l, steps).ours| <= Most(l)
    ensures InWindow(l, Granted(Run(l, steps)), lo) <= Bound(l)
    ensures l.limit > 0 ==> InWindow(l, Granted(Run(l, steps)), lo) < 2 * l.limit
  {
    InvHolds(l, steps);
  }

  // ----- The bound is exact -----

  lemma RunMore(l: Limits, steps: seq<Step>, s: Step)
    ensures Run(l, steps + [s]) == After(l, Run(l, steps), s)
  {
    assert (steps + [s])[..|steps|] == steps;
  }

  function Copies(n: nat, t: nat): seq<nat> {
    seq(n, _ => t)
  }

  lemma {:induction false} CountCopies(n: nat, t: nat, wanted: nat -> bool)
    ensures Count(Copies(n, t), wanted) == if wanted(t) then n else 0
  {
    if n == 0 {
    } else {
      CountCopies(n - 1, t, wanted);
      assert Copies(n, t)[..n - 1] == Copies(n - 1, t);
    }
  }

  function Burst(h: State, n: nat): State
    requires h.counter.Some?
  {
    h.(counter := Some(h.counter.value.(count := h.counter.value.count + n)), ours := h.ours + Copies(n, h.now))
  }

  lemma BurstMore(l: Limits, h: State, n: nat)
    requires Live(h.counter, h.now).Some? && h.counter.value.count + n + 1 <= l.limit
    ensures After(l, Burst(h, n), Incr(0)) == Burst(h, n + 1)
  {
    assert h.ours + Copies(n, h.now) + [h.now] == h.ours + Copies(n + 1, h.now);
  }

  /** Events at one time, as long as they are within the limit, are all granted. */
  lemma {:induction false} BurstRun(l: Limits, steps: seq<Step>, h: State, n: nat) returns (more: seq<Step>)
    requires h == Run(l, steps) && Live(h.counter, h.now).Some? && h.counter.value.count + n <= l.limit
    ensures Run(l, more) == Burst(h, n)
  {
    if n == 0 {
      more := steps;
      assert h.ours + Copies(0, h.now) == h.ours;
    } else {
      var init := BurstRun(l, steps, h, n - 1);
      more := init + [Incr(0)];
      RunMore(l, init, Incr(0));
      BurstMore(l, h, n - 1);
    }
  }

  /** One event at once, the others as late as the first counter lives. */
  lemma FirstCounter(l: Limits) returns (steps: seq<Step>)
    requires l.limit >= 1 && l.window >= 2
    ensures Run(l, steps) ==
              State(l.window - 1, Some(Counter(l.limit, Some(l.window))), 0, [], [0] + Copies(l.limit - 1, l.window - 1), 0)
  {
    var a, b, c := Incr(0), Expire(0), IncrFails(l.window - 1);
    assert Run(l, []) == IDLE;
    RunMore(l, [], a);
    RunMore(l, [] + [a], b);
    RunMore(l, [] + [a] + [b], c);
    assert Run(l, [] + [a] + [b] + [c]) == State(l.window - 1, Some(Counter(1, Some(l.window))), 0, [], [0], 0);
    var h := State(l.window - 1, Some(Counter(1, Some(l.window))), 0, [], [0], 0);
    steps := BurstRun(l, [] + [a] + [b] + [c], h, l.limit - 1);
  }

  /** Then as many as the next counter allows, as soon as it can begin. */
  lemma SecondCounter(l: Limits) returns (steps: seq<Step>)
    requires l.limit >= 1 && l.window >= 2
    ensures Run(l, steps).earlier == [0] + Copies(l.limit - 1, l.window - 1)
    ensures Run(l, steps).ours == Copies(l.limit, l.window) && Run(l, steps).arming == 1
  {
    var first := FirstCounter(l);
    RunMore(l, first, Incr(1));
    var h := Run(l, first + [Incr(1)]);
    assert h.now == l.window && h.counter == Some(Counter(1, None)) && h.ours == [l.window];
    steps := BurstRun(l, first + [Incr(1)], h, l.limit - 1);
    assert [l.window] + Copies(l.limit - 1, l.window) == Copies(l.limit, l.window);
  }

  lemma WideCount(l: Limits, start: seq<nat>)
    requires l.limit >= 1 && l.window >= 2 && start == [0]
    ensures
      var granted := start + Copies(l.limit - 1, l.window - 1) + Copies(l.limit, l.window);
      InWindow(l, granted, l.window - 1) == 2 * l.limit - 1
  {
    var lo := l.window - 1;
    var within := Between(lo, lo + l.window);
    CountCopies(l.limit, l.window, within);
    CountCopies(l.limit - 1, lo, within);
    CountNone(start, within);
    CountConcat(start, Copies(l.limit - 1, lo), within);
    CountConcat(start + Copies(l.limit - 1, lo), Copies(l.limit, l.window), within);
  }

  /** Twice the limit less one within a window of at least two, every one of them told so. */
  lemma WideBoundReached(l: Limits) returns (steps: seq<Step>, lo: nat)
    requires l.limit >= 1 && l.window >= 2
    ensures Run(l, steps).arming == 0 && InWindow(l, Granted(Run(l, steps)), lo) == 2 * l.limit - 1
  {
    var full := SecondCounter(l);
    steps, lo := full + [Expire(0)], l.window - 1;
    RunMore(l, full, Expire(0));
    WideCount(l, [0]);
    assert Granted(Run(l, steps)) == Granted(Run(l, full));
  }

  lemma NarrowBoundReached(l: Limits) returns (steps: seq<Step>)
    requires l.limit >= 1 && l.window == 1
    ensures InWindow(l, Granted(Run(l, steps)), 0) == l.limit
  {
    var first := [] + [Incr(0)] + [Expire(0)];
    assert Run(l, []) == IDLE;
    RunMore(l, [], Incr(0));
    RunMore(l, [] + [Incr(0)], Expire(0));
    assert Run(l, first) == State(0, Some(Counter(1, Some(1))), 0, [], [0], 0);
    steps := BurstRun(l, first, Run(l, first), l.limit - 1);
    var start: seq<nat> := [0];
    assert start + Copies(l.limit - 1, 0) == Copies(l.limit, 0);
    CountCopies(l.limit, 0, Between(0, 1));
    assert Granted(Run(l, steps)) == Copies(l.limit, 0);
  }

  /** For every limit and window, some run brings that many within a window. */
  lemma BoundIsReached(l: Limits) returns (steps: seq<Step>, lo: nat)
    ensures InWindow(l, Granted(Run(l, steps)), lo) == Bound(l)
  {
    steps, lo := [], 0;
    if l.limit >= 1 && l.window >= 2 {
      steps, lo := WideBoundReached(l);
    } else if l.limit >= 1 && l.window == 1 {
      steps := NarrowBoundReached(l);
    } else {
      assert Granted(Run(l, [])) == [];
    }
  }

  /**
   * So the limiter keeps the promise of a sliding window, no more than the limit
   * within any window, exactly when the limit is at most one or the window is no
   * longer than one unit of time.
   */
  lemma SlidingIff(l: Limits)
    ensures (forall steps, lo: nat :: InWindow(l, Granted(Run(l, steps)), lo) <= Most(l)) <==> l.limit <= 1 || l.window <= 1
  {
    if l.limit <= 1 || l.window <= 1 {
      forall steps, lo: nat ensures InWindow(l, Granted(Run(l, steps)), lo) <= Most(l) {
        LimitHolds(l, steps, lo);
      }
    } else {
      var steps, lo := BoundIsReached(l);
    }
  }

  // ----- A key that does not recover -----

  /** The counter has no expiry and nobody is to set one. */
  predicate Stuck(h: State) {
    h.counter.Some? && h.counter.value.expires.None? && h.arming == 0
  }

  /**
   * The steps after which this is so: the last caller to set the expiry of a
   * counter that has none gives up, or an INCR that begins a counter is lost
   * while nobody is to set an expiry.
   */
  predicate Strands(h: State, s: Step) {
    || (s.ExpireFails? && h.arming == 1 && h.counter.Some? && h.counter.value.expires.None?)
    || (s.IncrLost? && h.arming == 0 && Live(h.counter, h.now + s.wait).None?)
  }

  lemma StuckIff(l: Limits, h: State, s: Step)
    ensures Stuck(After(l, h, s)) <==> Stuck(h) || Strands(h, s)
  {
  }

  /** The run has such a step. */
  ghost predicate Stranded(l: Limits, steps: seq<Step>) {
    exists i :: 0 <= i < |steps| && Strands(Run(l, steps[..i]), steps[i])
  }

  lemma StrandedMore(l: Limits, init: seq<Step>, s: Step)
    ensures Stranded(l, init + [s]) <==> Stranded(l, init) || Strands(Run(l, init), s)
  {
    var steps := init + [s];
    forall i | 0 <= i < |init| ensures Strands(Run(l, init[..i]), init[i]) == Strands(Run(l, steps[..i]), steps[i]) {
      assert init[..i] == steps[..i];
    }
    assert steps[..|init|] == init;
    if Stranded(l, init) {
      var i :| 0 <= i < |init| && Strands(Run(l, init[..i]), init[i]);
      assert Strands(Run(l, steps[..i]), steps[i]);
    }
    if Strands(Run(l, init), s) {
      assert Strands(Run(l, steps[..|init|]), steps[|init|]);
    }
  }

  /** A key is stuck after exactly the runs that have one. */
  lemma {:induction false} StuckRunIff(l: Limits, steps: seq<Step>)
    ensures Stuck(Run(l, steps)) <==> Stranded(l, steps)
  {
    if steps == [] {
    } else {
      var init, s := steps[..|steps| - 1], steps[|steps| - 1];
      StuckRunIff(l, init);
      StuckIff(l, Run(l, init), s);
      StrandedMore(l, init, s);
      assert init + [s] == steps;
    }
  }

  predicate GoneAfter(h: State, wait: nat) {
    Live(h.counter, h.now + wait).None?
  }

  /** With no call under way, a key recovers by waiting exactly when it is not stuck. */
  lemma RecoversIff(h: State)
    requires h.arming == 0
    ensures (exists wait: nat :: GoneAfter(h, wait)) <==> !Stuck(h)
  {
    if !Stuck(h) {
      assert GoneAfter(h, if h.counter.Some? then h.counter.value.expires.value else 0);
    }
  }

  lemma StuckStays(l: Limits, h: State, s: Step)
    requires Stuck(h)
    ensures Stuck(After(l, h, s)) && After(l, h, s).earlier == h.earlier
  {
  }

  /** A stuck key stays so, and it and the counters before it grant no more than the limit, whatever follows. */
  lemma {:induction false} StuckLocksOut(l: Limits, steps: seq<Step>, more: seq<Step>)
    requires Stuck(Run(l, steps))
    ensures Stuck(Run(l, steps + more))
    ensures Run(l, steps + more).earlier == Run(l, steps).earlier && |Run(l, steps + more).ours| <= Most(l)
  {
    LimitHolds(l, steps + more, 0);
    if more == [] {
      assert steps + more == steps;
    } else {
      var init, s := more[..|more| - 1], more[|more| - 1];
      StuckLocksOut(l, steps, init);
      StuckStays(l, Run(l, steps + init), s);
      RunMore(l, steps + init, s);
      assert steps + init + [s] == steps + more;
    }
  }

  /** Both ways of getting stuck happen, to a key nobody used before. */
  lemma StuckReached(l: Limits)
    ensures Stuck(Run(l, [Incr(0), ExpireFails(0)]))
    ensures Stuck(Run(l, [IncrLost(0)]))
  {
    assert Run(l, []) == IDLE;
    RunMore(l, [], Incr(0));
    RunMore(l, [], IncrLost(0));
    RunMore(l, [Incr(0)], ExpireFails(0));
    assert [] + [Incr(0)] == [Incr(0)] && [] + [IncrLost(0)] == [IncrLost(0)];
    assert [Incr(0)] + [ExpireFails(0)] == [Incr(0), ExpireFails(0)];
  }

  // ----- The limiter -----

  /** What becomes of a command: carried out and answered, carried out but the answer lost, or not carried out. */
  datatype Fate = Answered | AnswerLost | Undone

  /** What the caller that finds the counter at one does: it sets the expiry, or gives up. */
  function Armed(l: Limits, h: State, pause: nat, fate: Fate): State {
    match fate
    case Answered => After(l, h, Expire(pause))
    case AnswerLost => After(l, After(l, h, ExpireLost(pause)), ExpireFails(0))
    case Undone => After(l, h, ExpireFails(pause))
  }

  /** What a call leaves. */
  function Called(l: Limits, h: State, wait: nat, incr: Fate, pause: nat, expire: Fate): State {
    match incr
    case Undone => After(l, h, IncrFails(wait))
    case AnswerLost => After(l, h, IncrLost(wait))
    case Answered =>
      var counted := After(l, h, Incr(wait));
      if counted.counter.value.count > 1 then counted else Armed(l, counted, pause, expire)
  }

  lemma ArmedKeepsInv(l: Limits, h: State, pause: nat, fate: Fate)
    requires Inv(l, h)
    ensures Inv(l, Armed(l, h, pause, fate))
  {
    InvKept(l, h, Expire(pause));
    InvKept(l, h, ExpireFails(pause));
    InvKept(l, h, ExpireLost(pause));
    InvKept(l, After(l, h, ExpireLost(pause)), ExpireFails(0));
  }

  lemma CalledKeepsInv(l: Limits, h: State, wait: nat, incr: Fate, pause: nat, expire: Fate)
    requires Inv(l, h)
    ensures Inv(l, Called(l, h, wait, incr, pause, expire))
  {
    InvKept(l, h, IncrFails(wait));
    InvKept(l, h, IncrLost(wait));
    InvKept(l, h, Incr(wait));
    ArmedKeepsInv(l, After(l, h, Incr(wait)), pause, expire);
  }

  /** An event that a call allows is one more granted event, at the time of the call. */
  lemma AllowedIsGranted(l: Limits, h: State, wait: nat, pause: nat, expire: Fate)
    requires After(l, h, Incr(wait)).counter.value.count <= l.limit
    ensures Granted(Called(l, h, wait, Answered, pause, expire)) == Granted(h) + [h.now + wait]
  {
    var counted := After(l, h, Incr(wait));
    assert counted.earlier + counted.ours == h.earlier + h.ours + [h.now + wait];
  }

  /** The counter is at its key at time `now`. */
  predicate AliveAt(counter: Option<Counter>, now: nat) {
    counter.Some? && (counter.value.expires.None? || counter.value.expires.value > now)
  }

  /**
   * What a call leaves at the key: a live counter counts one more and keeps its
   * expiry; otherwise there is a new one, with an expiry a window after the call
   * set it, if it did.
   */
  ghost predicate CounterAfter(l: Limits, was: Option<Counter>, counter: Option<Counter>, now: nat, incr: Fate, pause: nat,
                               expire: Fate) {
    if incr == Undone then counter == was
    else if AliveAt(was, now) then counter == Some(Counter(was.value.count + 1, was.value.expires))
    else if incr == AnswerLost || expire == Undone then counter == Some(Counter(1, None))
    else counter == Some(Counter(1, Some(now + pause + l.window)))
  }

  lemma IncrCounts(l: Limits, h: State, wait: nat)
    requires Inv(l, h)
    ensures
      var now := h.now + wait;
      var counted := Some(if AliveAt(h.counter, now) then Counter(h.counter.value.count + 1, h.counter.value.expires)
                          else Counter(1, None));
      && After(l, h, Incr(wait)).counter == counted && After(l, h, IncrLost(wait)).counter == counted
      && After(l, h, Incr(wait)).now == now && (counted.value.count == 1 <==> !AliveAt(h.counter, now))
      && (counted.value.count == 1 ==> After(l, h, Incr(wait)).arming > 0)
    ensures After(l, h, IncrFails(wait)).counter == h.counter
  {
  }

  lemma CallCounts(l: Limits, h: State, wait: nat, incr: Fate, pause: nat, expire: Fate)
    requires Inv(l, h)
    ensures CounterAfter(l, h.counter, Called(l, h, wait, incr, pause, expire).counter, h.now + wait, incr, pause, expire)
  {
    IncrCounts(l, h, wait);
    if incr == Answered && !AliveAt(h.counter, h.now + wait) {
      ArmingDates(l, After(l, h, Incr(wait)), pause, expire);
    }
  }

  lemma ArmingDates(l: Limits, h: State, pause: nat, fate: Fate)
    requires h.counter == Some(Counter(1, None)) && h.arming > 0
    ensures Armed(l, h, pause, fate).counter
         == Some(Counter(1, if fate == Undone then None else Some(h.now + pause + l.window)))
  {
    ExpirySet(l, h, pause);
  }

  /** An EXPIRE that is carried out, whenever it is, sets a live counter's expiry a window ahead and does nothing else. */
  lemma ExpirySet(l: Limits, h: State, wait: nat)
    requires h.arming > 0
    ensures
      var now := h.now + wait;
      var dated := if AliveAt(h.counter, now) then Some(Counter(h.counter.value.count, Some(now + l.window))) else h.counter;
      After(l, h, Expire(wait)).counter == dated && After(l, h, ExpireLost(wait)).counter == dated
    ensures After(l, h, ExpireFails(wait)).counter == h.counter
  {
  }

  class Limiter {
    const limits: Limits
    var h: State

    ghost predicate Valid()
      reads this
    {
      Inv(limits, h)
    }

    constructor (limits: Limits)
      ensures this.limits == limits && h == IDLE && Valid()
    {
      StartsBounded(limits);
      this.limits := limits;
      h := IDLE;
    }

    /** INCR: the counter's new value, one when there was none or it had expired. */
    method IncrCommand(wait: nat, told: bool) returns (count: nat)
      modifies this
      ensures h == After(limits, old(h), if told then Incr(wait) else IncrLost(wait))
      ensures h.counter.Some? && h.counter.value.count == count
    {
      var now := h.now + wait;
      var counter := h.counter;
      if counter.Some? && counter.value.expires.Some? && counter.value.expires.value <= now {
        counter := None;
      }
      if counter.None? {
        count := 1;
        h := State(now, Some(Counter(1, None)), if told then h.arming + 1 else h.arming, h.earlier + h.ours, [], now);
      } else {
        count := counter.value.count + 1;
        h := h.(now := now, counter := Some(counter.value.(count := count)));
      }
      if told && count <= limits.limit {
        h := h.(ours := h.ours + [now]);
      }
    }

    /** EXPIRE: the counter, unless it has expired by then, lives for a window from now. */
    method ExpireCommand(wait: nat)
      requires h.arming > 0
      modifies this
      ensures h == After(limits, old(h), ExpireLost(wait))
    {
      var now := h.now + wait;
      var counter := h.counter;
      if counter.Some? && (counter.value.expires.None? || counter.value.expires.value > now) {
        counter := Some(counter.value.(expires := Some(now + limits.window)));
      }
      h := h.(now := now, counter := counter);
    }

    /** Sets the expiry, and says whether that failed. */
    method Arm(pause: nat, fate: Fate) returns (failed: bool)
      requires h.arming > 0
      modifies this
      ensures h == Armed(limits, old(h), pause, fate)
      ensures failed <==> fate != Answered
    {
      if fate == Undone {
        h := h.(now := h.now + pause);
      } else {
        ExpireCommand(pause);
      }
      h := h.(arming := h.arming - 1);
      failed := fate != Answered;
    }

    /**
     * Whether an event is within the limit; the call fails when a command
     * does or its answer is lost. `wait` is the time before the call, `pause`
     * the time between its two commands.
     */
    method Allow(wait: nat, incr: Fate, pause: nat, expire: Fate) returns (allowed: bool, failed: bool)
      requires Valid()
      modifies this
      ensures Valid() && h == Called(limits, old(h), wait, incr, pause, expire)
      ensures
        var count := if AliveAt(old(h).counter, old(h).now + wait) then old(h).counter.value.count + 1 else 1;
        && (failed <==> incr != Answered || (count == 1 && expire != Answered))
        && (allowed <==> !failed && count <= limits.limit)
      ensures CounterAfter(limits, old(h).counter, h.counter, old(h).now + wait, incr, pause, expire)
    {
      CallCounts(limits, h, wait, incr, pause, expire);
      CalledKeepsInv(limits, h, wait, incr, pause, expire);
      if incr == Undone {
        h := h.(now := h.now + wait);
        return false, true;
      }
      var count := IncrCommand(wait, incr == Answered);
      if incr == AnswerLost {
        return false, true;
      }
      failed := false;
      if count == 1 {
        failed := Arm(pause, expire);
      }
      allowed := !failed && count <= limits.limit;
    }
  }
}
