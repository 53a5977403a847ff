/**
 The provider's interval counter (agent/provider/src/interval.rs): a search loop
 for the next interval boundary that has not passed yet.  Times and durations
 are exact integers.
 */
module Interval {
  import opened Common

  const I32_MAX: int := 0x7fff_ffff

  /** The quotient rounded up. */
  function Ceil(x: int, d: int): int
    requires d > 0
  {
    -((-x) / d)
  }

  /** Boundary `i` is the first one after `iteration` that is not before `now`. */
  ghost predicate FirstDue(base: int, interval: int, iteration: int, now: int, i: int) {
    && iteration < i && base + interval * i >= now
    && forall j :: iteration < j < i ==> base + interval * j < now
  }

  lemma CeilBounds(x: int, d: int)
    requires d > 0
    ensures d * (Ceil(x, d) - 1) < x <= d * Ceil(x, d)
  {
    var q, r := (-x) / d, (-x) % d;
    assert -x == q * d + r;
    assert d * Ceil(x, d) == -(q * d);
    assert d * (Ceil(x, d) - 1) == -(q * d) - d;
  }

  lemma MulOrder(d: int, a: int, b: int)
    requires d > 0
    ensures a <= b ==> d * a <= d * b
    ensures a < b ==> d * a + d <= d * b
  {
    if a <= b {
      var e: nat := b - a;
      assert d * b == d * a + d * e;
      if a < b {
        var e': nat := e - 1;
        assert d * e == d * e' + d;
      }
    }
  }

  /** The search finds the closed form, and nothing else is the first boundary due. */
  lemma ClosedForm(base: int, interval: int, iteration: int, now: int, i: int)
    requires interval > 0
    ensures var c := Ceil(now - base, interval);
            FirstDue(base, interval, iteration, now, i) <==> i == if iteration + 1 < c then c else iteration + 1
  {
    var c := Ceil(now - base, interval);
    var m := if iteration + 1 < c then c else iteration + 1;
    CeilBounds(now - base, interval);
    MulOrder(interval, c, m);
    forall j | iteration < j < m
      ensures base + interval * j < now
    {
      MulOrder(interval, j, c - 1);
    }
    assert FirstDue(base, interval, iteration, now, m);
  }

  /** The iteration after one call, if the boundary it needs exists. */
  function Next(base: int, interval: int, iteration: int, now: int): Option<int>
    requires interval > 0
  {
    var c := Ceil(now - base, interval);
    var i := if iteration + 1 < c then c else iteration + 1;
    if i <= I32_MAX then Some(i) else None
  }

  /**
   What the caller relies on: never in the past, less than one interval ahead
   once boundaries were skipped, and at least one interval after the last one.
   */
  lemma NextIsDue(base: int, interval: int, iteration: int, now: int)
    requires interval > 0 && Next(base, interval, iteration, now).Some?
    ensures var i := Next(base, interval, iteration, now).value;
            && 0 <= base + interval * i - now
            && (i > iteration + 1 ==> base + interval * i - now < interval)
            && base + interval * i >= base + interval * iteration + interval
  {
    var i := Next(base, interval, iteration, now).value;
    ClosedForm(base, interval, iteration, now, i);
    MulOrder(interval, iteration, i);
    if i > iteration + 1 {
      assert interval * (i - 1) == interval * i - interval;
      assert base + interval * (i - 1) < now;
    }
  }

  class RelativeInterval {
    const base: int
    const interval: int
    var iteration: int

    constructor (base: int, interval: nat)
      ensures this.base == base && this.interval == interval && iteration == 0
    {
      this.base, this.interval := base, interval;
      iteration := 0;
    }

    function Current(): int
      reads this
    {
      base + interval * iteration
    }

    /** `None`: all boundaries a 32-bit counter can number lie in the past. */
    method Advance(now: int) returns (delay: Option<int>)
      requires interval >= 0 && iteration < I32_MAX
      modifies this
      ensures delay.Some? ==>
                && FirstDue(base, interval, old(iteration), now, iteration)
                && iteration <= I32_MAX && delay == Some(Current() - now) && delay.value >= 0
      ensures delay.None? ==>
                && iteration == old(iteration)
                && forall j :: iteration < j <= I32_MAX ==> base + interval * j < now
      ensures interval > 0 ==>
                var next := Next(base, interval, old(iteration), now);
                (delay.Some? <==> next.Some?) && (delay.Some? ==> iteration == next.value)
    {
      var i := iteration;
      while true
        invariant iteration == old(iteration) <= i < I32_MAX
        invariant forall j :: iteration < j <= i ==> base + interval * j < now
        decreases I32_MAX - i
      {
        i := i + 1;
        var value := base + interval * i;
        if value >= now {
          delay := Some(value - now);
          break;
        } else if i == I32_MAX {
          NoneDue(base, interval, iteration, now);
          return None;
        }
      }
      if interval > 0 {
        ClosedForm(base, interval, iteration, now, i);
      }
      iteration := i;
    }
  }

  lemma NoneDue(base: int, interval: int, iteration: int, now: int)
    requires iteration < I32_MAX
    requires forall j :: iteration < j <= I32_MAX ==> base + interval * j < now
    ensures interval > 0 ==> Next(base, interval, iteration, now).None?
  {
    if interval > 0 {
      var c := Ceil(now - base, interval);
      ClosedForm(base, interval, iteration, now, if iteration + 1 < c then c else iteration + 1);
    }
  }

  /** The boundaries handed out by a run of calls; a failed call hands out none. */
  function Boundaries(base: int, interval: int, iteration: int, nows: seq<int>): seq<int>
    requires interval > 0
    decreases |nows|
  {
    if nows == [] then []
    else
      match Next(base, interval, iteration, nows[0])
      case None => Boundaries(base, interval, iteration, nows[1..])
      case Some(i) => [base + interval * i] + Boundaries(base, interval, i, nows[1..])
  }

  /** Each of `bs` is at least `step` after the one before, the first at least `step` after `last`. */
  predicate Spaced(last: int, step: int, bs: seq<int>) {
    && (forall k :: 0 <= k < |bs| ==> bs[k] >= last + step)
    && (forall k, m :: 0 <= k < m < |bs| ==> bs[k] + step <= bs[m])
  }

  lemma SpacedCons(last: int, step: int, b: int, bs: seq<int>)
    requires step > 0 && b >= last + step && Spaced(b, step, bs)
    ensures Spaced(last, step, [b] + bs)
  {
  }

  /** Whatever the clock does, the boundaries handed out are at least one interval apart. */
  lemma {:induction false} BoundariesIncrease(base: int, interval: int, iteration: int, nows: seq<int>)
    requires interval > 0
    ensures Spaced(base + interval * iteration, interval, Boundaries(base, interval, iteration, nows))
    decreases |nows|
  {
    if nows != [] {
      var next := Next(base, interval, iteration, nows[0]);
      if next.Some? {
        NextIsDue(base, interval, iteration, nows[0]);
        BoundariesIncrease(base, interval, next.value, nows[1..]);
        SpacedCons(base + interval * iteration, interval, base + interval * next.value,
                   Boundaries(base, interval, next.value, nows[1..]));
      } else {
        BoundariesIncrease(base, interval, iteration, nows[1..]);
      }
    }
  }
}
