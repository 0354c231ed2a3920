/** The ExponentialBackoff object: its configuration fields, the stateful
    cursor behind `next_interval`/`clear`, the independent cursors handed out
    by `intervals`, the retry loop `until_success` and `iteration_active?`. */
module Backoff {
  import opened Wrappers
  import opened Schedule
  import opened Construction

  /** What the block given to `until_success` returned: literally `false`,
      `nil`, or any truthy value. */
  datatype Outcome = False | NilResult | Truthy

  /** The stop test of `until_success`: `retval || retval.nil?`. Only a
      literal `false` keeps the loop going. */
  function StopsRetrying(retval: Outcome): (stops: bool)
    ensures stops <==> retval != False
  {
    retval.Truthy? || retval.NilResult?
  }

  /** How `until_success` ended: a result other than `false` returned from
      the method, the scripted results ran out while it was still retrying,
      or `sleep` raised. */
  datatype RetryEnd = Stopped | Exhausted | Raised(error: Error)

  /** The loop of `iteration_active?` stops at iteration k when the k-th
      interval is no longer below both the argument and the maximum. */
  predicate Reaches(c: Config, n: int, k: nat)
  {
    CappedAt(c, k) >= n as real || CappedAt(c, k) >= c.maximum
  }

  /** The iteration at which the walk of `iteration_active?` starting at `k`
      stops: the first one from `k` on that `Reaches`. With a minimal
      interval of at least one and a multiplier of at least two, the k-th
      interval is at least k + 1, so the walk ends. */
  function FirstReachFrom(c: Config, n: int, k: nat): (s: nat)
    requires c.minimal >= 1.0 && c.multiplier >= 2.0
    ensures k <= s && Reaches(c, n, s)
    ensures forall j :: k <= j < s ==> !Reaches(c, n, j)
    decreases n - k
  {
    if Reaches(c, n, k) then k
    else
      RegularAtLeastSucc(c, k);
      FirstReachFrom(c, n, k + 1)
  }

  /** The first iteration that `Reaches`: where `iteration_active?` stops. */
  function FirstReach(c: Config, n: int): (s: nat)
    requires c.minimal >= 1.0 && c.multiplier >= 2.0
    ensures Reaches(c, n, s)
    ensures forall j :: 0 <= j < s ==> !Reaches(c, n, j)
  {
    FirstReachFrom(c, n, 0)
  }

  /** `n % m == 0` over exact numbers: `n / m` is a whole number. */
  predicate IsMultiple(n: int, m: real)
    requires m != 0.0
  {
    ((n as real) / m).Floor as real == (n as real) / m
  }

  /** For a whole-number maximum, "n / m is a whole number" is Ruby's
      `n % m == 0`. */
  lemma MultipleOfInteger(n: int, m: int)
    requires m != 0
    ensures IsMultiple(n, m as real) <==> n % m == 0
  {
    var q, rest := n / m, n % m;
    assert n == m * q + rest;
    if rest == 0 {
      assert (n as real) == (m as real) * (q as real);
      assert (n as real) / (m as real) == q as real;
    } else if IsMultiple(n, m as real) {
      var k := ((n as real) / (m as real)).Floor;
      assert (k as real) * (m as real) == n as real;
      assert k * m == n;
      assert m * (k - q) == rest;
      MultipleMagnitude(m, k - q);
      assert false;
    }
  }

  lemma IntMulNonNegative(a: int, b: int)
    requires a >= 0 && b >= 0
    ensures a * b >= 0
  {
  }

  /** A non-zero multiple of `m` is at least `|m|` away from zero. */
  lemma MultipleMagnitude(m: int, d: int)
    requires m != 0 && d != 0
    ensures m * d >= m || m * d <= -m
    ensures m * d >= -m || m * d <= m
  {
    if d > 0 {
      assert m * d == m + m * (d - 1);
      if m > 0 {
        IntMulNonNegative(m, d - 1);
      } else {
        IntMulNonNegative(-m, d - 1);
        assert (-m) * (d - 1) == -(m * (d - 1));
      }
    } else {
      assert m * d == -m - m * (-d - 1);
      if m > 0 {
        IntMulNonNegative(m, -d - 1);
      } else {
        IntMulNonNegative(-m, -d - 1);
        assert (-m) * (-d - 1) == -(m * (-d - 1));
      }
    }
  }

  /** The verdict of `iteration_active?` once its loop stopped at `reached`:
      equal to the argument, or the argument is a multiple of the maximum;
      the modulo by a zero maximum raises ZeroDivisionError. */
  function ActiveVerdict(maximum: real, n: int, reached: real): (r: Result<bool, Error>)
    ensures r.Err? <==> reached != n as real && maximum == 0.0
    ensures r.Err? ==> r.error == DividedByZero
    ensures r == Ok(true) <==> reached == n as real || (maximum != 0.0 && IsMultiple(n, maximum))
    ensures reached != n as real && maximum != 0.0 && maximum == maximum.Floor as real ==>
      r == Ok(n % maximum.Floor == 0)
  {
    assert maximum != 0.0 && maximum == maximum.Floor as real ==>
      (IsMultiple(n, maximum) <==> n % maximum.Floor == 0) by {
      if maximum != 0.0 && maximum == maximum.Floor as real {
        MultipleOfInteger(n, maximum.Floor);
      }
    }
    if reached == n as real then Ok(true)
    else if maximum == 0.0 then Err(DividedByZero)
    else Ok(IsMultiple(n, maximum))
  }

  /** The Enumerator returned by `intervals`: a counter whose k-th `next`
      yields `interval_at(k)` of its owner, computed with the owner's
      configuration at the time of the call. */
  class Cursor {
    const owner: ExponentialBackoff
    var iteration: nat

    constructor (owner: ExponentialBackoff)
      ensures this.owner == owner && iteration == 0
    {
      this.owner := owner;
      iteration := 0;
    }

    /** `Enumerator#next`: yield the interval at the current position and
        move one step on. Only this cursor changes. */
    method Next(draw: real) returns (r: real)
      modifies this
      ensures iteration == old(iteration) + 1
      ensures r == IntervalAt(owner.Settings(), old(iteration), draw)
    {
      r := IntervalAt(owner.Settings(), iteration, draw);
      iteration := iteration + 1;
    }
  }

  class ExponentialBackoff {
    const minimal: real
    const maximum: real
    var multiplier: real
    var randomizeFactor: real
    var enumerator: Cursor?
    var currentInterval: Option<real>

    /** The object invariant: the stored cursor walks this object's intervals. */
    ghost predicate Valid()
      reads this
    {
      enumerator != null && enumerator.owner == this
    }

    /** The configuration `interval_at` reads, as it stands now. */
    function Settings(): Config
      reads this`multiplier, this`randomizeFactor
    {
      Config(minimal, maximum, multiplier, randomizeFactor)
    }

    /** The number of `next_interval` calls since the last `clear`. */
    ghost function Position(): nat
      reads this, enumerator
      requires Valid()
    {
      enumerator.iteration
    }

    /** `initialize` with bounds already known to be Numeric: multiplier 2.0,
        randomize factor 0, no current interval, and a fresh cursor. */
    constructor (minimal: real, maximum: real)
      ensures this.minimal == minimal && this.maximum == maximum
      ensures multiplier == 2.0 && randomizeFactor == 0.0
      ensures currentInterval == None
      ensures Valid() && fresh(enumerator) && Position() == 0
    {
      this.minimal, this.maximum := minimal, maximum;
      randomizeFactor := 0.0;
      multiplier := 2.0;
      currentInterval := None;
      enumerator := null;
      new;
      Clear();
    }

    /** `ExponentialBackoff.new(interval, maximum_elapsed_time)`: resolve and
        validate the arguments, then initialise; a nil end of a Range raises
        RangeError, invalid bounds raise ArgumentError, and then no object
        is made. */
    static method Create(interval: IntervalArg, maximumElapsedTime: Value)
      returns (r: Result<ExponentialBackoff, Error>)
      ensures ResolveBounds(interval, maximumElapsedTime).Err? ==>
        r == Err(ResolveBounds(interval, maximumElapsedTime).error)
      ensures ResolveBounds(interval, maximumElapsedTime).Ok? ==>
        r.Ok? && fresh(r.value) &&
        r.value.minimal == ResolveBounds(interval, maximumElapsedTime).value.minimal &&
        r.value.maximum == ResolveBounds(interval, maximumElapsedTime).value.maximum &&
        r.value.multiplier == 2.0 && r.value.randomizeFactor == 0.0 &&
        r.value.currentInterval == None &&
        r.value.Valid() && fresh(r.value.enumerator) && r.value.Position() == 0
    {
      var bounds := ResolveBounds(interval, maximumElapsedTime);
      if bounds.Err? {
        r := Err(bounds.error);
      } else {
        var backoff := new ExponentialBackoff(bounds.value.minimal, bounds.value.maximum);
        r := Ok(backoff);
      }
    }

    /** `intervals`: a new cursor at iteration 0, independent of every other. */
    method Intervals() returns (cursor: Cursor)
      ensures fresh(cursor) && cursor.owner == this && cursor.iteration == 0
    {
      cursor := new Cursor(this);
    }

    /** `clear`: replace the stored cursor by a fresh one. The current
        interval is left as it was. */
    method Clear()
      modifies this`enumerator
      ensures Valid() && fresh(enumerator) && Position() == 0
    {
      enumerator := Intervals();
    }

    /** `next_interval`: the k-th call since the last `clear` returns
        `interval_at(k)` under the configuration in force at the call, and
        records it as the current interval. */
    method NextInterval(draw: real) returns (r: real)
      requires Valid()
      modifies this, enumerator
      ensures Valid() && enumerator == old(enumerator)
      ensures Position() == old(Position()) + 1
      ensures r == IntervalAt(Settings(), old(Position()), draw)
      ensures currentInterval == Some(r)
      ensures multiplier == old(multiplier) && randomizeFactor == old(randomizeFactor)
    {
      r := enumerator.Next(draw);
      currentInterval := Some(r);
    }

    /** `until_success`: call the block with `(interval_at(i), i)` for
        i = 0, 1, ...; stop at the first result that is not literally
        `false`, and otherwise sleep for that interval before the next call;
        `sleep` raises ArgumentError for a negative interval.
        `outcomes` are the block's results in order and `draws` the jitter
        draws; `calls` are the arguments passed, `sleeps` the waits made,
        and `ended` says how the loop ended. */
    method UntilSuccess(outcomes: seq<Outcome>, draws: nat -> real)
      returns (calls: seq<(real, nat)>, sleeps: seq<real>, ended: RetryEnd)
      ensures |calls| <= |outcomes|
      ensures forall i :: 0 <= i < |calls| ==> calls[i] == (IntervalAt(Settings(), i, draws(i)), i)
      ensures forall i :: 0 <= i < |calls| - 1 ==> outcomes[i] == False && calls[i].0 >= 0.0
      ensures ended.Stopped? <==> |calls| > 0 && StopsRetrying(outcomes[|calls| - 1])
      ensures ended.Raised? <==> |calls| > 0 && outcomes[|calls| - 1] == False && calls[|calls| - 1].0 < 0.0
      ensures ended.Raised? ==> ended.error == NegativeSleep
      ensures ended.Exhausted? ==> |calls| == |outcomes|
      ensures |sleeps| == if ended.Exhausted? then |calls| else |calls| - 1
      ensures forall i :: 0 <= i < |sleeps| ==> sleeps[i] == calls[i].0 && sleeps[i] >= 0.0
    {
      calls, sleeps, ended := [], [], Exhausted;
      var iteration: nat := 0;
      while iteration < |outcomes|
        invariant iteration <= |outcomes|
        invariant |calls| == iteration && |sleeps| == iteration
        invariant forall i :: 0 <= i < iteration ==> calls[i] == (IntervalAt(Settings(), i, draws(i)), i)
        invariant forall i :: 0 <= i < iteration ==> outcomes[i] == False
        invariant forall i :: 0 <= i < iteration ==> sleeps[i] == calls[i].0 && sleeps[i] >= 0.0
      {
        var interval := IntervalAt(Settings(), iteration, draws(iteration));
        calls := calls + [(interval, iteration)];
        var retval := outcomes[iteration];
        if StopsRetrying(retval) {
          ended := Stopped;
          return;
        }
        if interval < 0.0 {
          ended := Raised(NegativeSleep);
          return;
        }
        sleeps := sleeps + [interval];
        iteration := iteration + 1;
      }
    }

    /** `iteration_active?(n)`: walk the intervals until one is no longer
        below both `n` and the maximum; `n` is active when that interval
        equals `n` or `n` is a multiple of the maximum. */
    method IterationActive(n: int) returns (active: Result<bool, Error>)
      requires randomizeFactor == 0.0 && minimal >= 1.0 && multiplier >= 2.0
      ensures active == ActiveVerdict(maximum, n, CappedAt(Settings(), FirstReach(Settings(), n)))
    {
      var index: nat := 0;
      var current := IntervalAt(Settings(), index, 0.0);
      while current < n as real && current < maximum
        invariant current == CappedAt(Settings(), index)
        invariant forall k :: 0 <= k < index ==> !Reaches(Settings(), n, k)
        decreases n - index
      {
        RegularAtLeastSucc(Settings(), index);
        index := index + 1;
        current := IntervalAt(Settings(), index, 0.0);
      }
      FirstReachUnique(Settings(), n, index, FirstReach(Settings(), n));
      if current == n as real {
        active := Ok(true);
      } else if maximum == 0.0 {
        active := Err(DividedByZero);
      } else {
        active := Ok(IsMultiple(n, maximum));
      }
    }
  }

  /** Two iterations that are both the first to reach coincide: whatever
      walks the intervals in order stops at `FirstReach`. */
  lemma FirstReachUnique(c: Config, n: int, s: nat, t: nat)
    requires Reaches(c, n, s) && forall k :: 0 <= k < s ==> !Reaches(c, n, k)
    requires Reaches(c, n, t) && forall k :: 0 <= k < t ==> !Reaches(c, n, k)
    ensures s == t
  {
  }

  /** The walk of `iteration_active?` takes at most `max(n, 0)` steps: with a
      minimal interval of at least one and a multiplier of at least two,
      that iteration already reaches. */
  lemma WalkEnds(c: Config, n: int)
    requires c.minimal >= 1.0 && c.multiplier >= 2.0
    ensures FirstReach(c, n) <= if n < 0 then 0 else n
  {
    var k: nat := if n < 0 then 0 else n;
    RegularAtLeastSucc(c, k);
    assert Reaches(c, n, k);
  }

  /** After the retry loop stopped, it slept exactly the schedule up to the
      last failed call: n false outcomes cost `interval_at(0) + ... +
      interval_at(n - 1)`. */
  lemma SleepsFollowSchedule(c: Config, calls: seq<(real, nat)>, sleeps: seq<real>, draws: nat -> real)
    requires forall i :: 0 <= i < |calls| ==> calls[i] == (IntervalAt(c, i, draws(i)), i)
    requires |sleeps| <= |calls|
    requires forall i :: 0 <= i < |sleeps| ==> sleeps[i] == calls[i].0
    ensures Total(sleeps) == ScheduleTotal(c, |sleeps|, draws)
  {
    TotalOfSchedule(c, sleeps, draws);
  }
}
