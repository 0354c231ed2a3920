# ExponentialBackoff in Dafny

A model of the Ruby library `exponential_backoff`: one class,
`ExponentialBackoff`, that computes retry delays
`min(maximum, minimal * multiplier ** iteration)` with optional jitter, hands
out lazy cursors over that schedule, and drives a retry loop
(`until_success`) that calls a block and sleeps between failed attempts.

- `wrappers.dfy` (module `Wrappers`): `Option`, `Result` and the Ruby
  exceptions the model covers: `ArgumentError "Invalid range specified"`
  from the constructor, the `RangeError` of `Range#first`/`Range#last` on a
  beginless or endless range, `ArgumentError "time interval must not be
  negative"` from `sleep`, and `ZeroDivisionError "divided by 0"` from
  `Integer#%`. The other exceptions the code can raise are listed under
  "Left out".
- `schedule.dfy` (module `Schedule`): the interval formula as pure functions
  over exact reals (`RegularInterval`, `CappedInterval`,
  `RandomizedInterval`, `IntervalAt`, `IntervalsFor`). Every value that
  `rand` returned is an explicit `draw` parameter; a batch takes
  `draws: nat -> real`, whose k-th value is the k-th draw. Lemmas prove the
  cap, monotonicity, that the cap is absorbing and is reached, the jitter
  window and the sum of the sleeps.
- `construction.dfy` (module `Construction`): the constructor's duck-typed
  argument handling. The first argument is a `Scalar`, a `Pair` (a Range) or
  a `List` (an Array), over values that are `Numeric(real)`, `Nil` or
  `NonNumeric`.
- `backoff.dfy` (module `Backoff`): the object itself. `ExponentialBackoff`
  is a class with the fields `minimal`, `maximum` (constants after
  construction), `multiplier`, `randomizeFactor` (public, assignable at any
  time), `enumerator` and `currentInterval`. The Enumerator that `intervals`
  returns is a `Cursor` object: an owner and an iteration counter. Its k-th
  `Next` yields `interval_at(k)` under the owner's configuration at the time
  of the call. `clear` stores a fresh cursor. `until_success` is a method
  over the block's successive results (`False | NilResult | Truthy`). It returns
  the arguments passed to each call, the sleeps made and how the loop ended
  (`Stopped`, `Exhausted` or `Raised`). `iteration_active?` is a method
  with a `while` loop, proved to end.
- `scenarios.dfy` (module `Scenarios`): client methods that replay the
  library's test scenarios from the contracts alone.

One might expect every interval to stay at or below the maximum. The code
guarantees this only when the randomize factor is 0: `randomized_interval`
(lib/exponential_backoff.rb:74-79) draws around the already capped value.
With a factor r and the intended draw, uniform on `[0, max - min)`
(`UniformDraw`), the result stays below `(1 + r) * maximum`
(`JitteredIntervalBound`). The code as written can exceed even that bound:
whenever the span `2 * r * capped` is below 1, `rand` returns a value in
`[0, 1)` (see "Findings"), which can overshoot the window
`[(1 - r) * capped, (1 + r) * capped)`; at the cap that is above
`(1 + r) * maximum`, so `new(1, 1)` with factor 0.25 can give
`interval_at(0) = 1.65`. Without jitter, `IntervalAt` guarantees the cap.
The test at test/exponential_backoff_test.rb:119 passes the two window ends
as the expected and actual values of `assert_in_delta`, with the interval as
the tolerance, so it checks only `interval_at(100) >= 2.5` (factor 0.25,
cap 5), which agrees with both. Likewise `interval_at(0)` is the minimal
interval only when the minimal interval lies under the maximum
(`FirstIntervalIsMinimal`).

## Model

| member | source | states |
|---|---|---|
| `Construction.ResolveBounds` | lib/exponential_backoff.rb:7-13 | a pair-like argument supplies `first`/`last` and the second argument is ignored; a Range without a beginning raises RangeError from `first`, one without an end RangeError from `last`; otherwise the two arguments are the bounds; the result is Ok with exactly those numbers iff both are Numeric, else ArgumentError "Invalid range specified" |
| `Construction.VerifyCorrectRange` | lib/exponential_backoff.rb:66-68 | Ok with exactly the two numbers iff both bounds are Numeric; otherwise ArgumentError "Invalid range specified" |
| `Construction.LoneScalarIsRejected` | test/exponential_backoff_test.rb:18-23 | a single scalar with the maximum left at nil is rejected with "Invalid range specified" |
| `Construction.NonNumericRangeIsRejected` | test/exponential_backoff_test.rb:200-205 | a range of non-numerics is rejected with "Invalid range specified" |
| `Construction.ConstructionPathsAgree` | lib/exponential_backoff.rb:8-12 | an array `[a, b]` and the scalars `a, b` always resolve alike; a range `a..b` with both ends present resolves like them; with a nil end the range raises RangeError where the others raise ArgumentError |
| `Backoff.ExponentialBackoff.Create` | lib/exponential_backoff.rb:7-18 | the error of the argument resolution (RangeError or ArgumentError) is raised and no object is made; valid bounds give a fresh object with those bounds, multiplier 2.0, randomize factor 0, no current interval and a cursor at 0 |
| `Backoff.ExponentialBackoff.constructor` | lib/exponential_backoff.rb:15-17 | sets multiplier 2.0 and randomize factor 0, leaves the current interval absent and calls `clear` |
| `Backoff.ExponentialBackoff.Intervals` | lib/exponential_backoff.rb:46-54 | returns a fresh cursor over this object's schedule, at iteration 0 |
| `Backoff.Cursor.constructor` | lib/exponential_backoff.rb:47-48 | a new cursor starts at iteration 0 |
| `Backoff.Cursor.Next` | lib/exponential_backoff.rb:49-52 | yields `interval_at` of the current position, with the owner's configuration at the time of the call, advances by one and changes no other cursor |
| `Backoff.ExponentialBackoff.Clear` | lib/exponential_backoff.rb:20-22 | the stored cursor is replaced by a fresh one at 0; the current interval is untouched |
| `Backoff.ExponentialBackoff.NextInterval` | lib/exponential_backoff.rb:24-26 | the k-th call since the last `clear` returns `interval_at(k)` under the configuration in force, records it as the current interval and changes no configuration |
| `Schedule.RegularInterval` | lib/exponential_backoff.rb:70-72 | the regular interval is non-negative for a non-negative initial value and multiplier, and never below the initial value for a multiplier of at least 1; its closed form under the cap is `UnjitteredIntervalAt` |
| `Schedule.RandomizedInterval` | lib/exponential_backoff.rb:74-79 | a factor of 0 returns the interval unchanged; with a factor and a non-negative draw the result is at least `(1 - r) * interval`, and non-negative for a factor in `[0, 1]` and a non-negative interval; the full window is `JitterWindow` |
| `Schedule.CappedInterval` | lib/exponential_backoff.rb:81-83 | the result is the minimum: at most both arguments and equal to one of them |
| `Schedule.CappedAt` | lib/exponential_backoff.rb:70-72 | the regular interval `minimal * multiplier ** i`, capped, never exceeds the maximum |
| `Schedule.IntervalAt` | lib/exponential_backoff.rb:42-43 | without jitter, `interval_at` never exceeds the maximum |
| `Schedule.UnjitteredIntervalAt` | lib/exponential_backoff.rb:70-83 | without jitter, `interval_at(i)` is `min(maximum, minimal * multiplier ** i)` whatever the draw |
| `Schedule.FirstIntervalIsMinimal` | lib/exponential_backoff.rb:70-72 | without jitter, iteration 0 gives the minimal interval when it lies under the maximum |
| `Schedule.IntervalsFor` | lib/exponential_backoff.rb:38-40 | the result has one element per iteration, the k-th being `interval_at` of the k-th iteration, in order |
| `Schedule.ScheduleExamples` | test/exponential_backoff_test.rb:8-16 | bounds (1,5) give [1,2,4,5] for 0..3 and [2,4,5,5] for 1..4; (30,90) give [30,60,90,90]; (1,512) with multiplier 4 give [4,16,64,256] for 1..4 |
| `Schedule.IntervalAtMonotone` | lib/exponential_backoff.rb:70-83 | without jitter, with a non-negative minimal interval and a multiplier of at least 1, the schedule never decreases |
| `Schedule.CapIsAbsorbing` | lib/exponential_backoff.rb:81-83 | under the same conditions, once an interval equals the cap every later one does |
| `Schedule.IntervalAtNonNegative` | lib/exponential_backoff.rb:42-43 | with non-negative bounds and multiplier, a factor in `[0, 1]` and a non-negative draw, no interval is negative, so `sleep` never raises |
| `Schedule.ReachesCap` | lib/exponential_backoff.rb:70-83 | with a positive minimal interval and a multiplier above 1, the schedule equals the cap at iteration `StepsToCap`, and by `CapIsAbsorbing` stays there |
| `Schedule.JitterWindow` | lib/exponential_backoff.rb:74-79 | with a non-zero factor r and a draw uniform on `[0, max - min)`, the result is `(1 - r) c + draw`, inside `[(1 - r) c, (1 + r) c)` |
| `Schedule.JitteredIntervalBound` | lib/exponential_backoff.rb:42-43 | with a factor in (0, 1] and such a draw, `interval_at` lies at or above `(1 - r)` times the capped value and below `(1 + r) * maximum` |
| `Schedule.KernelRandLeavesWindow` | lib/exponential_backoff.rb:78 | as written, `rand(0.5)` may return 0.9, giving 1.65 for an interval of 1 with factor 0.25, outside `[0.75, 1.25)`; with bounds (1, 1) `interval_at(0)` is then above `(1 + r) * maximum` |
| `Schedule.KernelRandTwoOutcomes` | lib/exponential_backoff.rb:78 | as written, an interval of 5 with factor 0.25 only ever gives 3.75 or 4.75 |
| `Backoff.ExponentialBackoff.UntilSuccess` | lib/exponential_backoff.rb:56-62 | call i receives `(interval_at(i), i)`; every call before the last returned literally `false`; the loop stops exactly at the first truthy or nil result, with no sleep after it; each `false` is followed by one sleep of the interval just passed, and a negative interval makes `sleep` raise ArgumentError "time interval must not be negative" instead; every sleep made is non-negative |
| `Backoff.StopsRetrying` | lib/exponential_backoff.rb:59 | the stop test (`retval` truthy or nil) holds exactly when the block did not return literally `false`: `nil` stops the loop too |
| `Backoff.SleepsFollowSchedule` | lib/exponential_backoff.rb:57-60 | the sleeps of the retry loop add up to `interval_at(0) + ... + interval_at(n - 1)` for n failed calls |
| `Schedule.TotalOfSchedule` | lib/exponential_backoff.rb:57-60 | a list whose k-th element is `interval_at(k)` sums to the schedule's running total |
| `Schedule.ScheduleTotalBound` | lib/exponential_backoff.rb:60 | without jitter, n sleeps total at most n times the maximum |
| `Backoff.ExponentialBackoff.IterationActive` | lib/exponential_backoff.rb:28-36 | the walk ends at `FirstReach`, the first iteration whose interval is not below both the argument and the maximum; the result is true iff that interval equals the argument or the argument is a multiple of the maximum; a zero maximum raises ZeroDivisionError |
| `Backoff.ActiveVerdict` | lib/exponential_backoff.rb:35 | the verdict is Ok(true) iff the reached interval equals the argument or the argument is a multiple of the maximum; it is an error, ZeroDivisionError, iff the interval differs and the maximum is 0; for a whole-number maximum it is Ruby's `n % maximum == 0` |
| `Backoff.MultipleOfInteger` | lib/exponential_backoff.rb:35 | for a non-zero integer m, "n / m is a whole number" holds iff `n % m == 0` |
| `Backoff.FirstReachFrom` | lib/exponential_backoff.rb:31-34 | the walk from iteration k terminates, at an iteration from k on that reaches, with none reaching in between |
| `Backoff.FirstReach` | lib/exponential_backoff.rb:29-34 | the walk from iteration 0 stops at the first iteration that reaches |
| `Backoff.FirstReachUnique` | lib/exponential_backoff.rb:31-34 | two iterations that are both the first to reach coincide, so the stopping point is determined |
| `Backoff.WalkEnds` | lib/exponential_backoff.rb:31-34 | with a minimal interval of at least 1 and a multiplier of at least 2, the walk stops by iteration `max(n, 0)` |
| `Schedule.RegularAtLeastSucc` | lib/exponential_backoff.rb:70-72 | with a minimal interval of at least 1 and a multiplier of at least 2, the k-th regular interval is at least k + 1 |

## Findings

| source | as written | input that shows it | evidently intended | confidence | as-written member | corrected member |
|---|---|---|---|---|---|---|
| lib/exponential_backoff.rb:78 | `rand(max - min) + min` calls Kernel#rand with a Float, which truncates it to an integer: `rand(0.5)` acts as `rand(0)` and returns a float in `[0, 1)`; `rand(2.5)` acts as `rand(2)` and returns 0 or 1 | interval 1 with randomize factor 0.25: `rand(0.5)` can return 0.9, so the result 1.65 leaves `[0.75, 1.25)`; interval 5 with factor 0.25 only gives 3.75 or 4.75 | a value uniformly distributed in `[min, max)` | medium; not executed | `Schedule.KernelRandLeavesWindow` | `Schedule.JitterWindow` |

The rest of the model treats the draw as the intended uniform value on
`[0, max - min)` (`Schedule.UniformDraw`).

## Left out

- Randomness: `Kernel#rand` itself is not modelled. Each draw is a parameter, and its possible values are stated by `UniformDraw` (intended) or `KernelRandDraw` (as written).
- The wall-clock `sleep`: each sleep is an entry appended to the list that `UntilSuccess` returns.
- Floating point: all arithmetic is exact `real`. The Float-versus-Integer distinction is not modelled: in Ruby an interval is a Float or an Integer depending on the operands (a capped interval is the maximum itself, and an Integer minimal with an Integer multiplier gives Integers).
- Ruby duck typing (`respond_to?(:first)`, `is_a?(Numeric)`) is replaced by the tagged input `IntervalArg` over `Value`. Numerics that are not real numbers (Complex) are not modelled.
- Other exceptions the code can raise are not modelled: a Hash or a Set as the first argument responds to `first` but not to `last` (NoMethodError at lib/exponential_backoff.rb:9); a non-numeric argument to `iteration_active?` fails the comparison at lib/exponential_backoff.rb:31 (ArgumentError).
- `Backoff.ExponentialBackoff.UntilSuccess`: the block is a finite script of outcomes. A block that keeps returning `false` loops forever in Ruby; in the model the script runs out and the method reports `Exhausted`. Exceptions raised by the block, which simply propagate, and a block that changes the object's configuration while the loop runs are not modelled.
- `Backoff.ExponentialBackoff.IterationActive`: modelled only with randomize factor 0, a minimal interval of at least 1 and a multiplier of at least 2, where the loop provably ends. Outside these conditions the Ruby loop can run forever. `n % maximum == 0` is modelled as "n / maximum is a whole number", which for a whole-number maximum is the same test (`MultipleOfInteger`). A zero maximum raises ZeroDivisionError as Integer#% does; a Float 0.0 maximum would give NaN in Ruby, and so false.
- The Enumerator's coroutine machinery and infinite `loop` are reduced to an iteration counter (`Cursor`).
- Negative iteration numbers (`interval_at(-1)` in Ruby) are not modelled; iterations are `nat`.
- Concurrent mutation of `multiplier` or `randomize_factor` is not modelled.
- The `exponential_backoff/version` require is not part of this model.
