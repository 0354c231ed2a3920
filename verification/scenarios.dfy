/** Clients of the ExponentialBackoff object that replay the library's test
    scenarios; each assertion follows from the contracts alone. */
module Scenarios {
  import opened Wrappers
  import opened Schedule
  import opened Construction
  import opened Backoff

  function NoDraws(k: nat): real { 0.0 }

  /** Construction through a range, an array and two scalars; a lone scalar,
      a range of strings and an endless range are rejected. */
  method ConstructionScenarios()
  {
    var fromRange := ExponentialBackoff.Create(Pair(Numeric(1.0), Numeric(5.0)), Nil);
    assert fromRange.Ok? && fromRange.value.Settings() == Config(1.0, 5.0, 2.0, 0.0);
    var fromArray := ExponentialBackoff.Create(List([Numeric(1.0), Numeric(5.0)]), Nil);
    assert fromArray.Ok? && fromArray.value.Settings() == Config(1.0, 5.0, 2.0, 0.0);
    var scalars := ExponentialBackoff.Create(Scalar(Numeric(1.0)), Numeric(2.0));
    assert scalars.Ok? && scalars.value.multiplier == 2.0 && scalars.value.randomizeFactor == 0.0;
    var lone := ExponentialBackoff.Create(Scalar(Numeric(2.0)), Nil);
    assert lone == Err(ArgumentError("Invalid range specified"));
    var strings := ExponentialBackoff.Create(Pair(NonNumeric, NonNumeric), Nil);
    assert strings == Err(ArgumentError("Invalid range specified"));
    var endless := ExponentialBackoff.Create(Pair(Numeric(1.0), Nil), Nil);
    assert endless == Err(RangeError("cannot get the last element of endless range"));
  }

  /** `next_interval` walks 1, 2, 4, 5; `current_interval` starts absent;
      `clear` restarts the walk; a changed multiplier applies to later values. */
  method CursorScenarios()
  {
    var b := new ExponentialBackoff(1.0, 5.0);
    assert b.currentInterval == None;
    var first := b.NextInterval(0.0);
    assert first == 1.0 && b.currentInterval == Some(1.0);
    var second := b.NextInterval(0.0);
    var third := b.NextInterval(0.0);
    var fourth := b.NextInterval(0.0);
    assert Pow(2.0, 3) == 8.0;
    assert [first, second, third, fourth] == [1.0, 2.0, 4.0, 5.0];
    b.Clear();
    assert b.currentInterval == Some(5.0);
    var again := b.NextInterval(0.0);
    assert again == 1.0;
    b.multiplier := 4.0;
    var grown := b.NextInterval(0.0);
    assert grown == 4.0;
  }

  /** Two cursors from `intervals` advance independently. */
  method IndependentCursors()
  {
    var b := new ExponentialBackoff(1.0, 5.0);
    var first := b.Intervals();
    var second := b.Intervals();
    var _ := first.Next(0.0);
    var x := first.Next(0.0);
    var y := second.Next(0.0);
    assert x == 2.0 && y == 1.0;
  }

  /** The retry loop stops on a truthy result and on nil, and sleeps 0.1 then
      0.2 after two false results; a negative interval makes `sleep` raise. */
  method RetryScenarios()
  {
    var b := new ExponentialBackoff(0.1, 0.5);
    var outcomes := [Truthy, False];
    var calls, sleeps, ended := b.UntilSuccess(outcomes, NoDraws);
    assert outcomes[0] != False;
    assert ended == Stopped && |calls| == 1 && sleeps == [];

    outcomes := [False, NilResult, False];
    calls, sleeps, ended := b.UntilSuccess(outcomes, NoDraws);
    assert outcomes[1] != False;
    assert ended == Stopped && |calls| == 2;

    calls, sleeps, ended := b.UntilSuccess([False, False, NilResult], NoDraws);
    assert ended == Stopped && |calls| == 3;
    assert sleeps == [0.1, 0.2];
    SleepsFollowSchedule(b.Settings(), calls, sleeps, NoDraws);
    assert Total(sleeps) == 0.1 + 0.2;

    var negative := new ExponentialBackoff(-1.0, 5.0);
    calls, sleeps, ended := negative.UntilSuccess([False, Truthy], NoDraws);
    assert calls[0].0 == -1.0;
    assert ended == Raised(ArgumentError("time interval must not be negative"));
    assert |calls| == 1 && sleeps == [];
  }

  /** With bounds (1, 10): 4 is active (it is an interval), 20 is active (a
      multiple of the maximum), 6 is not. */
  method IterationActiveScenarios()
  {
    var b := new ExponentialBackoff(1.0, 10.0);
    var c := b.Settings();
    assert Pow(2.0, 3) == 8.0;
    var active := b.IterationActive(4);
    assert !Reaches(c, 4, 0) && !Reaches(c, 4, 1) && Reaches(c, 4, 2);
    assert FirstReach(c, 4) == 2;
    assert active == Ok(true);
    active := b.IterationActive(20);
    assert IsMultiple(20, 10.0);
    assert active == Ok(true);
    active := b.IterationActive(6);
    assert !Reaches(c, 6, 0) && !Reaches(c, 6, 1) && !Reaches(c, 6, 2) && Reaches(c, 6, 3);
    assert FirstReach(c, 6) == 3;
    assert !IsMultiple(6, 10.0);
    assert active == Ok(false);
  }
}
