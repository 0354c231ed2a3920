/** How `ExponentialBackoff.new` turns its arguments into the two bounds:
    duck-typed resolution of a pair-like first argument, then the check that
    both bounds are Numeric. */
module Construction {
  import opened Wrappers

  /** A Ruby value as the constructor sees it: a Numeric, `nil`, or anything
      else (a String, a Symbol, ...). */
  datatype Value = Numeric(number: real) | Nil | NonNumeric

  /** The first argument of the constructor, by whether it responds to `first`. */
  datatype IntervalArg =
    | Scalar(value: Value)              // no `first`: a number, nil, a String, ...
    | Pair(first: Value, last: Value)   // a Range such as `1..5`; a nil end makes it beginless or endless
    | List(items: seq<Value>)           // an Array such as `[1, 5]`: `first`/`last` are nil when empty

  /** The validated bounds: minimal interval and maximum elapsed time. */
  datatype Bounds = Bounds(minimal: real, maximum: real)

  /** `Array#first` and `Array#last`: nil on an empty array. */
  function FirstItem(items: seq<Value>): Value
  {
    if items == [] then Nil else items[0]
  }

  function LastItem(items: seq<Value>): Value
  {
    if items == [] then Nil else items[|items| - 1]
  }

  /** `verify_correct_range`: both bounds must be Numeric. */
  function VerifyCorrectRange(minimal: Value, maximum: Value): (r: Result<Bounds, Error>)
    ensures r.Ok? <==> minimal.Numeric? && maximum.Numeric?
    ensures r.Ok? ==> r.value == Bounds(minimal.number, maximum.number)
    ensures r.Err? ==> r.error == InvalidRange
  {
    if minimal.Numeric? && maximum.Numeric? then Ok(Bounds(minimal.number, maximum.number))
    else Err(InvalidRange)
  }

  /** The constructor's argument handling and `verify_correct_range`. A
      pair-like first argument supplies both bounds and the second argument
      is ignored; a Range's `first` raises RangeError when it has no
      beginning, and its `last` when it has no end. Otherwise the two
      arguments are the bounds, and an omitted maximum is nil. Either bound
      not Numeric raises ArgumentError. */
  function ResolveBounds(interval: IntervalArg, maximumElapsedTime: Value): (r: Result<Bounds, Error>)
    ensures interval.Pair? && interval.first.Nil? ==> r == Err(BeginlessRange)
    ensures interval.Pair? && !interval.first.Nil? && interval.last.Nil? ==> r == Err(EndlessRange)
    ensures r.Err? && !(interval.Pair? && (interval.first.Nil? || interval.last.Nil?)) ==> r.error == InvalidRange
    ensures interval.Scalar? ==>
      (r.Ok? <==> interval.value.Numeric? && maximumElapsedTime.Numeric?) &&
      (r.Ok? ==> r.value == Bounds(interval.value.number, maximumElapsedTime.number))
    ensures interval.Pair? ==>
      (r.Ok? <==> interval.first.Numeric? && interval.last.Numeric?) &&
      (r.Ok? ==> r.value == Bounds(interval.first.number, interval.last.number))
    ensures interval.List? ==>
      (r.Ok? <==> |interval.items| > 0 && interval.items[0].Numeric? && interval.items[|interval.items| - 1].Numeric?) &&
      (r.Ok? ==> r.value == Bounds(interval.items[0].number, interval.items[|interval.items| - 1].number))
  {
    match interval
    case Scalar(v) => VerifyCorrectRange(v, maximumElapsedTime)
    case Pair(first, last) =>
      if first.Nil? then Err(BeginlessRange)
      else if last.Nil? then Err(EndlessRange)
      else VerifyCorrectRange(first, last)
    case List(items) => VerifyCorrectRange(FirstItem(items), LastItem(items))
  }

  /** `ExponentialBackoff.new(2)`: a lone scalar has no maximum and is rejected. */
  lemma LoneScalarIsRejected(v: Value)
    ensures ResolveBounds(Scalar(v), Nil) == Err(InvalidRange)
  {
  }

  /** `ExponentialBackoff.new('a'..'z')`: a range of non-numerics is rejected. */
  lemma NonNumericRangeIsRejected(maximumElapsedTime: Value)
    ensures ResolveBounds(Pair(NonNumeric, NonNumeric), maximumElapsedTime) == Err(InvalidRange)
  {
  }

  /** An array `[a, b]` and the two scalars `a, b` always resolve alike. A
      range `a..b` with both ends present resolves like them too; with a nil
      end the range raises RangeError where the others raise ArgumentError. */
  lemma ConstructionPathsAgree(a: Value, b: Value, ignored: Value)
    ensures ResolveBounds(List([a, b]), ignored) == ResolveBounds(Scalar(a), b)
    ensures !a.Nil? && !b.Nil? ==> ResolveBounds(Pair(a, b), ignored) == ResolveBounds(List([a, b]), ignored)
    ensures a.Nil? || b.Nil? ==>
      ResolveBounds(Pair(a, b), ignored).Err? && ResolveBounds(Pair(a, b), ignored).error.RangeError? &&
      ResolveBounds(List([a, b]), ignored) == Err(InvalidRange)
  {
  }
}
