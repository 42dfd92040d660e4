/** The helpers every analyzer inherits: `is_visible` and `safe_points`.
    Indices follow Python's rules: a negative index counts from the end, and an
    index outside `-n .. n-1` raises `IndexError`. */
module Analyzer {
  import opened Wrappers

  /** `is_visible`'s default threshold. */
  const DefaultThreshold: real := 0.5

  /** Whether `i` is a valid Python index into a sequence of length `n`. */
  predicate InRange(n: nat, i: int) {
    -(n as int) <= i < n
  }

  /** The position a valid Python index denotes. */
  function Wrap(n: nat, i: int): (k: nat)
    requires InRange(n, i)
    ensures k < n
    ensures 0 <= i ==> k == i
  {
    if i < 0 then n + i else i
  }

  /** `all(visibility[i] >= threshold for i in indices)`, evaluated left to
      right: the first index that is out of range raises, unless an earlier
      joint already failed and `all` stopped. */
  function AllVisible(v: seq<real>, indices: seq<int>, threshold: real): (r: Result<bool>)
    ensures r == Ok(true) <==>
      forall k | 0 <= k < |indices| :: InRange(|v|, indices[k]) && v[Wrap(|v|, indices[k])] >= threshold
    ensures r == Ok(false) ==>
      exists k | 0 <= k < |indices| :: InRange(|v|, indices[k]) && v[Wrap(|v|, indices[k])] < threshold
    decreases |indices|
  {
    if indices == [] then Ok(true)
    else if !InRange(|v|, indices[0]) then IndexError
    else if v[Wrap(|v|, indices[0])] < threshold then Ok(false)
    else
      var rest := AllVisible(v, indices[1..], threshold);
      assert forall k | 1 <= k < |indices| :: indices[k] == indices[1..][k - 1];
      rest
  }

  /** `Analyzer.is_visible`: false without confidences, otherwise the
      short-circuiting `all` over the listed joints (inclusive threshold). */
  method IsVisible(visibility: Option<seq<real>>, indices: seq<int>, threshold: real) returns (r: Result<bool>)
    ensures visibility.None? ==> r == Ok(false)
    ensures visibility.Some? ==> r == AllVisible(visibility.value, indices, threshold)
    ensures visibility.Some? && indices == [] ==> r == Ok(true)
  {
    if visibility.None? {
      return Ok(false);
    }
    var v := visibility.value;
    var k := 0;
    while k < |indices|
      invariant 0 <= k <= |indices|
      invariant AllVisible(v, indices, threshold) == AllVisible(v, indices[k..], threshold)
      decreases |indices| - k
    {
      var i := indices[k];
      assert indices[k..][1..] == indices[k + 1..];
      if !InRange(|v|, i) {
        return IndexError;
      }
      if v[Wrap(|v|, i)] < threshold {
        return Ok(false);
      }
      k := k + 1;
    }
    return Ok(true);
  }

  /** `is_visible` called without a threshold. */
  method IsVisibleByDefault(visibility: Option<seq<real>>, indices: seq<int>) returns (r: Result<bool>)
    ensures visibility.None? ==> r == Ok(false)
    ensures visibility.Some? ==> r == AllVisible(visibility.value, indices, 0.5)
  {
    r := IsVisible(visibility, indices, DefaultThreshold);
  }

  /** numpy's `rows[indices]` with a list of indices: all rows in list order,
      or `IndexError` if any index is out of range. */
  function Gather<R>(rows: seq<R>, indices: seq<int>): (r: Result<seq<R>>)
    ensures r.Ok? <==> forall k | 0 <= k < |indices| :: InRange(|rows|, indices[k])
    ensures r.Ok? ==> |r.value| == |indices|
    ensures r.Ok? ==> forall k | 0 <= k < |indices| :: r.value[k] == rows[Wrap(|rows|, indices[k])]
    decreases |indices|
  {
    if indices == [] then Ok([])
    else if !InRange(|rows|, indices[0]) then IndexError
    else
      match Gather(rows, indices[1..])
      case IndexError => IndexError
      case Ok(rest) => Ok([rows[Wrap(|rows|, indices[0])]] + rest)
  }

  /** `Analyzer.safe_points`: `None` without landmarks or when the lookup
      raises, otherwise the selected rows in the order of `indices`. */
  function SafePoints<R>(landmarks: Option<seq<R>>, indices: seq<int>): (r: Option<seq<R>>)
    ensures landmarks.None? ==> r.None?
    ensures landmarks.Some? ==>
      (r.Some? <==> forall k | 0 <= k < |indices| :: InRange(|landmarks.value|, indices[k]))
    ensures r.Some? ==> landmarks.Some? && |r.value| == |indices|
    ensures r.Some? ==>
      forall k | 0 <= k < |indices| :: r.value[k] == landmarks.value[Wrap(|landmarks.value|, indices[k])]
  {
    match landmarks
    case None => None
    case Some(rows) =>
      match Gather(rows, indices)
      case IndexError => None
      case Ok(selected) => Some(selected)
  }
}
