/** The forecast table both front ends build: a daily date index, a forecast
    column, and the two bound columns, which may be missing altogether or hold
    "not a number" cells. */
module Frames {
  import opened Common

  /** One cell of a bound column: a number, or numpy's NaN. */
  datatype Cell = Num(x: real) | NaN

  /** The bound columns of a frame: absent from it, or present as two columns. */
  datatype Bounds = Omitted | Columns(lower: seq<Cell>, upper: seq<Cell>)

  /** A forecast frame indexed by day ordinals. */
  datatype Frame = Frame(index: seq<int>, forecast: seq<real>, bounds: Bounds)

  /** `pd.date_range(start, periods=n, freq="D")` on day ordinals. */
  function DateRange(start: int, periods: nat): (r: seq<int>)
    ensures |r| == periods
    ensures forall k :: 0 <= k < periods ==> r[k] == start + k
  {
    seq(periods, k => start + k)
  }

  function Cells(s: seq<real>): (r: seq<Cell>)
    ensures |r| == |s|
    ensures forall k :: 0 <= k < |s| ==> r[k] == Num(s[k])
  {
    seq(|s|, k requires 0 <= k < |s| => Num(s[k]))
  }

  /** A column filled by broadcasting the scalar `np.nan`. */
  function NaNs(n: nat): (r: seq<Cell>)
    ensures |r| == n
    ensures forall k :: 0 <= k < n ==> r[k] == NaN
  {
    seq(n, k => NaN)
  }

  /** `s` with every value multiplied by `k`. */
  function ScaleValues(s: seq<real>, k: real): (r: seq<real>)
    ensures |r| == |s|
    ensures forall i :: 0 <= i < |s| ==> r[i] == s[i] * k
  {
    seq(|s|, i requires 0 <= i < |s| => s[i] * k)
  }

  /** The frame has `steps` rows, and its index runs over consecutive days from `first`. */
  predicate DailyRows(f: Frame, first: int, steps: nat)
  {
    && |f.index| == steps
    && |f.forecast| == steps
    && (forall k :: 0 <= k < steps ==> f.index[k] == first + k)
    && (f.bounds.Columns? ==> |f.bounds.lower| == steps && |f.bounds.upper| == steps)
  }
}
