/** Shared vocabulary of the GLAM model: failure-carrying results, IEEE-style
    extended reals for the values numpy may produce (NaN and the infinities),
    and the reductions numpy applies to real vectors (sum, mean, max, min). */
module Common {

  datatype Option<+T> = None | Some(value: T)

  /** The ways a simulation or prediction run stops with an exception. */
  datatype Failure =
    | TooFewItems       // np.random.choice(0), np.max over no other item, np.min of an empty array
    | Stalled           // the race retry loop ran out of its attempt budget
    | SamplerDomain     // invgauss.rvs refused its arguments (shape not positive, or scale NaN)
    | MissingCondition  // the observed row has no column named by the dependency map
    | MissingEstimate   // no estimate row matches the subject (and condition)

  datatype Result<+T> = Ok(value: T) | Err(failure: Failure)

  /** A float as numpy sees it; finite values are exact reals. */
  datatype Ext = NaN | NegInf | Fin(x: real) | PosInf

  /** IEEE ordering `a <= b`; every comparison with NaN is false. */
  predicate Le(a: Ext, b: Ext) {
    !a.NaN? && !b.NaN? && (a.NegInf? || b.PosInf? || (a.Fin? && b.Fin? && a.x <= b.x))
  }

  /** IEEE quotient of two finite reals (signed zeros are not modelled). */
  function Quot(a: real, b: real): (q: Ext)
    ensures q.Fin? <==> b != 0.0
    ensures b != 0.0 ==> q == Fin(a / b)
  {
    if b != 0.0 then Fin(a / b)
    else if a > 0.0 then PosInf
    else if a < 0.0 then NegInf
    else NaN
  }

  /** IEEE quotient of two extended reals (signed zeros are not modelled). */
  function Div(a: Ext, b: Ext): (q: Ext)
    ensures a.Fin? && b.Fin? && b.x != 0.0 ==> q == Fin(a.x / b.x)
    ensures a.NaN? || b.NaN? ==> q.NaN?
  {
    match (a, b)
    case (NaN, _) => NaN
    case (_, NaN) => NaN
    case (Fin(x), Fin(y)) => Quot(x, y)
    case (Fin(_), _) => Fin(0.0)
    case (_, Fin(y)) => if y < 0.0 then (if a.PosInf? then NegInf else PosInf) else a
    case (_, _) => NaN
  }

  /** IEEE square `e ** 2` (overflow of large finite values is not modelled). */
  function Sq(e: Ext): (r: Ext)
    ensures e.Fin? ==> r == Fin(e.x * e.x)
    ensures r.NaN? <==> e.NaN?
  {
    if e.Fin? then Fin(e.x * e.x)
    else if e.NaN? then NaN
    else PosInf
  }

  /** np.min: NaN as soon as one element is NaN, the least element otherwise. */
  function Min(s: seq<Ext>): (m: Ext)
    requires |s| > 0
    ensures !m.NaN? ==> forall i :: 0 <= i < |s| ==> Le(m, s[i])
  {
    if |s| == 1 then s[0]
    else
      var rest := Min(s[1..]);
      assert forall i :: 1 <= i < |s| ==> s[i] == s[1..][i - 1];
      if s[0].NaN? || rest.NaN? then NaN
      else if Le(s[0], rest) then s[0]
      else rest
  }

  /** np.min returns one of the elements, and NaN exactly when some element is NaN. */
  lemma {:induction false} MinIsElement(s: seq<Ext>)
    requires |s| > 0
    ensures Min(s) in s
    ensures Min(s).NaN? <==> NaN in s
  {
    if |s| > 1 {
      MinIsElement(s[1..]);
      assert s == [s[0]] + s[1..];
    }
  }

  /** The first index at which `x` occurs in `s`. */
  function FirstIndexOf<T(==)>(s: seq<T>, x: T): (k: nat)
    requires x in s
    ensures k < |s| && s[k] == x
    ensures forall j :: 0 <= j < k ==> s[j] != x
  {
    if s[0] == x then 0 else 1 + FirstIndexOf(s[1..], x)
  }

  /** np.argmin: the first index holding the minimum. */
  function ArgMin(s: seq<Ext>): (k: nat)
    requires |s| > 0
    ensures k < |s| && s[k] == Min(s)
    ensures forall j :: 0 <= j < k ==> s[j] != Min(s)
  {
    MinIsElement(s);
    FirstIndexOf(s, Min(s))
  }

  function Sum(s: seq<real>): real
  {
    if s == [] then 0.0 else s[0] + Sum(s[1..])
  }

  /** np.mean of a non-empty vector. */
  function Mean(s: seq<real>): real
    requires |s| > 0
  {
    Sum(s) / (|s| as real)
  }

  /** np.max of a non-empty vector. */
  function MaxOf(s: seq<real>): (m: real)
    requires |s| > 0
    ensures forall i :: 0 <= i < |s| ==> s[i] <= m
  {
    if |s| == 1 then s[0]
    else
      var rest := MaxOf(s[1..]);
      assert forall i :: 1 <= i < |s| ==> s[i] == s[1..][i - 1];
      if s[0] >= rest then s[0] else rest
  }

  /** np.min of a non-empty vector. */
  function MinOf(s: seq<real>): (m: real)
    requires |s| > 0
    ensures forall i :: 0 <= i < |s| ==> m <= s[i]
  {
    if |s| == 1 then s[0]
    else
      var rest := MinOf(s[1..]);
      assert forall i :: 1 <= i < |s| ==> s[i] == s[1..][i - 1];
      if s[0] <= rest then s[0] else rest
  }

  /** np.max and np.min return elements of the vector. */
  lemma {:induction false} MaxMinAreElements(s: seq<real>)
    requires |s| > 0
    ensures MaxOf(s) in s && MinOf(s) in s
  {
    if |s| > 1 {
      MaxMinAreElements(s[1..]);
      assert s == [s[0]] + s[1..];
    }
  }

  lemma ScaleMonotone(n: real, a: real, b: real)
    requires 0.0 <= n && a <= b
    ensures n * a <= n * b
  {
    assert n * b - n * a == n * (b - a);
  }

  lemma ProductPositive(a: real, b: real)
    requires 0.0 < a && 0.0 < b
    ensures 0.0 < a * b
  {
  }

  /** A vector whose elements lie in [lo, hi] has its sum between |s|*lo and |s|*hi. */
  lemma {:induction false} SumBounds(s: seq<real>, lo: real, hi: real)
    requires forall i :: 0 <= i < |s| ==> lo <= s[i] <= hi
    ensures (|s| as real) * lo <= Sum(s) <= (|s| as real) * hi
  {
    if s != [] {
      SumBounds(s[1..], lo, hi);
    }
  }

  /** The mean of a non-empty vector lies between any bounds of its elements. */
  lemma MeanBounds(s: seq<real>, lo: real, hi: real)
    requires |s| > 0 && forall i :: 0 <= i < |s| ==> lo <= s[i] <= hi
    ensures lo <= Mean(s) <= hi
  {
    SumBounds(s, lo, hi);
    var n := |s| as real;
    var q := Mean(s);
    assert q * n == Sum(s);
    if q < lo {
      ProductPositive(n, lo - q);
      assert false;
    }
    if hi < q {
      ProductPositive(n, q - hi);
      assert false;
    }
  }
}
