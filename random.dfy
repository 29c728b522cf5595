/** The random source the simulator draws from. numpy's global generator is one
    stream of draws; here it is an oracle indexed by the position of the draw in
    that stream, and every simulator method takes the position it starts at and
    returns the position after its last draw. */
module RandomSource {
  import opened Common

  /** `unit(k)` is the k-th draw of np.random.uniform(0, 1); `pick(k, n)` the
      k-th draw of np.random.choice(n); `wald(k, mean, scale)` the k-th draw of
      invgauss.rvs(mu=mean, scale=scale), which may be any float, NaN included. */
  datatype Oracle = Oracle(
    unit: nat -> real,
    pick: (nat, nat) -> nat,
    wald: (nat, Ext, Ext) -> Ext)
  {
    /** What numpy guarantees of its draws: uniform(0, 1) lies in [0, 1) and
        choice(n) is an index below n. */
    ghost predicate Valid() {
      (forall k :: 0.0 <= unit(k) < 1.0) &&
      (forall k, n :: 0 < n ==> pick(k, n) < n)
    }
  }

  lemma UnitScale(d: real, u: real)
    requires 0.0 <= d && 0.0 <= u < 1.0
    ensures 0.0 <= d * u <= d
    ensures 0.0 < d ==> d * u < d
  {
    ScaleMonotone(d, 0.0, u);
    if 0.0 < d {
      ProductPositive(d, 1.0 - u);
      assert d - d * u == d * (1.0 - u);
    }
  }

  /** np.random.uniform(lo, hi) computed from a unit draw `u`, as numpy does:
      `lo + (hi - lo) * u`. */
  function Uniform(lo: real, hi: real, u: real): (x: real)
    requires 0.0 <= u < 1.0
    ensures lo <= hi ==> lo <= x <= hi
    ensures lo < hi ==> x < hi
    ensures lo == hi ==> x == lo
  {
    var d := hi - lo;
    var w := d * u;
    if 0.0 <= d then
      UnitScale(d, u);
      assert 0.0 <= w <= d && (0.0 < d ==> w < d);
      lo + w
    else
      lo + w
  }
}
