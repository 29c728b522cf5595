/** make_R: the rate at which each item's accumulator gathers evidence.
    Gaze weights each item's value, every item is compared with the best of the
    other items, and a logistic squash maps that relative evidence into (0, v). */
module EvidenceRate {
  import opened Common

  /** The model's exponential: positive, one at zero and strictly increasing.
      Its numeric accuracy is not modelled. */
  ghost predicate IsExp(exp: real -> real) {
    (forall x :: 0.0 < exp(x)) &&
    exp(0.0) == 1.0 &&
    (forall x, y :: x < y ==> exp(x) < exp(y))
  }

  /** Gaze-weighted value of one item: fully counted while looked at,
      discounted by gamma while not. */
  function Attention(g: real, x: real, gamma: real): real {
    g * x + (1.0 - g) * gamma * x
  }

  /** A = gaze * values + (1 - gaze) * gamma * values, element by element. */
  function AttentionWeighted(values: seq<real>, gaze: seq<real>, gamma: real): (a: seq<real>)
    requires |values| == |gaze|
  {
    seq(|values|, i requires 0 <= i < |values| => Attention(gaze[i], values[i], gamma))
  }

  /** All items but item i, in order. */
  function Others(a: seq<real>, i: nat): seq<real>
    requires i < |a|
  {
    a[..i] + a[i + 1..]
  }

  /** R*_i: item i's weighted value minus the best weighted value among the others. */
  function RelativeEvidence(a: seq<real>, i: nat): real
    requires 2 <= |a| && i < |a|
  {
    a[i] - MaxOf(Others(a, i))
  }

  /** The logistic squash `v / (1 + exp(-tau * r))`. */
  function Squash(v: real, tau: real, r: real, exp: real -> real): (rate: real)
    requires IsExp(exp)
    ensures 0.0 < v ==> 0.0 < rate < v
    ensures r == 0.0 ==> rate == v / 2.0
  {
    var e := exp(-tau * r);
    assert r == 0.0 ==> e == 1.0 by {
      if r == 0.0 {
        assert -tau * r == 0.0;
      }
    }
    if 0.0 < v then
      QuotientBelow(v, 1.0 + e);
      v / (1.0 + e)
    else
      v / (1.0 + e)
  }

  /** Dividing a positive number by something above one leaves it positive and smaller. */
  lemma QuotientBelow(v: real, d: real)
    requires 0.0 < v && 1.0 < d
    ensures 0.0 < v / d < v
  {
    var q := v / d;
    assert q * d == v;
    if q <= 0.0 {
      ScaleMonotone(d, q, 0.0);
      assert false;
    }
    assert q * d - q == q * (d - 1.0);
    if v <= q {
      ProductPositive(q, d - 1.0);
      assert false;
    }
  }

  /** The rate vector make_R returns. With no item it is empty; a single item is
      refused because it has no other item to be compared with. */
  function Rates(v: real, tau: real, gamma: real, values: seq<real>, gaze: seq<real>,
                 exp: real -> real): seq<real>
    requires |values| == |gaze| && |values| != 1 && IsExp(exp)
  {
    var a := AttentionWeighted(values, gaze, gamma);
    seq(|a|, i requires 0 <= i < |a| => Squash(v, tau, RelativeEvidence(a, i), exp))
  }

  /** make_R: fills R_star item by item, then squashes the whole vector. */
  method MakeR(v: real, tau: real, gamma: real, values: seq<real>, gaze: seq<real>,
               exp: real -> real) returns (R: seq<real>)
    requires |values| == |gaze| && |values| != 1 && IsExp(exp)
    ensures |R| == |values|
    ensures R == Rates(v, tau, gamma, values, gaze, exp)
  {
    var n := |values|;
    var a := AttentionWeighted(values, gaze, gamma);
    var rStar := new real[n];
    for i := 0 to n
      invariant forall j :: 0 <= j < i ==> rStar[j] == RelativeEvidence(a, j)
    {
      var others := Others(a, i);
      rStar[i] := a[i] - MaxOf(others);
    }
    var rs := rStar[..];
    R := seq(n, i requires 0 <= i < n => Squash(v, tau, rs[i], exp));
  }

  // ---------------------------------------------------------------------------
  // Relative evidence

  lemma OthersHas(a: seq<real>, i: nat, j: nat)
    requires i < |a| && j < |a| && j != i
    ensures a[j] in Others(a, i)
  {
    if j < i {
      assert Others(a, i)[j] == a[j];
    } else {
      assert Others(a, i)[j - 1] == a[j];
    }
  }

  lemma OthersFrom(a: seq<real>, i: nat, x: real) returns (j: nat)
    requires i < |a| && x in Others(a, i)
    ensures j < |a| && j != i && a[j] == x
  {
    var k :| 0 <= k < |Others(a, i)| && Others(a, i)[k] == x;
    j := if k < i then k else k + 1;
  }

  /** R*_i compares item i with its strongest competitor: it is at most
      A_i - A_j for every other item j, with equality for some other item. */
  lemma EvidenceAgainstBestOther(a: seq<real>, i: nat) returns (best: nat)
    requires 2 <= |a| && i < |a|
    ensures forall j :: 0 <= j < |a| && j != i ==> RelativeEvidence(a, i) <= a[i] - a[j]
    ensures best < |a| && best != i && RelativeEvidence(a, i) == a[i] - a[best]
  {
    forall j | 0 <= j < |a| && j != i
      ensures a[j] <= MaxOf(Others(a, i))
    {
      OthersHas(a, i, j);
    }
    MaxMinAreElements(Others(a, i));
    best := OthersFrom(a, i, MaxOf(Others(a, i)));
  }

  /** R*_i >= 0 exactly when no other item has a higher weighted value, and
      R*_i > 0 exactly when every other item has a lower one. */
  lemma EvidenceSign(a: seq<real>, i: nat)
    requires 2 <= |a| && i < |a|
    ensures 0.0 <= RelativeEvidence(a, i) <==> forall j :: 0 <= j < |a| && j != i ==> a[j] <= a[i]
    ensures 0.0 < RelativeEvidence(a, i) <==> forall j :: 0 <= j < |a| && j != i ==> a[j] < a[i]
  {
    var best := EvidenceAgainstBestOther(a, i);
  }

  /** At most one item has positive relative evidence. */
  lemma AtMostOneLeader(a: seq<real>, i: nat, j: nat)
    requires 2 <= |a| && i < |a| && j < |a| && i != j
    ensures !(0.0 < RelativeEvidence(a, i) && 0.0 < RelativeEvidence(a, j))
  {
    EvidenceSign(a, i);
    EvidenceSign(a, j);
  }

  /** With two items each is compared with the other, so R*_0 = -R*_1. */
  lemma TwoItemsOpposite(a: seq<real>)
    requires |a| == 2
    ensures RelativeEvidence(a, 0) == a[0] - a[1]
    ensures RelativeEvidence(a, 0) == -RelativeEvidence(a, 1)
  {
    assert Others(a, 0) == [a[1]];
    assert Others(a, 1) == [a[0]];
  }

  /** A higher weighted value never gives lower relative evidence. */
  lemma EvidenceFollowsAttention(a: seq<real>, i: nat, j: nat)
    requires 2 <= |a| && i < |a| && j < |a| && a[j] <= a[i]
    ensures RelativeEvidence(a, j) <= RelativeEvidence(a, i)
  {
    if i != j {
      var bi := EvidenceAgainstBestOther(a, i);
      var bj := EvidenceAgainstBestOther(a, j);
      // the best competitor of i is j or a common competitor, both at most i's value or j's best
      if bi != j {
        assert a[bi] <= a[j] - RelativeEvidence(a, j);
      }
    }
  }

  /** Two items with equal weighted value get equal relative evidence, which is
      never positive, and is zero exactly when they share the top value. */
  lemma TiedItemsShareEvidence(a: seq<real>, i: nat, j: nat)
    requires 2 <= |a| && i < |a| && j < |a| && i != j && a[i] == a[j]
    ensures RelativeEvidence(a, i) == RelativeEvidence(a, j) <= 0.0
    ensures RelativeEvidence(a, i) == 0.0 <==> forall k :: 0 <= k < |a| ==> a[k] <= a[i]
  {
    EvidenceFollowsAttention(a, i, j);
    EvidenceFollowsAttention(a, j, i);
    EvidenceSign(a, i);
  }

  // ---------------------------------------------------------------------------
  // Rates

  /** The squash is strictly increasing in the relative evidence when the gain
      and the steepness are positive. */
  lemma SquashMonotone(v: real, tau: real, r1: real, r2: real, exp: real -> real)
    requires IsExp(exp) && 0.0 < v && 0.0 < tau && r1 < r2
    ensures Squash(v, tau, r1, exp) < Squash(v, tau, r2, exp)
  {
    var x1, x2 := -tau * r1, -tau * r2;
    assert x2 < x1 by {
      assert x1 - x2 == tau * (r2 - r1);
      ProductPositive(tau, r2 - r1);
    }
    var d1, d2 := 1.0 + exp(x1), 1.0 + exp(x2);
    assert d2 < d1;
    QuotientDecreasing(v, d2, d1);
  }

  lemma QuotientDecreasing(v: real, d2: real, d1: real)
    requires 0.0 < v && 0.0 < d2 < d1
    ensures v / d1 < v / d2
  {
    var q1, q2 := v / d1, v / d2;
    assert q1 * d1 == v && q2 * d2 == v;
    if q2 <= q1 {
      ScaleMonotone(d2, q2, q1);
      ProductPositive(q1, d1 - d2);
      assert false;
    }
  }

  /** Every rate lies strictly between 0 and the gain v. */
  lemma RatesBounded(v: real, tau: real, gamma: real, values: seq<real>, gaze: seq<real>,
                     exp: real -> real)
    requires |values| == |gaze| && |values| != 1 && IsExp(exp) && 0.0 < v
    ensures var r := Rates(v, tau, gamma, values, gaze, exp);
      |r| == |values| && forall i :: 0 <= i < |r| ==> 0.0 < r[i] < v
  {
  }

  /** The item with the higher gaze-weighted value gets the higher rate. */
  lemma RatesFollowAttention(v: real, tau: real, gamma: real, values: seq<real>, gaze: seq<real>,
                             exp: real -> real, i: nat, j: nat)
    requires |values| == |gaze| && 2 <= |values| && IsExp(exp) && 0.0 < v && 0.0 < tau
    requires i < |values| && j < |values|
    requires Attention(gaze[j], values[j], gamma) <= Attention(gaze[i], values[i], gamma)
    ensures Rates(v, tau, gamma, values, gaze, exp)[j] <= Rates(v, tau, gamma, values, gaze, exp)[i]
  {
    var a := AttentionWeighted(values, gaze, gamma);
    EvidenceFollowsAttention(a, i, j);
    if RelativeEvidence(a, j) < RelativeEvidence(a, i) {
      SquashMonotone(v, tau, RelativeEvidence(a, j), RelativeEvidence(a, i), exp);
    }
  }

  /** With gamma = 1 unattended items are not discounted, so gaze has no effect
      on the rates. */
  lemma GammaOneIgnoresGaze(v: real, tau: real, values: seq<real>, gaze1: seq<real>,
                            gaze2: seq<real>, exp: real -> real)
    requires |values| == |gaze1| == |gaze2| && |values| != 1 && IsExp(exp)
    ensures Rates(v, tau, 1.0, values, gaze1, exp) == Rates(v, tau, 1.0, values, gaze2, exp)
  {
    assert AttentionWeighted(values, gaze1, 1.0) == values;
    assert AttentionWeighted(values, gaze2, 1.0) == values;
  }

  /** Two items with equal value and equal gaze both accumulate at v / 2. */
  lemma SymmetricPairHalfRate(v: real, tau: real, gamma: real, x: real, g: real,
                              exp: real -> real)
    requires IsExp(exp)
    ensures Rates(v, tau, gamma, [x, x], [g, g], exp) == [v / 2.0, v / 2.0]
  {
    var a := AttentionWeighted([x, x], [g, g], gamma);
    TwoItemsOpposite(a);
  }
}
