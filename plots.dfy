/** The descriptive columns the fit plots are drawn from: trial difficulty,
    left value and gaze advantages, the left relative value, the choice of the
    left item corrected for that value, and the bins of the gaze advantage.
    Each add_ helper writes its column into the frame it is given and returns
    a copy of the frame. */
module Plots {
  import opened Common
  import opened EvidenceRate

  /** One trial of a trial-wise frame: subject, choice, and the item_value_i
      and gaze_i columns in column order. */
  datatype TrialRow = TrialRow(subject: int, choice: int, values: seq<real>, gaze: seq<real>)

  /** A derived column: booleans or floats (NaN included). */
  datatype Column = Flags(flags: seq<bool>) | Numbers(numbers: seq<Ext>)

  function Length(c: Column): nat {
    match c
    case Flags(f) => |f|
    case Numbers(x) => |x|
  }

  const DifficultyName := "difficulty"
  const LeftMinusMeanOthersName := "left_minus_mean_others"
  const LeftGazeAdvantageName := "left_gaze_advantage"
  const LeftRelativeValueName := "left_relative_value"
  const LeftChosenName := "left_chosen"
  const PChoiceLeftName := "p_choice_left_given_value"
  const CorrectedChoiceLeftName := "corrected_choice_left"

  // ---------------------------------------------------------------------------
  // Row formulas

  /** x[0] minus the mean of x[1:]. numpy's mean of no value is NaN. */
  function LeftMinusMean(xs: seq<real>): (r: Ext)
    requires 1 <= |xs|
    ensures r.NaN? <==> |xs| == 1
  {
    if |xs| == 1 then NaN else Fin(xs[0] - Mean(xs[1..]))
  }

  /** The index of the first largest value, the copy np.sort puts last. */
  function MaxIndex(xs: seq<real>): (i: nat)
    requires 1 <= |xs|
    ensures i < |xs| && xs[i] == MaxOf(xs)
  {
    MaxMinAreElements(xs);
    FirstIndexOf(xs, MaxOf(xs))
  }

  /** The largest value minus the mean of the values np.sort puts before it. */
  function Difficulty(values: seq<real>): (r: Ext)
    requires 1 <= |values|
    ensures r.NaN? <==> |values| == 1
  {
    if |values| == 1 then NaN
    else
      var i := MaxIndex(values);
      Fin(values[i] - Mean(Others(values, i)))
  }

  /** With two items or more the difficulty is a number and never negative. */
  lemma DifficultyNonNegative(values: seq<real>)
    requires 2 <= |values|
    ensures Difficulty(values).Fin? && 0.0 <= Difficulty(values).x
  {
    var i := MaxIndex(values);
    var others := Others(values, i);
    forall j | 0 <= j < |others|
      ensures MinOf(others) <= others[j] <= values[i]
    {
      var k := if j < i then j else j + 1;
      assert others[j] == values[k];
    }
    MeanBounds(others, MinOf(others), values[i]);
  }

  /** With two items the difficulty is |v0 - v1|. */
  lemma DifficultyTwoItems(v0: real, v1: real)
    ensures Difficulty([v0, v1]) == Fin(if v0 < v1 then v1 - v0 else v0 - v1)
  {
    var values := [v0, v1];
    var i := MaxIndex(values);
    assert Others(values, 0) == [v1] && Others(values, 1) == [v0];
    assert Sum([v0]) == v0 && Sum([v1]) == v1;
    if v0 < v1 {
      assert i == 1;
    } else {
      assert i == 0;
    }
  }

  /** With two items the left minus the mean of the others is v0 - v1. */
  lemma LeftMinusMeanTwoItems(x0: real, x1: real)
    ensures LeftMinusMean([x0, x1]) == Fin(x0 - x1)
  {
    assert [x0, x1][1..] == [x1];
    assert Sum([x1]) == x1;
  }

  /** Gaze shares in [0, 1] give a left gaze advantage in [-1, 1]. */
  lemma GazeAdvantageBounded(gaze: seq<real>)
    requires 2 <= |gaze| && forall j :: 0 <= j < |gaze| ==> 0.0 <= gaze[j] <= 1.0
    ensures LeftMinusMean(gaze).Fin? && -1.0 <= LeftMinusMean(gaze).x <= 1.0
  {
    var rest := gaze[1..];
    forall j | 0 <= j < |rest|
      ensures 0.0 <= rest[j] <= 1.0
    {
      assert rest[j] == gaze[j + 1];
    }
    MeanBounds(rest, 0.0, 1.0);
  }

  /** Adding the same amount to every value leaves the left advantage unchanged. */
  lemma LeftMinusMeanShift(xs: seq<real>, c: real)
    requires 2 <= |xs|
    ensures LeftMinusMean(Shifted(xs, c)) == LeftMinusMean(xs)
  {
    var ys := Shifted(xs, c);
    var rest := xs[1..];
    assert ys[1..] == Shifted(rest, c);
    SumShifted(rest, c);
    var n := |rest| as real;
    assert Sum(ys[1..]) == Sum(rest) + n * c;
    assert Mean(ys[1..]) == (Sum(rest) + n * c) / n;
    QuotientShift(Sum(rest), n, c);
    assert Mean(ys[1..]) == Mean(rest) + c;
    assert ys[0] - Mean(ys[1..]) == xs[0] - Mean(rest);
  }

  lemma QuotientShift(a: real, n: real, c: real)
    requires 0.0 < n
    ensures (a + n * c) / n == a / n + c
  {
    assert (a + n * c) / n == a / n + (n * c) / n;
    assert (n * c) / n == c;
  }

  function Shifted(xs: seq<real>, c: real): (ys: seq<real>)
    ensures |ys| == |xs| && forall j :: 0 <= j < |xs| ==> ys[j] == xs[j] + c
  {
    seq(|xs|, j requires 0 <= j < |xs| => xs[j] + c)
  }

  lemma {:induction false} SumShifted(xs: seq<real>, c: real)
    ensures Sum(Shifted(xs, c)) == Sum(xs) + (|xs| as real) * c
  {
    if xs != [] {
      assert Shifted(xs, c)[1..] == Shifted(xs[1..], c);
      SumShifted(xs[1..], c);
    }
  }

  // ---------------------------------------------------------------------------
  // Columns

  /** Every row has at least one item_value column. */
  predicate HasValues(rows: seq<TrialRow>) {
    forall i :: 0 <= i < |rows| ==> 1 <= |rows[i].values|
  }

  /** Every row has at least one gaze column. */
  predicate HasGaze(rows: seq<TrialRow>) {
    forall i :: 0 <= i < |rows| ==> 1 <= |rows[i].gaze|
  }

  function DifficultyColumn(rows: seq<TrialRow>): (col: seq<Ext>)
    requires HasValues(rows)
    ensures |col| == |rows|
  {
    seq(|rows|, i requires 0 <= i < |rows| => Difficulty(rows[i].values))
  }

  function LeftMinusMeanOthersColumn(rows: seq<TrialRow>): (col: seq<Ext>)
    requires HasValues(rows)
    ensures |col| == |rows|
  {
    seq(|rows|, i requires 0 <= i < |rows| => LeftMinusMean(rows[i].values))
  }

  function LeftGazeAdvantageColumn(rows: seq<TrialRow>): (col: seq<Ext>)
    requires HasGaze(rows)
    ensures |col| == |rows|
  {
    seq(|rows|, i requires 0 <= i < |rows| => LeftMinusMean(rows[i].gaze))
  }

  /** All non-left values of the frame, row after row. */
  function NonLeftValues(rows: seq<TrialRow>): seq<real>
    requires HasValues(rows)
  {
    if rows == [] then [] else rows[0].values[1..] + NonLeftValues(rows[1..])
  }

  /** The left relative value as add_left_relative_value computes it: np.mean
      without an axis averages every non-left value of the whole frame, and
      each row's left value has that one number subtracted. */
  function TableRelativeValueColumn(rows: seq<TrialRow>): (col: seq<Ext>)
    requires HasValues(rows)
    ensures |col| == |rows|
  {
    var rest := NonLeftValues(rows);
    seq(|rows|, i requires 0 <= i < |rows| =>
      if rest == [] then NaN else Fin(rows[i].values[0] - Mean(rest)))
  }

  /** Two binary trials for which the column as written is not v0 - v1: the
      frame-wide mean of the non-left values is 0.5, not the row's own v1. */
  lemma TableRelativeValueNotPerRow()
    ensures var rows := [TrialRow(1, 0, [1.0, 0.0], [0.5, 0.5]),
                         TrialRow(1, 1, [0.0, 1.0], [0.5, 0.5])];
      TableRelativeValueColumn(rows)[0] == Fin(0.5) &&
      LeftMinusMean(rows[0].values) == Fin(1.0) &&
      TableRelativeValueColumn(rows)[0] != Fin(rows[0].values[0] - rows[0].values[1])
  {
    var rows := [TrialRow(1, 0, [1.0, 0.0], [0.5, 0.5]), TrialRow(1, 1, [0.0, 1.0], [0.5, 0.5])];
    assert rows[1..] == [rows[1]];
    assert NonLeftValues(rows[1..]) == [1.0] + NonLeftValues([]);
    assert NonLeftValues(rows) == [0.0, 1.0];
    assert Sum([0.0, 1.0]) == 1.0 by {
      assert [0.0, 1.0][1..] == [1.0];
    }
    LeftMinusMeanTwoItems(1.0, 0.0);
  }

  /** The column as written is each row's left value minus one number shared
      by all rows: it is defined exactly when some row has a non-left value,
      and then two rows differ by the difference of their left values, so two
      rows get the same entry exactly when their left values are equal. */
  lemma TableRelativeValueShift(rows: seq<TrialRow>, i: nat, j: nat)
    requires HasValues(rows) && i < |rows| && j < |rows|
    ensures var col := TableRelativeValueColumn(rows);
      (col[i].Fin? <==> NonLeftValues(rows) != []) &&
      (col[i].Fin? ==>
        col[j].Fin? &&
        col[i].x - col[j].x == rows[i].values[0] - rows[j].values[0] &&
        (col[i] == col[j] <==> rows[i].values[0] == rows[j].values[0]))
  {
  }

  /** The shared number is the mean of the non-left values, so each entry lies
      between the row's left value minus the largest and minus the smallest
      non-left value of the frame. */
  lemma TableRelativeValueBounds(rows: seq<TrialRow>, i: nat, lo: real, hi: real)
    requires HasValues(rows) && i < |rows| && NonLeftValues(rows) != []
    requires forall k :: 0 <= k < |NonLeftValues(rows)| ==> lo <= NonLeftValues(rows)[k] <= hi
    ensures var col := TableRelativeValueColumn(rows);
      col[i].Fin? && rows[i].values[0] - hi <= col[i].x <= rows[i].values[0] - lo
  {
    MeanBounds(NonLeftValues(rows), lo, hi);
  }

  /** The left relative value as documented: each row's left value minus the
      mean of that row's other values, so v0 - v1 for two items. */
  function RelativeValueColumn(rows: seq<TrialRow>): (col: seq<Ext>)
    requires HasValues(rows)
    ensures |col| == |rows|
    ensures forall i :: 0 <= i < |rows| && |rows[i].values| == 2 ==>
      col[i] == Fin(rows[i].values[0] - rows[i].values[1])
  {
    forall i | 0 <= i < |rows| && |rows[i].values| == 2
      ensures LeftMinusMean(rows[i].values) == Fin(rows[i].values[0] - rows[i].values[1])
    {
      assert rows[i].values == [rows[i].values[0], rows[i].values[1]];
      LeftMinusMeanTwoItems(rows[i].values[0], rows[i].values[1]);
    }
    seq(|rows|, i requires 0 <= i < |rows| => LeftMinusMean(rows[i].values))
  }

  function LeftChosenColumn(rows: seq<TrialRow>): (col: seq<bool>)
    ensures |col| == |rows| && forall i :: 0 <= i < |rows| ==> (col[i] <==> rows[i].choice == 0)
  {
    seq(|rows|, i requires 0 <= i < |rows| => rows[i].choice == 0)
  }

  // ---------------------------------------------------------------------------
  // Choice of the left item, corrected for the left relative value

  /** Row r belongs to the group of subject s and left relative value x. */
  predicate InGroup(rows: seq<TrialRow>, keys: seq<Ext>, r: nat, s: int, x: Ext)
    requires |keys| == |rows| && r < |rows|
  {
    rows[r].subject == s && keys[r] == x
  }

  /** How many of the first n rows are in the group, and how many of those chose left. */
  function GroupCount(rows: seq<TrialRow>, keys: seq<Ext>, s: int, x: Ext, n: nat): nat
    requires |keys| == |rows| && n <= |rows|
  {
    if n == 0 then 0
    else
      var c := GroupCount(rows, keys, s, x, n - 1);
      if InGroup(rows, keys, n - 1, s, x) then c + 1 else c
  }

  function GroupHits(rows: seq<TrialRow>, keys: seq<Ext>, s: int, x: Ext, n: nat): (h: nat)
    requires |keys| == |rows| && n <= |rows|
    ensures h <= GroupCount(rows, keys, s, x, n)
  {
    if n == 0 then 0
    else
      var h := GroupHits(rows, keys, s, x, n - 1);
      if InGroup(rows, keys, n - 1, s, x) && rows[n - 1].choice == 0 then h + 1 else h
  }

  /** A row counts in its own group. */
  lemma {:induction false} OwnGroup(rows: seq<TrialRow>, keys: seq<Ext>, r: nat, n: nat)
    requires |keys| == |rows| && r < n <= |rows|
    ensures 0 < GroupCount(rows, keys, rows[r].subject, keys[r], n)
  {
    if r < n - 1 {
      OwnGroup(rows, keys, r, n - 1);
    }
  }

  /** The groupby mean of left_chosen for the group of row r. */
  function GroupMean(rows: seq<TrialRow>, keys: seq<Ext>, r: nat): (p: real)
    requires |keys| == |rows| && r < |rows|
    ensures 0.0 <= p <= 1.0
  {
    OwnGroup(rows, keys, r, |rows|);
    var count := GroupCount(rows, keys, rows[r].subject, keys[r], |rows|);
    var hits := GroupHits(rows, keys, rows[r].subject, keys[r], |rows|);
    FractionBounds(hits, count);
    (hits as real) / (count as real)
  }

  lemma FractionBounds(hits: nat, count: nat)
    requires hits <= count && 0 < count
    ensures 0.0 <= (hits as real) / (count as real) <= 1.0
  {
    var q := (hits as real) / (count as real);
    assert q * (count as real) == hits as real;
    if 1.0 < q {
      ProductPositive(q - 1.0, count as real);
      assert false;
    }
  }

  /** p(choice == left | subject, left relative value), row by row. */
  function PsychometricColumn(rows: seq<TrialRow>, keys: seq<Ext>): (col: seq<real>)
    requires |keys| == |rows|
    ensures |col| == |rows|
  {
    seq(|rows|, r requires 0 <= r < |rows| => GroupMean(rows, keys, r))
  }

  /** left_chosen minus p(choice == left | subject, left relative value). */
  function CorrectedColumn(rows: seq<TrialRow>, keys: seq<Ext>): (col: seq<real>)
    requires |keys| == |rows|
    ensures |col| == |rows|
    ensures forall r :: 0 <= r < |rows| ==> -1.0 <= col[r] <= 1.0
  {
    seq(|rows|, r requires 0 <= r < |rows| =>
      LeftFlag(rows[r]) - GroupMean(rows, keys, r))
  }

  /** The total of a column over the first n rows of one group. */
  function GroupTotal(col: seq<real>, rows: seq<TrialRow>, keys: seq<Ext>, s: int, x: Ext, n: nat)
    : real
    requires |keys| == |rows| == |col| && n <= |rows|
  {
    if n == 0 then 0.0
    else
      var t := GroupTotal(col, rows, keys, s, x, n - 1);
      if InGroup(rows, keys, n - 1, s, x) then t + col[n - 1] else t
  }

  /** left_chosen as a number: 1 when the left item was chosen, else 0. */
  function LeftFlag(row: TrialRow): real {
    if row.choice == 0 then 1.0 else 0.0
  }

  /** Over every group of subject and left relative value, the corrected
      choices add up to zero: the choices of the group minus its own mean. */
  lemma CorrectedSumsToZero(rows: seq<TrialRow>, keys: seq<Ext>, r: nat)
    requires |keys| == |rows| && r < |rows|
    ensures GroupTotal(CorrectedColumn(rows, keys), rows, keys, rows[r].subject, keys[r], |rows|) == 0.0
  {
    var s, x := rows[r].subject, keys[r];
    var col := CorrectedColumn(rows, keys);
    OwnGroup(rows, keys, r, |rows|);
    var count := GroupCount(rows, keys, s, x, |rows|);
    var hits := GroupHits(rows, keys, s, x, |rows|);
    var p := (hits as real) / (count as real);
    assert GroupMean(rows, keys, r) == p;
    forall k | 0 <= k < |rows| && InGroup(rows, keys, k, s, x)
      ensures col[k] == LeftFlag(rows[k]) - p
    {
      SameGroupSameMean(rows, keys, k, r);
    }
    CenteredGroupTotal(col, rows, keys, s, x, p, |rows|);
    TimesFraction(hits, count);
  }

  /** count copies of hits / count add up to hits. */
  lemma TimesFraction(hits: nat, count: nat)
    requires 0 < count
    ensures Times(count, (hits as real) / (count as real)) == hits as real
  {
    var q := (hits as real) / (count as real);
    TimesIsProduct(count, q);
    assert q * (count as real) == hits as real;
  }

  /** k copies of m added up. */
  function Times(k: nat, m: real): real {
    if k == 0 then 0.0 else Times(k - 1, m) + m
  }

  lemma {:induction false} TimesIsProduct(k: nat, m: real)
    ensures Times(k, m) == (k as real) * m
  {
    if k > 0 {
      TimesIsProduct(k - 1, m);
      assert ((k - 1) as real) * m + m == (k as real) * m;
    }
  }

  /** A column that is left_chosen minus m on the rows of a group totals, over
      the first n rows of the group, their left choices minus m once per row. */
  lemma {:induction false} CenteredGroupTotal(col: seq<real>, rows: seq<TrialRow>, keys: seq<Ext>,
                                              s: int, x: Ext, m: real, n: nat)
    requires |keys| == |rows| == |col| && n <= |rows|
    requires forall k :: 0 <= k < |rows| && InGroup(rows, keys, k, s, x) ==>
      col[k] == LeftFlag(rows[k]) - m
    ensures GroupTotal(col, rows, keys, s, x, n) ==
      (GroupHits(rows, keys, s, x, n) as real) - Times(GroupCount(rows, keys, s, x, n), m)
  {
    if n > 0 {
      CenteredGroupTotal(col, rows, keys, s, x, m, n - 1);
    }
  }

  /** Rows of one group share the group mean. */
  lemma SameGroupSameMean(rows: seq<TrialRow>, keys: seq<Ext>, k: nat, r: nat)
    requires |keys| == |rows| && k < |rows| && r < |rows|
    requires rows[k].subject == rows[r].subject && keys[k] == keys[r]
    ensures GroupMean(rows, keys, k) == GroupMean(rows, keys, r)
  {
  }

  /** With the frame-wide relative value as key, as add_corrected_choice_left
      computes it, a group is the rows of one subject with one left value. */
  lemma TableKeysGroupByLeftValue(rows: seq<TrialRow>, k: nat, r: nat)
    requires HasValues(rows) && NonLeftValues(rows) != [] && k < |rows| && r < |rows|
    ensures var keys := TableRelativeValueColumn(rows);
      InGroup(rows, keys, r, rows[k].subject, keys[k]) <==>
        rows[r].subject == rows[k].subject && rows[r].values[0] == rows[k].values[0]
  {
    TableRelativeValueShift(rows, r, k);
  }

  /** subject.unique(): the subjects in order of first appearance. */
  function UniqueSubjects(rows: seq<TrialRow>): (u: seq<int>)
    ensures forall i :: 0 <= i < |rows| ==> rows[i].subject in u
    ensures forall s :: s in u ==> exists i :: 0 <= i < |rows| && rows[i].subject == s
    ensures forall a, b :: 0 <= a < b < |u| ==> u[a] != u[b]
  {
    if rows == [] then []
    else
      var u := UniqueSubjects(rows[..|rows| - 1]);
      var last := rows[|rows| - 1].subject;
      assert forall i :: 0 <= i < |rows| - 1 ==> rows[..|rows| - 1][i] == rows[i];
      if last in u then u else u + [last]
  }

  /** x - p with x a flag read as 0 or 1, and p a float that may be NaN. */
  function FlagMinus(b: bool, p: Ext): Ext {
    var x := if b then 1.0 else 0.0;
    match p
    case Fin(y) => Fin(x - y)
    case NaN => NaN
    case PosInf => NegInf
    case NegInf => PosInf
  }

  function AsNumbers(xs: seq<real>): (col: seq<Ext>)
    ensures |col| == |xs| && forall i :: 0 <= i < |xs| ==> col[i] == Fin(xs[i])
  {
    seq(|xs|, i requires 0 <= i < |xs| => Fin(xs[i]))
  }

  /** The loop of add_corrected_choice_left that places the groupby means:
      subject by subject, each row of the subject gets the mean of its group;
      rows of no listed subject keep NaN. */
  method PlaceGroupMeans(rows: seq<TrialRow>, keys: seq<Ext>, subjects: seq<int>)
    returns (p: seq<Ext>)
    requires |keys| == |rows|
    ensures |p| == |rows|
    ensures forall r :: 0 <= r < |rows| ==>
      p[r] == if rows[r].subject in subjects then Fin(GroupMean(rows, keys, r)) else NaN
  {
    var n := |rows|;
    p := seq(n, _ => NaN);
    for s := 0 to |subjects|
      invariant |p| == n
      invariant forall r :: 0 <= r < n ==>
        p[r] == if rows[r].subject in subjects[..s] then Fin(GroupMean(rows, keys, r)) else NaN
    {
      var subject := subjects[s];
      p := seq(n, r requires 0 <= r < n =>
        if rows[r].subject == subject then Fin(GroupMean(rows, keys, r)) else p[r]);
    }
    assert subjects[..|subjects|] == subjects;
  }

  /** Series subtraction of a float column from a boolean one. */
  function FlagsMinus(flags: seq<bool>, p: seq<Ext>): (col: seq<Ext>)
    requires |flags| == |p|
    ensures |col| == |p| && forall r :: 0 <= r < |p| ==> col[r] == FlagMinus(flags[r], p[r])
  {
    seq(|p|, r requires 0 <= r < |p| => FlagMinus(flags[r], p[r]))
  }

  /** Once every row's subject has been placed, the placed means are the
      psychometric column. */
  lemma {:induction false} PlacedMeansArePsychometric(rows: seq<TrialRow>, keys: seq<Ext>, p: seq<Ext>)
    requires |keys| == |rows| == |p|
    requires forall r :: 0 <= r < |rows| ==>
      p[r] == if rows[r].subject in UniqueSubjects(rows) then Fin(GroupMean(rows, keys, r)) else NaN
    ensures p == AsNumbers(PsychometricColumn(rows, keys))
  {
    var psychometric := PsychometricColumn(rows, keys);
    forall r | 0 <= r < |rows|
      ensures p[r] == Fin(psychometric[r])
    {
      assert rows[r].subject in UniqueSubjects(rows);
    }
  }

  /** left_chosen minus the psychometric column is the corrected choice. */
  lemma CorrectedIsFlagMinusPsychometric(rows: seq<TrialRow>, keys: seq<Ext>)
    requires |keys| == |rows|
    ensures FlagsMinus(LeftChosenColumn(rows), AsNumbers(PsychometricColumn(rows, keys))) ==
      AsNumbers(CorrectedColumn(rows, keys))
  {
    var psychometric := PsychometricColumn(rows, keys);
    var corrected := CorrectedColumn(rows, keys);
    var flags := LeftChosenColumn(rows);
    var lhs := FlagsMinus(flags, AsNumbers(psychometric));
    forall r | 0 <= r < |rows|
      ensures lhs[r] == Fin(corrected[r])
    {
    }
  }

  // ---------------------------------------------------------------------------
  // Binning of the gaze advantage

  /** Edge k of np.linspace(-1, 1, n_bins + 1). */
  function Edge(k: nat, nBins: nat): real
    requires 0 < nBins
  {
    -1.0 + 2.0 * (k as real) / (nBins as real)
  }

  lemma EdgeIncreasing(j: nat, k: nat, nBins: nat)
    requires 0 < nBins && j < k
    ensures Edge(j, nBins) < Edge(k, nBins)
  {
    var n := nBins as real;
    var a, b := 2.0 * (j as real), 2.0 * (k as real);
    assert a < b;
    assert b / n - a / n == (b - a) / n;
  }

  lemma EdgeEnds(nBins: nat)
    requires 0 < nBins
    ensures Edge(0, nBins) == -1.0 && Edge(nBins, nBins) == 1.0
  {
  }

  /** pd.cut with include_lowest: bin 0 is [e0, e1], bin k > 0 is (ek, ek+1]. */
  predicate InBin(x: real, k: nat, nBins: nat)
    requires 0 < nBins
  {
    k < nBins && (if k == 0 then Edge(0, nBins) <= x else Edge(k, nBins) < x) &&
    x <= Edge(k + 1, nBins)
  }

  /** The bin of x: the first k from `from` on whose right edge is at or above x. */
  function BinFrom(x: real, nBins: nat, from: nat): (k: nat)
    requires 0 < nBins && from < nBins && x <= 1.0
    ensures from <= k < nBins && x <= Edge(k + 1, nBins)
    ensures forall j :: from < j <= k ==> Edge(j, nBins) < x
    decreases nBins - from
  {
    EdgeEnds(nBins);
    if x <= Edge(from + 1, nBins) || from == nBins - 1 then from
    else BinFrom(x, nBins, from + 1)
  }

  /** The bin of a gaze advantage, None outside [-1, 1]. */
  function GazeBin(x: real, nBins: nat): (b: Option<nat>)
    requires 0 < nBins
    ensures b.None? <==> x < -1.0 || 1.0 < x
  {
    if x < -1.0 || 1.0 < x then None else Some(BinFrom(x, nBins, 0))
  }

  /** A value in [-1, 1] lies in the bin GazeBin gives it and in no other one;
      a value outside lies in none. */
  lemma GazeBinUnique(x: real, nBins: nat, k: nat)
    requires 0 < nBins
    ensures GazeBin(x, nBins) == Some(k) <==> InBin(x, k, nBins)
  {
    EdgeEnds(nBins);
    if GazeBin(x, nBins).Some? {
      var b := GazeBin(x, nBins).value;
      assert InBin(x, b, nBins) by {
        if b > 0 {
          assert Edge(b, nBins) < x;
        }
      }
      if InBin(x, k, nBins) && b < k {
        if b + 1 < k {
          EdgeIncreasing(b + 1, k, nBins);
        }
        assert false;
      }
    } else if InBin(x, k, nBins) {
      if x < -1.0 {
        if 0 < k {
          EdgeIncreasing(0, k, nBins);
        }
      } else if k + 1 < nBins {
        EdgeIncreasing(k + 1, nBins, nBins);
      }
      assert false;
    }
  }

  /** include_lowest puts an advantage of exactly -1 into the first bin, and
      an advantage of exactly 1 falls into the last one. */
  lemma GazeBinEnds(nBins: nat)
    requires 0 < nBins
    ensures GazeBin(-1.0, nBins) == Some(0)
    ensures GazeBin(1.0, nBins) == Some(nBins - 1)
  {
    EdgeEnds(nBins);
    EdgeIncreasing(0, 1, nBins);
    GazeBinUnique(1.0, nBins, nBins - 1);
    if 1 < nBins {
      EdgeIncreasing(nBins - 1, nBins, nBins);
    }
  }

  /** The label pd.cut gives: the left edge of the bin, missing for NaN and
      for values outside [-1, 1]. */
  function BinLabels(col: seq<Ext>, nBins: nat): (labels: seq<Option<real>>)
    requires 0 < nBins
    ensures |labels| == |col|
    ensures forall i :: 0 <= i < |col| ==>
      (labels[i].Some? <==> col[i].Fin? && -1.0 <= col[i].x <= 1.0)
  {
    seq(|col|, i requires 0 <= i < |col| =>
      if col[i].Fin? && GazeBin(col[i].x, nBins).Some? then
        Some(Edge(GazeBin(col[i].x, nBins).value, nBins))
      else None)
  }

  // ---------------------------------------------------------------------------
  // The frame

  /** A trial-wise DataFrame: its trials and its derived columns by name. */
  class Frame {
    var rows: seq<TrialRow>
    var columns: map<string, Column>

    ghost predicate Valid()
      reads this
    {
      HasValues(rows) && forall name :: name in columns ==> Length(columns[name]) == |rows|
    }

    constructor (rows: seq<TrialRow>)
      requires HasValues(rows)
      ensures this.rows == rows && columns == map[] && Valid()
    {
      this.rows := rows;
      columns := map[];
    }

    /** df.copy(): a new frame with the same rows and columns. */
    method Copy() returns (c: Frame)
      requires Valid()
      ensures fresh(c) && c.rows == rows && c.columns == columns && c.Valid()
    {
      c := new Frame(rows);
      c.columns := columns;
    }

    /** add_difficulty. */
    method AddDifficulty() returns (copy: Frame)
      requires Valid()
      modifies this
      ensures rows == old(rows) && Valid()
      ensures columns == old(columns)[DifficultyName := Numbers(DifficultyColumn(rows))]
      ensures fresh(copy) && copy.rows == rows && copy.columns == columns
    {
      columns := columns[DifficultyName := Numbers(DifficultyColumn(rows))];
      copy := Copy();
    }

    /** add_left_minus_mean_others. */
    method AddLeftMinusMeanOthers() returns (copy: Frame)
      requires Valid()
      modifies this
      ensures rows == old(rows) && Valid()
      ensures columns ==
        old(columns)[LeftMinusMeanOthersName := Numbers(LeftMinusMeanOthersColumn(rows))]
      ensures fresh(copy) && copy.rows == rows && copy.columns == columns
    {
      columns := columns[LeftMinusMeanOthersName := Numbers(LeftMinusMeanOthersColumn(rows))];
      copy := Copy();
    }

    /** add_left_gaze_advantage: the frame must carry gaze columns. */
    method AddLeftGazeAdvantage() returns (copy: Frame)
      requires Valid() && HasGaze(rows)
      modifies this
      ensures rows == old(rows) && Valid()
      ensures columns ==
        old(columns)[LeftGazeAdvantageName := Numbers(LeftGazeAdvantageColumn(rows))]
      ensures fresh(copy) && copy.rows == rows && copy.columns == columns
    {
      columns := columns[LeftGazeAdvantageName := Numbers(LeftGazeAdvantageColumn(rows))];
      copy := Copy();
    }

    /** add_left_relative_value as written: the left value minus the mean of
        the non-left values of the whole frame. */
    method AddLeftRelativeValue() returns (copy: Frame)
      requires Valid()
      modifies this
      ensures rows == old(rows) && Valid()
      ensures columns ==
        old(columns)[LeftRelativeValueName := Numbers(TableRelativeValueColumn(rows))]
      ensures fresh(copy) && copy.rows == rows && copy.columns == columns && copy.Valid()
    {
      columns := columns[LeftRelativeValueName := Numbers(TableRelativeValueColumn(rows))];
      copy := Copy();
    }

    /** add_corrected_choice_left. The caller's frame gains left_chosen and
        left_relative_value; the returned frame also has the psychometric
        p_choice_left_given_value and corrected_choice_left, grouped by the
        frame-wide left relative value (TableKeysGroupByLeftValue). The frame
        must hold a non-left value: otherwise every key is NaN, pandas drops
        the NaN groups and the per-subject group lookup fails. */
    method AddCorrectedChoiceLeft() returns (result: Frame)
      requires Valid() && NonLeftValues(rows) != []
      modifies this
      ensures rows == old(rows) && Valid()
      ensures columns == old(columns)[LeftChosenName := Flags(LeftChosenColumn(rows))]
                                     [LeftRelativeValueName := Numbers(TableRelativeValueColumn(rows))]
      ensures fresh(result) && result.rows == rows
      ensures var keys := TableRelativeValueColumn(rows);
        result.columns ==
          columns[PChoiceLeftName := Numbers(AsNumbers(PsychometricColumn(rows, keys)))]
                 [CorrectedChoiceLeftName := Numbers(AsNumbers(CorrectedColumn(rows, keys)))]
    {
      columns := columns[LeftChosenName := Flags(LeftChosenColumn(rows))];
      var df := AddLeftRelativeValue();
      var keys := TableRelativeValueColumn(df.rows);
      var p := PlaceGroupMeans(df.rows, keys, UniqueSubjects(df.rows));
      df.columns := df.columns[PChoiceLeftName := Numbers(p)];
      var corrected := FlagsMinus(LeftChosenColumn(df.rows), p);
      PlacedMeansArePsychometric(df.rows, keys, p);
      CorrectedIsFlagMinusPsychometric(df.rows, keys);
      df.columns := df.columns[CorrectedChoiceLeftName := Numbers(corrected)];
      result := df.Copy();
    }
  }
}
