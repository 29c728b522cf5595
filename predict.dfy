/** predict: GLAM predictions for a fitted model. Every observed row is
    simulated n_repeats times with the parameter estimates of its subject (and
    condition), and each simulation becomes a copy of the observed row with
    its choice, rt and repeat overwritten. */
module PredictionGenerator {
  import opened Common
  import opened RandomSource
  import opened EvidenceRate
  import opened TrialSimulator

  /** A cell of a condition column: a number or a label. */
  datatype Cell = Number(x: real) | Label(text: string)

  /** One observed row: subject, trial, choice, rt, the repeat column if the
      table has one, the item values and gaze, and the remaining columns by name. */
  datatype DataRow = DataRow(subject: int, trial: int, choice: nat, rt: real,
                             repeat: Option<nat>, values: seq<real>, gaze: seq<real>,
                             columns: map<string, Cell>)

  /** One row of the estimates table: the subject, its condition columns, and
      the five parameter estimates. */
  datatype EstimateRow = EstimateRow(subject: int, columns: map<string, Cell>,
                                     v: real, gamma: real, s: real, tau: real, t0: real)

  datatype ParamName = V | Gamma | S | Tau | T0

  /** The fitted model predict reads: observed data, estimates, the condition
      column each parameter depends on, and the number of items. */
  datatype GlamModel = GlamModel(data: seq<DataRow>, estimates: seq<EstimateRow>,
                                 dependsOn: map<ParamName, string>, nItems: nat)

  /** The order in which predict fills the parameter vector. */
  const Names: seq<ParamName> := [V, Gamma, S, Tau, T0]

  /** Every observed row has one value and one gaze column per item. */
  predicate WellFormed(m: GlamModel) {
    forall i :: 0 <= i < |m.data| ==>
      |m.data[i].values| == m.nItems && |m.data[i].gaze| == m.nItems
  }

  function Estimate(e: EstimateRow, name: ParamName): real {
    match name
    case V => e.v
    case Gamma => e.gamma
    case S => e.s
    case Tau => e.tau
    case T0 => e.t0
  }

  // ---------------------------------------------------------------------------
  // Parameter resolution

  /** The rows the estimates are taken from: all of them, or those whose
      condition column holds a given cell. */
  datatype Condition = Any | Where(column: string, value: Cell)

  predicate Selects(c: Condition, e: EstimateRow) {
    c.Any? || (c.column in e.columns && e.columns[c.column] == c.value)
  }

  /** The estimate rows of one subject, in table order. */
  function SubjectEstimates(es: seq<EstimateRow>, subject: int): seq<EstimateRow> {
    if es == [] then []
    else (if es[0].subject == subject then [es[0]] else []) + SubjectEstimates(es[1..], subject)
  }

  /** `.head(1)` of the selected rows: the index of the first selected row. */
  function FirstSelected(es: seq<EstimateRow>, c: Condition): (r: Option<nat>)
    ensures r.Some? ==> r.value < |es| && Selects(c, es[r.value])
    ensures r.Some? ==> forall j :: 0 <= j < r.value ==> !Selects(c, es[j])
    ensures r.None? ==> forall j :: 0 <= j < |es| ==> !Selects(c, es[j])
  {
    if es == [] then None
    else if Selects(c, es[0]) then Some(0)
    else match FirstSelected(es[1..], c)
      case None => None
      case Some(i) => Some(i + 1)
  }

  /** The condition a parameter is looked up under for one observed row, or
      None when the row lacks the column the parameter depends on. */
  function ConditionFor(m: GlamModel, row: DataRow, name: ParamName): Option<Condition> {
    if name !in m.dependsOn then Some(Any)
    else if m.dependsOn[name] in row.columns then
      Some(Where(m.dependsOn[name], row.columns[m.dependsOn[name]]))
    else None
  }

  /** One parameter of one observed row: the estimate of the first row of the
      subject's estimates selected by the row's condition. */
  function Resolve(m: GlamModel, row: DataRow, name: ParamName): Result<real> {
    match ConditionFor(m, row, name)
    case None => Err(MissingCondition)
    case Some(c) =>
      var es := SubjectEstimates(m.estimates, row.subject);
      match FirstSelected(es, c)
      case None => Err(MissingEstimate)
      case Some(i) => Ok(Estimate(es[i], name))
  }

  /** The first k parameters in the order v, gamma, s, tau, t0; the first one
      that cannot be resolved stops the lookup. */
  function ResolvePrefix(m: GlamModel, row: DataRow, k: nat): (r: Result<seq<real>>)
    requires k <= |Names|
    ensures r.Ok? ==> |r.value| == k
    ensures r.Ok? ==> forall j :: 0 <= j < k ==> Resolve(m, row, Names[j]) == Ok(r.value[j])
  {
    if k == 0 then Ok([])
    else
      match ResolvePrefix(m, row, k - 1)
      case Err(f) => Err(f)
      case Ok(xs) =>
        match Resolve(m, row, Names[k - 1])
        case Err(f) => Err(f)
        case Ok(x) => Ok(xs + [x])
  }

  /** The whole parameter vector of one observed row. */
  function ResolveAll(m: GlamModel, row: DataRow): Result<Params> {
    match ResolvePrefix(m, row, |Names|)
    case Err(f) => Err(f)
    case Ok(xs) => Ok(Params(xs[0], xs[1], xs[2], xs[3], xs[4]))
  }

  /** The parameter loop of predict: fills the five slots of `parameters` in
      order, stopping at the first parameter that has no estimate. */
  method ResolveParameters(m: GlamModel, row: DataRow) returns (r: Result<Params>)
    ensures r == ResolveAll(m, row)
  {
    var parameters := new real[|Names|];
    for p := 0 to |Names|
      invariant ResolvePrefix(m, row, p) == Ok(parameters[..p])
    {
      var x := Resolve(m, row, Names[p]);
      if x.Err? {
        ResolvePrefixStops(m, row, p + 1, |Names|);
        return Err(x.failure);
      }
      parameters[p] := x.value;
      assert parameters[..p + 1] == parameters[..p] + [x.value];
    }
    assert parameters[..|Names|] == parameters[..];
    var ps := parameters[..];
    return Ok(Params(ps[0], ps[1], ps[2], ps[3], ps[4]));
  }

  lemma {:induction false} ResolvePrefixStops(m: GlamModel, row: DataRow, k: nat, total: nat)
    requires k <= total <= |Names| && ResolvePrefix(m, row, k).Err?
    ensures ResolvePrefix(m, row, total) == ResolvePrefix(m, row, k)
    decreases total
  {
    if k < total {
      ResolvePrefixStops(m, row, k, total - 1);
    }
  }

  /** Estimate row e belongs to the subject and is selected by the condition. */
  predicate Picks(e: EstimateRow, subject: int, c: Condition) {
    e.subject == subject && Selects(c, e)
  }

  /** Picking the subject's rows and then the first selected one is picking
      the first row of the whole table that belongs to the subject and is
      selected; nothing is picked exactly when no row of the table is. */
  lemma SubjectFirstSelected(es: seq<EstimateRow>, subject: int, c: Condition)
    returns (i: nat)
    ensures var r := FirstSelected(SubjectEstimates(es, subject), c);
      r.None? <==> forall j :: 0 <= j < |es| ==> !Picks(es[j], subject, c)
    ensures var r := FirstSelected(SubjectEstimates(es, subject), c);
      r.Some? ==>
        i < |es| && Picks(es[i], subject, c) &&
        SubjectEstimates(es, subject)[r.value] == es[i] &&
        forall j :: 0 <= j < i ==> !Picks(es[j], subject, c)
  {
    i := SubjectFirstPick(es, subject, c);
    if FirstSelected(SubjectEstimates(es, subject), c).None? {
      forall j | 0 <= j < |es|
        ensures !Picks(es[j], subject, c)
      {
        if es[j].subject == subject {
          var k := SubjectEstimatesHas(es, subject, j);
        }
      }
    }
  }

  /** The first selected row of the subject's rows is the first row of the
      table that belongs to the subject and is selected. */
  lemma {:induction false} SubjectFirstPick(es: seq<EstimateRow>, subject: int, c: Condition)
    returns (i: nat)
    ensures var r := FirstSelected(SubjectEstimates(es, subject), c);
      r.Some? ==>
        i < |es| && Picks(es[i], subject, c) &&
        SubjectEstimates(es, subject)[r.value] == es[i] &&
        forall j :: 0 <= j < i ==> !Picks(es[j], subject, c)
  {
    if es == [] {
      i := 0;
    } else if Picks(es[0], subject, c) {
      i := 0;
      FirstPickAtHead(es, subject, c);
    } else {
      var i' := SubjectFirstPick(es[1..], subject, c);
      i := i' + 1;
      FirstPickAfterHead(es, subject, c, i');
    }
  }

  /** SubjectFirstPick when the table's first row is picked. */
  lemma FirstPickAtHead(es: seq<EstimateRow>, subject: int, c: Condition)
    requires es != [] && Picks(es[0], subject, c)
    ensures var r := FirstSelected(SubjectEstimates(es, subject), c);
      r.Some? ==>
        0 < |es| && Picks(es[0], subject, c) &&
        SubjectEstimates(es, subject)[r.value] == es[0]
  {
    var sub := SubjectEstimates(es, subject);
    assert sub == [es[0]] + SubjectEstimates(es[1..], subject);
    assert sub[0] == es[0];
  }

  /** SubjectFirstPick when the table's first row is not picked: the pick of
      the rest, one index on. */
  lemma FirstPickAfterHead(es: seq<EstimateRow>, subject: int, c: Condition, i': nat)
    requires es != [] && !Picks(es[0], subject, c)
    requires var r := FirstSelected(SubjectEstimates(es[1..], subject), c);
      r.Some? ==>
        i' < |es[1..]| && Picks(es[1..][i'], subject, c) &&
        SubjectEstimates(es[1..], subject)[r.value] == es[1..][i'] &&
        forall j :: 0 <= j < i' ==> !Picks(es[1..][j], subject, c)
    ensures var r := FirstSelected(SubjectEstimates(es, subject), c);
      r.Some? ==>
        i' + 1 < |es| && Picks(es[i' + 1], subject, c) &&
        SubjectEstimates(es, subject)[r.value] == es[i' + 1] &&
        forall j :: 0 <= j < i' + 1 ==> !Picks(es[j], subject, c)
  {
    SubjectPickSkip(es, subject, c);
    var sub, rest := SubjectEstimates(es, subject), SubjectEstimates(es[1..], subject);
    PicksShift(es, subject, c, i', sub, rest, FirstSelected(sub, c), FirstSelected(rest, c));
  }

  /** When the table's first row is not picked, the subject's first selected
      row is the first selected row of the subject's rows in the rest. */
  lemma SubjectPickSkip(es: seq<EstimateRow>, subject: int, c: Condition)
    requires es != [] && !Picks(es[0], subject, c)
    ensures var sub := SubjectEstimates(es, subject);
      var rest := SubjectEstimates(es[1..], subject);
      var r := FirstSelected(sub, c);
      var r' := FirstSelected(rest, c);
      (r'.Some? ==> r'.value < |rest|) &&
      (r.Some? ==> (r'.Some? && r.value < |sub| && r'.value < |rest| &&
        sub[r.value] == rest[r'.value]))
  {
    var head := if es[0].subject == subject then [es[0]] else [];
    var rest := SubjectEstimates(es[1..], subject);
    assert SubjectEstimates(es, subject) == head + rest;
    FirstSelectedSkip(head, rest, c);
  }

  /** The pick of the rest, one index on, is the pick of the whole table when
      the first row is not picked and the subject's first selected row is the
      rest's. */
  lemma PicksShift(es: seq<EstimateRow>, subject: int, c: Condition, i': nat,
      sub: seq<EstimateRow>, rest: seq<EstimateRow>, r: Option<nat>, r': Option<nat>)
    requires es != [] && !Picks(es[0], subject, c)
    requires r.Some? ==> (r'.Some? && r.value < |sub| && r'.value < |rest| &&
      sub[r.value] == rest[r'.value])
    requires r'.Some? ==>
      r'.value < |rest| && i' < |es[1..]| && Picks(es[1..][i'], subject, c) &&
      rest[r'.value] == es[1..][i'] &&
      forall j :: 0 <= j < i' ==> !Picks(es[1..][j], subject, c)
    ensures r.Some? ==>
      i' + 1 < |es| && Picks(es[i' + 1], subject, c) &&
      sub[r.value] == es[i' + 1] &&
      forall j :: 0 <= j < i' + 1 ==> !Picks(es[j], subject, c)
  {
    if r.Some? {
      assert es[i' + 1] == es[1..][i'];
      forall j | 0 < j < i' + 1
        ensures !Picks(es[j], subject, c)
      {
        assert es[j] == es[1..][j - 1];
      }
    }
  }

  /** Every row of the subject is among the subject's rows. */
  lemma {:induction false} SubjectEstimatesHas(es: seq<EstimateRow>, subject: int, j: nat)
    returns (k: nat)
    requires j < |es| && es[j].subject == subject
    ensures k < |SubjectEstimates(es, subject)| && SubjectEstimates(es, subject)[k] == es[j]
  {
    var head := if es[0].subject == subject then [es[0]] else [];
    var rest := SubjectEstimates(es[1..], subject);
    assert SubjectEstimates(es, subject) == head + rest;
    if j == 0 {
      k := 0;
    } else {
      var k' := SubjectEstimatesHas(es[1..], subject, j - 1);
      k := k' + |head|;
    }
  }

  /** Searching past an unselected first row is searching the rest, one index on. */
  lemma {:induction false} FirstSelectedSkip(head: seq<EstimateRow>, rest: seq<EstimateRow>, c: Condition)
    requires |head| <= 1 && (head != [] ==> !Selects(c, head[0]))
    ensures FirstSelected(head + rest, c) ==
      match FirstSelected(rest, c)
      case None => None
      case Some(k) => Some(k + |head|)
    ensures forall k :: 0 <= k < |rest| ==> (head + rest)[k + |head|] == rest[k]
  {
    if head != [] {
      assert (head + rest)[1..] == rest;
    } else {
      assert head + rest == rest;
    }
  }

  /** Resolution fails with MissingCondition exactly when the parameter
      depends on a column the row lacks; otherwise it fails with
      MissingEstimate exactly when no estimate row of the subject is selected,
      and it succeeds with the estimate of the first such row of the table. */
  lemma ResolveIsFirstMatch(m: GlamModel, row: DataRow, name: ParamName) returns (i: nat)
    ensures ConditionFor(m, row, name).None? <==> Resolve(m, row, name) == Err(MissingCondition)
    ensures ConditionFor(m, row, name).Some? ==>
      var c := ConditionFor(m, row, name).value;
      (Resolve(m, row, name) == Err(MissingEstimate) <==>
        forall j :: 0 <= j < |m.estimates| ==> !Picks(m.estimates[j], row.subject, c))
    ensures Resolve(m, row, name).Ok? ==>
      var c := ConditionFor(m, row, name).value;
      i < |m.estimates| && Picks(m.estimates[i], row.subject, c) &&
      Resolve(m, row, name).value == Estimate(m.estimates[i], name) &&
      forall j :: 0 <= j < i ==> !Picks(m.estimates[j], row.subject, c)
  {
    i := 0;
    if ConditionFor(m, row, name).Some? {
      i := SubjectFirstSelected(m.estimates, row.subject, ConditionFor(m, row, name).value);
    }
  }

  /** The parameter vector resolves exactly when all five parameters do, and
      then holds them in the order (v, gamma, s, tau, t0). */
  lemma ResolveAllFields(m: GlamModel, row: DataRow)
    ensures ResolveAll(m, row).Ok? <==> forall j :: 0 <= j < |Names| ==> Resolve(m, row, Names[j]).Ok?
    ensures ResolveAll(m, row).Ok? ==>
      var ps := ResolveAll(m, row).value;
      Resolve(m, row, V) == Ok(ps.v) && Resolve(m, row, Gamma) == Ok(ps.gamma) &&
      Resolve(m, row, S) == Ok(ps.s) && Resolve(m, row, Tau) == Ok(ps.tau) &&
      Resolve(m, row, T0) == Ok(ps.t0)
  {
    if forall j :: 0 <= j < |Names| ==> Resolve(m, row, Names[j]).Ok? {
      ResolvePrefixComplete(m, row, |Names|);
    }
  }

  lemma {:induction false} ResolvePrefixComplete(m: GlamModel, row: DataRow, k: nat)
    requires k <= |Names|
    requires forall j :: 0 <= j < k ==> Resolve(m, row, Names[j]).Ok?
    ensures ResolvePrefix(m, row, k).Ok?
  {
    if k > 0 {
      ResolvePrefixComplete(m, row, k - 1);
    }
  }

  /** When resolution fails, it fails with the failure of the first
      parameter, in the order v, gamma, s, tau, t0, that cannot be resolved. */
  lemma {:induction false} ResolvePrefixFirstFailure(m: GlamModel, row: DataRow, k: nat)
    returns (j: nat)
    requires k <= |Names| && ResolvePrefix(m, row, k).Err?
    ensures j < k && Resolve(m, row, Names[j]) == Err(ResolvePrefix(m, row, k).failure)
    ensures forall i :: 0 <= i < j ==> Resolve(m, row, Names[i]).Ok?
  {
    if ResolvePrefix(m, row, k - 1).Err? {
      j := ResolvePrefixFirstFailure(m, row, k - 1);
    } else {
      j := k - 1;
    }
  }

  // ---------------------------------------------------------------------------
  // Error range

  /** The observed response times of one subject, in table order. */
  function SubjectRts(data: seq<DataRow>, subject: int): seq<real> {
    if data == [] then []
    else (if data[0].subject == subject then [data[0].rt] else []) + SubjectRts(data[1..], subject)
  }

  /** Every response time of the subject is in the list, and the list holds
      nothing else. */
  lemma {:induction false} SubjectRtsMembers(data: seq<DataRow>, subject: int)
    ensures forall j :: 0 <= j < |data| && data[j].subject == subject ==>
      data[j].rt in SubjectRts(data, subject)
    ensures forall x :: x in SubjectRts(data, subject) ==>
      exists j :: 0 <= j < |data| && data[j].subject == subject && data[j].rt == x
  {
    if data != [] {
      SubjectRtsMembers(data[1..], subject);
      var head := if data[0].subject == subject then [data[0].rt] else [];
      assert SubjectRts(data, subject) == head + SubjectRts(data[1..], subject);
      forall j | 0 <= j < |data| && data[j].subject == subject
        ensures data[j].rt in SubjectRts(data, subject)
      {
        if j > 0 {
          assert data[1..][j - 1] == data[j];
        }
      }
      forall x | x in SubjectRts(data, subject)
        ensures exists j :: 0 <= j < |data| && data[j].subject == subject && data[j].rt == x
      {
        if x in head {
          assert data[0].subject == subject && data[0].rt == x;
        } else {
          var j :| 0 <= j < |data[1..]| && data[1..][j].subject == subject && data[1..][j].rt == x;
          assert data[j + 1] == data[1..][j];
        }
      }
    }
  }

  /** (min, max) of the subject's observed response times. */
  function ErrorRange(data: seq<DataRow>, i: nat): (real, real)
    requires i < |data|
  {
    SubjectRtsMembers(data, data[i].subject);
    var rts := SubjectRts(data, data[i].subject);
    (MinOf(rts), MaxOf(rts))
  }

  /** The error range of an observed row spans its subject's response times:
      its ends are observed response times of the subject, the lower end is at
      most every one of them, and the upper end at least every one. */
  lemma ErrorRangeBounds(data: seq<DataRow>, i: nat) returns (lo: nat, hi: nat)
    requires i < |data|
    ensures var er := ErrorRange(data, i);
      er.0 <= data[i].rt <= er.1 &&
      forall j :: 0 <= j < |data| && data[j].subject == data[i].subject ==>
        er.0 <= data[j].rt <= er.1
    ensures lo < |data| && data[lo].subject == data[i].subject && data[lo].rt == ErrorRange(data, i).0
    ensures hi < |data| && data[hi].subject == data[i].subject && data[hi].rt == ErrorRange(data, i).1
  {
    var subject := data[i].subject;
    var rts := SubjectRts(data, subject);
    SubjectRtsMembers(data, subject);
    forall j | 0 <= j < |data| && data[j].subject == subject
      ensures MinOf(rts) <= data[j].rt <= MaxOf(rts)
    {
      var k :| 0 <= k < |rts| && rts[k] == data[j].rt;
    }
    MaxMinAreElements(rts);
    lo :| 0 <= lo < |data| && data[lo].subject == subject && data[lo].rt == MinOf(rts);
    hi :| 0 <= hi < |data| && data[hi].subject == subject && data[hi].rt == MaxOf(rts);
  }

  // ---------------------------------------------------------------------------
  // The predictions

  /** The first `count` repeats of one observed row: copies of the row with the
      simulated choice and rt and the repeat number. */
  function RepeatRows(run: TrialRunner, row: DataRow, ps: Params, er: (real, real), pos: nat,
                      count: nat): Result<(seq<DataRow>, nat)>
    requires Total(run) && |row.values| == |row.gaze|
  {
    if count == 0 then Ok(([], pos))
    else
      match RepeatRows(run, row, ps, er, pos, count - 1)
      case Err(f) => Err(f)
      case Ok((rows, q)) =>
        var (o, next) := run(ps, row.values, row.gaze, er, q);
        match o
        case Failed(f) => Err(f)
        case Chosen(c, rt) =>
          Ok((rows + [row.(choice := c, rt := rt, repeat := Some(count - 1))], next))
  }

  /** What predict works out for one observed row before simulating it: its
      parameters (or why they cannot be resolved) and its subject's error range. */
  datatype RowPlan = RowPlan(params: Result<Params>, errorRange: (real, real))

  /** The plan of every observed row, in table order. */
  function Plan(m: GlamModel): seq<RowPlan> {
    seq(|m.data|, i requires 0 <= i < |m.data| =>
      RowPlan(ResolveAll(m, m.data[i]), ErrorRange(m.data, i)))
  }

  /** The predictions for the first `count` observed rows, n_repeats each,
      following the rows' plans. */
  function PredictRows(run: TrialRunner, m: GlamModel, plan: seq<RowPlan>, nRepeats: nat,
                       pos: nat, count: nat): Result<(seq<DataRow>, nat)>
    requires Total(run) && WellFormed(m) && |plan| == |m.data| && count <= |m.data|
  {
    if count == 0 then Ok(([], pos))
    else
      match PredictRows(run, m, plan, nRepeats, pos, count - 1)
      case Err(f) => Err(f)
      case Ok((rows, q)) =>
        match plan[count - 1].params
        case Err(f) => Err(f)
        case Ok(ps) =>
          match RepeatRows(run, m.data[count - 1], ps, plan[count - 1].errorRange, q, nRepeats)
          case Err(f) => Err(f)
          case Ok((more, next)) => Ok((rows + more, next))
  }

  /** predict as a function of the model, the runner and the stream position. */
  function Prediction(run: TrialRunner, m: GlamModel, nRepeats: nat, pos: nat)
    : Result<(seq<DataRow>, nat)>
    requires Total(run) && WellFormed(m)
  {
    PredictRows(run, m, Plan(m), nRepeats, pos, |m.data|)
  }

  /** predict: one simulate_trial call per observed row and repeat. */
  method Predict(m: GlamModel, nRepeats: nat, boundary: real, errorWeight: real,
                 exp: real -> real, rng: Oracle, maxAttempts: nat, pos: nat)
    returns (res: Result<(seq<DataRow>, nat)>)
    requires rng.Valid() && IsExp(exp) && WellFormed(m)
    ensures res == Prediction(TrialRun(boundary, errorWeight, exp, rng, maxAttempts), m, nRepeats, pos)
  {
    res := PredictWith(TrialRun(boundary, errorWeight, exp, rng, maxAttempts), m, nRepeats, pos);
  }

  /** The body of predict: for each observed row, resolve its parameters and
      error range, then append its n_repeats simulated copies. */
  method PredictWith(run: TrialRunner, m: GlamModel, nRepeats: nat, pos: nat)
    returns (res: Result<(seq<DataRow>, nat)>)
    requires Total(run) && WellFormed(m)
    ensures res == Prediction(run, m, nRepeats, pos)
  {
    var prediction: seq<DataRow> := [];
    var q := pos;
    for rowIndex := 0 to |m.data|
      invariant PredictRows(run, m, Plan(m), nRepeats, pos, rowIndex) == Ok((prediction, q))
    {
      var step := PredictRow(run, m, nRepeats, pos, rowIndex, prediction, q);
      if step.Err? {
        PredictRowsStops(run, m, Plan(m), nRepeats, pos, rowIndex + 1, |m.data|);
        return step;
      }
      prediction, q := step.value.0, step.value.1;
    }
    return Ok((prediction, q));
  }

  /** The body of predict's row loop for observed row rowIndex: resolve its
      parameters, take its subject's error range, append its repeats. */
  method PredictRow(run: TrialRunner, m: GlamModel, nRepeats: nat, pos: nat, rowIndex: nat,
                    prediction: seq<DataRow>, q: nat)
    returns (res: Result<(seq<DataRow>, nat)>)
    requires Total(run) && WellFormed(m) && rowIndex < |m.data|
    requires PredictRows(run, m, Plan(m), nRepeats, pos, rowIndex) == Ok((prediction, q))
    ensures res == PredictRows(run, m, Plan(m), nRepeats, pos, rowIndex + 1)
  {
    var row := m.data[rowIndex];
    assert Plan(m)[rowIndex] == RowPlan(ResolveAll(m, row), ErrorRange(m.data, rowIndex));
    var parameters := ResolveParameters(m, row);
    if parameters.Err? {
      return Err(parameters.failure);
    }
    var errorRange := ErrorRange(m.data, rowIndex);
    res := AppendRepeats(run, row, parameters.value, errorRange, nRepeats, prediction, q);
  }

  /** The repeat loop of predict: appends one simulated copy of the row per
      repeat to the prediction built so far. */
  method AppendRepeats(run: TrialRunner, row: DataRow, ps: Params, er: (real, real),
                       nRepeats: nat, prediction: seq<DataRow>, pos: nat)
    returns (res: Result<(seq<DataRow>, nat)>)
    requires Total(run) && |row.values| == |row.gaze|
    ensures RepeatRows(run, row, ps, er, pos, nRepeats).Err? ==>
      res == Err(RepeatRows(run, row, ps, er, pos, nRepeats).failure)
    ensures RepeatRows(run, row, ps, er, pos, nRepeats).Ok? ==>
      var (more, next) := RepeatRows(run, row, ps, er, pos, nRepeats).value;
      res == Ok((prediction + more, next))
  {
    var rows := prediction;
    var q := pos;
    ghost var more: seq<DataRow> := [];
    for r := 0 to nRepeats
      invariant RepeatRows(run, row, ps, er, pos, r) == Ok((more, q))
      invariant rows == prediction + more
    {
      var (o, next) := run(ps, row.values, row.gaze, er, q);
      if o.Failed? {
        RepeatRowsStops(run, row, ps, er, pos, r + 1, nRepeats);
        return Err(o.failure);
      }
      var predRow := row.(choice := o.choice, rt := o.rt, repeat := Some(r));
      rows := rows + [predRow];
      more := more + [predRow];
      q := next;
    }
    return Ok((rows, q));
  }

  lemma {:induction false} RepeatRowsStops(run: TrialRunner, row: DataRow, ps: Params,
      er: (real, real), pos: nat, count: nat, total: nat)
    requires Total(run) && |row.values| == |row.gaze|
    requires count <= total && RepeatRows(run, row, ps, er, pos, count).Err?
    ensures RepeatRows(run, row, ps, er, pos, total) == RepeatRows(run, row, ps, er, pos, count)
    decreases total
  {
    if count < total {
      RepeatRowsStops(run, row, ps, er, pos, count, total - 1);
    }
  }

  /** An exception while predicting one observed row is the exception of the
      whole prediction: later rows are never simulated. */
  lemma {:induction false} PredictRowsStops(run: TrialRunner, m: GlamModel, plan: seq<RowPlan>,
      nRepeats: nat, pos: nat, count: nat, total: nat)
    requires Total(run) && WellFormed(m) && |plan| == |m.data|
    requires count <= total <= |m.data| && PredictRows(run, m, plan, nRepeats, pos, count).Err?
    ensures PredictRows(run, m, plan, nRepeats, pos, total)
      == PredictRows(run, m, plan, nRepeats, pos, count)
    decreases total
  {
    if count < total {
      PredictRowsStops(run, m, plan, nRepeats, pos, count, total - 1);
      var before := PredictRows(run, m, plan, nRepeats, pos, total - 1);
      assert before.Err?;
      assert PredictRows(run, m, plan, nRepeats, pos, total) == Err(before.failure);
    }
  }

  // ---------------------------------------------------------------------------
  // Properties of the prediction

  /** `out` is repeat r of observed row `row`: the row with a simulated
      choice, which is one of its items, a simulated rt, and repeat r. */
  predicate RepeatOf(out: DataRow, row: DataRow, r: nat) {
    out.subject == row.subject && out.trial == row.trial && out.values == row.values &&
    out.gaze == row.gaze && out.columns == row.columns && out.repeat == Some(r) &&
    out.choice < |row.values|
  }

  /** Repeat r of a row is the row with its choice and rt replaced by a
      simulated answer and its repeat set to r; the choice is an item of the row. */
  lemma {:induction false} RepeatRowsAt(run: TrialRunner, row: DataRow, ps: Params,
      er: (real, real), pos: nat, count: nat, r: nat)
    requires Total(run) && ChoosesItem(run) && |row.values| == |row.gaze| && r < count
    ensures var res := RepeatRows(run, row, ps, er, pos, count);
      res.Ok? ==> (|res.value.0| == count &&
        RepeatOf(res.value.0[r], row, r))
  {
    RepeatRowsLength(run, row, ps, er, pos, count);
    if r < count - 1 {
      RepeatRowsAt(run, row, ps, er, pos, count - 1, r);
    }
  }

  lemma {:induction false} RepeatRowsLength(run: TrialRunner, row: DataRow, ps: Params,
      er: (real, real), pos: nat, count: nat)
    requires Total(run) && |row.values| == |row.gaze|
    ensures var res := RepeatRows(run, row, ps, er, pos, count);
      res.Ok? ==> |res.value.0| == count
  {
    if count > 0 {
      RepeatRowsLength(run, row, ps, er, pos, count - 1);
    }
  }

  /** A prediction for `count` rows that succeeds is the successful prediction
      for the rows before the last one followed by the last row's repeats. */
  lemma PredictRowsOkStep(run: TrialRunner, m: GlamModel, plan: seq<RowPlan>,
      nRepeats: nat, pos: nat, count: nat)
    returns (ps: Params, prev: (seq<DataRow>, nat), more: (seq<DataRow>, nat))
    requires Total(run) && WellFormed(m) && |plan| == |m.data| && 0 < count <= |m.data|
    requires PredictRows(run, m, plan, nRepeats, pos, count).Ok?
    ensures PredictRows(run, m, plan, nRepeats, pos, count - 1) == Ok(prev)
    ensures plan[count - 1].params == Ok(ps)
    ensures RepeatRows(run, m.data[count - 1], ps, plan[count - 1].errorRange, prev.1, nRepeats)
      == Ok(more)
    ensures PredictRows(run, m, plan, nRepeats, pos, count) == Ok((prev.0 + more.0, more.1))
  {
    prev := PredictRows(run, m, plan, nRepeats, pos, count - 1).value;
    ps := plan[count - 1].params.value;
    more := RepeatRows(run, m.data[count - 1], ps, plan[count - 1].errorRange, prev.1,
                       nRepeats).value;
  }

  /** Where the repeats of observed row i start in the output: i * n_repeats,
      counted up row by row. */
  function RowStart(i: nat, nRepeats: nat): nat {
    if i == 0 then 0 else RowStart(i - 1, nRepeats) + nRepeats
  }

  lemma {:induction false} RowStartIsProduct(i: nat, nRepeats: nat)
    ensures RowStart(i, nRepeats) == i * nRepeats
  {
    if i > 0 {
      RowStartIsProduct(i - 1, nRepeats);
      assert i * nRepeats == (i - 1) * nRepeats + nRepeats;
    }
  }

  /** The prediction for the first `count` rows has count * n_repeats rows. */
  lemma {:induction false} PredictRowsLength(run: TrialRunner, m: GlamModel, plan: seq<RowPlan>,
      nRepeats: nat, pos: nat, count: nat)
    requires Total(run) && WellFormed(m) && |plan| == |m.data| && count <= |m.data|
    ensures var res := PredictRows(run, m, plan, nRepeats, pos, count);
      res.Ok? ==> |res.value.0| == RowStart(count, nRepeats)
  {
    if count > 0 {
      PredictRowsLength(run, m, plan, nRepeats, pos, count - 1);
      PredictRowsLengthStep(run, m, plan, nRepeats, pos, count);
    }
  }

  /** The induction step of PredictRowsLength: the last row adds n_repeats rows. */
  lemma PredictRowsLengthStep(run: TrialRunner, m: GlamModel, plan: seq<RowPlan>,
      nRepeats: nat, pos: nat, count: nat)
    requires Total(run) && WellFormed(m) && |plan| == |m.data| && 0 < count <= |m.data|
    requires var res := PredictRows(run, m, plan, nRepeats, pos, count - 1);
      res.Ok? ==> |res.value.0| == RowStart(count - 1, nRepeats)
    ensures var res := PredictRows(run, m, plan, nRepeats, pos, count);
      res.Ok? ==> |res.value.0| == RowStart(count, nRepeats)
  {
    if PredictRows(run, m, plan, nRepeats, pos, count).Ok? {
      var ps, prev, more := PredictRowsOkStep(run, m, plan, nRepeats, pos, count);
      RepeatRowsLength(run, m.data[count - 1], ps, plan[count - 1].errorRange, prev.1, nRepeats);
    }
  }

  /** Row RowStart(i) + r of the prediction is observed row i with its choice
      and rt replaced by a simulated answer and its repeat set to r; the choice
      is an item of that row. */
  lemma {:induction false} PredictRowsAt(run: TrialRunner, m: GlamModel, plan: seq<RowPlan>,
      nRepeats: nat, pos: nat, count: nat, i: nat, r: nat)
    requires Total(run) && ChoosesItem(run) && WellFormed(m) && |plan| == |m.data| && count <= |m.data|
    requires i < count && r < nRepeats
    ensures var res := PredictRows(run, m, plan, nRepeats, pos, count);
      res.Ok? ==> (RowStart(i, nRepeats) + r < |res.value.0| &&
        RepeatOf(res.value.0[RowStart(i, nRepeats) + r], m.data[i], r))
  {
    if PredictRows(run, m, plan, nRepeats, pos, count).Ok? {
      var ps, prev, more := PredictRowsOkStep(run, m, plan, nRepeats, pos, count);
      if i < count - 1 {
        PredictRowsAt(run, m, plan, nRepeats, pos, count - 1, i, r);
        AppendKeepsRepeat(PredictRows(run, m, plan, nRepeats, pos, count - 1),
          PredictRows(run, m, plan, nRepeats, pos, count), prev, more, RowStart(i, nRepeats) + r,
          m.data[i], r);
      } else {
        PredictRowsLength(run, m, plan, nRepeats, pos, count - 1);
        var er := plan[count - 1].errorRange;
        RepeatRowsAt(run, m.data[count - 1], ps, er, prev.1, nRepeats, r);
        AppendPlacesRepeat(PredictRows(run, m, plan, nRepeats, pos, count - 1),
          RepeatRows(run, m.data[count - 1], ps, er, prev.1, nRepeats),
          PredictRows(run, m, plan, nRepeats, pos, count), prev, more, RowStart(count - 1, nRepeats),
          m.data[count - 1], r);
      }
    }
  }

  /** Appending a row's repeats leaves an earlier repeat where it was. */
  lemma AppendKeepsRepeat(before: Result<(seq<DataRow>, nat)>, after: Result<(seq<DataRow>, nat)>,
      prev: (seq<DataRow>, nat), more: (seq<DataRow>, nat), k: nat, row: DataRow, r: nat)
    requires before == Ok(prev) && after == Ok((prev.0 + more.0, more.1))
    requires before.Ok? ==> (k < |before.value.0| && RepeatOf(before.value.0[k], row, r))
    ensures after.Ok? ==> (k < |after.value.0| && RepeatOf(after.value.0[k], row, r))
  {
    assert after.value.0[k] == prev.0[k];
  }

  /** Repeat r of the appended rows lands `start + r` positions in, where
      `start` is the length of what came before. */
  lemma AppendPlacesRepeat(before: Result<(seq<DataRow>, nat)>, rep: Result<(seq<DataRow>, nat)>,
      after: Result<(seq<DataRow>, nat)>, prev: (seq<DataRow>, nat), more: (seq<DataRow>, nat),
      start: nat, row: DataRow, r: nat)
    requires before == Ok(prev) && rep == Ok(more) && after == Ok((prev.0 + more.0, more.1))
    requires before.Ok? ==> |before.value.0| == start
    requires rep.Ok? ==> (r < |rep.value.0| && RepeatOf(rep.value.0[r], row, r))
    ensures after.Ok? ==> (start + r < |after.value.0| && RepeatOf(after.value.0[start + r], row, r))
  {
    assert after.value.0[start + r] == more.0[r];
  }

  /** The layout of the output for any plan: n_rows * n_repeats rows, grouped
      by observed row in table order and by repeat within a group. */
  lemma PlannedLayout(run: TrialRunner, m: GlamModel, plan: seq<RowPlan>, nRepeats: nat,
      pos: nat, i: nat, r: nat)
    requires Total(run) && ChoosesItem(run) && WellFormed(m) && |plan| == |m.data|
    requires i < |m.data| && r < nRepeats
    ensures var res := PredictRows(run, m, plan, nRepeats, pos, |m.data|);
      res.Ok? ==> (|res.value.0| == |m.data| * nRepeats &&
        i * nRepeats + r < |res.value.0| &&
        RepeatOf(res.value.0[i * nRepeats + r], m.data[i], r) &&
        res.value.0[i * nRepeats + r].choice < m.nItems)
  {
    PredictRowsLength(run, m, plan, nRepeats, pos, |m.data|);
    PredictRowsAt(run, m, plan, nRepeats, pos, |m.data|, i, r);
    RowStartIsProduct(|m.data|, nRepeats);
    RowStartIsProduct(i, nRepeats);
  }

  /** The whole output of predict: n_rows * n_repeats rows, grouped by observed
      row in table order and by repeat within a group; each is its observed row
      with a simulated choice among the row's items and a simulated rt. */
  lemma PredictionLayout(run: TrialRunner, m: GlamModel, nRepeats: nat, pos: nat, i: nat, r: nat)
    requires Total(run) && ChoosesItem(run) && WellFormed(m)
    requires i < |m.data| && r < nRepeats
    ensures var res := Prediction(run, m, nRepeats, pos);
      res.Ok? ==> (|res.value.0| == |m.data| * nRepeats &&
        i * nRepeats + r < |res.value.0| &&
        RepeatOf(res.value.0[i * nRepeats + r], m.data[i], r) &&
        res.value.0[i * nRepeats + r].choice < m.nItems)
  {
    PlannedLayout(run, m, Plan(m), nRepeats, pos, i, r);
  }

  /** A row whose plan holds a failure makes the whole prediction fail. */
  lemma PlannedFailureStops(run: TrialRunner, m: GlamModel, plan: seq<RowPlan>, nRepeats: nat,
      pos: nat, i: nat)
    requires Total(run) && WellFormed(m) && |plan| == |m.data|
    requires i < |m.data| && plan[i].params.Err?
    ensures PredictRows(run, m, plan, nRepeats, pos, |m.data|).Err?
  {
    assert PredictRows(run, m, plan, nRepeats, pos, i + 1).Err?;
    PredictRowsStops(run, m, plan, nRepeats, pos, i + 1, |m.data|);
  }

  /** A row whose parameters cannot be resolved makes predict fail, whatever
      the other rows and the draws. */
  lemma UnresolvedRowFails(run: TrialRunner, m: GlamModel, nRepeats: nat, pos: nat, i: nat)
    requires Total(run) && WellFormed(m) && i < |m.data| && ResolveAll(m, m.data[i]).Err?
    ensures Prediction(run, m, nRepeats, pos).Err?
  {
    PlannedFailureStops(run, m, Plan(m), nRepeats, pos, i);
  }

}
