/** simulate_subject: every trial of one subject simulated n_repeats times,
    written into preallocated buffers in trial-major, repeat-minor order and
    laid out as one output row per slot. */
module SubjectSimulator {
  import opened Common
  import opened RandomSource
  import opened EvidenceRate
  import opened TrialSimulator

  /** The settings shared by every simulated trial. */
  datatype Settings = Settings(boundary: real, errorWeight: real, errorRange: (real, real),
                               exp: real -> real, maxAttempts: nat)

  /** One answered trial as written into the `choices` and `rts` buffers. */
  datatype Draw = Draw(choice: nat, rt: real)

  /** One output row: subject, trial, repeat, choice, rt, then the item values
      and gaze of the trial. */
  datatype SimRow = SimRow(subject: int, trial: nat, repeat: nat, choice: nat, rt: real,
                           values: seq<real>, gaze: seq<real>)

  /** A whole run: the rows and the stream position after the last draw. */
  datatype Simulation = Simulation(rows: seq<SimRow>, next: nat)

  /** The value and gaze matrices describe the same trials, row by row. */
  predicate SameShape(values: seq<seq<real>>, gaze: seq<seq<real>>) {
    |values| == |gaze| && forall t :: 0 <= t < |values| ==> |values[t]| == |gaze[t]|
  }

  /** np.repeat along the first axis: each element copied n times in place. */
  function RepeatEach<T>(xs: seq<T>, n: nat): seq<T> {
    if xs == [] then [] else seq(n, _ => xs[0]) + RepeatEach(xs[1..], n)
  }

  /** np.repeat(xs, n) has |xs| * n elements, and element k is xs[k / n]. */
  lemma RepeatEachAt<T>(xs: seq<T>, n: nat)
    ensures |RepeatEach(xs, n)| == |xs| * n
    ensures forall k :: 0 <= k < |xs| * n ==> RepeatEach(xs, n)[k] == xs[k / n]
  {
    RepeatEachLength(xs, n);
    forall k | 0 <= k < |xs| * n
      ensures RepeatEach(xs, n)[k] == xs[k / n]
    {
      RepeatEachIndex(xs, n, k);
    }
  }

  lemma {:induction false} RepeatEachLength<T>(xs: seq<T>, n: nat)
    ensures |RepeatEach(xs, n)| == |xs| * n
  {
    if xs != [] {
      RepeatEachLength(xs[1..], n);
      assert |xs| * n == n + |xs[1..]| * n;
    }
  }

  lemma {:induction false} RepeatEachIndex<T>(xs: seq<T>, n: nat, k: nat)
    requires k < |xs| * n
    ensures 0 < n && k / n < |xs|
    ensures k < |RepeatEach(xs, n)| && RepeatEach(xs, n)[k] == xs[k / n]
  {
    SlotBound(k, |xs|, n);
    RepeatEachLength(xs, n);
    var rest := RepeatEach(xs[1..], n);
    assert RepeatEach(xs, n) == seq(n, _ => xs[0]) + rest;
    if k < n {
      DivModUnique(k, n, 0, k);
    } else {
      assert |xs| * n == n + |xs[1..]| * n;
      var j := k - n;
      RepeatEachIndex(xs[1..], n, j);
      DivShift(j, n);
      var t := j / n;
      assert rest[j] == xs[1..][t] == xs[t + 1];
    }
  }

  lemma DivShift(j: nat, n: nat)
    requires 0 < n
    ensures (j + n) / n == j / n + 1
  {
    DivModUnique(j + n, n, j / n + 1, j % n);
  }

  /** Slot t * n + r of a trial-major, repeat-minor layout holds trial t, repeat r. */
  lemma DivSlot(t: nat, r: nat, n: nat)
    requires r < n
    ensures (t * n + r) / n == t && (t * n + r) % n == r
  {
    DivModUnique(t * n + r, n, t, r);
  }

  /** Euclidean division is unique: a quotient and a remainder in [0, n) that
      rebuild k are k / n and k % n. */
  lemma DivModUnique(k: int, n: int, q: int, r: int)
    requires 0 < n && 0 <= r < n && k == q * n + r
    ensures k / n == q && k % n == r
  {
    var q', r' := k / n, k % n;
    assert k == q' * n + r';
    var d := q - q';
    assert d * n == r' - r;
    if 1 <= d {
      MulAtLeast(d, n);
      assert false;
    }
    if d <= -1 {
      MulAtLeast(-d, n);
      assert false;
    }
  }

  lemma MulAtLeast(d: int, n: int)
    requires 1 <= d && 0 < n
    ensures n <= d * n
  {
    assert d * n == (d - 1) * n + n;
  }

  /** The first `count` slots of the buffers: slot k simulates trial k / nRepeats,
      starting where slot k - 1 left the stream. The first exception stops the run. */
  function RunTrials(run: TrialRunner, p: Params, values: seq<seq<real>>, gaze: seq<seq<real>>,
                     nRepeats: nat, errorRange: (real, real), pos: nat, count: nat)
    : Result<(seq<Draw>, nat)>
    requires Total(run) && SameShape(values, gaze)
    requires count <= |values| * nRepeats
  {
    if count == 0 then Ok(([], pos))
    else
      match RunTrials(run, p, values, gaze, nRepeats, errorRange, pos, count - 1)
      case Err(f) => Err(f)
      case Ok((draws, q)) =>
        var t := SlotTrial(count - 1, |values|, nRepeats);
        var (o, next) := run(p, values[t], gaze[t], errorRange, q);
        match o
        case Failed(f) => Err(f)
        case Chosen(c, rt) => Ok((draws + [Draw(c, rt)], next))
  }

  /** The trial a slot below nTrials * nRepeats belongs to. */
  function SlotTrial(k: nat, nTrials: nat, nRepeats: nat): (t: nat)
    requires k < nTrials * nRepeats
    ensures t < nTrials && t == k / nRepeats
  {
    SlotBound(k, nTrials, nRepeats);
    k / nRepeats
  }

  lemma SlotBound(k: nat, nTrials: nat, nRepeats: nat)
    requires k < nTrials * nRepeats
    ensures 0 < nRepeats && k / nRepeats < nTrials
  {
    if nTrials <= k / nRepeats {
      ScaleMonotoneNat(nRepeats, nTrials, k / nRepeats);
      assert false;
    }
  }

  /** Trial t + 1 starts nR slots after trial t, still inside the buffers. */
  lemma NextTrialStart(t: nat, nT: nat, nR: nat)
    requires t < nT
    ensures (t + 1) * nR == t * nR + nR <= nT * nR
  {
    ScaleMonotoneNat(nR, t + 1, nT);
  }

  lemma ScaleMonotoneNat(n: nat, a: nat, b: nat)
    requires a <= b
    ensures a * n <= b * n
  {
    assert b * n - a * n == (b - a) * n;
  }

  /** The rows simulate_subject builds from the buffers: subject, trial_idx,
      repeat_idx, choices, rts, and the np.repeat of values and gaze. */
  function Layout(subject: int, values: seq<seq<real>>, gaze: seq<seq<real>>, nRepeats: nat,
                  draws: seq<Draw>): seq<SimRow>
    requires SameShape(values, gaze) && |draws| == |values| * nRepeats
  {
    var vs, gs := RepeatEach(values, nRepeats), RepeatEach(gaze, nRepeats);
    RepeatEachAt(values, nRepeats);
    RepeatEachAt(gaze, nRepeats);
    seq(|draws|, k requires 0 <= k < |draws| =>
      SimRow(subject, k / nRepeats, k % nRepeats, draws[k].choice, draws[k].rt, vs[k], gs[k]))
  }

  /** simulate_subject as a function of its inputs and the stream position. */
  function Subject(run: TrialRunner, p: Params, values: seq<seq<real>>, gaze: seq<seq<real>>,
                   nRepeats: nat, subject: int, errorRange: (real, real), pos: nat)
    : Result<Simulation>
    requires Total(run) && SameShape(values, gaze)
  {
    match RunTrials(run, p, values, gaze, nRepeats, errorRange, pos, |values| * nRepeats)
    case Err(f) => Err(f)
    case Ok((draws, next)) =>
      RunTrialsLength(run, p, values, gaze, nRepeats, errorRange, pos, |values| * nRepeats);
      Ok(Simulation(Layout(subject, values, gaze, nRepeats, draws), next))
  }

  /** The trial runner of a simulation's settings. */
  function Runner(cfg: Settings, rng: Oracle): (run: TrialRunner)
    requires rng.Valid() && IsExp(cfg.exp)
    ensures Total(run)
  {
    TrialRun(cfg.boundary, cfg.errorWeight, cfg.exp, rng, cfg.maxAttempts)
  }

  /** simulate_subject: one simulate_trial call per slot with the given settings. */
  method SimulateSubject(p: Params, values: seq<seq<real>>, gaze: seq<seq<real>>,
                         nRepeats: nat, subject: int, cfg: Settings, rng: Oracle, pos: nat)
    returns (res: Result<Simulation>)
    requires rng.Valid() && IsExp(cfg.exp) && SameShape(values, gaze)
    ensures res == Subject(Runner(cfg, rng), p, values, gaze, nRepeats, subject, cfg.errorRange, pos)
  {
    res := FillSubject(Runner(cfg, rng), p, values, gaze, nRepeats, subject, cfg.errorRange, pos);
  }

  /** The body of simulate_subject: fill the four buffers trial by trial, then
      lay the buffers out as rows. */
  method FillSubject(run: TrialRunner, p: Params, values: seq<seq<real>>, gaze: seq<seq<real>>,
                     nRepeats: nat, subject: int, errorRange: (real, real), pos: nat)
    returns (res: Result<Simulation>)
    requires Total(run) && SameShape(values, gaze)
    ensures res == Subject(run, p, values, gaze, nRepeats, subject, errorRange, pos)
  {
    var nTrials := |values|;
    var n := nTrials * nRepeats;
    var rts := new real[n];
    var choices := new nat[n];
    var trialIdx := new nat[n];
    var repeatIdx := new nat[n];
    var runningIdx := 0;
    var q := pos;
    ghost var draws: seq<Draw> := [];
    for trial := 0 to nTrials
      invariant runningIdx == trial * nRepeats <= n && |draws| == runningIdx
      invariant RunTrials(run, p, values, gaze, nRepeats, errorRange, pos, |draws|) == Ok((draws, q))
      invariant Filled(rts, choices, trialIdx, repeatIdx, nRepeats, draws)
    {
      NextTrialStart(trial, nTrials, nRepeats);
      var failure;
      failure, q, draws := FillTrial(run, p, values, gaze, nRepeats, errorRange, pos, trial,
                                     runningIdx, rts, choices, trialIdx, repeatIdx, q, draws);
      if failure.Some? {
        return Err(failure.value);
      }
      runningIdx := runningIdx + nRepeats;
    }
    assert |draws| == n;
    var rows := ReadRows(subject, values, gaze, nRepeats, rts, choices, trialIdx, repeatIdx, draws);
    return Ok(Simulation(rows, q));
  }

  /** The rows simulate_subject assembles from the filled buffers and the
      np.repeat of the value and gaze matrices. */
  method ReadRows(subject: int, values: seq<seq<real>>, gaze: seq<seq<real>>, nRepeats: nat,
                  rts: array<real>, choices: array<nat>, trialIdx: array<nat>,
                  repeatIdx: array<nat>, ghost draws: seq<Draw>)
    returns (rows: seq<SimRow>)
    requires SameShape(values, gaze) && |draws| == rts.Length == |values| * nRepeats
    requires Filled(rts, choices, trialIdx, repeatIdx, nRepeats, draws)
    ensures rows == Layout(subject, values, gaze, nRepeats, draws)
  {
    var n := rts.Length;
    var vs, gs := RepeatEach(values, nRepeats), RepeatEach(gaze, nRepeats);
    RepeatEachAt(values, nRepeats);
    RepeatEachAt(gaze, nRepeats);
    var ts, rs, cs, ys := trialIdx[..], repeatIdx[..], choices[..], rts[..];
    rows := seq(n, k requires 0 <= k < n => SimRow(subject, ts[k], rs[k], cs[k], ys[k], vs[k], gs[k]));
    ghost var layout := Layout(subject, values, gaze, nRepeats, draws);
    forall k | 0 <= k < n
      ensures rows[k] == layout[k]
    {
    }
    assert rows == layout;
  }

  /** The buffers hold one slot per draw of a run so far: its choice, its
      response time, and the trial and repeat the slot belongs to. */
  ghost predicate Filled(rts: array<real>, choices: array<nat>, trialIdx: array<nat>,
                         repeatIdx: array<nat>, nRepeats: nat, draws: seq<Draw>)
    reads rts, choices, trialIdx, repeatIdx
  {
    choices != trialIdx && choices != repeatIdx && trialIdx != repeatIdx &&
    |draws| <= rts.Length == choices.Length == trialIdx.Length == repeatIdx.Length &&
    (forall k :: 0 <= k < |draws| ==> choices[k] == draws[k].choice && rts[k] == draws[k].rt) &&
    (forall k :: 0 <= k < |draws| ==> 0 < nRepeats && trialIdx[k] == k / nRepeats && repeatIdx[k] == k % nRepeats)
  }

  /** The inner loop of simulate_subject: the n_repeats slots of one trial,
      from slot `start` = trial * n_repeats on. */
  method FillTrial(run: TrialRunner, p: Params, values: seq<seq<real>>, gaze: seq<seq<real>>,
                   nRepeats: nat, errorRange: (real, real), pos: nat, trial: nat, start: nat,
                   rts: array<real>, choices: array<nat>, trialIdx: array<nat>,
                   repeatIdx: array<nat>, q0: nat, ghost draws0: seq<Draw>)
    returns (failure: Option<Failure>, q: nat, ghost draws: seq<Draw>)
    requires Total(run) && SameShape(values, gaze) && trial < |values|
    requires start == trial * nRepeats && start + nRepeats <= |values| * nRepeats
    requires rts.Length == |values| * nRepeats && |draws0| == start
    requires RunTrials(run, p, values, gaze, nRepeats, errorRange, pos, start) == Ok((draws0, q0))
    requires Filled(rts, choices, trialIdx, repeatIdx, nRepeats, draws0)
    modifies rts, choices, trialIdx, repeatIdx
    ensures failure.Some? ==>
      RunTrials(run, p, values, gaze, nRepeats, errorRange, pos, |values| * nRepeats) ==
        Err(failure.value)
    ensures failure.None? ==> |draws| == start + nRepeats
    ensures failure.None? ==>
      RunTrials(run, p, values, gaze, nRepeats, errorRange, pos, |draws|) == Ok((draws, q))
    ensures failure.None? ==> Filled(rts, choices, trialIdx, repeatIdx, nRepeats, draws)
  {
    var n := |values| * nRepeats;
    q, draws := q0, draws0;
    for repeat := 0 to nRepeats
      invariant |draws| == start + repeat
      invariant RunTrials(run, p, values, gaze, nRepeats, errorRange, pos, |draws|) == Ok((draws, q))
      invariant Filled(rts, choices, trialIdx, repeatIdx, nRepeats, draws)
    {
      var slot := start + repeat;
      DivSlot(trial, repeat, nRepeats);
      assert SlotTrial(slot, |values|, nRepeats) == trial;
      var (o, next) := run(p, values[trial], gaze[trial], errorRange, q);
      if o.Failed? {
        RunTrialsStops(run, p, values, gaze, nRepeats, errorRange, pos, slot + 1, n);
        return Some(o.failure), q, draws;
      }
      Record(rts, choices, trialIdx, repeatIdx, nRepeats, draws, slot, Draw(o.choice, o.rt),
             trial, repeat);
      draws := draws + [Draw(o.choice, o.rt)];
      q := next;
    }
    return None, q, draws;
  }

  /** Writes one draw into the buffers at the next free slot, with its trial
      and repeat index. */
  method Record(rts: array<real>, choices: array<nat>, trialIdx: array<nat>,
                repeatIdx: array<nat>, nRepeats: nat, ghost draws: seq<Draw>, slot: nat,
                d: Draw, trial: nat, repeat: nat)
    requires Filled(rts, choices, trialIdx, repeatIdx, nRepeats, draws)
    requires slot == |draws| < rts.Length && repeat < nRepeats && slot == trial * nRepeats + repeat
    modifies rts, choices, trialIdx, repeatIdx
    ensures Filled(rts, choices, trialIdx, repeatIdx, nRepeats, draws + [d])
  {
    DivSlot(trial, repeat, nRepeats);
    rts[slot] := d.rt;
    choices[slot] := d.choice;
    trialIdx[slot] := trial;
    repeatIdx[slot] := repeat;
  }

  // ---------------------------------------------------------------------------
  // Properties of the run

  /** A run that gets through `count` slots has one draw per slot. */
  lemma {:induction false} RunTrialsLength(run: TrialRunner, p: Params, values: seq<seq<real>>,
      gaze: seq<seq<real>>, nRepeats: nat, errorRange: (real, real), pos: nat, count: nat)
    requires Total(run) && SameShape(values, gaze)
    requires count <= |values| * nRepeats
    ensures var r := RunTrials(run, p, values, gaze, nRepeats, errorRange, pos, count);
      r.Ok? ==> |r.value.0| == count
  {
    if count > 0 {
      RunTrialsLength(run, p, values, gaze, nRepeats, errorRange, pos, count - 1);
    }
  }

  /** An exception in one slot is the exception of the whole run: later slots
      are never simulated. */
  lemma {:induction false} RunTrialsStops(run: TrialRunner, p: Params, values: seq<seq<real>>,
      gaze: seq<seq<real>>, nRepeats: nat, errorRange: (real, real), pos: nat,
      count: nat, total: nat)
    requires Total(run) && SameShape(values, gaze)
    requires count <= total <= |values| * nRepeats
    requires RunTrials(run, p, values, gaze, nRepeats, errorRange, pos, count).Err?
    ensures RunTrials(run, p, values, gaze, nRepeats, errorRange, pos, total) ==
      RunTrials(run, p, values, gaze, nRepeats, errorRange, pos, count)
    decreases total
  {
    if count < total {
      RunTrialsStops(run, p, values, gaze, nRepeats, errorRange, pos, count, total - 1);
    }
  }

  /** Every draw of a run chooses an item of the trial its slot belongs to. */
  lemma {:induction false} RunTrialsChoicesInRange(run: TrialRunner, p: Params,
      values: seq<seq<real>>, gaze: seq<seq<real>>, nRepeats: nat, errorRange: (real, real),
      pos: nat, count: nat)
    requires Total(run) && ChoosesItem(run) && SameShape(values, gaze)
    requires count <= |values| * nRepeats
    ensures var r := RunTrials(run, p, values, gaze, nRepeats, errorRange, pos, count);
      r.Ok? ==> (|r.value.0| == count &&
        forall k :: 0 <= k < count ==>
          r.value.0[k].choice < |values[SlotTrial(k, |values|, nRepeats)]|)
  {
    RunTrialsLength(run, p, values, gaze, nRepeats, errorRange, pos, count);
    if count > 0 {
      RunTrialsChoicesInRange(run, p, values, gaze, nRepeats, errorRange, pos, count - 1);
    }
  }

  /** The output has n_trials * n_repeats rows; row trial * n_repeats + repeat
      holds that trial, that repeat, the subject, and the trial's item values and
      gaze; its choice is an item of that trial. */
  lemma SubjectLayout(run: TrialRunner, p: Params, values: seq<seq<real>>,
      gaze: seq<seq<real>>, nRepeats: nat, subject: int, errorRange: (real, real), pos: nat,
      trial: nat, repeat: nat)
    requires Total(run) && ChoosesItem(run) && SameShape(values, gaze)
    requires trial < |values| && repeat < nRepeats
    ensures var res := Subject(run, p, values, gaze, nRepeats, subject, errorRange, pos);
      res.Ok? ==>
        |res.value.rows| == |values| * nRepeats &&
        trial * nRepeats + repeat < |res.value.rows| &&
        var row := res.value.rows[trial * nRepeats + repeat];
        row.subject == subject && row.trial == trial && row.repeat == repeat &&
        row.values == values[trial] && row.gaze == gaze[trial] &&
        row.choice < |values[trial]|
  {
    var n := |values| * nRepeats;
    DivSlot(trial, repeat, nRepeats);
    ScaleMonotoneNat(nRepeats, trial + 1, |values|);
    RunTrialsChoicesInRange(run, p, values, gaze, nRepeats, errorRange, pos, n);
    RepeatEachAt(values, nRepeats);
    RepeatEachAt(gaze, nRepeats);
  }

  /** Every row simulate_subject writes chooses an item of its own trial. */
  lemma SimulatedChoicesInRange(p: Params, values: seq<seq<real>>, gaze: seq<seq<real>>,
      nRepeats: nat, subject: int, cfg: Settings, rng: Oracle, pos: nat, trial: nat, repeat: nat)
    requires rng.Valid() && IsExp(cfg.exp) && SameShape(values, gaze)
    requires trial < |values| && repeat < nRepeats
    ensures var res := Subject(Runner(cfg, rng), p, values, gaze, nRepeats, subject,
                               cfg.errorRange, pos);
      res.Ok? ==>
        trial * nRepeats + repeat < |res.value.rows| &&
        res.value.rows[trial * nRepeats + repeat].choice < |values[trial]|
  {
    TrialRunChoosesItem(cfg.boundary, cfg.errorWeight, cfg.exp, rng, cfg.maxAttempts);
    SubjectLayout(Runner(cfg, rng), p, values, gaze, nRepeats, subject, cfg.errorRange, pos,
                  trial, repeat);
  }

  /** A runner that never answers before t0 gives a run whose every response
      time is at least t0. */
  lemma {:induction false} RunTrialsRtAtLeastT0(run: TrialRunner, p: Params,
      values: seq<seq<real>>, gaze: seq<seq<real>>, nRepeats: nat, errorRange: (real, real),
      pos: nat, count: nat)
    requires Total(run) && AnswersAfterT0(run) && SameShape(values, gaze)
    requires count <= |values| * nRepeats
    ensures var r := RunTrials(run, p, values, gaze, nRepeats, errorRange, pos, count);
      r.Ok? ==> forall d :: d in r.value.0 ==> p.t0 <= d.rt
  {
    if count > 0 {
      RunTrialsRtAtLeastT0(run, p, values, gaze, nRepeats, errorRange, pos, count - 1);
    }
  }

  /** With error_weight at or below zero every row comes from the race, so every
      simulated response time is at least t0. */
  lemma SimulatedRtAtLeastT0(p: Params, values: seq<seq<real>>, gaze: seq<seq<real>>,
      nRepeats: nat, subject: int, cfg: Settings, rng: Oracle, pos: nat)
    requires rng.Valid() && IsExp(cfg.exp) && SameShape(values, gaze) && cfg.errorWeight <= 0.0
    ensures var res := Subject(Runner(cfg, rng), p, values, gaze, nRepeats, subject,
                               cfg.errorRange, pos);
      res.Ok? ==> forall row :: row in res.value.rows ==> p.t0 <= row.rt
  {
    var run := Runner(cfg, rng);
    var n := |values| * nRepeats;
    TrialRunAnswersAfterT0(cfg.boundary, cfg.errorWeight, cfg.exp, rng, cfg.maxAttempts);
    RunTrialsRtAtLeastT0(run, p, values, gaze, nRepeats, cfg.errorRange, pos, n);
    RunTrialsLength(run, p, values, gaze, nRepeats, cfg.errorRange, pos, n);
    var res := Subject(run, p, values, gaze, nRepeats, subject, cfg.errorRange, pos);
    if res.Ok? {
      var draws := RunTrials(run, p, values, gaze, nRepeats, cfg.errorRange, pos, n).value.0;
      forall row | row in res.value.rows
        ensures p.t0 <= row.rt
      {
        var k :| 0 <= k < |res.value.rows| && res.value.rows[k] == row;
        assert draws[k] in draws;
      }
    }
  }
}
