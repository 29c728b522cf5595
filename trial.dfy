/** simulate_trial: one GLAM trial as a mixture of an error model and a race of
    first-passage times. The race is redrawn until its fastest time is finite
    and non-negative; here the redraws are bounded by an attempt budget, and a
    trial that exhausts it fails as Stalled. */
module TrialSimulator {
  import opened Common
  import opened RandomSource
  import opened EvidenceRate

  /** The parameter vector (v, gamma, s, tau, t0). */
  datatype Params = Params(v: real, gamma: real, s: real, tau: real, t0: real)

  /** A trial ends with a choice and a response time, or with an exception. */
  datatype Outcome = Chosen(choice: nat, rt: real) | Failed(failure: Failure)

  /** lam = (boundary / s) ** 2, the scale handed to invgauss.rvs. */
  function SamplerScale(boundary: real, s: real): Ext {
    Sq(Quot(boundary, s))
  }

  /** mu / lam with mu = boundary / rate, the mean argument handed to invgauss.rvs. */
  function SamplerMean(boundary: real, rate: real, s: real): Ext {
    Div(Quot(boundary, rate), SamplerScale(boundary, s))
  }

  /** With a non-zero boundary, noise and rate, both sampler arguments are the
      finite values mu / lam and lam, and for positive ones both are positive. */
  lemma SamplerArgumentsFinite(boundary: real, rate: real, s: real)
    requires boundary != 0.0 && rate != 0.0 && s != 0.0
    ensures SamplerScale(boundary, s) == Fin((boundary / s) * (boundary / s))
    ensures SamplerMean(boundary, rate, s) == Fin((boundary / rate) / ((boundary / s) * (boundary / s)))
    ensures 0.0 < boundary && 0.0 < rate && 0.0 < s ==>
      0.0 < SamplerScale(boundary, s).x && 0.0 < SamplerMean(boundary, rate, s).x
  {
    var q := boundary / s;
    assert q != 0.0;
    SquarePositive(q);
    if 0.0 < boundary && 0.0 < rate && 0.0 < s {
      var mu := boundary / rate;
      assert 0.0 < mu;
    }
  }

  lemma SquarePositive(q: real)
    requires q != 0.0
    ensures 0.0 < q * q
  {
    if q < 0.0 {
      ProductPositive(-q, -q);
    } else {
      ProductPositive(q, q);
    }
  }

  /** scipy's invgauss.rvs raises a domain error unless its shape argument
      mu / lam is positive (NaN is not) and its scale lam is non-negative. */
  predicate SamplerAccepts(boundary: real, rate: real, s: real) {
    var shape := SamplerMean(boundary, rate, s);
    var scale := SamplerScale(boundary, s);
    (shape.PosInf? || (shape.Fin? && 0.0 < shape.x)) &&
    (scale.PosInf? || (scale.Fin? && 0.0 <= scale.x))
  }

  /** Every item's sampler call of a race attempt is accepted. */
  predicate InSamplerDomain(rates: seq<real>, boundary: real, s: real) {
    forall i :: 0 <= i < |rates| ==> SamplerAccepts(boundary, rates[i], s)
  }

  /** The sampler accepts an item exactly when the noise and the boundary are
      non-zero and the boundary and the rate have the same sign, or the rate is
      zero under a positive boundary (mu is then infinite). So a zero noise, a
      zero boundary or a rate of the wrong sign (v < 0) raises. */
  lemma SamplerAcceptsExactly(boundary: real, rate: real, s: real)
    ensures SamplerAccepts(boundary, rate, s) <==>
      s != 0.0 && ((0.0 < boundary && 0.0 <= rate) || (boundary < 0.0 && rate < 0.0))
  {
    var q := Quot(boundary, s);
    if s != 0.0 && boundary != 0.0 {
      SquarePositive(boundary / s);
      var lam := (boundary / s) * (boundary / s);
      assert SamplerScale(boundary, s) == Fin(lam);
      if rate != 0.0 {
        var mu := boundary / rate;
        assert SamplerMean(boundary, rate, s) == Fin(mu / lam);
        if (0.0 < boundary && 0.0 < rate) || (boundary < 0.0 && rate < 0.0) {
          assert 0.0 < mu;
        } else {
          assert mu < 0.0;
          assert mu / lam < 0.0;
        }
      }
    } else if s == 0.0 {
      if boundary != 0.0 {
        assert SamplerScale(boundary, s) == PosInf;
      } else {
        assert SamplerScale(boundary, s) == NaN;
      }
    } else {
      assert SamplerScale(boundary, s) == Fin(0.0);
    }
  }

  /** With positive v and boundary and non-zero noise every rate is positive,
      so no sampler call of the race raises. */
  lemma PositiveParamsInSamplerDomain(p: Params, values: seq<real>, gaze: seq<real>,
                                      boundary: real, exp: real -> real)
    requires |values| == |gaze| && 2 <= |values| && IsExp(exp)
    requires 0.0 < p.v && 0.0 < boundary && p.s != 0.0
    ensures InSamplerDomain(Rates(p.v, p.tau, p.gamma, values, gaze, exp), boundary, p.s)
  {
    var rates := Rates(p.v, p.tau, p.gamma, values, gaze, exp);
    RatesBounded(p.v, p.tau, p.gamma, values, gaze, exp);
    forall i | 0 <= i < |rates|
      ensures SamplerAccepts(boundary, rates[i], p.s)
    {
      SamplerAcceptsExactly(boundary, rates[i], p.s);
    }
  }

  /** The first-passage times of one race attempt whose draws start at stream
      position k: item i's time is the (k + i)-th draw. */
  function Draws(rng: Oracle, k: nat, rates: seq<real>, boundary: real, s: real): seq<Ext> {
    seq(|rates|, i requires 0 <= i < |rates| =>
      rng.wald(k + i, SamplerMean(boundary, rates[i], s), SamplerScale(boundary, s)))
  }

  /** An attempt is kept when its fastest time is a finite, non-negative number. */
  predicate Accepted(fpts: seq<Ext>) {
    |fpts| > 0 && Min(fpts).Fin? && 0.0 <= Min(fpts).x
  }

  /** The race: attempts at most `attempts` times, each one drawing one time per
      item. Returns the outcome and the stream position after the last draw. */
  function Race(rng: Oracle, k: nat, attempts: nat, rates: seq<real>, boundary: real,
                s: real, t0: real): (Outcome, nat)
    requires |rates| > 0
    decreases attempts
  {
    if attempts == 0 then (Failed(Stalled), k)
    else
      var fpts := Draws(rng, k, rates, boundary, s);
      if Accepted(fpts) then (Chosen(ArgMin(fpts), Min(fpts).x + t0), k + |rates|)
      else Race(rng, k + |rates|, attempts - 1, rates, boundary, s, t0)
  }

  /** One trial: the first unit draw picks the branch. The error branch draws a
      response time uniformly from errorRange and then a uniformly random item;
      the race branch computes the rates and races. */
  function Trial(p: Params, values: seq<real>, gaze: seq<real>, boundary: real,
                 errorWeight: real, errorRange: (real, real), exp: real -> real,
                 rng: Oracle, pos: nat, maxAttempts: nat): (Outcome, nat)
    requires rng.Valid() && IsExp(exp) && |values| == |gaze|
  {
    if rng.unit(pos) < errorWeight then
      var rt := Uniform(errorRange.0, errorRange.1, rng.unit(pos + 1));
      if |values| == 0 then (Failed(TooFewItems), pos + 2)
      else (Chosen(rng.pick(pos + 2, |values|), rt), pos + 3)
    else if |values| < 2 then (Failed(TooFewItems), pos + 1)
    else
      var rates := Rates(p.v, p.tau, p.gamma, values, gaze, exp);
      if !InSamplerDomain(rates, boundary, p.s) then (Failed(SamplerDomain), pos + 1)
      else Race(rng, pos + 1, maxAttempts, rates, boundary, p.s, p.t0)
  }

  /** simulate_trial with the settings shared by a whole simulation fixed: a
      function of the parameters, the trial's values and gaze, the error range
      and the stream position. */
  type TrialRunner = (Params, seq<real>, seq<real>, (real, real), nat) --> (Outcome, nat)

  /** A runner accepts every trial whose value and gaze rows have equal length. */
  ghost predicate Total(run: TrialRunner) {
    forall p, values, gaze, er, pos :: |values| == |gaze| ==> run.requires(p, values, gaze, er, pos)
  }

  /** The runner the simulators use: Trial with the shared settings. */
  function TrialRun(boundary: real, errorWeight: real, exp: real -> real, rng: Oracle,
                    maxAttempts: nat): (run: TrialRunner)
    requires rng.Valid() && IsExp(exp)
    ensures Total(run)
    ensures forall p, values, gaze, er, pos :: |values| == |gaze| ==>
      run(p, values, gaze, er, pos) ==
        Trial(p, values, gaze, boundary, errorWeight, er, exp, rng, pos, maxAttempts)
  {
    (p: Params, values: seq<real>, gaze: seq<real>, er: (real, real), pos: nat)
      requires |values| == |gaze| =>
      Trial(p, values, gaze, boundary, errorWeight, er, exp, rng, pos, maxAttempts)
  }

  /** One race attempt: fills FPTs item by item, one sampler call per item. */
  method DrawFirstPassageTimes(rng: Oracle, k: nat, rates: seq<real>, boundary: real, s: real)
    returns (fpts: seq<Ext>)
    ensures fpts == Draws(rng, k, rates, boundary, s)
    ensures forall i :: 0 <= i < |rates| ==>
      fpts[i] == rng.wald(k + i, SamplerMean(boundary, rates[i], s), SamplerScale(boundary, s))
  {
    var FPTs := new Ext[|rates|](_ => NaN);
    for i := 0 to |rates|
      invariant forall j :: 0 <= j < i ==>
        FPTs[j] == rng.wald(k + j, SamplerMean(boundary, rates[j], s), SamplerScale(boundary, s))
    {
      var mu := Quot(boundary, rates[i]);
      var lam := Sq(Quot(boundary, s));
      FPTs[i] := rng.wald(k + i, Div(mu, lam), lam);
    }
    fpts := FPTs[..];
  }

  /** simulate_trial, with the retry loop bounded by maxAttempts. */
  method SimulateTrial(p: Params, values: seq<real>, gaze: seq<real>, boundary: real,
                       errorWeight: real, errorRange: (real, real), exp: real -> real,
                       rng: Oracle, pos: nat, maxAttempts: nat)
    returns (outcome: Outcome, next: nat)
    requires rng.Valid() && IsExp(exp) && |values| == |gaze|
    ensures (outcome, next) ==
      Trial(p, values, gaze, boundary, errorWeight, errorRange, exp, rng, pos, maxAttempts)
  {
    var n := |values|;
    if rng.unit(pos) < errorWeight {
      var rt := Uniform(errorRange.0, errorRange.1, rng.unit(pos + 1));
      if n == 0 {
        return Failed(TooFewItems), pos + 2;
      }
      var choice := rng.pick(pos + 2, n);
      return Chosen(choice, rt), pos + 3;
    }
    if n < 2 {
      return Failed(TooFewItems), pos + 1;
    }
    var R := MakeR(p.v, p.tau, p.gamma, values, gaze, exp);
    if !InSamplerDomain(R, boundary, p.s) {
      return Failed(SamplerDomain), pos + 1;
    }
    outcome, next := RetryRace(rng, pos + 1, maxAttempts, R, boundary, p.s, p.t0);
  }

  /** The retry loop of simulate_trial's race branch: draw one first-passage
      time per item and start again while the fastest time is NaN, infinite or
      negative; otherwise choose the first fastest item and add t0. */
  method RetryRace(rng: Oracle, k: nat, maxAttempts: nat, rates: seq<real>, boundary: real,
                   s: real, t0: real)
    returns (outcome: Outcome, next: nat)
    requires |rates| > 0
    ensures (outcome, next) == Race(rng, k, maxAttempts, rates, boundary, s, t0)
  {
    next := k;
    outcome := Failed(Stalled);
    var left := maxAttempts;
    var done := false;
    ghost var target := Race(rng, k, maxAttempts, rates, boundary, s, t0);
    while !done && 0 < left
      invariant !done ==> outcome == Failed(Stalled)
      invariant !done ==> target == Race(rng, next, left, rates, boundary, s, t0)
      invariant done ==> target == (outcome, next)
      decreases left, !done
    {
      var fpts := DrawFirstPassageTimes(rng, next, rates, boundary, s);
      var rt := Min(fpts);
      if rt.Fin? && 0.0 <= rt.x {
        RaceStepAccepted(rng, next, left, rates, boundary, s, t0, fpts);
        outcome := Chosen(ArgMin(fpts), rt.x + t0);
        done := true;
      } else {
        RaceStepRejected(rng, next, left, rates, boundary, s, t0, fpts);
      }
      next := next + |rates|;
      left := left - 1;
    }
  }

  // ---------------------------------------------------------------------------
  // The race

  /** An accepted attempt ends the race with its first fastest item. */
  lemma RaceStepAccepted(rng: Oracle, k: nat, attempts: nat, rates: seq<real>, boundary: real,
      s: real, t0: real, fpts: seq<Ext>)
    requires |rates| > 0 && 0 < attempts && fpts == Draws(rng, k, rates, boundary, s)
    requires Accepted(fpts)
    ensures Race(rng, k, attempts, rates, boundary, s, t0) ==
      (Chosen(ArgMin(fpts), Min(fpts).x + t0), k + |rates|)
  {
  }

  /** A rejected attempt costs one attempt and |rates| draws. */
  lemma RaceStepRejected(rng: Oracle, k: nat, attempts: nat, rates: seq<real>, boundary: real,
      s: real, t0: real, fpts: seq<Ext>)
    requires |rates| > 0 && 0 < attempts && fpts == Draws(rng, k, rates, boundary, s)
    requires !Accepted(fpts)
    ensures Race(rng, k, attempts, rates, boundary, s, t0) ==
      Race(rng, k + |rates|, attempts - 1, rates, boundary, s, t0)
  {
  }

  /** `o` is what an accepted attempt `fpts` decides: the first index holding
      the minimum, and the minimum plus t0. */
  predicate Wins(fpts: seq<Ext>, o: Outcome, t0: real) {
    Accepted(fpts) && o == Chosen(ArgMin(fpts), Min(fpts).x + t0)
  }

  /** A winner is a genuine fastest item: its time is finite, non-negative and
      no later than any other item's, no earlier item has the same time, and
      the response time is that time plus t0. */
  lemma WinnerIsFastest(fpts: seq<Ext>, o: Outcome, t0: real)
    requires Wins(fpts, o, t0)
    ensures o.Chosen? && o.choice < |fpts| && t0 <= o.rt
    ensures fpts[o.choice] == Min(fpts) == Fin(o.rt - t0)
    ensures forall j :: 0 <= j < |fpts| ==> Le(fpts[o.choice], fpts[j])
    ensures forall j :: 0 <= j < o.choice ==> fpts[j] != fpts[o.choice]
  {
  }

  /** The race either stalls or returns a genuine winner of the attempt drawn
      just before the position it returns. */
  lemma {:induction false} RaceWinner(rng: Oracle, k: nat, attempts: nat, rates: seq<real>,
      boundary: real, s: real, t0: real)
    requires |rates| > 0
    ensures var r := Race(rng, k, attempts, rates, boundary, s, t0);
      r.0.Chosen? ==>
        k + |rates| <= r.1 && Wins(Draws(rng, r.1 - |rates|, rates, boundary, s), r.0, t0)
    ensures var r := Race(rng, k, attempts, rates, boundary, s, t0);
      r.0.Chosen? || r.0 == Failed(Stalled)
    decreases attempts
  {
    if attempts > 0 {
      var fpts := Draws(rng, k, rates, boundary, s);
      if Accepted(fpts) {
        RaceStepAccepted(rng, k, attempts, rates, boundary, s, t0, fpts);
      } else {
        RaceStepRejected(rng, k, attempts, rates, boundary, s, t0, fpts);
        RaceWinner(rng, k + |rates|, attempts - 1, rates, boundary, s, t0);
      }
    }
  }

  /** The attempt budget only cuts off races that have not finished: a race
      that ends with a choice ends with the same choice under any larger budget. */
  lemma {:induction false} RaceBudgetIrrelevant(rng: Oracle, k: nat, attempts: nat,
      more: nat, rates: seq<real>, boundary: real, s: real, t0: real)
    requires |rates| > 0 && attempts <= more
    requires Race(rng, k, attempts, rates, boundary, s, t0).0.Chosen?
    ensures Race(rng, k, more, rates, boundary, s, t0) == Race(rng, k, attempts, rates, boundary, s, t0)
    decreases attempts
  {
    if !Accepted(Draws(rng, k, rates, boundary, s)) {
      RaceBudgetIrrelevant(rng, k + |rates|, attempts - 1, more - 1, rates, boundary, s, t0);
    }
  }

  // ---------------------------------------------------------------------------
  // The trial

  /** Whichever branch is taken, a chosen item is an index in [0, n_items). */
  lemma TrialChoiceInRange(p: Params, values: seq<real>, gaze: seq<real>, boundary: real,
      errorWeight: real, errorRange: (real, real), exp: real -> real, rng: Oracle,
      pos: nat, maxAttempts: nat)
    requires rng.Valid() && IsExp(exp) && |values| == |gaze|
    ensures var (o, _) := Trial(p, values, gaze, boundary, errorWeight, errorRange, exp,
                                rng, pos, maxAttempts);
      o.Chosen? ==> o.choice < |values|
  {
    if !(rng.unit(pos) < errorWeight) && 2 <= |values| {
      RaceWinner(rng, pos + 1, maxAttempts, Rates(p.v, p.tau, p.gamma, values, gaze, exp),
                 boundary, p.s, p.t0);
    }
  }

  /** The error branch is taken exactly when the first draw is below
      error_weight; it always answers, with a response time inside the error
      range and a valid item. */
  lemma ErrorBranch(p: Params, values: seq<real>, gaze: seq<real>, boundary: real,
      errorWeight: real, errorRange: (real, real), exp: real -> real, rng: Oracle,
      pos: nat, maxAttempts: nat)
    requires rng.Valid() && IsExp(exp) && |values| == |gaze| && 0 < |values|
    requires rng.unit(pos) < errorWeight && errorRange.0 <= errorRange.1
    ensures var (o, next) := Trial(p, values, gaze, boundary, errorWeight, errorRange, exp,
                                   rng, pos, maxAttempts);
      o.Chosen? && next == pos + 3 && o.choice < |values| &&
      errorRange.0 <= o.rt <= errorRange.1 &&
      (errorRange.0 < errorRange.1 ==> o.rt < errorRange.1)
  {
  }

  /** A trial answered by the race has its response time at or above t0. */
  lemma RaceBranchRtAtLeastT0(p: Params, values: seq<real>, gaze: seq<real>, boundary: real,
      errorWeight: real, errorRange: (real, real), exp: real -> real, rng: Oracle,
      pos: nat, maxAttempts: nat)
    requires rng.Valid() && IsExp(exp) && |values| == |gaze|
    requires errorWeight <= rng.unit(pos)
    ensures var (o, _) := Trial(p, values, gaze, boundary, errorWeight, errorRange, exp,
                                rng, pos, maxAttempts);
      o.Chosen? ==> p.t0 <= o.rt
  {
    if 2 <= |values| {
      RaceWinner(rng, pos + 1, maxAttempts, Rates(p.v, p.tau, p.gamma, values, gaze, exp),
                 boundary, p.s, p.t0);
    }
  }

  /** With error_weight zero (or below) the error branch is never taken, so every
      answered trial has rt >= t0. */
  lemma NoErrorWeightRtAtLeastT0(p: Params, values: seq<real>, gaze: seq<real>, boundary: real,
      errorWeight: real, errorRange: (real, real), exp: real -> real, rng: Oracle,
      pos: nat, maxAttempts: nat)
    requires rng.Valid() && IsExp(exp) && |values| == |gaze| && errorWeight <= 0.0
    ensures var (o, _) := Trial(p, values, gaze, boundary, errorWeight, errorRange, exp,
                                rng, pos, maxAttempts);
      o.Chosen? ==> p.t0 <= o.rt
  {
    RaceBranchRtAtLeastT0(p, values, gaze, boundary, errorWeight, errorRange, exp, rng, pos,
                          maxAttempts);
  }

  // ---------------------------------------------------------------------------
  // The runner

  /** Every trial the runner answers chooses one of the trial's items. */
  ghost predicate ChoosesItem(run: TrialRunner)
    requires Total(run)
  {
    forall p, values, gaze, er, pos :: |values| == |gaze| ==>
      (run(p, values, gaze, er, pos).0.Chosen? ==> run(p, values, gaze, er, pos).0.choice < |values|)
  }

  /** Every trial the runner answers has its response time at or above t0. */
  ghost predicate AnswersAfterT0(run: TrialRunner)
    requires Total(run)
  {
    forall p, values, gaze, er, pos :: |values| == |gaze| ==>
      (run(p, values, gaze, er, pos).0.Chosen? ==> p.t0 <= run(p, values, gaze, er, pos).0.rt)
  }

  /** The simulators' runner only ever chooses an item of the trial. */
  lemma TrialRunChoosesItem(boundary: real, errorWeight: real, exp: real -> real, rng: Oracle,
                            maxAttempts: nat)
    requires rng.Valid() && IsExp(exp)
    ensures ChoosesItem(TrialRun(boundary, errorWeight, exp, rng, maxAttempts))
  {
    var run := TrialRun(boundary, errorWeight, exp, rng, maxAttempts);
    forall p, values, gaze, er, pos | |values| == |gaze|
      ensures run(p, values, gaze, er, pos).0.Chosen? ==> run(p, values, gaze, er, pos).0.choice < |values|
    {
      TrialChoiceInRange(p, values, gaze, boundary, errorWeight, er, exp, rng, pos, maxAttempts);
    }
  }

  /** Without error weight the runner answers only through the race, never before t0. */
  lemma TrialRunAnswersAfterT0(boundary: real, errorWeight: real, exp: real -> real, rng: Oracle,
                               maxAttempts: nat)
    requires rng.Valid() && IsExp(exp) && errorWeight <= 0.0
    ensures AnswersAfterT0(TrialRun(boundary, errorWeight, exp, rng, maxAttempts))
  {
    var run := TrialRun(boundary, errorWeight, exp, rng, maxAttempts);
    forall p, values, gaze, er, pos | |values| == |gaze|
      ensures run(p, values, gaze, er, pos).0.Chosen? ==> p.t0 <= run(p, values, gaze, er, pos).0.rt
    {
      NoErrorWeightRtAtLeastT0(p, values, gaze, boundary, errorWeight, er, exp, rng, pos,
                               maxAttempts);
    }
  }
}
