/**
 * `MonteCarloModel` (lib/pricing_models.py) without path generation: the
 * step clamp that `get_results` writes back into the model, the per-path
 * payoff rules of the European, arithmetic-Asian, lookback and barrier
 * estimators, the default barrier level and the barrier type chosen for
 * each option type. The simulated paths and the discount factor
 * exp(-rT) are inputs.
 */
module MonteCarlo {
  import opened Common
  import opened Text
  import opened Numeric
  import opened Payoffs

  const TradingDays := 252
  const MinSteps := 21

  /** `max(min(int(T * 252), 252), 21)`: one step per trading day, clamped to [21, 252]. */
  function StepCount(T: real): (n: int)
    ensures MinSteps <= n <= TradingDays
    ensures MinSteps <= Trunc(T * 252.0) <= TradingDays ==> n == Trunc(T * 252.0)
    ensures Trunc(T * 252.0) < MinSteps ==> n == MinSteps
    ensures Trunc(T * 252.0) > TradingDays ==> n == TradingDays
  {
    Max(Min(Trunc(T * 252.0) as real, TradingDays as real), MinSteps as real).Floor
  }

  function Sum(xs: seq<real>): real {
    if xs == [] then 0.0 else Sum(xs[..|xs| - 1]) + xs[|xs| - 1]
  }

  lemma {:induction false} SumNonNegative(xs: seq<real>)
    ensures (forall i :: 0 <= i < |xs| ==> xs[i] >= 0.0) ==> Sum(xs) >= 0.0
  {
    if xs != [] {
      SumNonNegative(xs[..|xs| - 1]);
      assert forall i :: 0 <= i < |xs| - 1 ==> xs[..|xs| - 1][i] == xs[i];
    }
  }

  /** `np.mean(xs)`. */
  function Mean(xs: seq<real>): real
    requires |xs| > 0
  {
    Sum(xs) / |xs| as real
  }

  /** `discount * np.mean(payoffs)`: the price every estimator reports. */
  function DiscountedMean(discount: real, payoffs: seq<real>): (price: real)
    requires |payoffs| > 0
    ensures discount >= 0.0 && (forall i :: 0 <= i < |payoffs| ==> payoffs[i] >= 0.0) ==> price >= 0.0
  {
    SumNonNegative(payoffs);
    discount * Mean(payoffs)
  }

  /** A simulated path: the spot at time 0 followed by one price per step. */
  type Path = p: seq<real> | |p| > 0 witness [0.0]

  function Final(path: Path): real {
    path[|path| - 1]
  }

  function PathMin(path: Path): (m: real)
    ensures forall i :: 0 <= i < |path| ==> m <= path[i]
    ensures exists i :: 0 <= i < |path| && m == path[i]
  {
    if |path| == 1 then path[0]
    else
      var rest := PathMin(path[..|path| - 1]);
      assert forall i :: 0 <= i < |path| - 1 ==> path[..|path| - 1][i] == path[i];
      Min(rest, path[|path| - 1])
  }

  function PathMax(path: Path): (m: real)
    ensures forall i :: 0 <= i < |path| ==> m >= path[i]
    ensures exists i :: 0 <= i < |path| && m == path[i]
  {
    if |path| == 1 then path[0]
    else
      var rest := PathMax(path[..|path| - 1]);
      assert forall i :: 0 <= i < |path| - 1 ==> path[..|path| - 1][i] == path[i];
      Max(rest, path[|path| - 1])
  }

  /** The European estimator's payoff of one path: the exercise value at the final price. */
  function EuropeanPayoff(kind: Kind, K: real, path: Path): real {
    Payoff(kind, Final(path), K)
  }

  /** The arithmetic Asian payoff: the exercise value at the path's average (the spot column included). */
  function AsianArithmeticPayoff(kind: Kind, K: real, path: Path): real {
    Payoff(kind, Mean(path), K)
  }

  /**
   * The lookback payoff: final minus the path minimum for a call, path
   * maximum minus final for a put. The floor at zero never binds, since the
   * final price is on the path.
   */
  function LookbackPayoff(kind: Kind, path: Path): (v: real)
    ensures kind == Call ==> v == Final(path) - PathMin(path)
    ensures kind == Put ==> v == PathMax(path) - Final(path)
  {
    match kind
    case Call => Max(Final(path) - PathMin(path), 0.0)
    case Put => Max(PathMax(path) - Final(path), 0.0)
  }

  /** The default barrier: 0.9 S for a type containing "down", 1.1 S for any other. */
  function DefaultBarrierLevel(S: real, barrierType: string): (level: real)
    ensures Contains(barrierType, "down") ==> level == S * 0.9
    ensures !Contains(barrierType, "down") ==> level == S * 1.1
    ensures S > 0.0 ==> (level < S <==> Contains(barrierType, "down"))
  {
    if Contains(barrierType, "down") then S * 0.9 else S * 1.1
  }

  /** `np.any(paths <= level)` for a "down" type, `np.any(paths >= level)` otherwise. */
  predicate BarrierHit(path: Path, level: real, barrierType: string) {
    if Contains(barrierType, "down") then exists i :: 0 <= i < |path| && path[i] <= level
    else exists i :: 0 <= i < |path| && path[i] >= level
  }

  /**
   * The barrier payoff of one path: a type containing "out" pays the
   * European payoff only while the barrier is untouched; any other type
   * ("in") only once it is touched.
   */
  function BarrierPayoff(kind: Kind, K: real, barrierType: string, level: real, path: Path): (v: real)
    ensures v >= 0.0
    ensures Contains(barrierType, "out") ==> v == (if BarrierHit(path, level, barrierType) then 0.0 else EuropeanPayoff(kind, K, path))
    ensures !Contains(barrierType, "out") ==> v == (if BarrierHit(path, level, barrierType) then EuropeanPayoff(kind, K, path) else 0.0)
  {
    var base := EuropeanPayoff(kind, K, path);
    var hit := BarrierHit(path, level, barrierType);
    if Contains(barrierType, "out") then (if hit then 0.0 else base)
    else (if hit then base else 0.0)
  }

  /** In-out parity: a knock-out and a knock-in on the same side of the same barrier together pay the European payoff. */
  lemma InOutParity(kind: Kind, K: real, outType: string, inType: string, level: real, path: Path)
    requires Contains(outType, "out") && !Contains(inType, "out")
    requires Contains(outType, "down") <==> Contains(inType, "down")
    ensures BarrierPayoff(kind, K, outType, level, path) + BarrierPayoff(kind, K, inType, level, path)
      == EuropeanPayoff(kind, K, path)
  {
  }

  /** `"down-and-out" if option_type == "call" else "up-and-out"`, an exact, case-sensitive comparison. */
  function BarrierTypeFor(optionType: string): (t: string)
    ensures Contains(t, "out")
    ensures Contains(t, "down") <==> optionType == "call"
  {
    if optionType == "call" then
      assert OccursAt("down-and-out", "down", 0);
      assert OccursAt("down-and-out", "out", 9);
      "down-and-out"
    else
      assert OccursAt("up-and-out", "out", 7);
      assert forall i :: 0 <= i <= 6 ==> !OccursAt("up-and-out", "down", i) by {
        forall i | 0 <= i <= 6 ensures !OccursAt("up-and-out", "down", i) {
          assert "up-and-out"[i] != 'd' || "up-and-out"[i + 1] != 'o';
        }
      }
      "up-and-out"
  }

  /**
   * For a lower-case option type the barrier side agrees with the pricing
   * side: a call gets a down-and-out barrier, a put an up-and-out one.
   */
  lemma BarrierSideMatchesKind(optionType: string)
    requires Lower(optionType) == optionType
    ensures Contains(BarrierTypeFor(optionType), "down") <==> KindOf(optionType) == Call
  {
  }

  /** The prices `get_results` reports (standard errors need a square root and are left out). */
  datatype MonteCarloResults = MonteCarloResults(
    simulations: nat, timeSteps: int, european: real, asianArithmetic: real, lookback: real,
    barrier: real, barrierType: string, barrierLevel: real)

  class MonteCarloModel {
    const S: real
    const K: real
    const T: real
    const r: real
    const sigma: real
    const q: real
    const nSimulations: nat
    var nSteps: int
    var dt: real

    /** `MonteCarloModel(S, K, T, r, sigma, q, n_simulations, n_steps)`, with T and sigma floored. */
    constructor (S: real, K: real, T: real, r: real, sigma: real, q: real, nSimulations: nat, nSteps: int)
      requires nSteps > 0
      ensures this.S == S && this.K == K && this.r == r && this.q == q && this.nSimulations == nSimulations
      ensures this.T == Floored(T) && this.sigma == Floored(sigma)
      ensures this.nSteps == nSteps && this.dt == Floored(T) / nSteps as real
    {
      this.S, this.K, this.r, this.q := S, K, r, q;
      this.T := Floored(T);
      this.sigma := Floored(sigma);
      this.nSimulations := nSimulations;
      this.nSteps := nSteps;
      this.dt := Floored(T) / nSteps as real;
    }

    /** The first lines of `get_results`: the step count is recomputed from T and written back with its dt. */
    method ClampSteps()
      modifies this`nSteps, this`dt
      ensures nSteps == StepCount(T) && MinSteps <= nSteps <= TradingDays
      ensures dt == T / nSteps as real
    {
      var n := StepCount(T);
      nSteps := n;
      dt := T / n as real;
    }

    /**
     * `get_results(option_type)` over the simulated paths: clamps the steps,
     * then prices each estimator as the discounted mean of its per-path
     * payoffs; the barrier type follows the option type and its level is the
     * default one. With a non-negative discount every price is non-negative.
     */
    method GetResults(optionType: string, paths: seq<Path>, discount: real) returns (res: MonteCarloResults)
      requires |paths| > 0
      modifies this`nSteps, this`dt
      ensures nSteps == StepCount(T) && dt == T / nSteps as real
      ensures res.simulations == nSimulations && res.timeSteps == StepCount(T)
      ensures res.barrierType == BarrierTypeFor(optionType)
      ensures res.barrierLevel == DefaultBarrierLevel(S, res.barrierType)
      ensures res.european == DiscountedMean(discount,
        seq(|paths|, i requires 0 <= i < |paths| => EuropeanPayoff(KindOf(optionType), K, paths[i])))
      ensures res.asianArithmetic == DiscountedMean(discount,
        seq(|paths|, i requires 0 <= i < |paths| => AsianArithmeticPayoff(KindOf(optionType), K, paths[i])))
      ensures res.lookback == DiscountedMean(discount,
        seq(|paths|, i requires 0 <= i < |paths| => LookbackPayoff(KindOf(optionType), paths[i])))
      ensures res.barrier == DiscountedMean(discount,
        seq(|paths|, i requires 0 <= i < |paths| => BarrierPayoff(KindOf(optionType), K, res.barrierType, res.barrierLevel, paths[i])))
      ensures discount >= 0.0 ==>
        res.european >= 0.0 && res.asianArithmetic >= 0.0 && res.lookback >= 0.0 && res.barrier >= 0.0
    {
      ClampSteps();
      var kind := KindOf(optionType);
      var european := seq(|paths|, i requires 0 <= i < |paths| => EuropeanPayoff(kind, K, paths[i]));
      var asian := seq(|paths|, i requires 0 <= i < |paths| => AsianArithmeticPayoff(kind, K, paths[i]));
      var lookback := seq(|paths|, i requires 0 <= i < |paths| => LookbackPayoff(kind, paths[i]));
      var barrierType := BarrierTypeFor(optionType);
      var level := DefaultBarrierLevel(S, barrierType);
      var barrier := seq(|paths|, i requires 0 <= i < |paths| => BarrierPayoff(kind, K, barrierType, level, paths[i]));
      assert forall i :: 0 <= i < |paths| ==> lookback[i] >= 0.0 by {
        forall i | 0 <= i < |paths| ensures lookback[i] >= 0.0 {
          var m, x := PathMin(paths[i]), PathMax(paths[i]);
          assert m <= Final(paths[i]) <= x;
        }
      }
      res := MonteCarloResults(nSimulations, nSteps, DiscountedMean(discount, european),
        DiscountedMean(discount, asian), DiscountedMean(discount, lookback),
        DiscountedMean(discount, barrier), barrierType, level);
    }
  }
}
