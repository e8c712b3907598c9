/**
 * Pieces shared by the three pricing models of lib/pricing_models.py: how an
 * option type string selects a call or a put, the floor applied to T and
 * sigma, and the exercise payoff.
 */
module Payoffs {
  import opened Common
  import opened Text

  datatype Kind = Call | Put

  /** `option_type.lower() == "call"`: every other string prices a put. */
  function KindOf(optionType: string): (k: Kind)
    ensures k == Call <==> Lower(optionType) == "call"
  {
    if Lower(optionType) == "call" then Call else Put
  }

  /** 1e-10, the floor every model constructor applies to T and to sigma. */
  const ParameterFloor: real := 0.0000000001

  /** `max(x, 1e-10)`: never below the floor, and unchanged from the floor upwards. */
  function Floored(x: real): (y: real)
    ensures y >= ParameterFloor
    ensures x >= ParameterFloor ==> y == x
    ensures x < ParameterFloor ==> y == ParameterFloor
  {
    Max(x, ParameterFloor)
  }

  /** The exercise value: `max(S - K, 0)` for a call, `max(K - S, 0)` for a put. */
  function Payoff(kind: Kind, spot: real, strike: real): (v: real)
    ensures v >= 0.0
    ensures kind == Call ==> v >= spot - strike && (v == 0.0 || v == spot - strike)
    ensures kind == Put ==> v >= strike - spot && (v == 0.0 || v == strike - spot)
  {
    match kind
    case Call => Max(spot - strike, 0.0)
    case Put => Max(strike - spot, 0.0)
  }

  /** Put-call parity of the payoffs: a call minus a put pays spot minus strike. */
  lemma PayoffParity(spot: real, strike: real)
    ensures Payoff(Call, spot, strike) - Payoff(Put, spot, strike) == spot - strike
  {
  }
}
