/**
 * The chart layer of the browser client (public/js/charts.js): a registry
 * of the live chart per canvas, where every `create*` first destroys the
 * chart on that canvas, and the data each chart is given, derived from the
 * server's answers. Chart.js itself and the styling options are not
 * modelled: a chart is its kind, its labels and its datasets.
 */
module Charts {
  import opened Common
  import opened MarketData
  import opened Binomial
  import opened MonteCarlo

  const Accent := "#6c7aee"
  const AccentLight := "rgba(108, 122, 238, 0.2)"
  const Green := "#34d399"
  const Red := "#f87171"
  const Gray := "#8a8a9a"

  /** One dataset: its values, fill colours and border colours (one colour for all, or one per value). */
  datatype Dataset = Dataset(name: string, values: seq<real>, fills: seq<string>, borders: seq<string>)

  datatype Chart = Chart(kind: string, labels: seq<string>, datasets: seq<Dataset>)

  // ---- the price and volume charts ----

  /** `data.map(d => d.date)`. */
  function Dates(data: seq<PriceRecord>): (r: seq<string>)
    ensures |r| == |data|
    ensures forall i :: 0 <= i < |r| ==> r[i] == data[i].date
  {
    seq(|data|, i requires 0 <= i < |data| => data[i].date)
  }

  /** `data.map(d => d.close)`. */
  function Closes(data: seq<PriceRecord>): (r: seq<real>)
    ensures |r| == |data|
    ensures forall i :: 0 <= i < |r| ==> r[i] == data[i].close
  {
    seq(|data|, i requires 0 <= i < |data| => data[i].close)
  }

  /** `data.map(d => d.volume)`. */
  function Volumes(data: seq<PriceRecord>): (r: seq<real>)
    ensures |r| == |data|
    ensures forall i :: 0 <= i < |r| ==> r[i] == data[i].volume as real
  {
    seq(|data|, i requires 0 <= i < |data| => data[i].volume as real)
  }

  /** The price chart: one point per record, the closes against the dates. */
  function PriceChart(data: seq<PriceRecord>): (c: Chart)
    ensures |c.datasets| == 1 && |c.labels| == |c.datasets[0].values| == |data|
  {
    Chart("line", Dates(data), [Dataset("Close Price", Closes(data), [AccentLight], [Accent])])
  }

  /** The colour of bar `i`: gray for the first, then green when the close did not fall, else red. */
  function BarColour(data: seq<PriceRecord>, i: nat): string
    requires i < |data|
  {
    if i == 0 then Gray else if data[i].close >= data[i - 1].close then Green else Red
  }

  /** The volume bars' border colours, one per record. */
  function VolumeColours(data: seq<PriceRecord>): (r: seq<string>)
    ensures |r| == |data|
    ensures |r| > 0 ==> r[0] == Gray
    ensures forall i :: 0 < i < |r| ==> (r[i] == Green <==> data[i].close >= data[i - 1].close)
    ensures forall i :: 0 < i < |r| ==> (r[i] == Red <==> data[i].close < data[i - 1].close)
  {
    seq(|data|, i requires 0 <= i < |data| => BarColour(data, i))
  }

  /** `c + alpha`: the colour with a transparency suffix. */
  function Translucent(colours: seq<string>, alpha: string): (r: seq<string>)
    ensures |r| == |colours|
    ensures forall i :: 0 <= i < |r| ==> r[i] == colours[i] + alpha
  {
    seq(|colours|, i requires 0 <= i < |colours| => colours[i] + alpha)
  }

  /** The volume chart: one bar per record, filled with the translucent border colour. */
  function VolumeChart(data: seq<PriceRecord>): (c: Chart)
    ensures |c.datasets| == 1 && |c.labels| == |c.datasets[0].values| == |c.datasets[0].borders| == |data|
  {
    var colours := VolumeColours(data);
    Chart("bar", Dates(data), [Dataset("Volume", Volumes(data), Translucent(colours, "40"), colours)])
  }

  /** Over a stretch where the close never falls, every bar after the first is green. */
  lemma RisingSeriesIsGreen(data: seq<PriceRecord>)
    requires forall i, j :: 0 <= i <= j < |data| ==> data[i].close <= data[j].close
    ensures forall i :: 0 < i < |data| ==> VolumeChart(data).datasets[0].borders[i] == Green
    ensures forall i :: 0 < i < |data| ==> VolumeChart(data).datasets[0].fills[i] == Green + "40"
  {
    forall i | 0 < i < |data|
      ensures VolumeColours(data)[i] == Green
    {
      assert data[i - 1].close <= data[i].close;
    }
  }

  /**
   * Charting the history a market-data answer carries puts one point per
   * bar of the provider's history, dated as the bars are, in their order.
   */
  lemma HistoryChartFollowsBars(p: Provider, ticker: string, period: string)
    requires p.history(ticker, period).Rows?
    ensures var records := HistoricalDataOf(p, ticker, period).value;
      var bars := p.history(ticker, period).bars;
      && |PriceChart(records).labels| == |bars|
      && forall i :: 0 <= i < |bars| ==> PriceChart(records).labels[i] == bars[i].date
  {
  }

  // ---- the model comparison chart ----

  const ModelLabels := ["Black-Scholes", "Binomial (EU)", "Binomial (US)", "MC European",
    "MC Asian (A)", "MC Asian (G)", "MC Lookback", "MC Barrier"]

  /** The eight prices of a pricing answer, as the comparison chart reads them. */
  datatype PricingAnswer = PricingAnswer(
    blackScholes: real, binomialEuropean: real, binomialAmerican: real, monteCarloEuropean: real,
    asianArithmetic: real, asianGeometric: real, lookback: real, barrier: real)

  /** The comparison values, in the order of the labels. */
  function ComparisonValues(a: PricingAnswer): (r: seq<real>)
    ensures |r| == |ModelLabels| == 8
    ensures r[0] == a.blackScholes && r[1] == a.binomialEuropean && r[2] == a.binomialAmerican
    ensures r[3] == a.monteCarloEuropean && r[4] == a.asianArithmetic && r[5] == a.asianGeometric
    ensures r[6] == a.lookback && r[7] == a.barrier
  {
    [a.blackScholes, a.binomialEuropean, a.binomialAmerican, a.monteCarloEuropean,
     a.asianArithmetic, a.asianGeometric, a.lookback, a.barrier]
  }

  /** The answer built from the model results (the two closed forms are given as numbers). */
  function AnswerOf(blackScholes: real, bin: BinomialResults, mc: MonteCarloResults, asianGeometric: real)
    : PricingAnswer
  {
    PricingAnswer(blackScholes, bin.europeanPrice, bin.americanPrice, mc.european, mc.asianArithmetic,
      asianGeometric, mc.lookback, mc.barrier)
  }

  /**
   * The bar labelled "Binomial (US)" is the tree's American price and sits
   * beside its European price; the gap between them is the early-exercise
   * premium the binomial model reports.
   */
  lemma ComparisonShowsBinomialPair(blackScholes: real, bin: BinomialResults, mc: MonteCarloResults, g: real)
    ensures var values := ComparisonValues(AnswerOf(blackScholes, bin, mc, g));
      && ModelLabels[1] == "Binomial (EU)" && values[1] == bin.europeanPrice
      && ModelLabels[2] == "Binomial (US)" && values[2] == bin.americanPrice
      && ModelLabels[7] == "MC Barrier" && values[7] == mc.barrier
      && (bin.earlyExercisePremium == bin.americanPrice - bin.europeanPrice ==>
            values[2] - values[1] == bin.earlyExercisePremium)
  {
  }

  function ComparisonChart(a: PricingAnswer): (c: Chart)
    ensures c.labels == ModelLabels && |c.datasets| == 1 && c.datasets[0].values == ComparisonValues(a)
  {
    var colours := [Accent, Green, "#10b981", "#fbbf24", "#f59e0b", "#d97706", Red, "#ef4444"];
    Chart("bar", ModelLabels, [Dataset("Option Price", ComparisonValues(a), Translucent(colours, "60"), colours)])
  }

  // ---- the Greeks radar ----

  datatype Greeks = Greeks(delta: real, gamma: real, theta: real, vega: real)

  /** `[delta, gamma, theta, vega].map(Math.abs)`. */
  function Magnitudes(g: Greeks): (r: seq<real>)
    ensures |r| == 4
    ensures forall i :: 0 <= i < 4 ==> r[i] >= 0.0
    ensures r[0] == Abs(g.delta) && r[1] == Abs(g.gamma) && r[2] == Abs(g.theta) && r[3] == Abs(g.vega)
  {
    [Abs(g.delta), Abs(g.gamma), Abs(g.theta), Abs(g.vega)]
  }

  /** The radar cannot tell Greeks from their negation: a put's negative delta plots like a call's. */
  lemma MagnitudesIgnoreSign(g: Greeks)
    ensures Magnitudes(Greeks(-g.delta, -g.gamma, -g.theta, -g.vega)) == Magnitudes(g)
  {
  }

  /**
   * The radar: Black-Scholes and the binomial model's Greeks; the caller
   * passes the Black-Scholes Greeks again when the binomial ones are missing.
   */
  function GreeksChart(bs: Greeks, bin: Option<Greeks>): (c: Chart)
    ensures c.labels == ["Delta", "Gamma", "Theta", "Vega"] && |c.datasets| == 2
    ensures c.datasets[0].values == Magnitudes(bs)
    ensures bin.None? ==> c.datasets[1].values == c.datasets[0].values
  {
    var binomial := if bin.Some? then bin.value else bs;
    Chart("radar", ["Delta", "Gamma", "Theta", "Vega"], [
      Dataset("Black-Scholes", Magnitudes(bs), [AccentLight], [Accent]),
      Dataset("Binomial (American)", Magnitudes(binomial), ["rgba(52, 211, 153, 0.15)"], [Green])])
  }

  // ---- the registry ----

  /** `Charts.instances` and the charts whose `destroy()` was called, in order. */
  class ChartRegistry {
    var instances: map<string, Chart>
    var destroyed: seq<Chart>

    constructor ()
      ensures instances == map[] && destroyed == []
    {
      instances, destroyed := map[], [];
    }

    /** `destroy(id)`: the chart on that canvas, if any, is destroyed and forgotten. */
    method Destroy(id: string)
      modifies this
      ensures instances == old(instances) - {id}
      ensures id in old(instances) ==> destroyed == old(destroyed) + [old(instances)[id]]
      ensures id !in old(instances) ==> destroyed == old(destroyed)
    {
      if id in instances {
        destroyed := destroyed + [instances[id]];
        instances := instances - {id};
      }
    }

    /** What every `create*` does: destroy the canvas's chart, then register the new one. */
    method Replace(id: string, chart: Chart)
      modifies this
      ensures instances == old(instances)[id := chart]
      ensures id in old(instances) ==> destroyed == old(destroyed) + [old(instances)[id]]
      ensures id !in old(instances) ==> destroyed == old(destroyed)
    {
      Destroy(id);
      instances := instances[id := chart];
    }

    method CreatePriceChart(id: string, data: seq<PriceRecord>)
      modifies this
      ensures instances == old(instances)[id := PriceChart(data)]
      ensures destroyed == old(destroyed) + Displaced(old(instances), id)
    {
      Replace(id, PriceChart(data));
    }

    method CreateVolumeChart(id: string, data: seq<PriceRecord>)
      modifies this
      ensures instances == old(instances)[id := VolumeChart(data)]
      ensures destroyed == old(destroyed) + Displaced(old(instances), id)
    {
      Replace(id, VolumeChart(data));
    }

    method CreateModelComparisonChart(id: string, answer: PricingAnswer)
      modifies this
      ensures instances == old(instances)[id := ComparisonChart(answer)]
      ensures destroyed == old(destroyed) + Displaced(old(instances), id)
    {
      Replace(id, ComparisonChart(answer));
    }

    method CreateGreeksChart(id: string, bs: Greeks, bin: Option<Greeks>)
      modifies this
      ensures instances == old(instances)[id := GreeksChart(bs, bin)]
      ensures destroyed == old(destroyed) + Displaced(old(instances), id)
    {
      Replace(id, GreeksChart(bs, bin));
    }
  }

  /** The chart a new one on `id` displaces: the registered one, if any. */
  function Displaced(instances: map<string, Chart>, id: string): (r: seq<Chart>)
    ensures |r| <= 1
    ensures r == [] <==> id !in instances
  {
    if id in instances then [instances[id]] else []
  }

  /**
   * The registry as a value: every chart created is destroyed exactly once
   * when it is displaced, so the live charts plus the destroyed ones are
   * all the charts ever created, each accounted for once.
   */
  function ReplaceAll(instances: map<string, Chart>, creations: seq<(string, Chart)>): (r: map<string, Chart>)
    ensures forall id :: id in r <==> id in instances || exists k :: 0 <= k < |creations| && creations[k].0 == id
  {
    if creations == [] then instances
    else
      var last := creations[|creations| - 1];
      var front := ReplaceAll(instances, creations[..|creations| - 1]);
      assert forall k :: 0 <= k < |creations| - 1 ==> creations[..|creations| - 1][k] == creations[k];
      front[last.0 := last.1]
  }

  /** The charts destroyed along the way. */
  function DestroyedAll(instances: map<string, Chart>, creations: seq<(string, Chart)>): seq<Chart> {
    if creations == [] then []
    else
      var front := creations[..|creations| - 1];
      DestroyedAll(instances, front) + Displaced(ReplaceAll(instances, front), creations[|creations| - 1].0)
  }

  /** The last chart created on a canvas is the one live there. */
  lemma {:induction false} LastCreationIsLive(instances: map<string, Chart>, creations: seq<(string, Chart)>, k: nat)
    requires k < |creations|
    requires forall j :: k < j < |creations| ==> creations[j].0 != creations[k].0
    ensures ReplaceAll(instances, creations)[creations[k].0] == creations[k].1
  {
    if k < |creations| - 1 {
      var front := creations[..|creations| - 1];
      LastCreationIsLive(instances, front, k);
    }
  }

  /** Each creation destroys at most one chart: destroyed charts never outnumber creations. */
  lemma {:induction false} OneDestroyPerCreation(instances: map<string, Chart>, creations: seq<(string, Chart)>)
    ensures |DestroyedAll(instances, creations)| <= |creations|
    ensures |DestroyedAll(instances, creations)| + |ReplaceAll(instances, creations)| == |instances| + |creations|
  {
    if creations != [] {
      var front := creations[..|creations| - 1];
      OneDestroyPerCreation(instances, front);
      var id := creations[|creations| - 1].0;
      var before := ReplaceAll(instances, front);
      if id in before {
        assert |before[id := creations[|creations| - 1].1]| == |before|;
      } else {
        assert |before[id := creations[|creations| - 1].1]| == |before| + 1;
      }
    }
  }

  /** Driving the registry through creations matches the value model step by step. */
  method CreateAll(registry: ChartRegistry, creations: seq<(string, Chart)>)
    modifies registry
    ensures registry.instances == ReplaceAll(old(registry.instances), creations)
    ensures registry.destroyed == old(registry.destroyed) + DestroyedAll(old(registry.instances), creations)
  {
    for i := 0 to |creations|
      invariant registry.instances == ReplaceAll(old(registry.instances), creations[..i])
      invariant registry.destroyed == old(registry.destroyed) + DestroyedAll(old(registry.instances), creations[..i])
    {
      assert creations[..i + 1][..i] == creations[..i];
      registry.Replace(creations[i].0, creations[i].1);
    }
    assert creations[..|creations|] == creations;
  }
}
