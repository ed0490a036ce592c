/**
 * The figures the dashboard page (`src/pages/Dashboard.tsx`) derives from
 * the application state: the metric cards and the "Recent Predictions"
 * table. All of them are pure expressions over the state.
 *
 * A figure the page writes as a bare "0" (no predictions, no efficiency
 * score) is `None` here, since the page formats it differently from a
 * computed value; the formatting itself (`toFixed(1)`) is not modelled.
 */
module Dashboard {
  import opened Wrappers
  import opened AppContext

  /** The number of rows the recent-predictions table shows at most. */
  const RecentCount: nat := 5

  /** The fixed sustainability figure of the fourth card, in percent. */
  const SustainabilityScore: int := 87

  /** `predictions.reduce((acc, p) => acc + p.predictedYield, 0)`: a fold from the left. */
  function SumYields(ps: seq<PredictionData>): real
  {
    if ps == [] then 0.0 else SumYields(ps[..|ps| - 1]) + ps[|ps| - 1].predictedYield
  }

  /** The value of the "Total Predictions" card. */
  function TotalPredictions(state: AppState): (n: nat)
    ensures n == |state.predictions|
    ensures n == 0 <==> state.predictions == []
  {
    |state.predictions|
  }

  /** "Avg Yield Prediction": the mean predicted yield, or `None` (written "0 t/ha") with no predictions. */
  function AverageYield(state: AppState): (avg: Option<real>)
    ensures avg.None? <==> state.predictions == []
    ensures avg.Some? ==> avg.value * |state.predictions| as real == SumYields(state.predictions)
  {
    if |state.predictions| > 0 then
      Some(SumYields(state.predictions) / |state.predictions| as real)
    else
      None
  }

  /**
   * "Energy Efficiency": the current prediction's efficiency score when it
   * is there and not zero; otherwise `None` (written "0 kg/kWh").
   */
  function EnergyEfficiency(state: AppState): (e: Option<real>)
    ensures e.Some? <==>
      && state.currentPrediction.Some?
      && state.currentPrediction.value.energyData.Some?
      && state.currentPrediction.value.energyData.value.efficiencyScore != 0.0
    ensures e.Some? ==> e.value == state.currentPrediction.value.energyData.value.efficiencyScore
  {
    match state.currentPrediction
    case None => None
    case Some(p) =>
      match p.energyData
      case None => None
      case Some(energy) => if energy.efficiencyScore != 0.0 then Some(energy.efficiencyScore) else None
  }

  /** The four metric cards. */
  datatype Metrics = Metrics(
    totalPredictions: nat,
    averageYield: Option<real>,
    energyEfficiency: Option<real>,
    sustainabilityScore: int)

  /** `metrics`. */
  function DashboardMetrics(state: AppState): (m: Metrics)
    ensures m.totalPredictions == |state.predictions|
    ensures m.averageYield.None? <==> state.predictions == []
    ensures m.averageYield == AverageYield(state) && m.energyEfficiency == EnergyEfficiency(state)
    ensures m.sustainabilityScore == SustainabilityScore
  {
    Metrics(TotalPredictions(state), AverageYield(state), EnergyEfficiency(state), SustainabilityScore)
  }

  /** The smallest predicted yield. */
  function MinYield(ps: seq<PredictionData>): (m: real)
    requires ps != []
    ensures forall i :: 0 <= i < |ps| ==> m <= ps[i].predictedYield
    ensures exists i :: 0 <= i < |ps| && m == ps[i].predictedYield
  {
    if |ps| == 1 then ps[0].predictedYield
    else
      var rest := MinYield(ps[1..]);
      assert forall i :: 1 <= i < |ps| ==> ps[i] == ps[1..][i - 1];
      if ps[0].predictedYield <= rest then ps[0].predictedYield else rest
  }

  /** The largest predicted yield. */
  function MaxYield(ps: seq<PredictionData>): (m: real)
    requires ps != []
    ensures forall i :: 0 <= i < |ps| ==> ps[i].predictedYield <= m
    ensures exists i :: 0 <= i < |ps| && m == ps[i].predictedYield
  {
    if |ps| == 1 then ps[0].predictedYield
    else
      var rest := MaxYield(ps[1..]);
      assert forall i :: 1 <= i < |ps| ==> ps[i] == ps[1..][i - 1];
      if ps[0].predictedYield >= rest then ps[0].predictedYield else rest
  }

  /** A sum of yields that all lie between two bounds lies between the count times each bound. */
  lemma {:induction false} SumBetween(ps: seq<PredictionData>, lo: real, hi: real)
    requires forall i :: 0 <= i < |ps| ==> lo <= ps[i].predictedYield <= hi
    ensures |ps| as real * lo <= SumYields(ps) <= |ps| as real * hi
  {
    if ps != [] {
      var init := ps[..|ps| - 1];
      assert forall i :: 0 <= i < |init| ==> init[i] == ps[i];
      SumBetween(init, lo, hi);
    }
  }

  /** The average yield lies between the smallest and the largest predicted yield. */
  lemma AverageWithinRange(state: AppState)
    requires state.predictions != []
    ensures var ps := state.predictions;
      MinYield(ps) <= AverageYield(state).value <= MaxYield(ps)
  {
    var ps := state.predictions;
    MeanWithin(ps, MinYield(ps), MaxYield(ps));
  }

  /** Yields that all lie between two bounds have their mean between them too. */
  lemma MeanWithin(ps: seq<PredictionData>, lo: real, hi: real)
    requires ps != []
    requires forall i :: 0 <= i < |ps| ==> lo <= ps[i].predictedYield <= hi
    ensures lo <= SumYields(ps) / |ps| as real <= hi
  {
    SumBetween(ps, lo, hi);
    MeanBetween(|ps| as real, SumYields(ps), lo, hi);
  }

  /** A sum of `n` values between two bounds, divided by `n`, stays between them. */
  lemma MeanBetween(n: real, sum: real, lo: real, hi: real)
    requires n > 0.0
    requires n * lo <= sum <= n * hi
    ensures lo <= sum / n <= hi
  {
  }

  /** `s.reverse()` on a fresh copy. */
  function Reverse<T>(s: seq<T>): (r: seq<T>)
    ensures |r| == |s|
    ensures forall k :: 0 <= k < |s| ==> r[k] == s[|s| - 1 - k]
  {
    if s == [] then [] else Reverse(s[1..]) + [s[0]]
  }

  /** Reversing twice gives back the original order. */
  lemma ReverseReverse<T>(s: seq<T>)
    ensures Reverse(Reverse(s)) == s
  {
    var r := Reverse(s);
    assert forall k :: 0 <= k < |s| ==> Reverse(r)[k] == r[|s| - 1 - k] == s[k];
  }

  /** `predictions.slice(-5).reverse()`: the last five, or all when fewer, most recent first. */
  function RecentPredictions(ps: seq<PredictionData>): (r: seq<PredictionData>)
    ensures |r| == if |ps| < RecentCount then |ps| else RecentCount
    ensures forall k :: 0 <= k < |r| ==> r[k] == ps[|ps| - 1 - k]
  {
    var start := if |ps| < RecentCount then 0 else |ps| - RecentCount;
    Reverse(ps[start..])
  }

  /** The "Recent Predictions" table, which is shown only when there is a prediction. */
  function RecentTable(state: AppState): (t: Option<seq<PredictionData>>)
    ensures t.None? <==> state.predictions == []
    ensures t.Some? ==> t.value == RecentPredictions(state.predictions) && 1 <= |t.value| <= RecentCount
  {
    if |state.predictions| > 0 then Some(RecentPredictions(state.predictions)) else None
  }

  /**
   * After a prediction is added the table is shown, with the new prediction
   * on its first row, and the count card grows by one.
   */
  lemma NewPredictionOnTop(state: AppState, p: PredictionData, freshId: nat)
    ensures var after := AppReducer(state, AddPrediction(p), freshId);
      && RecentTable(after).Some?
      && RecentTable(after).value[0] == p
      && TotalPredictions(after) == TotalPredictions(state) + 1
  {
  }
}
