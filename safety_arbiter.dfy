/**
 * The safety arbiter of app.py: the feature row built from six sensor
 * readings, the 0/1 encoding of each model's decision, and the
 * first-match-wins chain that yields one tunnel status.
 */
module SafetyArbiter {
  import opened Wrappers
  import Ensemble

  /** The six raw sensor readings entered for one tunnel. */
  datatype Reading = Reading(
    methanePct: real,
    temperatureC: real,
    humidityPct: real,
    airflowMps: real,
    vibrationMmS: real,
    oxygenPct: real)

  /** The labels of a tunnel status and of the network risk table. */
  datatype Risk = Safe | Unsafe | Warning

  /** Why an evaluation is abandoned: a failed alignment or a failed dict lookup. */
  datatype AppError = Pipeline(cause: Ensemble.Error) | KeyError(key: string)

  /** The nine columns of the feature row. */
  const FeatureNames: set<string> := {
    "methane_pct", "temperature_c", "humidity_pct", "airflow_mps",
    "vibration_mm_s", "oxygen_pct", "methane_avg", "methane_change", "risk_score"}

  /**
   * The one-row frame handed to the ensemble: the six readings, and the
   * three derived fields a live reading has no history for.
   */
  function FeatureRow(r: Reading): (row: Ensemble.Row)
    ensures row.Keys == FeatureNames
    ensures row["methane_pct"] == r.methanePct && row["temperature_c"] == r.temperatureC
    ensures row["humidity_pct"] == r.humidityPct && row["airflow_mps"] == r.airflowMps
    ensures row["vibration_mm_s"] == r.vibrationMmS && row["oxygen_pct"] == r.oxygenPct
    ensures row["methane_avg"] == row["methane_pct"]
    ensures row["methane_change"] == 0.0
    ensures row["risk_score"] == 20.0 * row["methane_pct"]
  {
    map[
      "methane_pct" := r.methanePct,
      "temperature_c" := r.temperatureC,
      "humidity_pct" := r.humidityPct,
      "airflow_mps" := r.airflowMps,
      "vibration_mm_s" := r.vibrationMmS,
      "oxygen_pct" := r.oxygenPct,
      "methane_avg" := r.methanePct,
      "methane_change" := 0.0,
      "risk_score" := r.methanePct * 20.0]
  }

  /** Alignment of the feature row succeeds exactly when every feature column is one of its nine. */
  lemma FeatureRowAligns(r: Reading, cols: seq<string>)
    ensures Ensemble.AlignFeatures(FeatureRow(r), cols).Success? <==> forall c :: c in cols ==> c in FeatureNames
  {
  }

  /** `decision_map[d]`: 0 for "Safe", 1 for "Not Safe", a KeyError for anything else. */
  function DecisionValue(d: string): (v: Result<nat, AppError>)
    ensures v == Success(0) <==> d == Ensemble.SafeLabel
    ensures v == Success(1) <==> d == Ensemble.NotSafeLabel
    ensures v.Failure? <==> !Ensemble.IsDecision(d)
    ensures v.Failure? ==> v.error == KeyError(d)
  {
    if d == Ensemble.SafeLabel then Success(0)
    else if d == Ensemble.NotSafeLabel then Success(1)
    else Failure(KeyError(d))
  }

  /** `decision_map[model_decisions[model]]`: a model's 0/1 risk value. */
  function RiskValue(e: Ensemble.Decision, model: string): (v: Result<nat, AppError>)
    ensures v.Success? <==> model in e.modelWise && Ensemble.IsDecision(e.modelWise[model])
    ensures v.Success? ==> (v.value == 1 <==> e.modelWise[model] == Ensemble.NotSafeLabel)
    ensures v.Success? ==> v.value <= 1
  {
    if model in e.modelWise then DecisionValue(e.modelWise[model]) else Failure(KeyError(model))
  }

  /** The hard override: oxygen at or below 10 percent, below the clear-safe band's oxygen floor. */
  predicate HardRisk(r: Reading)
    ensures HardRisk(r) ==> r.oxygenPct < 20.0
  {
    r.oxygenPct <= 10.0
  }

  /** The clear-safe band: every reading inside its normal operating range, so oxygen above the hard limit. */
  predicate ClearlySafe(r: Reading)
    ensures ClearlySafe(r) ==> r.oxygenPct > 10.0
  {
    && r.methanePct <= 1.2
    && r.temperatureC <= 35.0
    && r.airflowMps >= 2.0
    && r.vibrationMmS <= 2.0
    && r.oxygenPct >= 20.0
  }

  /** The clear-safe band lies above the hard-override limit, so the two never both apply. */
  lemma ClearlySafeIsNotHardRisk(r: Reading)
    ensures ClearlySafe(r) ==> !HardRisk(r)
  {
  }

  /**
   * The status chain: hard override, then clear-safe band, then a veto by
   * any single model, then safe by default.
   */
  function TunnelStatus(r: Reading, lrVal: nat, rfVal: nat, svmVal: nat): (s: Risk)
    ensures s != Warning
    ensures s == Unsafe ==> HardRisk(r) || lrVal == 1 || rfVal == 1 || svmVal == 1
    ensures s == Safe ==> ClearlySafe(r) || (lrVal != 1 && rfVal != 1 && svmVal != 1)
  {
    if HardRisk(r) then Unsafe
    else if ClearlySafe(r) then Safe
    else if lrVal == 1 || rfVal == 1 || svmVal == 1 then Unsafe
    else Safe
  }

  /**
   * The lookups of the three model decisions, then the status chain. The
   * lookups come first, so a malformed decision dict fails before any
   * threshold is consulted.
   */
  function Arbitrate(r: Reading, e: Ensemble.Decision): (res: Result<Risk, AppError>)
    ensures res.Success? <==>
      && RiskValue(e, Ensemble.LogisticRegression).Success?
      && RiskValue(e, Ensemble.RandomForest).Success?
      && RiskValue(e, Ensemble.Svm).Success?
    ensures Ensemble.WellFormed(e) ==> res.Success?
    ensures res.Success? ==> res.value != Warning
  {
    var lr := RiskValue(e, Ensemble.LogisticRegression);
    var rf := RiskValue(e, Ensemble.RandomForest);
    var svm := RiskValue(e, Ensemble.Svm);
    if lr.Failure? then Failure(lr.error)
    else if rf.Failure? then Failure(rf.error)
    else if svm.Failure? then Failure(svm.error)
    else Success(TunnelStatus(r, lr.value, rf.value, svm.value))
  }

  /** Oxygen at or below 10 percent makes the tunnel Unsafe whatever the models say. */
  lemma HardOverride(r: Reading, e: Ensemble.Decision)
    requires Ensemble.WellFormed(e)
    requires r.oxygenPct <= 10.0
    ensures Arbitrate(r, e) == Success(Unsafe)
  {
  }

  /** Inside the clear-safe band the tunnel is Safe, even if every model says "Not Safe". */
  lemma ClearSafeOverridesModels(r: Reading, e: Ensemble.Decision)
    requires Ensemble.WellFormed(e)
    requires ClearlySafe(r)
    ensures Arbitrate(r, e) == Success(Safe)
  {
  }

  /**
   * Between the two bands the models decide, by veto: the tunnel is Unsafe
   * exactly when at least one model says "Not Safe", and Safe exactly when
   * all three say "Safe".
   */
  lemma VetoByAnyModel(r: Reading, e: Ensemble.Decision)
    requires Ensemble.WellFormed(e)
    requires !HardRisk(r) && !ClearlySafe(r)
    ensures Arbitrate(r, e) == Success(Unsafe) <==> Ensemble.NotSafeLabel in Ensemble.Votes(e)
    ensures Arbitrate(r, e) == Success(Safe) <==> forall v :: v in Ensemble.Votes(e) ==> v == Ensemble.SafeLabel
  {
  }

  /**
   * The veto and the displayed majority part ways when exactly one model
   * dissents: the majority says "Safe", the status is Unsafe.
   */
  lemma VetoOverridesMajority(r: Reading, e: Ensemble.Decision)
    requires Ensemble.WellFormed(e)
    requires !HardRisk(r) && !ClearlySafe(r)
    requires multiset(Ensemble.Votes(e))[Ensemble.NotSafeLabel] == 1
    ensures Ensemble.MostCommon(Ensemble.Votes(e)) == Ensemble.SafeLabel
    ensures Arbitrate(r, e) == Success(Unsafe)
  {
  }

  /** The status never reads the majority `final_decision`. */
  lemma StatusIgnoresFinalDecision(r: Reading, e: Ensemble.Decision, other: string)
    ensures Arbitrate(r, e) == Arbitrate(r, e.(final := other))
  {
  }

  /**
   * One press of the button: the feature row, the ensemble decision on it,
   * and the arbitrated status.
   */
  function CheckSafety(art: Ensemble.Artifacts, r: Reading): (res: Result<(Ensemble.Decision, Risk), AppError>)
    ensures res.Failure? <==> exists c :: c in art.featureColumns && c !in FeatureNames
    ensures res.Failure? ==> res.error.Pipeline?
    ensures res.Success? ==> Ensemble.CombinedDecision(art, FeatureRow(r)) == Success(res.value.0)
    ensures res.Success? ==> Arbitrate(r, res.value.0) == Success(res.value.1)
  {
    match Ensemble.CombinedDecision(art, FeatureRow(r))
    case Failure(e) => Failure(Pipeline(e))
    case Success(d) => Success((d, Arbitrate(r, d).value))
  }

  /** End to end: the two threshold bands decide the status whatever the three classifiers predict. */
  lemma ThresholdsDominateModels(art: Ensemble.Artifacts, r: Reading)
    requires forall c :: c in art.featureColumns ==> c in FeatureNames
    ensures HardRisk(r) ==> CheckSafety(art, r).Success? && CheckSafety(art, r).value.1 == Unsafe
    ensures ClearlySafe(r) ==> CheckSafety(art, r).Success? && CheckSafety(art, r).value.1 == Safe
  {
  }
}
