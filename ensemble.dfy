/**
 * The ensemble classifier of MLModelPipeline.py: feature alignment, three
 * opaque classifiers decoded by an opaque label encoder, normalisation of
 * every label to "Safe" / "Not Safe", and the `Counter.most_common` majority.
 */
module Ensemble {
  import opened Wrappers

  /** A one-row data frame: column name to value. */
  type Row = map<string, real>

  /** What a classifier's `predict` returns: an encoded class. */
  type ClassIndex = int

  /**
   * The artifacts loaded once at start-up (MLModelPipeline.py:8-12), kept
   * opaque: three fitted classifiers, the label encoder's
   * `inverse_transform` and the ordered list of feature columns.
   */
  datatype Artifacts = Artifacts(
    lrModel: seq<real> -> ClassIndex,
    rfModel: seq<real> -> ClassIndex,
    svmModel: seq<real> -> ClassIndex,
    decode: ClassIndex -> string,
    featureColumns: seq<string>)

  /** Selecting absent columns from a data frame raises a KeyError naming them. */
  datatype Error = MissingColumns(columns: seq<string>)

  /** The returned dict: `model_wise_decision` and `final_decision`. */
  datatype Decision = Decision(modelWise: map<string, string>, final: string)

  const SafeLabel: string := "Safe"
  const NotSafeLabel: string := "Not Safe"

  const LogisticRegression: string := "Logistic Regression"
  const RandomForest: string := "Random Forest"
  const Svm: string := "SVM"

  /** The two values a per-model decision can take. */
  predicate IsDecision(d: string) {
    d == SafeLabel || d == NotSafeLabel
  }

  /** A decision dict as the pipeline returns it: the three model keys, each a decision. */
  predicate WellFormed(d: Decision) {
    && d.modelWise.Keys == {LogisticRegression, RandomForest, Svm}
    && forall k :: k in d.modelWise ==> IsDecision(d.modelWise[k])
  }

  /**
   * `decisions.values()` in the dict's insertion order: the logistic
   * regression's, the random forest's, then the SVM's decision. The contract
   * gives only the values; the order is the body's, and `DictShape` states
   * it for the dict the pipeline builds.
   */
  function Votes(d: Decision): (v: seq<string>)
    requires WellFormed(d)
    ensures |v| == 3
    ensures forall x :: x in v <==> x in d.modelWise.Values
  {
    var v := [d.modelWise[LogisticRegression], d.modelWise[RandomForest], d.modelWise[Svm]];
    assert forall x :: x in d.modelWise.Values ==> x in v by {
      forall x | x in d.modelWise.Values ensures x in v {
        var k :| k in d.modelWise && d.modelWise[k] == x;
      }
    }
    v
  }

  // ----- feature alignment: `current_tunnel_data[feature_columns]` -----

  /** The listed columns that the row lacks, in the order listed. */
  function Missing(row: Row, cols: seq<string>): (m: seq<string>)
    ensures |m| <= |cols|
    ensures forall c :: c in m <==> c in cols && c !in row
  {
    if cols == [] then []
    else
      assert forall c :: c in cols <==> c == cols[0] || c in cols[1..];
      (if cols[0] in row then [] else [cols[0]]) + Missing(row, cols[1..])
  }

  /** The row's values at the listed columns, in the order listed. */
  function Select(row: Row, cols: seq<string>): (v: seq<real>)
    requires forall c :: c in cols ==> c in row
    ensures |v| == |cols|
    ensures forall i :: 0 <= i < |cols| ==> v[i] == row[cols[i]]
  {
    if cols == [] then [] else [row[cols[0]]] + Select(row, cols[1..])
  }

  /** Projects the row onto the feature columns, failing on any absent column. */
  function AlignFeatures(row: Row, cols: seq<string>): (r: Result<seq<real>, Error>)
    ensures r.Success? <==> forall c :: c in cols ==> c in row
    ensures r.Success? ==> |r.value| == |cols|
    ensures r.Success? ==> forall i :: 0 <= i < |cols| ==> r.value[i] == row[cols[i]]
    ensures r.Failure? ==> r.error.columns != []
    ensures r.Failure? ==> forall c :: c in r.error.columns <==> c in cols && c !in row
  {
    var m := Missing(row, cols);
    assert m != [] ==> m[0] in cols && m[0] !in row;
    if m == [] then Success(Select(row, cols)) else Failure(MissingColumns(m))
  }

  // ----- label normalisation -----

  /** `safe_or_not`: only the literal "Safe" survives; every other label is "Not Safe". */
  function SafeOrNot(raw: string): (d: string)
    ensures IsDecision(d)
    ensures d == SafeLabel <==> raw == SafeLabel
  {
    if raw == SafeLabel then SafeLabel else NotSafeLabel
  }

  // ----- `Counter(values).most_common(1)[0][0]` -----

  /**
   * Index of the first element of s[..n] whose number of occurrences in s is
   * the largest among s[..n]; a later element replaces it only with a strictly
   * larger count, as Python's `max` keeps the first maximal item.
   */
  function LeaderIndex(s: seq<string>, n: nat): (i: nat)
    requires 0 < n <= |s|
    ensures i < n
    ensures forall j :: 0 <= j < n ==> multiset(s)[s[j]] <= multiset(s)[s[i]]
    ensures forall j :: 0 <= j < i ==> multiset(s)[s[j]] < multiset(s)[s[i]]
    decreases n
  {
    if n == 1 then 0
    else
      var i := LeaderIndex(s, n - 1);
      if multiset(s)[s[n - 1]] > multiset(s)[s[i]] then n - 1 else i
  }

  /** Position of the first occurrence of x in s. */
  function IndexOf(s: seq<string>, x: string): (i: nat)
    requires x in s
    ensures i < |s| && s[i] == x
    ensures forall j :: 0 <= j < i ==> s[j] != x
  {
    if s[0] == x then 0 else 1 + IndexOf(s[1..], x)
  }

  /**
   * The most common value of a non-empty sequence; among equally common
   * values, the one that occurs first (a Counter keeps insertion order).
   */
  function MostCommon(s: seq<string>): (r: string)
    requires |s| > 0
    ensures r in s
    ensures forall x :: x in s ==> multiset(s)[x] <= multiset(s)[r]
    ensures forall j :: 0 <= j < |s| && multiset(s)[s[j]] == multiset(s)[r] ==> IndexOf(s, r) <= j
  {
    var i := LeaderIndex(s, |s|);
    assert forall x :: x in s ==> multiset(s)[x] <= multiset(s)[s[i]] by {
      forall x | x in s ensures multiset(s)[x] <= multiset(s)[s[i]] {
        var j :| 0 <= j < |s| && s[j] == x;
      }
    }
    assert IndexOf(s, s[i]) == i;
    s[i]
  }

  /**
   * With three votes that are each "Safe" or "Not Safe", the most common
   * vote occurs at least twice and is the only value that does: no tie.
   */
  lemma MajorityOfThree(a: string, b: string, c: string)
    requires IsDecision(a) && IsDecision(b) && IsDecision(c)
    ensures multiset([a, b, c])[MostCommon([a, b, c])] >= 2
    ensures forall x :: x != MostCommon([a, b, c]) ==> multiset([a, b, c])[x] < 2
    ensures a == b == c ==> MostCommon([a, b, c]) == a
  {
  }

  /**
   * Without normalisation three different labels would tie at one vote
   * each, and the first one (the logistic regression's) would win.
   */
  lemma TieGoesToFirst(a: string, b: string, c: string)
    requires a != b && b != c && a != c
    ensures MostCommon([a, b, c]) == a
  {
  }

  // ----- `combined_ml_safety_decision` -----

  /** The decision dict built from three decisions has the three model keys, in order. */
  lemma DictShape(lr: string, rf: string, svm: string, d: Decision)
    requires IsDecision(lr) && IsDecision(rf) && IsDecision(svm)
    requires d.modelWise == map[LogisticRegression := lr, RandomForest := rf, Svm := svm]
    ensures WellFormed(d) && Votes(d) == [lr, rf, svm]
  {
  }

  /** The result dict for three normalised decisions, in the source's key order. */
  function Tally(lr: string, rf: string, svm: string): (d: Decision)
    requires IsDecision(lr) && IsDecision(rf) && IsDecision(svm)
    ensures WellFormed(d)
    ensures d.modelWise[LogisticRegression] == lr
    ensures d.modelWise[RandomForest] == rf
    ensures d.modelWise[Svm] == svm
    ensures d.final in d.modelWise.Values
    ensures multiset(Votes(d))[d.final] >= 2
  {
    var d := Decision(
      map[LogisticRegression := lr, RandomForest := rf, Svm := svm],
      MostCommon([lr, rf, svm]));
    DictShape(lr, rf, svm, d);
    assert multiset([lr, rf, svm])[d.final] >= 2 by { MajorityOfThree(lr, rf, svm); }
    d
  }

  /**
   * Aligns the row, runs the three classifiers on it, decodes and normalises
   * each label, and takes the majority of the three decisions.
   */
  function CombinedDecision(art: Artifacts, row: Row): (r: Result<Decision, Error>)
    ensures r.Failure? <==> exists c :: c in art.featureColumns && c !in row
    ensures r.Failure? ==> r.error == AlignFeatures(row, art.featureColumns).error
    ensures r.Success? ==> WellFormed(r.value)
    ensures r.Success? ==>
      var x := AlignFeatures(row, art.featureColumns).value;
      && r.value.modelWise[LogisticRegression] == SafeOrNot(art.decode(art.lrModel(x)))
      && r.value.modelWise[RandomForest] == SafeOrNot(art.decode(art.rfModel(x)))
      && r.value.modelWise[Svm] == SafeOrNot(art.decode(art.svmModel(x)))
    ensures r.Success? ==> r.value.final in r.value.modelWise.Values
    ensures r.Success? ==> multiset(Votes(r.value))[r.value.final] >= 2
  {
    var aligned := AlignFeatures(row, art.featureColumns);
    if aligned.Failure? then Failure(aligned.error)
    else
      var x := aligned.value;
      Success(Tally(
        SafeOrNot(art.decode(art.lrModel(x))),
        SafeOrNot(art.decode(art.rfModel(x))),
        SafeOrNot(art.decode(art.svmModel(x)))))
  }
}
