# MineGraph safety decision core, in Dafny

MineGraph is a dashboard for underground mine-tunnel safety. For one tunnel
it takes six sensor readings, asks three pre-trained classifiers (logistic
regression, random forest, SVM) whether the tunnel is safe, combines their
answers with fixed physical thresholds into a single status, and spreads
that status one hop across the tunnel graph A–B–C.

This project models that decision logic:

- `wrappers.dfy`, module `Wrappers`: `Result`, for the Python exceptions
  (a `KeyError` from a data-frame or dict lookup).
- `ensemble.dfy`, module `Ensemble` (MLModelPipeline.py): feature
  alignment, the three opaque classifiers and label decoder held in an
  `Artifacts` value, the `safe_or_not` normalisation, and the
  `Counter.most_common(1)` majority, modelled as "first value of maximal
  count in insertion order".
- `safety_arbiter.dfy`, module `SafetyArbiter` (app.py:42-103): the
  nine-column feature row, the `decision_map` 0/1 encoding with its
  `KeyError` path, the status chain (hard oxygen override, clear-safe
  band, any-model veto, default safe), and the pipeline for one button
  press.
- `risk_propagation.dfy`, module `RiskPropagation` (app.py:184-198): the
  base table, the copy, and the nested loop over `connections`.
  `Propagate` is the copy and the nested `while` loops, proved equal to the
  specification function `Spread`. `RiskTable` has no loop: it builds
  `base_risk` and calls `Propagate`. The lemmas about the table are proved
  about `Spread`.

The readings are Dafny `real`s. The status strings "Safe", "Unsafe" and
"Warning" are the constructors of `Risk`. Tunnel ids are the constructors
of `Tunnel`. The per-model decisions keep their string form ("Safe",
"Not Safe") and the result dict keeps its string keys, because app.py looks
the decisions up by those strings.

## Notes on the code

- The loop at app.py:195-198 tests `base_risk` and writes `gnn_risk`, and it
  overwrites an Unsafe entry that another Unsafe tunnel lists as a
  neighbour. `TwoUnsafeOverwrite` shows this on a base table with A and B
  both Unsafe. app.py never builds such a table, because only the checked
  tunnel can be non-Safe, and `CheckedTunnelKeepsStatus` proves that the
  checked tunnel keeps its status.
- The `decision_map` lookups (app.py:64-66) happen before the oxygen
  check, so `Arbitrate` does the lookups first. Its contract and
  `CheckSafety`'s show that these lookups never fail on the pipeline's
  own output.

## Model

| member | source | states |
|---|---|---|
| `Ensemble.Missing` | MLModelPipeline.py:18 | the missing-column list holds exactly the requested columns absent from the row |
| `Ensemble.Select` | MLModelPipeline.py:18 | when every column is present, the projection has one value per requested column, in the requested order |
| `Ensemble.AlignFeatures` | MLModelPipeline.py:18 | alignment succeeds iff every feature column is in the row; on success it is the ordered projection; on failure the error names exactly the absent columns, and there is at least one |
| `Ensemble.SafeOrNot` | MLModelPipeline.py:28-29 | the result is always "Safe" or "Not Safe", and it is "Safe" exactly when the label is the literal "Safe" |
| `Ensemble.Votes` | MLModelPipeline.py:37 | `decisions.values()` lists three votes, which are exactly the dict's values |
| `Ensemble.LeaderIndex` | MLModelPipeline.py:37 | the chosen index has a maximal count among the first n, and every earlier index has a strictly smaller count (ties go to the first) |
| `Ensemble.MostCommon` | MLModelPipeline.py:37 | the majority is one of the values; no value occurs more often; any value that occurs as often appears no earlier than it |
| `Ensemble.MajorityOfThree` | MLModelPipeline.py:31-37 | with three binary decisions, the majority occurs at least twice and no other value does (no tie); unanimous votes give that common value |
| `Ensemble.TieGoesToFirst` | MLModelPipeline.py:37 | three distinct labels tie, and `most_common` then picks the first inserted (the logistic regression's) |
| `Ensemble.DictShape` | MLModelPipeline.py:31-35 | the decisions dict has exactly the three model keys, each holding a decision, with values in the order LR, RF, SVM |
| `Ensemble.Tally` | MLModelPipeline.py:31-42 | the result dict is well formed, keeps each model's decision under its key, and its final decision is one of them and occurs at least twice |
| `Ensemble.CombinedDecision` | MLModelPipeline.py:15-42 | fails iff a feature column is missing, with the alignment's error; otherwise each model's decision is `safe_or_not` of the decoded prediction of that model alone on the aligned row, and the final decision is a 2-of-3 majority among them |
| `SafetyArbiter.FeatureRow` | app.py:42-52 | the row has exactly the nine columns; the six readings are carried over; methane_avg equals methane_pct, methane_change is 0, risk_score is 20 × methane_pct |
| `SafetyArbiter.FeatureRowAligns` | app.py:42-59 | aligning the feature row succeeds exactly when every feature column is one of its nine names |
| `SafetyArbiter.DecisionValue` | app.py:61 | "Safe" maps to 0 and "Not Safe" maps to 1; any other string raises a KeyError naming it |
| `SafetyArbiter.RiskValue` | app.py:61-66 | the lookup succeeds iff the model key is present and holds a decision; the value is 1 exactly for "Not Safe" |
| `SafetyArbiter.HardRisk` | app.py:71-73 | `hard_risk` holds only with oxygen below the clear-safe band's 20 percent floor |
| `SafetyArbiter.ClearlySafe` | app.py:81-87 | `clearly_safe` holds only with oxygen above the 10 percent hard limit |
| `SafetyArbiter.ClearlySafeIsNotHardRisk` | app.py:71-87 | the clear-safe band (oxygen ≥ 20) never overlaps the hard override (oxygen ≤ 10) |
| `SafetyArbiter.TunnelStatus` | app.py:71-103 | the status is Safe or Unsafe, never Warning; Unsafe only with low oxygen or a vote of 1; Safe only inside the band or with no vote of 1 |
| `SafetyArbiter.Arbitrate` | app.py:61-103 | succeeds iff all three lookups succeed, and always when the dict is well formed; a success is never Warning |
| `SafetyArbiter.HardOverride` | app.py:71-91 | oxygen ≤ 10 gives Unsafe, whatever the three votes and the other readings |
| `SafetyArbiter.ClearSafeOverridesModels` | app.py:81-95 | inside the clear-safe band the status is Safe, even when all three models say "Not Safe" |
| `SafetyArbiter.VetoByAnyModel` | app.py:97-103 | between the bands, Unsafe iff at least one vote is "Not Safe" (an OR, not the majority); Safe iff all three are "Safe" |
| `SafetyArbiter.VetoOverridesMajority` | app.py:97-99 | between the bands, a single dissenting model makes the majority "Safe" but the status Unsafe |
| `SafetyArbiter.StatusIgnoresFinalDecision` | app.py:89-103 | replacing `final_decision` by any value leaves the status unchanged |
| `SafetyArbiter.CheckSafety` | app.py:57-103 | a button press fails iff a feature column is not one of the row's nine, and then only with an alignment error, never a KeyError; otherwise it returns the ensemble decision and its arbitrated status |
| `SafetyArbiter.ThresholdsDominateModels` | app.py:59-95 | for any three classifiers and decoder and a valid feature list, low oxygen gives Unsafe and the clear-safe band gives Safe |
| `RiskPropagation.ConnectionsAreTheEdges` | app.py:187-191 | the neighbour lists encode exactly the undirected edges A–B and B–C (symmetric, no self-loops) |
| `RiskPropagation.BaseRisk` | app.py:184-185 | the base table has an entry for every tunnel; the checked tunnel holds its status and every other tunnel is Safe |
| `RiskPropagation.Spread` | app.py:193-198 | the table after one pass has an entry for every tunnel, and each entry is either Warning or its base value: the pass writes nothing but Warning |
| `RiskPropagation.NetworkRisk` | app.py:184-198 | `gnn_risk` for a checked tunnel has an entry for every tunnel, and no tunnel other than the checked one is ever Unsafe |
| `RiskPropagation.Propagate` | app.py:193-198 | the copy-and-loop yields the base table with Warning at every tunnel that a tunnel Unsafe in the base table lists as a neighbour |
| `RiskPropagation.RiskTable` | app.py:184-198 | the table built for a checked tunnel is `NetworkRisk` of that tunnel and status, with an entry for every tunnel |
| `RiskPropagation.WarnedIffNeighbour` | app.py:184-198 | a tunnel is warned iff the checked tunnel is Unsafe and lists it as a neighbour |
| `RiskPropagation.CheckedTunnelKeepsStatus` | app.py:185-198 | the checked tunnel keeps its own status in the table |
| `RiskPropagation.NoUnsafeNoWarning` | app.py:184-198 | a checked status other than Unsafe spreads nothing; a Safe status leaves every tunnel Safe |
| `RiskPropagation.UnsafeWarnsExactlyNeighbours` | app.py:184-198 | when the checked tunnel is Unsafe, every other tunnel is Warning iff it shares an edge with it, and Safe otherwise |
| `RiskPropagation.UnsafeAOneHop` | app.py:193-198 | A Unsafe gives {A: Unsafe, B: Warning, C: Safe}: the warning does not travel two hops |
| `RiskPropagation.UnsafeBWarnsBoth` | app.py:193-198 | B Unsafe gives {A: Warning, B: Unsafe, C: Warning} |
| `RiskPropagation.TwoUnsafeOverwrite` | app.py:195-198 | on a base table with A and B both Unsafe (which app.py never builds) the pass turns all three into Warning: only base entries are tested, and Unsafe is not protected |

## Left out

- The Streamlit interface: page layout, input widgets, button, messages, charts, tables and captions (app.py:14-37, 74, 91-175, 200-213). The status messages are display only, and no reason code is modelled.
- Artifact loading with `joblib.load` (MLModelPipeline.py:8-12, app.py:149-150). It is I/O. The classifiers, the label encoder and the feature list are fields of an `Artifacts` value, and every lemma holds for all of them.
- The classifiers' `predict` and the encoder's `inverse_transform` are opaque total functions. Neither can raise in the model, although sklearn raises on an unseen class index.
- The past-and-future section: history filtering, sort, `tail(10)` and the forecast lookup (app.py:152-175). This is display code around an opaque forecast table.
- Floating point: readings are exact reals, so rounding of `methane_pct * 20` and of the comparisons is not modelled. Widget defaults and input validation belong to the interface.
- Data-frame typing: a row is a map from column name to real. pandas dtypes and the index are not modelled.
- The tunnel selector offers only A, B and C, so tunnel ids are the `Tunnel` type. Python's insertion of an unknown key into `base_risk` or `gnn_risk` cannot arise and is not modelled.
