# icingaplugin-rs in Dafny

A model of the icingaplugin-rs library, which helps authors of Icinga2 and
Nagios check plugins report a check's outcome. A plugin reports through its
process exit code and one line of text on standard output. Icinga2 parses that
text with a fixed grammar.

- `wrappers.dfy` (module `Wrappers`): `Option` and `Result`.
- `check.dfy` (module `Check`, from `src/check.rs`): the four check states with
  their exit codes and upper-case names. A `Metric` is one performance
  measurement, rendered as `'label'=value;warn;crit;min;max`. `PerfData` is an
  ordered sequence of metrics, each rendered followed by one space. A `CheckResult`
  is a state, an optional info text and optional performance data, rendered by
  one of four templates. `Promote` emits a result.
- `utils.dfy` (module `Utils`, from `src/utils.rs`): the threshold evaluator.
  It classifies a value against a warning and a critical threshold. The
  thresholds' order gives the direction. Equal thresholds are refused.

Rust's consuming setters (`warning`, `set_info`, ...) take the value and return
it updated. They are modelled as record updates on datatypes (`WithWarning`,
`SetInfo`, ...). The display of `PerfData` appends to a mutable string in a
loop. It is modelled by the method `RenderPerfData`, which is proved against
the recursive specification `PerfDataText`.

The grammar properties are stated with `Fields(s, d)`, the pieces of `s`
between occurrences of `d`. They assume the caller's texts do not contain the
delimiter. The library leaves that to the caller and does not check it.

## Model

| member | source | states |
|---|---|---|
| `Check.StateName` | src/check.rs:348-357 | the display name of a state is non-empty and contains no space |
| `Check.StateStr` | src/check.rs:372-381 | the `&str` conversion gives the same text as the display |
| `Check.StateString` | src/check.rs:383-392 | the `String` conversion gives the same text as the display |
| `Check.ExitCode` | src/check.rs:360-369 | the exit code lies in 0..3 and is 3 exactly for Unknown |
| `Check.StateEncodingsInjective` | src/check.rs:348-369 | distinct states have distinct exit codes and distinct names |
| `Check.NewMetric` | src/check.rs:249-258 | a new metric keeps label and value, has no warning, critical, min or max, and renders as `'label'=value;;;;` |
| `Check.Metric.WithWarning` | src/check.rs:274-277 | sets the warning threshold and changes no other field; rendering effect in `SettersReplaceOneField` |
| `Check.Metric.WithCritical` | src/check.rs:293-296 | sets the critical threshold and changes no other field; rendering effect in `SettersReplaceOneField` |
| `Check.Metric.WithMin` | src/check.rs:312-315 | sets the minimum and changes no other field; rendering effect in `SettersReplaceOneField` |
| `Check.Metric.WithMax` | src/check.rs:331-334 | sets the maximum and changes no other field; rendering effect in `SettersReplaceOneField` |
| `Check.MetricText` | src/check.rs:222-231 | the display of a metric: it starts with a quote and is seven characters longer than its six texts together; its grammar is stated by `MetricTextFields` |
| `Check.MetricTextFields` | src/check.rs:222-231 | split on `;`, a metric's text has exactly five fields: `'label'=value`, then warning, critical, min and max, absent ones empty |
| `Check.SettersReplaceOneField` | src/check.rs:274-334 | each of `warning`, `critical`, `min`, `max` replaces exactly its own field of the rendered text |
| `Check.SettersFrame` | src/check.rs:274-334 | each setter sets its own field and keeps label, value and the other three; a second call overwrites the first |
| `Check.ThresholdExamples` | src/check.rs:268-291 | the documented renderings `;5;;;` and `;;5;;` |
| `Check.BoundExamples` | src/check.rs:306-329 | the documented renderings `;;;5;` and `;;;;5` |
| `Check.FromMetric` | src/check.rs:166-170 | wraps exactly the one metric; renders as its text plus one space |
| `Check.FromMetrics` | src/check.rs:185-189 | keeps the given metrics and their order; the text is empty exactly when there are none |
| `Check.PerfDataText` | src/check.rs:193-201 | the specification of the performance-data display: at least eight characters per metric; its shape is stated by `PerfDataTextAppend`, `PerfDataTextAt` and `PerfDataTextEmpty` |
| `Check.PerfDataTextAppend` | src/check.rs:193-201 | the text of a concatenation of metric sequences is the concatenation of their texts |
| `Check.PerfDataTextAt` | src/check.rs:193-201 | metric i appears, followed by one space, between the texts of the metrics before and after it |
| `Check.PerfDataTextEmpty` | src/check.rs:193-201 | the text is empty exactly for no metrics and otherwise ends in a space |
| `Check.RenderPerfData` | src/check.rs:193-201 | the accumulating loop produces exactly the in-order text: each metric followed by one space |
| `Check.PerfDataSingleExample` | src/check.rs:162-165 | the documented rendering `'label'=value;;;; ` |
| `Check.PerfDataPairExample` | src/check.rs:181-184 | the documented two-metric rendering, trailing space included |
| `Check.NewCheckResult` | src/check.rs:71-77 | a new result has the given state, no info, no performance data, and renders as the state's name |
| `Check.CheckResult.SetInfo` | src/check.rs:92-95 | sets the info text and changes no other field |
| `Check.CheckResult.SetPerfData` | src/check.rs:111-114 | sets the performance data and changes no other field |
| `Check.CheckResult.GetState` | src/check.rs:124-126 | returns the result's state as it is; `ResultSettersFrame` shows the builder steps keep it |
| `Check.FromExitCode` | src/check.rs:46-53 | statuses 0, 1, 2 give the state with that exit code; every other status gives Unknown; no info, no performance data |
| `Check.ExitCodeRoundTrip` | src/check.rs:360-369 | converting a state to its exit code and back gives the same state |
| `Check.FromExitCodeRoundTrip` | src/check.rs:33-53 | status to state to exit code keeps 0, 1, 2 and sends everything else to 3 |
| `Check.ResultText` | src/check.rs:16-30 | the display of a result: it starts with the state's name and is exactly that name when neither info nor performance data is set; the four templates are stated by `ResultTemplates` |
| `Check.ResultTemplates` | src/check.rs:16-30 | the four templates reached by the builder chains: the state's name, then ` - ` and the info when set, then a space, a vertical bar, a space and the performance-data text when set |
| `Check.ResultSettersFrame` | src/check.rs:92-126 | `set_info` and `set_perf_data` change only their own field, keep the state, overwrite on a second call and commute |
| `Check.ResultTextLeadingWord` | src/check.rs:16-30 | a result's text starts with its state's name, ended by a space or by the end of the text |
| `Check.ResultTextDeterminesState` | src/check.rs:16-30 | two results with the same text have the same state |
| `Check.ResultExamples` | src/check.rs:42-90 | the documented renderings `OK` and `OK - Everything fine.`, and statuses 0 and 115 |
| `Check.ResultPerfDataExample` | src/check.rs:105-109 | the documented rendering of an OK result carrying the one-metric performance data `'label'=value;;;; ` |
| `Check.Promote` | src/check.rs:135-139 | the emitted line is the result's text plus a newline; the exit code lies in 0..3 and converts back to the result's state |
| `Utils.Evaluate` | src/utils.rs:31-62 | fails exactly when the thresholds are equal; otherwise the result is the bare result of some exit code 0, 1 or 2 |
| `Utils.EqualThresholdsRefused` | src/utils.rs:40-42 | equal thresholds are refused whatever the value |
| `Utils.EvaluateAscending` | src/utils.rs:45-53 | with warn < crit: Critical iff value >= crit, Warning iff warn <= value < crit, OK iff value < warn |
| `Utils.EvaluateDescending` | src/utils.rs:55-61 | with warn > crit: Critical iff value <= crit, Warning iff crit < value <= warn, OK iff value > warn |
| `Utils.BoundariesInclusive` | src/utils.rs:45-61 | a value equal to crit is Critical and a value equal to warn is Warning, in both directions |
| `Utils.EvaluateCountsBreaches` | src/utils.rs:45-61 | the exit code equals the number of thresholds the value breaches in the thresholds' direction |
| `Utils.EvaluateMirror` | src/utils.rs:40-61 | negating value and both thresholds leaves the outcome unchanged, so the descending case mirrors the ascending one |
| `Utils.EvaluateMonotone` | src/utils.rs:45-61 | with ascending thresholds the exit code never falls as the value grows; with descending thresholds it never rises |
| `Utils.EvaluateExamples` | src/utils.rs:19-29 | the documented table (0,3,4), (5,3.2,7), (3,2.99,3), (2,1,0), (2,3,2.5) and the refusal of (1,2,2) |
| `Utils.EvaluateUnitTests` | src/lib.rs:9-40 | the library's unit-test evaluations with mixed integer and fractional inputs |

## Left out

- Printing: `promote` writes the result's text to standard output. `Promote` returns that line, with its newline, together with the exit code.
- Rust's `fmt::Formatter` and `write!` machinery: every display is a function that returns a `string`.
- Numeric conversion: `evaluate` takes any three types that convert into `f64` without loss (the 8-, 16- and 32-bit integers, `bool`, `f32` and `f64`). The model takes three `real`s, so NaN and signed zero are not modelled. Every comparison with NaN is false. A NaN value therefore gives OK in both directions. A NaN threshold sends evaluation to the descending branch: a NaN warning threshold gives Critical when value <= crit and OK otherwise; a NaN critical threshold gives Warning when value <= warn and OK otherwise.
- The `panic!` on equal thresholds becomes the error value `Failure(EqualThresholds)`.
- The derived `Clone`, `Debug` and `PartialEq`: datatype values and their equality stand in for them.
- Integer widths: the status taken by `CheckResult::from` is a `usize`, modelled as `nat`. Every status above 2 gives Unknown either way. Exit codes are 0..3, which fit an `i32`.
- Label sanitising: the library does not check that labels and values are free of the delimiters `'`, `=` and `;`, and neither does the model. The grammar lemmas assume it for `;` only.
