/**
 * The result and performance-data model of a monitoring check plugin, with the
 * exact text that Icinga2 (and Nagios-compatible cores) parse: a `State` with
 * its exit code and upper-case name, a `Metric` in the performance-data
 * grammar `'label'=value;warn;crit;min;max`, an ordered `PerfData` sequence
 * of metrics, and the `CheckResult` that combines a state, an optional info text
 * and optional performance data.
 */
module Check {
  import opened Wrappers

  // ---------------------------------------------------------------------------
  // State
  // ---------------------------------------------------------------------------

  /** The four check states known to Icinga2. */
  datatype State = OK | Warning | Critical | Unknown

  /** The display text of a state: its upper-case name. */
  function StateName(s: State): (name: string)
    ensures |name| > 0
    ensures ' ' !in name
  {
    match s
    case OK => "OK"
    case Warning => "WARNING"
    case Critical => "CRITICAL"
    case Unknown => "UNKNOWN"
  }

  /** The conversion of a state into a borrowed string slice. */
  function StateStr(s: State): (text: string)
    ensures text == StateName(s)
  {
    match s
    case OK => "OK"
    case Warning => "WARNING"
    case Critical => "CRITICAL"
    case Unknown => "UNKNOWN"
  }

  /** The conversion of a state into an owned string. */
  function StateString(s: State): (text: string)
    ensures text == StateName(s)
  {
    match s
    case OK => "OK"
    case Warning => "WARNING"
    case Critical => "CRITICAL"
    case Unknown => "UNKNOWN"
  }

  /** The process exit code of a state, as a 32-bit signed integer. */
  function ExitCode(s: State): (code: int)
    ensures 0 <= code <= 3
    ensures code == 3 <==> s == Unknown
  {
    match s
    case OK => 0
    case Warning => 1
    case Critical => 2
    case Unknown => 3
  }

  /** Distinct states have distinct exit codes and distinct names. */
  lemma StateEncodingsInjective(s: State, t: State)
    ensures ExitCode(s) == ExitCode(t) ==> s == t
    ensures StateName(s) == StateName(t) ==> s == t
  {
  }

  // ---------------------------------------------------------------------------
  // Metric
  // ---------------------------------------------------------------------------

  /**
   * One performance measurement. Label and value are opaque, already
   * formatted text; the four thresholds are optional opaque text.
   */
  datatype Metric = Metric(
    labelText: string,
    value: string,
    warning: Option<string>,
    critical: Option<string>,
    min: Option<string>,
    max: Option<string>)
  {
    /** Builder step: set the warning threshold. */
    function WithWarning(text: string): (r: Metric)
      ensures r.warning == Some(text)
      ensures r.(warning := warning) == this
    {
      this.(warning := Some(text))
    }

    /** Builder step: set the critical threshold. */
    function WithCritical(text: string): (r: Metric)
      ensures r.critical == Some(text)
      ensures r.(critical := critical) == this
    {
      this.(critical := Some(text))
    }

    /** Builder step: set the minimum value. */
    function WithMin(text: string): (r: Metric)
      ensures r.min == Some(text)
      ensures r.(min := min) == this
    {
      this.(min := Some(text))
    }

    /** Builder step: set the maximum value. */
    function WithMax(text: string): (r: Metric)
      ensures r.max == Some(text)
      ensures r.(max := max) == this
    {
      this.(max := Some(text))
    }
  }

  /** A metric with a label and a value and no thresholds. */
  function NewMetric(labelText: string, value: string): (m: Metric)
    ensures MetricText(m) == "'" + labelText + "'=" + value + ";;;;"
    ensures m.labelText == labelText && m.value == value
    ensures m.warning == None && m.critical == None && m.min == None && m.max == None
  {
    Metric(labelText, value, None, None, None, None)
  }

  /** The text of an optional field: empty when absent. */
  function OrEmpty(field: Option<string>): string {
    field.GetOr("")
  }

  /** The performance-data text of one metric. */
  function MetricText(m: Metric): (text: string)
    ensures |text| == |m.labelText| + |m.value| + |OrEmpty(m.warning)| + |OrEmpty(m.critical)|
      + |OrEmpty(m.min)| + |OrEmpty(m.max)| + 7
    ensures text[0] == '\''
  {
    "'" + m.labelText + "'=" + m.value + ";" + OrEmpty(m.warning) + ";" + OrEmpty(m.critical)
      + ";" + OrEmpty(m.min) + ";" + OrEmpty(m.max)
  }

  /** The part of a metric's text before its first semicolon. */
  function MetricHead(m: Metric): string {
    "'" + m.labelText + "'=" + m.value
  }

  /** None of the metric's texts contains the field delimiter `;`. */
  predicate SemicolonFree(m: Metric) {
    && ';' !in m.labelText && ';' !in m.value
    && ';' !in OrEmpty(m.warning) && ';' !in OrEmpty(m.critical)
    && ';' !in OrEmpty(m.min) && ';' !in OrEmpty(m.max)
  }

  /** The pieces of `s` between occurrences of the delimiter `d`. */
  function Fields(s: string, d: char): (r: seq<string>)
    ensures |r| >= 1
  {
    if s == [] then [""]
    else if s[0] == d then [""] + Fields(s[1..], d)
    else
      var rest := Fields(s[1..], d);
      [[s[0]] + rest[0]] + rest[1..]
  }

  /** Text without the delimiter is a single field. */
  lemma {:induction false} FieldsOfPlainText(a: string, d: char)
    requires d !in a
    ensures Fields(a, d) == [a]
  {
    if a != [] {
      FieldsOfPlainText(a[1..], d);
      assert [a[0]] + a[1..] == a;
    }
  }

  /** A delimiter after delimiter-free text ends exactly one field. */
  lemma {:induction false} FieldsAfterDelimiter(a: string, d: char, b: string)
    requires d !in a
    ensures Fields(a + [d] + b, d) == [a] + Fields(b, d)
  {
    if a == [] {
      assert a + [d] + b == [d] + b;
      assert ([d] + b)[1..] == b;
    } else {
      assert (a + [d] + b)[1..] == a[1..] + [d] + b;
      FieldsAfterDelimiter(a[1..], d, b);
      assert [a[0]] + a[1..] == a;
    }
  }

  /**
   * The grammar of a metric's text: split on `;` it yields exactly five
   * fields (so there are always four semicolons), the quoted label with its
   * value followed by the four optional fields, absent ones as empty text.
   */
  lemma MetricTextFields(m: Metric)
    requires SemicolonFree(m)
    ensures Fields(MetricText(m), ';') == [MetricHead(m), OrEmpty(m.warning),
      OrEmpty(m.critical), OrEmpty(m.min), OrEmpty(m.max)]
  {
    var h, w, c, lo, hi := MetricHead(m), OrEmpty(m.warning), OrEmpty(m.critical),
      OrEmpty(m.min), OrEmpty(m.max);
    assert ';' !in h;
    assert MetricText(m) == h + [';'] + (w + [';'] + (c + [';'] + (lo + [';'] + hi)));
    FieldsAfterDelimiter(h, ';', w + [';'] + (c + [';'] + (lo + [';'] + hi)));
    FieldsAfterDelimiter(w, ';', c + [';'] + (lo + [';'] + hi));
    FieldsAfterDelimiter(c, ';', lo + [';'] + hi);
    FieldsAfterDelimiter(lo, ';', hi);
    FieldsOfPlainText(hi, ';');
  }

  /**
   * Each builder step replaces exactly its own field of the rendered metric
   * (warning is field 1, critical 2, min 3, max 4) and leaves the others.
   */
  lemma SettersReplaceOneField(m: Metric, t: string)
    requires SemicolonFree(m) && ';' !in t
    ensures |Fields(MetricText(m), ';')| == 5
    ensures Fields(MetricText(m.WithWarning(t)), ';') == Fields(MetricText(m), ';')[1 := t]
    ensures Fields(MetricText(m.WithCritical(t)), ';') == Fields(MetricText(m), ';')[2 := t]
    ensures Fields(MetricText(m.WithMin(t)), ';') == Fields(MetricText(m), ';')[3 := t]
    ensures Fields(MetricText(m.WithMax(t)), ';') == Fields(MetricText(m), ';')[4 := t]
  {
    MetricTextFields(m);
    MetricTextFields(m.WithWarning(t));
    MetricTextFields(m.WithCritical(t));
    MetricTextFields(m.WithMin(t));
    MetricTextFields(m.WithMax(t));
  }

  /**
   * Each builder step sets its own field, keeps label, value and the other
   * three thresholds, and a second call of the same step overwrites the first.
   */
  lemma SettersFrame(m: Metric, t: string, u: string)
    ensures var r := m.WithWarning(t);
      r.warning == Some(t) && r.labelText == m.labelText && r.value == m.value
      && r.critical == m.critical && r.min == m.min && r.max == m.max
    ensures var r := m.WithCritical(t);
      r.critical == Some(t) && r.labelText == m.labelText && r.value == m.value
      && r.warning == m.warning && r.min == m.min && r.max == m.max
    ensures var r := m.WithMin(t);
      r.min == Some(t) && r.labelText == m.labelText && r.value == m.value
      && r.warning == m.warning && r.critical == m.critical && r.max == m.max
    ensures var r := m.WithMax(t);
      r.max == Some(t) && r.labelText == m.labelText && r.value == m.value
      && r.warning == m.warning && r.critical == m.critical && r.min == m.min
    ensures m.WithWarning(t).WithWarning(u) == m.WithWarning(u)
    ensures m.WithCritical(t).WithCritical(u) == m.WithCritical(u)
    ensures m.WithMin(t).WithMin(u) == m.WithMin(u)
    ensures m.WithMax(t).WithMax(u) == m.WithMax(u)
  {
  }

  /** The rendered examples of a metric with a warning or a critical threshold. */
  lemma ThresholdExamples()
    ensures MetricText(NewMetric("label", "value").WithWarning("5")) == "'label'=value;5;;;"
    ensures MetricText(NewMetric("label", "value").WithCritical("5")) == "'label'=value;;5;;"
  {
  }

  /** The rendered examples of a metric with a minimum or a maximum. */
  lemma BoundExamples()
    ensures MetricText(NewMetric("label", "value").WithMin("5")) == "'label'=value;;;5;"
    ensures MetricText(NewMetric("label", "value").WithMax("5")) == "'label'=value;;;;5"
  {
  }

  // ---------------------------------------------------------------------------
  // PerfData
  // ---------------------------------------------------------------------------

  /** An ordered collection of metrics; the order is the display order. */
  datatype PerfData = PerfData(metrics: seq<Metric>)

  /** Performance data wrapping a single metric. */
  function FromMetric(m: Metric): (pd: PerfData)
    ensures |pd.metrics| == 1 && pd.metrics[0] == m
    ensures PerfDataText(pd.metrics) == MetricText(m) + " "
  {
    PerfData([m])
  }

  /** Performance data wrapping a sequence of metrics, order and all. */
  function FromMetrics(ms: seq<Metric>): (pd: PerfData)
    ensures pd.metrics == ms
    ensures PerfDataText(pd.metrics) == "" <==> ms == []
  {
    PerfDataTextEmpty(ms);
    PerfData(ms)
  }

  /** Specification of the performance-data text: each metric followed by one space. */
  function PerfDataText(ms: seq<Metric>): (text: string)
    ensures |text| >= 8 * |ms|
  {
    if ms == [] then "" else MetricText(ms[0]) + " " + PerfDataText(ms[1..])
  }

  /** The text of a concatenation is the concatenation of the texts. */
  lemma {:induction false} PerfDataTextAppend(a: seq<Metric>, b: seq<Metric>)
    ensures PerfDataText(a + b) == PerfDataText(a) + PerfDataText(b)
  {
    if a == [] {
      assert a + b == b;
    } else {
      assert (a + b)[0] == a[0];
      assert (a + b)[1..] == a[1..] + b;
      PerfDataTextAppend(a[1..], b);
    }
  }

  /**
   * Metric `i` appears, followed by one space, right after the text of the
   * metrics before it and right before the text of the metrics after it.
   */
  lemma PerfDataTextAt(ms: seq<Metric>, i: nat)
    requires i < |ms|
    ensures PerfDataText(ms)
      == PerfDataText(ms[..i]) + MetricText(ms[i]) + " " + PerfDataText(ms[i + 1..])
  {
    var rest := ms[i..];
    assert ms == ms[..i] + rest;
    PerfDataTextAppend(ms[..i], rest);
    assert rest[0] == ms[i] && rest[1..] == ms[i + 1..];
    assert PerfDataText(rest) == MetricText(ms[i]) + " " + PerfDataText(ms[i + 1..]);
    ConcatRegroup(PerfDataText(ms[..i]), MetricText(ms[i]), " ", PerfDataText(ms[i + 1..]));
  }

  /** Regrouping a concatenation of four texts. */
  lemma ConcatRegroup(a: string, b: string, c: string, d: string)
    ensures a + (b + c + d) == a + b + c + d
  {
  }

  /** The text is empty exactly for no metrics, and otherwise ends in a space. */
  lemma {:induction false} PerfDataTextEmpty(ms: seq<Metric>)
    ensures PerfDataText(ms) == "" <==> ms == []
    ensures ms != [] ==> PerfDataText(ms)[|PerfDataText(ms)| - 1] == ' '
  {
    if ms != [] {
      PerfDataTextEmpty(ms[1..]);
    }
  }

  /**
   * The display of performance data: append each metric's text and one
   * space to an accumulator, in order.
   */
  method RenderPerfData(pd: PerfData) returns (output: string)
    ensures output == PerfDataText(pd.metrics)
  {
    output := "";
    for i := 0 to |pd.metrics|
      invariant output == PerfDataText(pd.metrics[..i])
    {
      var metric := pd.metrics[i];
      assert pd.metrics[..i + 1] == pd.metrics[..i] + [metric];
      PerfDataTextAppend(pd.metrics[..i], [metric]);
      assert PerfDataText([metric]) == MetricText(metric) + " " by {
        assert [metric][1..] == [];
      }
      output := output + (MetricText(metric) + " ");
    }
    assert pd.metrics[..|pd.metrics|] == pd.metrics;
  }

  /** The rendered example of a single metric. */
  lemma PerfDataSingleExample()
    ensures PerfDataText(FromMetric(NewMetric("label", "value")).metrics) == "'label'=value;;;; "
  {
  }

  /** The texts of the two metrics of the two-metric example. */
  lemma PairMetricTexts()
    ensures MetricText(NewMetric("label1", "value1")) + " " == "'label1'=value1;;;; "
    ensures MetricText(NewMetric("label2", "value2")) + " " == "'label2'=value2;;;; "
  {
  }

  /** The rendered example of two metrics: each followed by one space, the last one too. */
  lemma PerfDataPairExample()
    ensures PerfDataText(FromMetrics([NewMetric("label1", "value1"),
      NewMetric("label2", "value2")]).metrics) == "'label1'=value1;;;; 'label2'=value2;;;; "
  {
    var m1, m2 := NewMetric("label1", "value1"), NewMetric("label2", "value2");
    var t1, t2 := MetricText(m1) + " ", MetricText(m2) + " ";
    assert PerfDataText([m2]) == t2 by {
      assert [m2][1..] == [];
    }
    assert PerfDataText([m1, m2]) == t1 + t2 by {
      assert [m1, m2][1..] == [m2];
    }
    PairMetricTexts();
  }

  // ---------------------------------------------------------------------------
  // CheckResult
  // ---------------------------------------------------------------------------

  /** A complete check result: a state, an optional info text, optional performance data. */
  datatype CheckResult = CheckResult(state: State, info: Option<string>, perfData: Option<PerfData>)
  {
    /** Builder step: set the info text. */
    function SetInfo(text: string): (r: CheckResult)
      ensures r.info == Some(text)
      ensures r.(info := info) == this
    {
      this.(info := Some(text))
    }

    /** Builder step: set the performance data. */
    function SetPerfData(pd: PerfData): (r: CheckResult)
      ensures r.perfData == Some(pd)
      ensures r.(perfData := perfData) == this
    {
      this.(perfData := Some(pd))
    }

    /** The state of the result. */
    function GetState(): (s: State)
      ensures s == state
    {
      state
    }
  }

  /** A bare result: the given state, no info, no performance data. */
  function NewCheckResult(s: State): (r: CheckResult)
    ensures r.GetState() == s
    ensures r.info == None && r.perfData == None
    ensures ResultText(r) == StateName(s)
  {
    CheckResult(s, None, None)
  }

  /**
   * A bare result from an expected exit status: 0, 1 and 2 give OK, Warning
   * and Critical, every other status gives Unknown.
   */
  function FromExitCode(n: nat): (r: CheckResult)
    ensures r.info == None && r.perfData == None
    ensures n <= 2 ==> ExitCode(r.GetState()) == n
    ensures n > 2 ==> r.GetState() == Unknown
  {
    match n
    case 0 => NewCheckResult(OK)
    case 1 => NewCheckResult(Warning)
    case 2 => NewCheckResult(Critical)
    case _ => NewCheckResult(Unknown)
  }

  /** Converting a state to its exit code and back gives the state again. */
  lemma ExitCodeRoundTrip(s: State)
    ensures FromExitCode(ExitCode(s)).GetState() == s
    ensures FromExitCode(ExitCode(s)) == NewCheckResult(s)
  {
  }

  /** Status to state and back to a code: 0, 1 and 2 are kept, everything else becomes 3. */
  lemma FromExitCodeRoundTrip(n: nat)
    ensures ExitCode(FromExitCode(n).GetState()) == if n <= 2 then n else 3
  {
  }

  /** The text of a result: one of four templates, by presence of info and performance data. */
  function ResultText(r: CheckResult): (text: string)
    ensures StateName(r.state) <= text
    ensures text == StateName(r.state) <==> r.info == None && r.perfData == None
  {
    match (r.info, r.perfData)
    case (Some(i), Some(pd)) => StateName(r.state) + " - " + i + " | " + PerfDataText(pd.metrics)
    case (Some(i), None) => StateName(r.state) + " - " + i
    case (None, Some(pd)) => StateName(r.state) + " | " + PerfDataText(pd.metrics)
    case (None, None) => StateName(r.state)
  }

  /** The four templates, reached by the builder chains a plugin writes. */
  lemma ResultTemplates(s: State, i: string, pd: PerfData)
    ensures ResultText(NewCheckResult(s).SetInfo(i).SetPerfData(pd))
      == StateName(s) + " - " + i + " | " + PerfDataText(pd.metrics)
    ensures ResultText(NewCheckResult(s).SetInfo(i)) == StateName(s) + " - " + i
    ensures ResultText(NewCheckResult(s).SetPerfData(pd))
      == StateName(s) + " | " + PerfDataText(pd.metrics)
    ensures ResultText(NewCheckResult(s)) == StateName(s)
  {
  }

  /**
   * The builder steps of a result change only their own field, keep the
   * state, overwrite on a second call, and may be applied in either order.
   */
  lemma ResultSettersFrame(r: CheckResult, i: string, j: string, pd: PerfData, qd: PerfData)
    ensures r.SetInfo(i).info == Some(i)
    ensures r.SetInfo(i).GetState() == r.GetState() && r.SetInfo(i).perfData == r.perfData
    ensures r.SetPerfData(pd).perfData == Some(pd)
    ensures r.SetPerfData(pd).GetState() == r.GetState() && r.SetPerfData(pd).info == r.info
    ensures r.SetInfo(i).SetInfo(j) == r.SetInfo(j)
    ensures r.SetPerfData(pd).SetPerfData(qd) == r.SetPerfData(qd)
    ensures r.SetInfo(i).SetPerfData(pd) == r.SetPerfData(pd).SetInfo(i)
  {
  }

  /** The text up to (not including) the first space. */
  function LeadingWord(s: string): string {
    if s == [] || s[0] == ' ' then "" else [s[0]] + LeadingWord(s[1..])
  }

  /** A space-free word followed by nothing or by a space is the leading word. */
  lemma {:induction false} LeadingWordOf(a: string, b: string)
    requires ' ' !in a
    requires b == [] || b[0] == ' '
    ensures LeadingWord(a + b) == a
  {
    if a == [] {
      assert a + b == b;
    } else {
      assert (a + b)[1..] == a[1..] + b;
      LeadingWordOf(a[1..], b);
      assert [a[0]] + a[1..] == a;
    }
  }

  /** A result's text starts with the state's name, ended by a space or by the text's end. */
  lemma ResultTextLeadingWord(r: CheckResult)
    ensures LeadingWord(ResultText(r)) == StateName(r.GetState())
  {
    var name := StateName(r.state);
    match (r.info, r.perfData)
    case (Some(i), Some(pd)) =>
      assert ResultText(r) == name + (" - " + i + " | " + PerfDataText(pd.metrics));
      LeadingWordOf(name, " - " + i + " | " + PerfDataText(pd.metrics));
    case (Some(i), None) =>
      assert ResultText(r) == name + (" - " + i);
      LeadingWordOf(name, " - " + i);
    case (None, Some(pd)) =>
      assert ResultText(r) == name + (" | " + PerfDataText(pd.metrics));
      LeadingWordOf(name, " | " + PerfDataText(pd.metrics));
    case (None, None) =>
      assert ResultText(r) == name + "";
      LeadingWordOf(name, "");
  }

  /** Two results with the same text have the same state. */
  lemma ResultTextDeterminesState(r: CheckResult, q: CheckResult)
    requires ResultText(r) == ResultText(q)
    ensures r.GetState() == q.GetState()
  {
    ResultTextLeadingWord(r);
    ResultTextLeadingWord(q);
    StateEncodingsInjective(r.state, q.state);
  }

  /** The rendered examples of a bare result and of one with an info text. */
  lemma ResultExamples()
    ensures ResultText(NewCheckResult(OK)) == "OK"
    ensures ResultText(NewCheckResult(OK).SetInfo("Everything fine.")) == "OK - Everything fine."
    ensures FromExitCode(0).GetState() == OK && FromExitCode(115).GetState() == Unknown
  {
  }

  /** The rendered example of a result with performance data and no info. */
  lemma ResultPerfDataExample()
    ensures ResultText(FromExitCode(0).SetPerfData(FromMetric(NewMetric("label", "value"))))
      == "OK | 'label'=value;;;; "
  {
    PerfDataSingleExample();
  }

  /** What emitting a result produces: the line written to standard output and the exit code. */
  datatype Emission = Emission(output: string, exitCode: int)

  /**
   * Emit a result: its text plus a newline goes to standard output, and the
   * exit code is that of its state.
   */
  function Promote(r: CheckResult): (e: Emission)
    ensures e.output == ResultText(r) + "\n"
    ensures 0 <= e.exitCode <= 3
    ensures FromExitCode(e.exitCode).GetState() == r.GetState()
  {
    Emission(ResultText(r) + "\n", ExitCode(r.state))
  }
}
