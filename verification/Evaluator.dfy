/** Rule scoring of a run and the verdict, and why scoring from the log agrees with scoring live. */
module Evaluator {
  import opened Prelude
  import opened Recording
  import Session

  datatype CheckType =
    | ExitCode | NoErrors | StdoutContains | StdoutNotContains | StdoutRegex | FileExists
    | MaxExecutionTime | InstrumentedTests | HarnessVerification | DeviceActionCount | Pytest

  /** A check's value as the rules read it: absent, truthy, as text, and as a number if it converts to one. */
  datatype Value = Value(absent: bool, truthy: bool, text: string, asInt: Option<int>, asFloat: Option<real>)

  datatype Check = Check(kind: CheckType, value: Value, weight: real, name: string)

  /** Counts of a test report. */
  datatype Report = Report(passed: int, failed: int, errors: int)

  datatype Verification = Verification(exitCode: Option<int>)

  datatype Context = Context(results: seq<ExecResult>, files: set<string>, pytest: Option<Report>,
                             instrument: Option<Report>, verification: Option<Verification>)

  /** Text processing this model does not define: pattern refusal, pattern search, the pytest summary. */
  datatype TextRules = TextRules(refused: string -> bool, matches: (string, string) -> bool, summary: string -> Report)

  datatype Item = Item(name: string, score: real, passed: bool, weight: real, rule: bool)

  const MAX_REGEX_INPUT := 64_000

  // ---- the rules ------------------------------------------------------------------------

  function Combined(rs: seq<ExecResult>): string {
    if rs == [] then ""
    else if |rs| == 1 then Output(rs[0])
    else Combined(rs[..|rs| - 1]) + "\n" + Output(rs[|rs| - 1])
  }

  predicate Contains(text: string, part: string) {
    |part| <= |text| && (text[..|part|] == part || (text != "" && Contains(text[1..], part)))
  }

  function Tail(text: string): string {
    if |text| <= MAX_REGEX_INPUT then text else text[|text| - MAX_REGEX_INPUT..]
  }

  function DeviceActions(rs: seq<ExecResult>): nat {
    if rs == [] then 0 else DeviceActions(rs[..|rs| - 1]) + if rs[|rs| - 1].kind.Device? then 1 else 0
  }

  function Rated(c: Check, score: real, passed: bool): Item {
    Item(c.name, score, passed, c.weight, true)
  }

  function Binary(c: Check, ok: bool): Item {
    Rated(c, if ok then 1.0 else 0.0, ok)
  }

  /** The rule raised: it scores nothing. */
  function Failed(c: Check): Item {
    Rated(c, 0.0, false)
  }

  function ShareOf(passed: int, failed: int): real {
    if passed + failed == 0 then 0.0 else passed as real / (passed + failed) as real
  }

  /** Share of passed tests against the required share, which is all of them by default. */
  function Share(c: Check, passed: int, failed: int): Item {
    var total, score := passed + failed, ShareOf(passed, failed);
    if c.value.absent then Rated(c, score, total > 0 && score >= 1.0)
    else if c.value.asFloat.None? then Failed(c)
    else Rated(c, score, total > 0 && score >= c.value.asFloat.value)
  }

  /** The rule for instrumented tests looks at the required share only if the total is positive. */
  function InstrumentedShare(c: Check, passed: int, failed: int): Item {
    if passed + failed > 0 then Share(c, passed, failed) else Rated(c, ShareOf(passed, failed), false)
  }

  function ErrorShare(c: Check, errors: nat, all: nat): Item {
    if errors == 0 then Binary(c, true)
    else
      var score := 1.0 - errors as real / Max(1, all) as real;
      Rated(c, if score < 0.0 then 0.0 else score, false)
  }

  function TimeShare(c: Check, total: real, limit: real): Item {
    if total <= limit then Binary(c, true)
    else if total == 0.0 then Failed(c)
    else Rated(c, if limit / total < 0.0 then 0.0 else limit / total, false)
  }

  function One(t: TextRules, c: Check, x: Context): Item {
    match c.kind
    case ExitCode =>
      if !c.value.absent && c.value.asInt.None? then Failed(c)
      else
        var want := if c.value.absent then 0 else c.value.asInt.value;
        Binary(c, x.results != [] && x.results[|x.results| - 1].exitCode == Some(want))
    case NoErrors => ErrorShare(c, Errors(x.results), |x.results|)
    case StdoutContains => Binary(c, Contains(Combined(x.results), c.value.text))
    case StdoutNotContains => Binary(c, !Contains(Combined(x.results), c.value.text))
    case StdoutRegex => Binary(c, !t.refused(c.value.text) && t.matches(c.value.text, Tail(Combined(x.results))))
    case FileExists => Binary(c, c.value.text in x.files)
    case MaxExecutionTime =>
      if c.value.asFloat.None? then Failed(c)
      else TimeShare(c, TotalTime(x.results), c.value.asFloat.value)
    case InstrumentedTests =>
      if x.instrument.None? then InstrumentedShare(c, 0, 0)
      else InstrumentedShare(c, x.instrument.value.passed, x.instrument.value.failed)
    case HarnessVerification => Binary(c, x.verification.Some? && x.verification.value.exitCode == Some(0))
    case DeviceActionCount =>
      if c.value.truthy && c.value.asInt.None? then Failed(c)
      else Binary(c, DeviceActions(x.results) >= if c.value.truthy then c.value.asInt.value else 1)
    case Pytest =>
      var r := if x.pytest.Some? then x.pytest.value else t.summary(Combined(x.results));
      Share(c, r.passed, r.failed + r.errors)
  }

  function Evaluate(t: TextRules, checks: seq<Check>, x: Context): seq<Item> {
    seq(|checks|, i requires 0 <= i < |checks| => One(t, checks[i], x))
  }

  // ---- the verdict ------------------------------------------------------------------------

  function Weight(items: seq<Item>): real {
    if items == [] then 0.0 else Weight(items[..|items| - 1]) + items[|items| - 1].weight
  }

  function Points(items: seq<Item>): real {
    if items == [] then 0.0 else Points(items[..|items| - 1]) + items[|items| - 1].score * items[|items| - 1].weight
  }

  /** The overall score, before it is rounded for display. */
  function Score(items: seq<Item>): real {
    Points(items) / if Weight(items) == 0.0 then 1.0 else Weight(items)
  }

  predicate Passes(items: seq<Item>, threshold: real) {
    && Score(items) >= threshold
    && forall i :: 0 <= i < |items| && items[i].rule && items[i].weight >= 1.0 ==> items[i].passed
  }

  // ---- scores stay in range -------------------------------------------------------------------

  predicate InUnit(s: real) {
    0.0 <= s <= 1.0
  }

  /** A limit below a negative total: dividing them gives more than one. */
  predicate NegativeTimes(c: Check, x: Context) {
    c.kind.MaxExecutionTime? && c.value.asFloat.Some? && c.value.asFloat.value < TotalTime(x.results) < 0.0
  }

  /** The counts a test rule divides: passed and not passed. */
  function Counts(t: TextRules, c: Check, x: Context): (int, int) {
    if c.kind.InstrumentedTests? then
      if x.instrument.None? then (0, 0) else (x.instrument.value.passed, x.instrument.value.failed)
    else if c.kind.Pytest? then
      var r := if x.pytest.Some? then x.pytest.value else t.summary(Combined(x.results));
      (r.passed, r.failed + r.errors)
    else (0, 0)
  }

  /** The required share is a number, or is never looked at. */
  predicate Converts(c: Check, total: int) {
    c.value.absent || c.value.asFloat.Some? || (c.kind.InstrumentedTests? && total <= 0)
  }

  /** Counts of opposite signs whose sum is not zero, in a rule that does not fail before it scores them: their
      share is less than zero or more than one. */
  predicate MixedCounts(c: Check, passed: int, failed: int) {
    (passed < 0 < failed || failed < 0 < passed) && passed + failed != 0 && Converts(c, passed + failed)
  }

  lemma {:induction false} ErrorsAreAmong(rs: seq<ExecResult>)
    ensures Errors(rs) <= |rs|
  {
    if rs != [] { ErrorsAreAmong(rs[..|rs| - 1]); }
  }

  lemma Quotient(a: real, b: real)
    requires b != 0.0
    ensures b > 0.0 && a <= b ==> a / b <= 1.0
    ensures b > 0.0 && a >= 0.0 ==> a / b >= 0.0
    ensures b < 0.0 && a < b ==> a / b > 1.0
  {
    var q := a / b;
    assert q * b == a;
  }

  lemma QuotientGrows(a: real, b: real, w: real)
    requires w > 0.0 && a <= b
    ensures a / w <= b / w
  {
    var p, q := a / w, b / w;
    assert p * w == a && q * w == b;
  }

  lemma ShareInUnit(c: Check, passed: int, failed: int)
    ensures InUnit(ShareOf(passed, failed)) <==>
      !((passed < 0 < failed || failed < 0 < passed) && passed + failed != 0)
  {
    var total := passed + failed;
    if total != 0 {
      SignOfQuotient(passed as real, total as real);
    }
  }

  lemma SignOfQuotient(a: real, b: real)
    requires b != 0.0
    ensures InUnit(a / b) <==> (if b > 0.0 then 0.0 <= a <= b else b <= a <= 0.0)
  {
    var q := a / b;
    assert q * b == a;
    if b > 0.0 {
      if q < 0.0 { assert q * b < 0.0; }
      if q > 1.0 { assert (q - 1.0) * b > 0.0; }
      if 0.0 <= q <= 1.0 { assert q * b >= 0.0 && (1.0 - q) * b >= 0.0; }
    } else {
      if q < 0.0 { assert q * b > 0.0; }
      if q > 1.0 { assert (q - 1.0) * b < 0.0; }
      if 0.0 <= q <= 1.0 { assert q * b <= 0.0 && (1.0 - q) * b <= 0.0; }
    }
  }

  /** Every rule score lies in [0, 1], exactly unless the execution-time rule meets a limit below a negative total
      or a test rule meets counts of opposite signs. */
  lemma ScoreInUnit(t: TextRules, c: Check, x: Context)
    ensures InUnit(One(t, c, x).score) <==>
      !NegativeTimes(c, x) && !MixedCounts(c, Counts(t, c, x).0, Counts(t, c, x).1)
  {
    match c.kind
    case NoErrors =>
      ErrorsAreAmong(x.results);
      Quotient(Errors(x.results) as real, Max(1, |x.results|) as real);
    case MaxExecutionTime =>
      if c.value.asFloat.Some? && TotalTime(x.results) != 0.0 { Quotient(c.value.asFloat.value, TotalTime(x.results)); }
    case InstrumentedTests => ShareInUnit(c, Counts(t, c, x).0, Counts(t, c, x).1);
    case Pytest => ShareInUnit(c, Counts(t, c, x).0, Counts(t, c, x).1);
    case _ =>
  }

  /** All of it happens: 5 passed and -3 failed score 2.5; 5 passed and -8 failed score -5/3 even if the required
      share is not a number, which the pytest rule would refuse; and one result of -1 second under a limit of -2
      scores 2. */
  lemma ScoresOutsideTheUnit(t: TextRules, c: Check, x: Context, r: ExecResult)
    requires x.results == [r] && r.time == Some(-1.0)
    ensures c.kind.InstrumentedTests? && c.value.absent && x.instrument == Some(Report(5, -3, 0)) ==>
      One(t, c, x).score == 2.5
    ensures c.kind.InstrumentedTests? && x.instrument == Some(Report(5, -8, 0)) ==> One(t, c, x).score == -5.0 / 3.0
    ensures c.kind.Pytest? && !c.value.absent && c.value.asFloat.None? ==> One(t, c, x).score == 0.0
    ensures c.kind.MaxExecutionTime? && c.value.asFloat == Some(-2.0) ==> One(t, c, x).score == 2.0
  {
    assert x.results[..0] == [];
    assert TotalTime(x.results) == -1.0;
    assert ShareOf(5, -8) == 5.0 / -3.0;
  }

  lemma {:induction false} PointsBounds(items: seq<Item>)
    requires forall i :: 0 <= i < |items| ==> InUnit(items[i].score) && items[i].weight >= 0.0
    ensures 0.0 <= Points(items) <= Weight(items)
  {
    if items != [] {
      var last := items[|items| - 1];
      PointsBounds(items[..|items| - 1]);
      assert last.score * last.weight >= 0.0;
      assert (1.0 - last.score) * last.weight >= 0.0;
    }
  }

  /** So does the overall score, with non-negative weights. */
  lemma OverallInUnit(items: seq<Item>)
    requires forall i :: 0 <= i < |items| ==> InUnit(items[i].score) && items[i].weight >= 0.0
    ensures InUnit(Score(items))
  {
    PointsBounds(items);
    if Weight(items) != 0.0 { Quotient(Points(items), Weight(items)); }
  }

  // ---- better items never hurt --------------------------------------------------------------------

  predicate NoWorse(a: Item, b: Item) {
    a.weight == b.weight && a.rule == b.rule && a.score <= b.score && (a.passed ==> b.passed)
  }

  lemma {:induction false} PointsGrow(a: seq<Item>, b: seq<Item>)
    requires |a| == |b| && forall i :: 0 <= i < |a| ==> NoWorse(a[i], b[i]) && a[i].weight >= 0.0
    ensures Points(a) <= Points(b) && 0.0 <= Weight(a) == Weight(b)
  {
    if a != [] {
      var n := |a| - 1;
      PointsGrow(a[..n], b[..n]);
      assert (b[n].score - a[n].score) * a[n].weight >= 0.0;
    }
  }

  lemma ImprovingKeepsPass(a: seq<Item>, b: seq<Item>, threshold: real)
    requires |a| == |b| && forall i :: 0 <= i < |a| ==> NoWorse(a[i], b[i]) && a[i].weight >= 0.0
    ensures Score(a) <= Score(b)
    ensures Passes(a, threshold) ==> Passes(b, threshold)
  {
    PointsGrow(a, b);
    var w := if Weight(a) == 0.0 then 1.0 else Weight(a);
    QuotientGrows(Points(a), Points(b), w);
  }

  /** A failed rule of weight one or more decides the verdict whatever the score. */
  lemma FailedRuleForcesFail(items: seq<Item>, threshold: real, i: nat)
    requires i < |items| && items[i].rule && items[i].weight >= 1.0 && !items[i].passed
    ensures !Passes(items, threshold)
  {
  }

  // ---- live and post-hoc scoring ---------------------------------------------------------------------

  /** Rules that look at what was printed. */
  predicate ReadsOutput(c: Check, x: Context) {
    c.kind.StdoutContains? || c.kind.StdoutNotContains? || c.kind.StdoutRegex? || (c.kind.Pytest? && x.pytest.None?)
  }

  lemma {:induction false} ClippingKeepsTheRest(rs: seq<ExecResult>)
    ensures Errors(ClipAll(rs)) == Errors(rs) && TotalTime(ClipAll(rs)) == TotalTime(rs)
    ensures DeviceActions(ClipAll(rs)) == DeviceActions(rs)
  {
    if rs != [] {
      var n := |rs| - 1;
      ClippingKeepsTheRest(rs[..n]);
      assert ClipAll(rs)[..n] == ClipAll(rs[..n]);
    }
  }

  lemma FilesAside(t: TextRules, c: Check, x: Context, files: set<string>)
    requires !c.kind.FileExists?
    ensures One(t, c, x.(files := files)) == One(t, c, x)
  {
  }

  lemma LastExitCode(t: TextRules, c: Check, live: Context, later: Context)
    requires later == live.(results := ClipAll(live.results)) && c.kind.ExitCode?
    ensures One(t, c, later) == One(t, c, live)
  {
    if live.results != [] {
      var n := |live.results| - 1;
      assert later.results[n] == ClipResult(live.results[n]);
    }
  }

  /** Rules about errors, times and device actions see only counts. */
  lemma CountsAside(t: TextRules, c: Check, live: Context, later: Context)
    requires Errors(later.results) == Errors(live.results) && |later.results| == |live.results|
    requires TotalTime(later.results) == TotalTime(live.results)
    requires DeviceActions(later.results) == DeviceActions(live.results)
    requires c.kind.NoErrors? || c.kind.MaxExecutionTime? || c.kind.DeviceActionCount?
    ensures One(t, c, later) == One(t, c, live)
  {
  }

  /** Rules about reports, files and the verification do not look at the results. */
  lemma ResultsAside(t: TextRules, c: Check, x: Context, rs: seq<ExecResult>)
    requires c.kind.FileExists? || c.kind.InstrumentedTests? || c.kind.HarnessVerification?
      || (c.kind.Pytest? && x.pytest.Some?)
    ensures One(t, c, x.(results := rs)) == One(t, c, x)
  {
  }

  lemma OutputAside(t: TextRules, c: Check, live: Context, later: Context)
    requires later == live.(results := ClipAll(live.results)) && !ReadsOutput(c, live)
    ensures One(t, c, later) == One(t, c, live)
  {
    ClippingKeepsTheRest(live.results);
    match c.kind
    case ExitCode => LastExitCode(t, c, live, later);
    case NoErrors => CountsAside(t, c, live, later);
    case MaxExecutionTime => CountsAside(t, c, live, later);
    case DeviceActionCount => CountsAside(t, c, live, later);
    case _ => ResultsAside(t, c, live, later.results);
  }

  lemma OneAgrees(t: TextRules, c: Check, live: Context, later: Context)
    requires later == live.(results := ClipAll(live.results), files := later.files) && !c.kind.FileExists?
    requires later.results == live.results || !ReadsOutput(c, live)
    ensures One(t, c, later) == One(t, c, live)
  {
    var clipped := live.(results := ClipAll(live.results));
    FilesAside(t, c, clipped, later.files);
    if later.results != live.results { OutputAside(t, c, live, clipped); }
  }

  lemma EvaluateAgrees(t: TextRules, checks: seq<Check>, live: Context, later: Context)
    requires later == live.(results := ClipAll(live.results), files := later.files)
    requires forall i :: 0 <= i < |checks| ==> !checks[i].kind.FileExists?
    requires later.results == live.results || forall i :: 0 <= i < |checks| ==> !ReadsOutput(checks[i], live)
    ensures Evaluate(t, checks, later) == Evaluate(t, checks, live)
  {
    forall i | 0 <= i < |checks| ensures One(t, checks[i], later) == One(t, checks[i], live) {
      OneAgrees(t, checks[i], live, later);
    }
  }

  /** Scoring a run from the log gives the items, the score and the verdict of scoring it live: file checks
      aside, for every rule that does not read output, and for all of them within the clip limit. */
  lemma PostHocScoringAgrees(ops: seq<Session.Op>, id: RunId, t: TextRules, checks: seq<Check>, live: Context,
                             later: Context, threshold: real)
    requires id in Session.After(ops).runs && Session.After(ops).intact && Session.Running(Session.After(ops))
    requires live.results == Session.After(ops).results[id]
    requires later == live.(results := ResultsFromEvents(Session.After(ops).log, id), files := later.files)
    requires forall i :: 0 <= i < |checks| ==> !checks[i].kind.FileExists?
    requires (forall r :: r in live.results ==> WithinLimit(r))
      || (forall i :: 0 <= i < |checks| ==> !ReadsOutput(checks[i], live))
    ensures Evaluate(t, checks, later) == Evaluate(t, checks, live)
    ensures Score(Evaluate(t, checks, later)) == Score(Evaluate(t, checks, live))
    ensures Passes(Evaluate(t, checks, later), threshold) <==> Passes(Evaluate(t, checks, live), threshold)
  {
    Session.PostHocResults(ops, id);
    EvaluateAgrees(t, checks, live, later);
  }
}
