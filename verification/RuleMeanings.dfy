/** What each rule checks, in terms of the results, files and reports it looks at. */
module RuleMeanings {
  import opened Prelude
  import opened Recording
  import opened Evaluator
  import S3Store

  // ---- what the rules count and read -----------------------------------------------------------

  function Where(rs: seq<ExecResult>, p: ExecResult -> bool): set<nat> {
    set i: nat | 0 <= i < |rs| && p(rs[i])
  }

  lemma WherePush(rs: seq<ExecResult>, p: ExecResult -> bool)
    requires rs != []
    ensures var n := |rs| - 1;
      |Where(rs, p)| == |Where(rs[..n], p)| + if p(rs[n]) then 1 else 0
  {
    var n := |rs| - 1;
    assert Where(rs, p) == Where(rs[..n], p) + if p(rs[n]) then {n} else {};
  }

  lemma {:induction false} ErrorsAreCounted(rs: seq<ExecResult>)
    ensures Errors(rs) == |Where(rs, (r: ExecResult) => r.isError)|
  {
    if rs != [] {
      ErrorsAreCounted(rs[..|rs| - 1]);
      WherePush(rs, (r: ExecResult) => r.isError);
    }
  }

  lemma {:induction false} DeviceActionsAreCounted(rs: seq<ExecResult>)
    ensures DeviceActions(rs) == |Where(rs, (r: ExecResult) => r.kind.Device?)|
  {
    if rs != [] {
      DeviceActionsAreCounted(rs[..|rs| - 1]);
      WherePush(rs, (r: ExecResult) => r.kind.Device?);
    }
  }

  /** The execution times added up from the first, a missing one as nothing. */
  function TimeFrom(rs: seq<ExecResult>, sum: real): real
    decreases |rs|
  {
    if rs == [] then sum
    else TimeFrom(rs[1..], sum + match rs[0].time case None => 0.0 case Some(t) => t)
  }

  lemma {:induction false} TimeFromAppend(rs: seq<ExecResult>, r: ExecResult, sum: real)
    ensures TimeFrom(rs + [r], sum) == TimeFrom(rs, sum) + Seconds(r)
    decreases |rs|
  {
    if rs == [] {
      assert ([] + [r])[1..] == [];
    } else {
      assert (rs + [r])[1..] == rs[1..] + [r];
      TimeFromAppend(rs[1..], r, sum + Seconds(rs[0]));
    }
  }

  lemma {:induction false} TimesAreAdded(rs: seq<ExecResult>)
    ensures TotalTime(rs) == TimeFrom(rs, 0.0)
  {
    if rs != [] {
      var n := |rs| - 1;
      TimesAreAdded(rs[..n]);
      TimeFromAppend(rs[..n], rs[n], 0.0);
      assert rs[..n] + [rs[n]] == rs;
    }
  }

  /** Standard output and standard error, whichever there is, one below the other. */
  function Streams(r: ExecResult): seq<string> {
    (if r.stdout != "" then [r.stdout] else []) + (if r.stderr != "" then [r.stderr] else [])
  }

  lemma OutputIsBoth(r: ExecResult)
    ensures Output(r) == S3Store.Join(Streams(r))
  {
  }

  function Outputs(rs: seq<ExecResult>): seq<string> {
    seq(|rs|, i requires 0 <= i < |rs| => Output(rs[i]))
  }

  lemma {:induction false} JoinAppend(lines: seq<string>, line: string)
    requires lines != []
    ensures S3Store.Join(lines + [line]) == S3Store.Join(lines) + "\n" + line
  {
    if |lines| == 1 {
      assert (lines + [line])[1..] == [line];
    } else {
      assert (lines + [line])[1..] == lines[1..] + [line];
      JoinAppend(lines[1..], line);
    }
  }

  /** The rules read all outputs, joined by line breaks. */
  lemma {:induction false} OutputsAreJoined(rs: seq<ExecResult>)
    ensures Combined(rs) == S3Store.Join(Outputs(rs))
  {
    if |rs| > 1 {
      var n := |rs| - 1;
      OutputsAreJoined(rs[..n]);
      assert Outputs(rs) == Outputs(rs[..n]) + [Output(rs[n])];
      JoinAppend(Outputs(rs[..n]), Output(rs[n]));
    }
  }

  predicate OccursAt(text: string, part: string, i: nat) {
    i + |part| <= |text| && text[i..i + |part|] == part
  }

  /** Some slice of the text is the part. */
  ghost predicate Occurs(text: string, part: string) {
    exists i: nat :: OccursAt(text, part, i)
  }

  lemma {:induction false} ContainsMeans(text: string, part: string)
    ensures Contains(text, part) <==> Occurs(text, part)
  {
    if |part| <= |text| {
      if text[..|part|] == part {
        assert OccursAt(text, part, 0);
      } else if text != "" {
        ContainsMeans(text[1..], part);
        if Contains(text[1..], part) {
          var i: nat :| OccursAt(text[1..], part, i);
          assert text[1..][i..i + |part|] == text[i + 1..i + 1 + |part|];
          assert OccursAt(text, part, i + 1);
        }
        if Occurs(text, part) {
          var i: nat :| OccursAt(text, part, i);
          assert text[1..][i - 1..i - 1 + |part|] == text[i..i + |part|];
          assert OccursAt(text[1..], part, i - 1);
        }
      }
    }
  }

  // ---- the rules ------------------------------------------------------------------------------------

  /** All or nothing: the score is 1 if the check passed and 0 if it did not. */
  predicate AllOrNothing(i: Evaluator.Item, passed: bool) {
    i.passed == passed && i.score == if passed then 1.0 else 0.0
  }

  lemma ItemsAreForTheirChecks(t: TextRules, checks: seq<Check>, x: Context)
    ensures |Evaluate(t, checks, x)| == |checks|
    ensures forall i :: 0 <= i < |checks| ==>
      var item := Evaluate(t, checks, x)[i];
      item.name == checks[i].name && item.weight == checks[i].weight && item.rule
  {
  }

  /** The last result has the wanted exit code, 0 by default. */
  lemma ExitCodeMeans(t: TextRules, c: Check, x: Context)
    requires c.kind.ExitCode?
    ensures var wanted := if c.value.absent then Some(0) else c.value.asInt;
      AllOrNothing(One(t, c, x),
                   wanted.Some? && x.results != [] && x.results[|x.results| - 1].exitCode == Some(wanted.value))
  {
  }

  /** No result is an error; the score is the share of those that are not. */
  lemma NoErrorsMeans(t: TextRules, c: Check, x: Context)
    requires c.kind.NoErrors?
    ensures var item := One(t, c, x); var errors := |Where(x.results, (r: ExecResult) => r.isError)|;
      && (item.passed <==> forall i :: 0 <= i < |x.results| ==> !x.results[i].isError)
      && item.score * Max(1, |x.results|) as real == (Max(1, |x.results|) - errors) as real
  {
    var failed := Where(x.results, (r: ExecResult) => r.isError);
    ErrorsAreCounted(x.results);
    ErrorsAreAmong(x.results);
    assert forall i :: 0 <= i < |x.results| && x.results[i].isError ==> i in failed;
    if |failed| > 0 {
      var i :| i in failed;
      assert x.results[i].isError;
    }
    var n, e := Max(1, |x.results|) as real, |failed| as real;
    assert e / n * n == e;
    Quotient(e, n);
  }

  /** The text is, or is not, somewhere in the joined outputs. */
  lemma StdoutMeans(t: TextRules, c: Check, x: Context)
    ensures c.kind.StdoutContains? ==>
      AllOrNothing(One(t, c, x), Occurs(S3Store.Join(Outputs(x.results)), c.value.text))
    ensures c.kind.StdoutNotContains? ==>
      AllOrNothing(One(t, c, x), !Occurs(S3Store.Join(Outputs(x.results)), c.value.text))
  {
    OutputsAreJoined(x.results);
    ContainsMeans(Combined(x.results), c.value.text);
  }

  /** A pattern that is not refused matches the last 64000 characters of the joined outputs. */
  lemma RegexMeans(t: TextRules, c: Check, x: Context)
    requires c.kind.StdoutRegex?
    ensures var text := S3Store.Join(Outputs(x.results));
      AllOrNothing(One(t, c, x), !t.refused(c.value.text)
        && t.matches(c.value.text, text[Max(0, |text| - 64_000)..]))
  {
    OutputsAreJoined(x.results);
    var text := Combined(x.results);
    assert text[0..] == text;
  }

  lemma FileExistsMeans(t: TextRules, c: Check, x: Context)
    requires c.kind.FileExists?
    ensures AllOrNothing(One(t, c, x), c.value.text in x.files)
  {
  }

  /** The times add up to no more than the limit; otherwise the score is the limit's share of their sum, if that is
      not negative, and 0 if they add up to nothing. */
  lemma TimeLimitMeans(t: TextRules, c: Check, x: Context)
    requires c.kind.MaxExecutionTime?
    ensures var item, sum := One(t, c, x), TimeFrom(x.results, 0.0);
      && (item.passed <==> c.value.asFloat.Some? && sum <= c.value.asFloat.value)
      && (item.passed ==> item.score == 1.0)
      && (!item.passed && c.value.asFloat.Some? && sum != 0.0 ==>
            item.score == 0.0 || item.score * sum == c.value.asFloat.value)
      && (!item.passed && c.value.asFloat.Some? && sum > 0.0 && c.value.asFloat.value >= 0.0 ==>
            item.score * sum == c.value.asFloat.value)
      && (c.value.asFloat.None? || (!item.passed && sum == 0.0) ==> item.score == 0.0)
  {
    TimesAreAdded(x.results);
    if c.value.asFloat.Some? && TotalTime(x.results) != 0.0 {
      var sum, limit := TotalTime(x.results), c.value.asFloat.value;
      assert limit / sum * sum == limit;
      Quotient(limit, sum);
    }
  }

  /** At least so many results are device actions, one by default. */
  lemma DeviceActionsMean(t: TextRules, c: Check, x: Context)
    requires c.kind.DeviceActionCount?
    ensures var wanted := if c.value.truthy then c.value.asInt else Some(1);
      AllOrNothing(One(t, c, x),
                   wanted.Some? && |Where(x.results, (r: ExecResult) => r.kind.Device?)| >= wanted.value)
  {
    DeviceActionsAreCounted(x.results);
  }

  /** The harness ran a verification command, and it exited with 0. */
  lemma VerificationMeans(t: TextRules, c: Check, x: Context)
    requires c.kind.HarnessVerification?
    ensures AllOrNothing(One(t, c, x),
                         match x.verification case None => false case Some(v) => v.exitCode == Some(0))
  {
  }

  lemma Restores(a: real, w: real)
    requires w != 0.0
    ensures a / w * w == a
  {
  }

  lemma Cancels(a: real, w: real)
    requires w != 0.0
    ensures a * w / w == a
  {
    var q := a * w / w;
    assert q * w == a * w;
    assert (q - a) * w == 0.0;
  }

  lemma Reaches(a: real, w: real, k: real)
    requires w > 0.0
    ensures a / w >= k <==> a >= k * w
  {
    var q := a / w;
    Restores(a, w);
    if q >= k {
      assert (q - k) * w >= 0.0;
      assert (q - k) * w == q * w - k * w;
    } else {
      assert (k - q) * w > 0.0;
      assert (k - q) * w == k * w - q * w;
    }
  }

  /** The share of passed tests is the required one, all by default; there must be a positive number of tests. */
  predicate EnoughPassed(v: Value, passed: int, total: int) {
    && total > 0
    && (if v.absent then passed >= total
        else v.asFloat.Some? && passed as real >= v.asFloat.value * total as real)
  }

  lemma ShareMeans(c: Check, passed: int, failed: int)
    ensures Share(c, passed, failed).passed <==> EnoughPassed(c.value, passed, passed + failed)
    ensures InstrumentedShare(c, passed, failed).passed <==> EnoughPassed(c.value, passed, passed + failed)
    ensures ShareOf(passed, failed) * (passed + failed) as real == if passed + failed == 0 then 0.0 else passed as real
  {
    var total := (passed + failed) as real;
    if total != 0.0 { Restores(passed as real, total); }
    if total > 0.0 {
      Reaches(passed as real, total, 1.0);
      if c.value.asFloat.Some? { Reaches(passed as real, total, c.value.asFloat.value); }
    }
  }

  /** The report of the instrumented tests: what passed, and what passed or failed. */
  lemma InstrumentedMeans(t: TextRules, c: Check, x: Context)
    requires c.kind.InstrumentedTests?
    ensures var item := One(t, c, x);
      var (passed, total) := match x.instrument case None => (0, 0) case Some(r) => (r.passed, r.passed + r.failed);
      && (item.passed <==> EnoughPassed(c.value, passed, total))
      && (c.value.absent || c.value.asFloat.Some? || total <= 0 ==>
            item.score * total as real == if total == 0 then 0.0 else passed as real)
  {
    var (passed, failed) := match x.instrument case None => (0, 0) case Some(r) => (r.passed, r.failed);
    ShareMeans(c, passed, failed);
  }

  /** The report of pytest, or what its last summary line says: errors count as failed. */
  lemma PytestMeans(t: TextRules, c: Check, x: Context)
    requires c.kind.Pytest?
    ensures var item := One(t, c, x);
      var r := match x.pytest case None => t.summary(S3Store.Join(Outputs(x.results))) case Some(r) => r;
      var total := r.passed + r.failed + r.errors;
      && (item.passed <==> EnoughPassed(c.value, r.passed, total))
      && (c.value.absent || c.value.asFloat.Some? ==>
            item.score * total as real == if total == 0 then 0.0 else r.passed as real)
      && (!c.value.absent && c.value.asFloat.None? ==> item.score == 0.0)
  {
    OutputsAreJoined(x.results);
    var r := match x.pytest case None => t.summary(Combined(x.results)) case Some(r) => r;
    ShareMeans(c, r.passed, r.failed + r.errors);
  }

  // ---- the verdict ----------------------------------------------------------------------------------------

  lemma PointsPush(items: seq<Evaluator.Item>, item: Evaluator.Item)
    ensures Points(items + [item]) == Points(items) + item.score * item.weight
    ensures Weight(items + [item]) == Weight(items) + item.weight
  {
    assert (items + [item])[..|items|] == items;
  }

  lemma ScoreTimesWeight(items: seq<Evaluator.Item>)
    requires Weight(items) != 0.0
    ensures Score(items) * Weight(items) == Points(items)
  {
    Restores(Points(items), Weight(items));
  }

  /** The overall score is the weighted mean: another item moves it by its own weight. */
  lemma ScoreIsWeighted(items: seq<Evaluator.Item>, item: Evaluator.Item)
    requires Weight(items) != 0.0 && Weight(items) + item.weight != 0.0
    ensures var all := items + [item];
      && Weight(all) == Weight(items) + item.weight
      && Score(all) * Weight(all) == Score(items) * Weight(items) + item.score * item.weight
  {
    PointsPush(items, item);
    ScoreTimesWeight(items);
    ScoreTimesWeight(items + [item]);
  }

  /** One item with a weight has its own score. */
  lemma ScoreOfOne(item: Evaluator.Item)
    requires item.weight != 0.0
    ensures Score([item]) == item.score
  {
    assert [item][..0] == [];
    assert Points([item]) == item.score * item.weight && Weight([item]) == item.weight;
    Cancels(item.score, item.weight);
  }

  /** The verdict: the weighted points reach the threshold's share of all weight, and no rule of weight one or more
      failed. */
  lemma VerdictExactly(items: seq<Evaluator.Item>, threshold: real)
    requires Weight(items) > 0.0
    ensures Passes(items, threshold) <==>
      && Points(items) >= threshold * Weight(items)
      && !exists i :: 0 <= i < |items| && items[i].rule && items[i].weight >= 1.0 && !items[i].passed
  {
    Reaches(Points(items), Weight(items), threshold);
  }
}
