/** What the budget of a run does, from the operation that began the run on. */
module RunBudget {
  import opened Prelude
  import opened Recording
  import opened Session
  import opened AgentBudget

  /** Operation `i` began run `id`. */
  ghost predicate BegunAt(ops: seq<Op>, i: nat, id: RunId) {
    i < |ops| && ops[i].Begin? && ops[i].id == id && id !in After(ops[..i]).runs
  }

  lemma AfterPush(ops: seq<Op>, n: nat)
    requires ops != [] && n == |ops| - 1
    ensures Running(After(ops[..n])) && Running(After(ops))
    ensures After(ops) == if Fresh(After(ops[..n]), ops[n]) then Apply(After(ops[..n]), ops[n]) else After(ops[..n])
  {
    AfterSound(ops[..n]);
    AfterSound(ops);
  }

  // ---- a run keeps its budget ----------------------------------------------------------------

  predicate SameTerms(b: Books, b': Books, id: RunId) {
    && id in b.runs && id in b'.runs
    && b'.runs[id].budget == b.runs[id].budget && b'.runs[id].startedAt == b.runs[id].startedAt
  }

  lemma CountedTerms(b: Books, run: RunId, x: Execution, id: RunId)
    requires Running(b) && run in b.runs && id in b.runs
    ensures var b' := LogExec(Count(b, run, x), run, x);
      && SameTerms(b, b', id) && id in b'.results && id in b'.billed
      && b'.results[id] == b.results[id] + (if id == run then [x.result] else [])
      && b'.billed[id] == b.billed[id] + if id == run && !x.actor.System? then 1 else 0
  {
  }

  lemma CheckedTerms(b: Books, now: real, id: RunId)
    requires Running(b) && id in b.runs
    ensures var b' := BudgetChecked(b, now, None).0;
      SameTerms(b, b', id) && b'.results == b.results && b'.billed == b.billed
  {
  }

  /** What recording makes of a run: its terms stay; an execution is added to its results and, unless the system made
      it, to what is billed. */
  lemma LeftTerms(begun: Books, after: Books, x: Execution, id: RunId)
    requires LeftBy(begun, after, x) && id in begun.runs
    ensures SameTerms(begun, after, id) && id in after.results && id in after.billed
    ensures || (after.results[id] == begun.results[id] && after.billed[id] == begun.billed[id])
            || (after.results[id] == begun.results[id] + [x.result]
                && after.billed[id] == begun.billed[id] + if x.actor.System? then 0 else 1)
  {
    CheckedTerms(begun, x.now, id);
    CountedTerms(begun, begun.current.value, x, id);
  }

  lemma CountedRuns(b: Books, run: RunId, x: Execution)
    requires Running(b) && run in b.runs
    ensures var b' := LogExec(Count(b, run, x), run, x);
      && b'.runs.Keys == b.runs.Keys && b'.results.Keys == b.results.Keys && b'.billed.Keys == b.billed.Keys
      && b'.intact == (b.intact && x.stored)
  {
  }

  lemma CheckedRuns(b: Books, now: real)
    requires Running(b)
    ensures var b' := BudgetChecked(b, now, None).0;
      b'.runs.Keys == b.runs.Keys && b'.results == b.results && b'.billed == b.billed && b'.intact == b.intact
  {
  }

  lemma LeftRuns(begun: Books, after: Books, x: Execution)
    requires LeftBy(begun, after, x)
    ensures after.runs.Keys == begun.runs.Keys && after.results.Keys == begun.results.Keys
    ensures after.billed.Keys == begun.billed.Keys
    ensures after.intact == begun.intact || after.intact == (begun.intact && x.stored)
  {
    CheckedRuns(begun, x.now);
    CountedRuns(begun, begun.current.value, x);
  }

  lemma RecordTerms(b: Books, adhoc: RunId, adhocStored: bool, x: Execution, id: RunId)
    requires Running(b) && adhoc !in b.runs && id in b.runs
    ensures SameTerms(b, RecordedExec(b, adhoc, adhocStored, x).0, id)
  {
    var begun := WithRun(b, adhoc, x.now, adhocStored);
    OpeningAddsNothing(b, adhoc, x.now, adhocStored);
    assert SameBooks(b, begun, id) && SameTerms(b, begun, id);
    RecordOutcome(b, adhoc, adhocStored, x);
    LeftTerms(begun, RecordedExec(b, adhoc, adhocStored, x).0, x, id);
  }

  lemma EndTerms(b: Books, adhoc: RunId, adhocStored: bool, now: real, stored: bool, id: RunId)
    requires Running(b) && adhoc !in b.runs && id in b.runs
    ensures SameTerms(b, Ended(b, adhoc, adhocStored, now, stored), id)
  {
    var begun := WithRun(b, adhoc, now, adhocStored);
    assert SameTerms(b, begun, id) && Running(begun);
  }

  lemma TermsStay(b: Books, op: Op, id: RunId)
    requires Running(b) && Fresh(b, op) && id in b.runs
    ensures SameTerms(b, Apply(b, op), id)
  {
    match op
    case Begin(_, _, _, _, _) =>
    case End(adhoc, adhocStored, now, stored) => EndTerms(b, adhoc, adhocStored, now, stored, id);
    case Record(adhoc, adhocStored, x) => RecordTerms(b, adhoc, adhocStored, x, id);
    case Check(_, _) =>
  }

  /** In every sequence of operations, a run has the budget and the start it was begun with. */
  lemma {:induction false} BudgetIs(ops: seq<Op>, i: nat, id: RunId)
    requires BegunAt(ops, i, id)
    ensures id in After(ops).runs
    ensures After(ops).runs[id].budget == ops[i].budget && After(ops).runs[id].startedAt == ops[i].now
  {
    var n := |ops| - 1;
    AfterPush(ops, n);
    if i < n {
      assert ops[..n][..i] == ops[..i] && ops[..n][i] == ops[i];
      BudgetIs(ops[..n], i, id);
      if Fresh(After(ops[..n]), ops[n]) { TermsStay(After(ops[..n]), ops[n], id); }
    }
  }

  predicate HasBudget(b: Books, id: RunId) {
    id in b.runs && b.runs[id].budget.Some?
  }

  /** A run that no operation began, because an execution or an end found none in progress, has no budget. */
  lemma {:induction false} NoBudgetUnlessBegun(ops: seq<Op>, id: RunId) returns (i: nat)
    requires HasBudget(After(ops), id)
    ensures BegunAt(ops, i, id) && ops[i].budget == After(ops).runs[id].budget
  {
    var n := |ops| - 1;
    var before := After(ops[..n]);
    AfterPush(ops, n);
    if id in before.runs {
      if Fresh(before, ops[n]) { TermsStay(before, ops[n], id); }
      i := NoBudgetUnlessBegun(ops[..n], id);
      assert ops[..n][..i] == ops[..i] && ops[..n][i] == ops[i];
    } else {
      i := n;
      if !(ops[n].Begin? && ops[n].id == id) { OpenedWithout(before, ops[n], id); }
    }
  }

  lemma OpenedWithout(b: Books, op: Op, id: RunId)
    requires Running(b) && Fresh(b, op) && id !in b.runs && id in Apply(b, op).runs && !(op.Begin? && op.id == id)
    ensures Apply(b, op).runs[id].budget.None?
  {
    if op.Record? {
      var begun := WithRun(b, op.adhoc, op.execution.now, op.adhocStored);
      RecordOutcome(b, op.adhoc, op.adhocStored, op.execution);
      LeftRuns(begun, Apply(b, op), op.execution);
      LeftTerms(begun, Apply(b, op), op.execution, id);
    }
  }

  // ---- how many executions of a run were not the system's ------------------------------------------

  function Results(b: Books, id: RunId): seq<ExecResult> {
    if id in b.results then b.results[id] else []
  }

  /** Operation `op` on books `b` recorded an execution of run `id` for anyone but the system. */
  predicate UserExecution(b: Books, op: Op, id: RunId) {
    && Running(b) && Fresh(b, op) && op.Record? && !op.execution.actor.System?
    && |Results(Apply(b, op), id)| > |Results(b, id)|
  }

  ghost function UserExecutions(ops: seq<Op>, id: RunId): nat {
    if ops == [] then 0
    else
      var n := |ops| - 1;
      UserExecutions(ops[..n], id) + if UserExecution(After(ops[..n]), ops[n], id) then 1 else 0
  }

  function BilledTo(b: Books, id: RunId): nat {
    if id in b.billed then b.billed[id] else 0
  }

  lemma RecordBills(b: Books, op: Op, id: RunId)
    requires Running(b) && Fresh(b, op) && op.Record?
    ensures BilledTo(Apply(b, op), id) == BilledTo(b, id) + if UserExecution(b, op, id) then 1 else 0
  {
    var begun := WithRun(b, op.adhoc, op.execution.now, op.adhocStored);
    OpeningAddsNothing(b, op.adhoc, op.execution.now, op.adhocStored);
    assert Results(begun, id) == Results(b, id) && BilledTo(begun, id) == BilledTo(b, id) by {
      if id in b.runs { assert SameBooks(b, begun, id); }
    }
    RecordOutcome(b, op.adhoc, op.adhocStored, op.execution);
    LeftRuns(begun, Apply(b, op), op.execution);
    if id in begun.runs { LeftTerms(begun, Apply(b, op), op.execution, id); }
  }

  lemma BilledStep(b: Books, op: Op, id: RunId)
    requires Running(b) && Fresh(b, op)
    ensures BilledTo(Apply(b, op), id) == BilledTo(b, id) + if UserExecution(b, op, id) then 1 else 0
  {
    if op.Record? { RecordBills(b, op, id); }
  }

  /** What is billed to a run are exactly the executions recorded for it by anyone but the system. */
  lemma {:induction false} BilledIsCounted(ops: seq<Op>, id: RunId)
    ensures BilledTo(After(ops), id) == UserExecutions(ops, id)
  {
    if ops != [] {
      var n := |ops| - 1;
      AfterPush(ops, n);
      BilledIsCounted(ops[..n], id);
      if Fresh(After(ops[..n]), ops[n]) { BilledStep(After(ops[..n]), ops[n], id); }
    }
  }

  /** The number of executions a run was begun with as its limit is never exceeded by anyone but the system. */
  lemma WithinItsBudget(ops: seq<Op>, i: nat, id: RunId, m: int)
    requires BegunAt(ops, i, id) && ops[i].budget.Some? && ops[i].budget.value.maxExecutions == Some(m)
    ensures UserExecutions(ops, id) <= Max(0, m)
    ensures After(ops).intact ==> Billed(After(ops).log, id) <= Max(0, m)
  {
    BudgetIs(ops, i, id);
    BilledIsCounted(ops, id);
    Accounting(ops, id);
  }

  /** The log is whole as long as every execution was stored. */
  lemma {:induction false} WholeIfStored(ops: seq<Op>)
    requires forall j :: 0 <= j < |ops| && ops[j].Record? ==> ops[j].execution.stored
    ensures After(ops).intact
  {
    if ops != [] {
      var n := |ops| - 1;
      AfterPush(ops, n);
      assert forall j :: 0 <= j < n ==> ops[..n][j] == ops[j];
      WholeIfStored(ops[..n]);
      if ops[n].Record? && Fresh(After(ops[..n]), ops[n]) {
        var x := ops[n].execution;
        RecordOutcome(After(ops[..n]), ops[n].adhoc, ops[n].adhocStored, x);
        LeftRuns(WithRun(After(ops[..n]), ops[n].adhoc, x.now, ops[n].adhocStored), After(ops), x);
      }
    }
  }

  // ---- when an execution is refused ----------------------------------------------------------------------

  predicate OutOfExecutions(budget: Option<Budget>, done: nat) {
    budget.Some? && budget.value.maxExecutions.Some? && done >= budget.value.maxExecutions.value
  }

  predicate OutOfTime(budget: Option<Budget>, passed: real) {
    budget.Some? && budget.value.maxSeconds.Some? && passed > budget.value.maxSeconds.value
  }

  predicate OutOfMoney(budget: Option<Budget>, cost: Option<real>) {
    budget.Some? && budget.value.maxCost.Some? && cost.Some? && cost.value > budget.value.maxCost.value
  }

  /** Run `id`, begun by operation `i`, is the run in progress. */
  ghost predicate InProgress(ops: seq<Op>, i: nat, id: RunId) {
    BegunAt(ops, i, id) && After(ops).current == Some(id)
  }

  /** An execution in the run in progress is accepted exactly if the guard passes, its event is stored, and, unless the
      system makes it, neither the number of executions nor the time the run was begun with is used up. Costs are for
      the hook to look at. Otherwise it is refused by the first of these that stands in the way. */
  lemma AcceptedExactly(ops: seq<Op>, i: nat, id: RunId, adhoc: RunId, adhocStored: bool, x: Execution)
    requires InProgress(ops, i, id)
    ensures Running(After(ops)) && id in After(ops).results
    ensures var v := RecordedExec(After(ops), adhoc, adhocStored, x).1; var done := |After(ops).results[id]|;
      var spent := OutOfExecutions(ops[i].budget, done) || OutOfTime(ops[i].budget, x.now - ops[i].now);
      && (v == Accepted <==> x.guard && x.stored && (x.actor.System? || !spent))
      && (v == GuardRefused <==> !x.guard)
      && (v.BudgetRefused? <==> x.guard && !x.actor.System? && spent)
      && (v == StoreFailed <==> x.guard && !x.stored && (x.actor.System? || !spent))
  {
    BudgetIs(ops, i, id);
    AfterSound(ops);
    assert Balanced(After(ops), id);
  }

  /** A budget check gives a reason exactly if one of the three limits is passed, and marks the run with it. */
  lemma CheckedExactly(ops: seq<Op>, i: nat, id: RunId, now: real, cost: Option<real>)
    requires InProgress(ops, i, id)
    ensures Running(After(ops)) && id in After(ops).results
    ensures var (b, reason) := BudgetChecked(After(ops), now, cost); var budget := ops[i].budget;
      && (reason.Some? <==> || OutOfExecutions(budget, |After(ops).results[id]|)
                            || OutOfTime(budget, now - ops[i].now) || OutOfMoney(budget, cost))
      && id in b.runs && (if reason.Some? then b.runs[id].exceeded == reason else b == After(ops))
  {
    BudgetIs(ops, i, id);
    AfterSound(ops);
    assert Balanced(After(ops), id);
  }

  /** So the hook denies a tool call exactly if the run was marked before or one of the limits is passed. */
  lemma DeniedExactly(ops: seq<Op>, i: nat, id: RunId, now: real, cost: Option<real>)
    requires InProgress(ops, i, id)
    ensures Running(After(ops)) && id in After(ops).results && id in After(ops).runs
    ensures var budget := ops[i].budget;
      HookAnswer(After(ops), now, cost).Some? <==>
        || After(ops).runs[id].exceeded.Some?
        || OutOfExecutions(budget, |After(ops).results[id]|)
        || OutOfTime(budget, now - ops[i].now) || OutOfMoney(budget, cost)
  {
    CheckedExactly(ops, i, id, now, cost);
  }
}
