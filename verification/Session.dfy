/** Runs, their counters and their budget, as `DevSession` keeps them. */
module Session {
  import opened Prelude
  import opened Recording

  datatype Budget = Budget(maxExecutions: Option<int>, maxSeconds: Option<real>, maxCost: Option<real>)

  /** `exceeded` is the harness entry `budget_exceeded`. */
  datatype Run = Run(budget: Option<Budget>, startedAt: real, execCount: nat, errorCount: nat, totalTime: real,
                     exceeded: Option<string>, finished: bool)

  /** Why the budget of a run forbids another execution, if it does. */
  function BudgetReason(r: Run, now: real, cost: Option<real>): Option<string> {
    if r.budget.None? then None
    else
      var b := r.budget.value;
      if b.maxExecutions.Some? && r.execCount >= b.maxExecutions.value then Some("max_executions reached")
      else if b.maxSeconds.Some? && now - r.startedAt > b.maxSeconds.value then Some("max_seconds exceeded")
      else if b.maxCost.Some? && cost.Some? && cost.value > b.maxCost.value then Some("max_cost_usd exceeded")
      else None
  }

  function NewRun(budget: Option<Budget>, now: real): Run {
    Run(budget, now, 0, 0, 0.0, None, false)
  }

  /** Everything a session keeps about its runs. Two entries are not stored by the program: `intact` says
      that no execution failed to reach the log, `billed` counts those recorded by anyone but the system. */
  datatype Books = Books(runs: map<RunId, Run>, current: Option<RunId>, results: map<RunId, seq<ExecResult>>,
                         outputs: map<(RunId, nat), string>, log: seq<Event>, number: nat,
                         intact: bool, billed: map<RunId, nat>)

  const OPENED := Books(map[], None, map[], map[], [], 0, true, map[])

  // ---- the operations -------------------------------------------------------------------

  /** An execution to record: `guard` is whether the lease check passes, `stored` whether the append succeeds. */
  datatype Execution = Execution(result: ExecResult, actor: Actor, files: map<string, Data>, guard: bool, now: real,
                                 stored: bool)

  datatype Op =
    | Begin(id: RunId, budget: Option<Budget>, now: real, actor: Actor, stored: bool)
    | End(adhoc: RunId, adhocStored: bool, now: real, stored: bool)
    | Record(adhoc: RunId, adhocStored: bool, execution: Execution)
    | Check(now: real, cost: Option<real>)

  datatype Verdict = Accepted | GuardRefused | BudgetRefused(reason: string) | StoreFailed

  /** The sequence number is used up even if the append fails. */
  function Emit(b: Books, run: RunId, actor: Actor, payload: Payload, stored: bool): Books {
    b.(number := b.number + 1,
       log := if stored then b.log + [Event(b.number + 1, run, actor, payload)] else b.log)
  }

  function AddRun(b: Books, id: RunId, budget: Option<Budget>, now: real): Books {
    b.(runs := b.runs[id := NewRun(budget, now)], current := Some(id), results := b.results[id := []],
       billed := b.billed[id := 0])
  }

  function Begun(b: Books, id: RunId, budget: Option<Budget>, now: real, actor: Actor, stored: bool): Books {
    Emit(AddRun(b, id, budget, now), id, actor, Other("begin_run"), stored)
  }

  /** The run in progress, or a new one. */
  function WithRun(b: Books, adhoc: RunId, now: real, stored: bool): Books {
    if b.current.Some? then b else Begun(b, adhoc, None, now, User, stored)
  }

  function SetRun(b: Books, id: RunId, r: Run): Books {
    b.(runs := b.runs[id := r])
  }

  predicate Running(b: Books) {
    && b.runs.Keys == b.results.Keys == b.billed.Keys
    && (b.current.Some? ==> b.current.value in b.runs)
  }

  /** `check_budget`: a reason found is kept in the run. */
  function BudgetChecked(b: Books, now: real, cost: Option<real>): (Books, Option<string>)
    requires Running(b)
  {
    if b.current.None? then (b, None)
    else
      var id := b.current.value;
      var reason := BudgetReason(b.runs[id], now, cost);
      (if reason.None? then b else SetRun(b, id, b.runs[id].(exceeded := reason)), reason)
  }

  /** The part of `_record` under the lock: counters, the clipped output, the result. */
  function Count(b: Books, id: RunId, x: Execution): Books
    requires Running(b) && id in b.runs
  {
    var r := b.runs[id];
    var n := r.execCount + 1;
    b.(runs := b.runs[id := r.(execCount := n, totalTime := r.totalTime + Seconds(x.result),
                               errorCount := r.errorCount + if x.result.isError then 1 else 0)],
       outputs := b.outputs[(id, n) := Clip(Output(x.result))],
       results := b.results[id := b.results[id] + [x.result]],
       billed := b.billed[id := b.billed[id] + if x.actor.System? then 0 else 1])
  }

  function LogExec(b: Books, id: RunId, x: Execution): Books {
    Emit(b.(intact := b.intact && x.stored), id, x.actor, Exec(ClipResult(x.result), EncodeFiles(x.files)), x.stored)
  }

  function RecordedExec(b: Books, adhoc: RunId, adhocStored: bool, x: Execution): (Books, Verdict)
    requires Running(b)
  {
    var begun := WithRun(b, adhoc, x.now, adhocStored);
    if b.current.None? && !adhocStored then (begun, StoreFailed)
    else if !x.guard then (begun, GuardRefused)
    else
      var (checked, reason) := if x.actor.System? then (begun, None) else BudgetChecked(begun, x.now, None);
      if reason.Some? then (checked, BudgetRefused(reason.value))
      else
        var id := begun.current.value;
        (LogExec(Count(begun, id, x), id, x), if x.stored then Accepted else StoreFailed)
  }

  /** Opening a run that is then ended at once logs two events, each of which may fail to be stored. */
  function Ended(b: Books, adhoc: RunId, adhocStored: bool, now: real, stored: bool): Books
    requires Running(b)
  {
    var begun := WithRun(b, adhoc, now, adhocStored);
    if b.current.None? && !adhocStored then begun
    else
      var id := begun.current.value;
      var ended := Emit(SetRun(begun, id, begun.runs[id].(finished := true)), id, System, Other("end_run"), stored);
      if stored then ended.(current := None) else ended
  }

  /** The new run ids of an operation are fresh. */
  predicate Fresh(b: Books, op: Op) {
    match op
    case Begin(id, _, _, _, _) => id !in b.runs
    case End(adhoc, _, _, _) => adhoc !in b.runs
    case Record(adhoc, _, _) => adhoc !in b.runs
    case Check(_, _) => true
  }

  function Apply(b: Books, op: Op): Books
    requires Running(b)
  {
    match op
    case Begin(id, budget, now, actor, stored) => Begun(b, id, budget, now, actor, stored)
    case End(adhoc, adhocStored, now, stored) => Ended(b, adhoc, adhocStored, now, stored)
    case Record(adhoc, adhocStored, x) => RecordedExec(b, adhoc, adhocStored, x).0
    case Check(now, cost) => BudgetChecked(b, now, cost).0
  }

  ghost function After(ops: seq<Op>): Books {
    if ops == [] then OPENED
    else
      var b := After(ops[..|ops| - 1]);
      if Running(b) && Fresh(b, ops[|ops| - 1]) then Apply(b, ops[|ops| - 1]) else b
  }

  // ---- conservation -----------------------------------------------------------------------

  /** The counters say what the stored results are; the budget bounds what was billed. */
  ghost predicate Counted(r: Run, rs: seq<ExecResult>, billed: nat) {
    && r.execCount == |rs| && r.errorCount == Errors(rs) && r.totalTime == TotalTime(rs)
    && billed <= r.execCount
    && (r.budget.Some? && r.budget.value.maxExecutions.Some? ==> billed <= Max(0, r.budget.value.maxExecutions.value))
  }

  /** The reference `run:k` yields the clipped output of the k-th result. */
  ghost predicate Referenced(outputs: map<(RunId, nat), string>, id: RunId, rs: seq<ExecResult>) {
    forall k: nat :: 1 <= k <= |rs| ==> (id, k) in outputs && outputs[(id, k)] == Clip(Output(rs[k - 1]))
  }

  /** The log has exactly the run's executions. */
  ghost predicate Logged(log: seq<Event>, id: RunId, rs: seq<ExecResult>, billed: nat) {
    ResultsFromEvents(log, id) == ClipAll(rs) && Billed(log, id) == billed
  }

  ghost predicate Balanced(b: Books, id: RunId)
    requires Running(b) && id in b.runs
  {
    && Counted(b.runs[id], b.results[id], b.billed[id])
    && Referenced(b.outputs, id, b.results[id])
    && (b.intact ==> Logged(b.log, id, b.results[id], b.billed[id]))
  }

  ghost predicate Sound(b: Books) {
    && Running(b)
    && (forall id :: id in b.runs ==> Balanced(b, id))
    && (forall i :: 0 <= i < |b.log| ==> b.log[i].run in b.runs)
  }

  lemma AddSound(b: Books, id: RunId, budget: Option<Budget>, now: real)
    requires Sound(b) && id !in b.runs
    ensures Sound(AddRun(b, id, budget, now))
  {
    var b' := AddRun(b, id, budget, now);
    NoEvents(b.log, id);
    assert Balanced(b', id);
    forall q | q in b.runs ensures Balanced(b', q) {
      assert Balanced(b, q);
    }
  }

  lemma SetSound(b: Books, id: RunId, r: Run)
    requires Sound(b) && id in b.runs
    requires r.execCount == b.runs[id].execCount && r.errorCount == b.runs[id].errorCount
    requires r.totalTime == b.runs[id].totalTime && r.budget == b.runs[id].budget
    ensures Sound(SetRun(b, id, r))
  {
    forall q | q in b.runs ensures Balanced(SetRun(b, id, r), q) {
      assert Balanced(b, q);
    }
  }

  lemma NoteSound(b: Books, id: RunId, actor: Actor, what: string, stored: bool)
    requires Sound(b) && id in b.runs
    ensures Sound(Emit(b, id, actor, Other(what), stored))
  {
    forall q | q in b.runs ensures Balanced(Emit(b, id, actor, Other(what), stored), q) {
      assert Balanced(b, q);
      LogPush(b.log, Event(b.number + 1, id, actor, Other(what)), q);
    }
  }

  lemma BeginSound(b: Books, id: RunId, budget: Option<Budget>, now: real, actor: Actor, stored: bool)
    requires Sound(b) && id !in b.runs
    ensures Sound(Begun(b, id, budget, now, actor, stored))
  {
    AddSound(b, id, budget, now);
    NoteSound(AddRun(b, id, budget, now), id, actor, "begin_run", stored);
  }

  lemma CountedNext(r: Run, rs: seq<ExecResult>, billed: nat, x: Execution)
    requires Counted(r, rs, billed) && (x.actor.System? || BudgetReason(r, x.now, None).None?)
    ensures var r' := r.(execCount := r.execCount + 1, totalTime := r.totalTime + Seconds(x.result),
                         errorCount := r.errorCount + if x.result.isError then 1 else 0);
      Counted(r', rs + [x.result], billed + if x.actor.System? then 0 else 1)
  {
    ResultsPush(rs, x.result);
  }

  lemma LoggedNext(log: seq<Event>, id: RunId, rs: seq<ExecResult>, billed: nat, e: Event, r: ExecResult)
    requires Logged(log, id, rs, billed) && e.run == id && e.payload.Exec? && e.payload.result == ClipResult(r)
    ensures Logged(log + [e], id, rs + [r], billed + if e.actor.System? then 0 else 1)
  {
    ResultsPush(rs, r);
    LogPush(log, e, id);
  }

  lemma ReferencedNext(outputs: map<(RunId, nat), string>, id: RunId, rs: seq<ExecResult>, r: ExecResult)
    requires Referenced(outputs, id, rs)
    ensures Referenced(outputs[(id, |rs| + 1) := Clip(Output(r))], id, rs + [r])
  {
  }

  lemma ReferencedStays(outputs: map<(RunId, nat), string>, id: RunId, rs: seq<ExecResult>, other: RunId, k: nat,
                        text: string)
    requires Referenced(outputs, id, rs) && id != other
    ensures Referenced(outputs[(other, k) := text], id, rs)
  {
  }

  function ExecEvent(b: Books, id: RunId, x: Execution): Event {
    Event(b.number + 1, id, x.actor, Exec(ClipResult(x.result), EncodeFiles(x.files)))
  }

  lemma OwnBalanced(b: Books, id: RunId, x: Execution)
    requires Running(b) && id in b.runs && Balanced(b, id)
    requires x.actor.System? || BudgetReason(b.runs[id], x.now, None).None?
    ensures var b' := LogExec(Count(b, id, x), id, x); Running(b') && Balanced(b', id)
  {
    var b' := LogExec(Count(b, id, x), id, x);
    var rs := b.results[id];
    assert b'.results[id] == rs + [x.result];
    assert Counted(b'.runs[id], rs + [x.result], b'.billed[id]) by {
      CountedNext(b.runs[id], rs, b.billed[id], x);
    }
    assert Referenced(b'.outputs, id, rs + [x.result]) by {
      ReferencedNext(b.outputs, id, rs, x.result);
    }
    if b'.intact {
      LoggedNext(b.log, id, rs, b.billed[id], ExecEvent(b, id, x), x.result);
    }
  }

  lemma OtherBalanced(b: Books, id: RunId, x: Execution, q: RunId)
    requires Running(b) && id in b.runs && q in b.runs && q != id && Balanced(b, q)
    ensures var b' := LogExec(Count(b, id, x), id, x); Running(b') && Balanced(b', q)
  {
    ReferencedStays(b.outputs, q, b.results[q], id, b.runs[id].execCount + 1, Clip(Output(x.result)));
    LogPush(b.log, ExecEvent(b, id, x), q);
  }

  lemma ExecutionSound(b: Books, id: RunId, x: Execution)
    requires Sound(b) && id in b.runs
    requires x.actor.System? || BudgetReason(b.runs[id], x.now, None).None?
    ensures Sound(LogExec(Count(b, id, x), id, x))
  {
    var b' := LogExec(Count(b, id, x), id, x);
    OwnBalanced(b, id, x);
    forall q | q in b.runs && q != id ensures Balanced(b', q) {
      OtherBalanced(b, id, x, q);
    }
  }

  lemma RequireSound(b: Books, adhoc: RunId, now: real, stored: bool)
    requires Sound(b) && adhoc !in b.runs
    ensures Sound(WithRun(b, adhoc, now, stored)) && WithRun(b, adhoc, now, stored).current.Some?
  {
    if b.current.None? { BeginSound(b, adhoc, None, now, User, stored); }
  }

  lemma CheckSound(b: Books, now: real, cost: Option<real>)
    requires Sound(b)
    ensures Sound(BudgetChecked(b, now, cost).0)
  {
    if b.current.Some? {
      var id := b.current.value;
      SetSound(b, id, b.runs[id].(exceeded := BudgetReason(b.runs[id], now, cost)));
    }
  }

  /** What is left of recording an execution: the run it opened, the budget check made of that, or an execution
      counted and logged. */
  predicate LeftBy(begun: Books, after: Books, x: Execution) {
    && Running(begun) && begun.current.Some?
    && var id := begun.current.value;
       || after == begun
       || after == BudgetChecked(begun, x.now, None).0
       || (after == LogExec(Count(begun, id, x), id, x)
           && (x.actor.System? || BudgetReason(begun.runs[id], x.now, None).None?))
  }

  lemma RecordOutcome(b: Books, adhoc: RunId, adhocStored: bool, x: Execution)
    requires Running(b)
    ensures LeftBy(WithRun(b, adhoc, x.now, adhocStored), RecordedExec(b, adhoc, adhocStored, x).0, x)
  {
  }

  lemma RecordSound(b: Books, adhoc: RunId, adhocStored: bool, x: Execution)
    requires Sound(b) && adhoc !in b.runs
    ensures Sound(RecordedExec(b, adhoc, adhocStored, x).0)
  {
    RequireSound(b, adhoc, x.now, adhocStored);
    RecordOutcome(b, adhoc, adhocStored, x);
    OutcomeSound(WithRun(b, adhoc, x.now, adhocStored), RecordedExec(b, adhoc, adhocStored, x).0, x);
  }

  lemma OutcomeSound(begun: Books, after: Books, x: Execution)
    requires Sound(begun) && LeftBy(begun, after, x)
    ensures Sound(after)
  {
    CheckSound(begun, x.now, None);
    if x.actor.System? || BudgetReason(begun.runs[begun.current.value], x.now, None).None? {
      ExecutionSound(begun, begun.current.value, x);
    }
  }

  lemma EndSound(b: Books, adhoc: RunId, adhocStored: bool, now: real, stored: bool)
    requires Sound(b) && adhoc !in b.runs
    ensures Sound(Ended(b, adhoc, adhocStored, now, stored))
  {
    RequireSound(b, adhoc, now, adhocStored);
    var begun := WithRun(b, adhoc, now, adhocStored);
    var id := begun.current.value;
    var r := begun.runs[id].(finished := true);
    SetSound(begun, id, r);
    NoteSound(SetRun(begun, id, r), id, System, "end_run", stored);
    var ended := Emit(SetRun(begun, id, r), id, System, Other("end_run"), stored);
    forall q | q in ended.runs ensures Balanced(ended.(current := None), q) {
      assert Balanced(ended, q);
    }
  }

  lemma ApplySound(b: Books, op: Op)
    requires Sound(b) && Fresh(b, op)
    ensures Sound(Apply(b, op))
  {
    match op
    case Begin(id, budget, now, actor, stored) => BeginSound(b, id, budget, now, actor, stored);
    case End(adhoc, adhocStored, now, stored) => EndSound(b, adhoc, adhocStored, now, stored);
    case Record(adhoc, adhocStored, x) => RecordSound(b, adhoc, adhocStored, x);
    case Check(now, cost) => CheckSound(b, now, cost);
  }

  lemma {:induction false} AfterSound(ops: seq<Op>)
    ensures Sound(After(ops))
  {
    if ops != [] {
      AfterSound(ops[..|ops| - 1]);
      var b := After(ops[..|ops| - 1]);
      if Fresh(b, ops[|ops| - 1]) {
        ApplySound(b, ops[|ops| - 1]);
      }
    }
  }

  // ---- event numbers ------------------------------------------------------------------------

  /** Events are numbered in the order of the log, and no number is used again, even if its event was not stored. */
  ghost predicate Numbered(b: Books) {
    && (forall i :: 0 <= i < |b.log| ==> 1 <= b.log[i].number <= b.number)
    && (forall i, j :: 0 <= i < j < |b.log| ==> b.log[i].number < b.log[j].number)
  }

  lemma EmitNumbered(b: Books, run: RunId, actor: Actor, payload: Payload, stored: bool)
    requires Numbered(b)
    ensures Numbered(Emit(b, run, actor, payload, stored))
    ensures Emit(b, run, actor, payload, stored).number > b.number
  {
  }

  lemma OpeningNumbered(b: Books, adhoc: RunId, now: real, stored: bool)
    requires Numbered(b)
    ensures Numbered(WithRun(b, adhoc, now, stored))
  {
    EmitNumbered(AddRun(b, adhoc, None, now), adhoc, User, Other("begin_run"), stored);
  }

  lemma RecordNumbered(b: Books, adhoc: RunId, adhocStored: bool, x: Execution)
    requires Running(b) && Numbered(b)
    ensures Numbered(RecordedExec(b, adhoc, adhocStored, x).0)
  {
    var begun := WithRun(b, adhoc, x.now, adhocStored);
    OpeningNumbered(b, adhoc, x.now, adhocStored);
    RecordOutcome(b, adhoc, adhocStored, x);
    LeftNumbered(begun, RecordedExec(b, adhoc, adhocStored, x).0, x);
  }

  lemma CountedNumbered(b: Books, id: RunId, x: Execution)
    requires Running(b) && id in b.runs && Numbered(b)
    ensures Numbered(LogExec(Count(b, id, x), id, x))
  {
    var counted := Count(b, id, x).(intact := b.intact && x.stored);
    EmitNumbered(counted, id, x.actor, Exec(ClipResult(x.result), EncodeFiles(x.files)), x.stored);
  }

  lemma LeftNumbered(begun: Books, after: Books, x: Execution)
    requires LeftBy(begun, after, x) && Numbered(begun)
    ensures Numbered(after)
  {
    CountedNumbered(begun, begun.current.value, x);
  }

  lemma EndNumbered(b: Books, adhoc: RunId, adhocStored: bool, now: real, stored: bool)
    requires Running(b) && Numbered(b)
    ensures Numbered(Ended(b, adhoc, adhocStored, now, stored))
  {
    var begun := WithRun(b, adhoc, now, adhocStored);
    OpeningNumbered(b, adhoc, now, adhocStored);
    var id := begun.current.value;
    EmitNumbered(SetRun(begun, id, begun.runs[id].(finished := true)), id, System, Other("end_run"), stored);
  }

  lemma ApplyNumbered(b: Books, op: Op)
    requires Running(b) && Numbered(b)
    ensures Numbered(Apply(b, op))
  {
    match op
    case Begin(id, budget, now, actor, stored) =>
      EmitNumbered(AddRun(b, id, budget, now), id, actor, Other("begin_run"), stored);
    case End(adhoc, adhocStored, now, stored) => EndNumbered(b, adhoc, adhocStored, now, stored);
    case Record(adhoc, adhocStored, x) => RecordNumbered(b, adhoc, adhocStored, x);
    case Check(_, _) =>
  }

  /** So it is after every sequence of operations. */
  lemma {:induction false} AfterNumbered(ops: seq<Op>)
    ensures Numbered(After(ops))
  {
    if ops != [] {
      AfterNumbered(ops[..|ops| - 1]);
      AfterSound(ops[..|ops| - 1]);
      var b := After(ops[..|ops| - 1]);
      if Fresh(b, ops[|ops| - 1]) { ApplyNumbered(b, ops[|ops| - 1]); }
    }
  }

  // ---- what follows for every sequence of operations -----------------------------------------

  predicate HasRun(b: Books, id: RunId) {
    id in b.runs
  }

  /** Run accounting: counters, stored results, references and the logged executions agree, and what was not
      recorded by the system stays within the budget. */
  lemma Accounting(ops: seq<Op>, id: RunId)
    requires HasRun(After(ops), id)
    ensures var b := After(ops);
      && Running(b)
      && b.runs[id].execCount == |b.results[id]|
      && b.runs[id].errorCount == Errors(b.results[id])
      && b.runs[id].totalTime == TotalTime(b.results[id])
      && (forall k: nat :: 1 <= k <= b.runs[id].execCount ==>
            (id, k) in b.outputs && b.outputs[(id, k)] == Clip(Output(b.results[id][k - 1])))
      && (b.intact ==> |ResultsFromEvents(b.log, id)| == b.runs[id].execCount && Billed(b.log, id) == b.billed[id])
      && (b.runs[id].budget.Some? && b.runs[id].budget.value.maxExecutions.Some? ==>
            b.billed[id] <= Max(0, b.runs[id].budget.value.maxExecutions.value))
  {
    AfterSound(ops);
    assert Balanced(After(ops), id);
  }

  /** The run exists, and every execution of the session reached the log. */
  predicate AllLogged(b: Books, id: RunId) {
    HasRun(b, id) && b.intact
  }

  /** Reading the log back gives a run's results in order, clipped; within the clip limit it gives the results. */
  lemma PostHocResults(ops: seq<Op>, id: RunId)
    requires AllLogged(After(ops), id)
    ensures Running(After(ops)) && ResultsFromEvents(After(ops).log, id) == ClipAll(After(ops).results[id])
    ensures (forall r :: r in After(ops).results[id] ==> WithinLimit(r)) ==>
              ResultsFromEvents(After(ops).log, id) == After(ops).results[id]
  {
    AfterSound(ops);
    assert Balanced(After(ops), id);
    if forall r :: r in After(ops).results[id] ==> WithinLimit(r) {
      ClipAllWithinLimit(After(ops).results[id]);
    }
  }

  /** The books of a run: everything but its `exceeded` entry. */
  predicate SameBooks(b: Books, b': Books, id: RunId)
    requires Running(b) && Running(b') && id in b.runs && id in b'.runs
  {
    && b'.results[id] == b.results[id] && b'.billed[id] == b.billed[id]
    && b'.runs[id].(exceeded := None) == b.runs[id].(exceeded := None)
  }

  lemma OpeningAddsNothing(b: Books, adhoc: RunId, now: real, stored: bool)
    requires Running(b) && adhoc !in b.runs
    ensures var b' := WithRun(b, adhoc, now, stored);
      && Running(b') && b'.outputs == b.outputs && b'.intact == b.intact
      && (forall id :: id in b.runs ==> id in b'.runs && SameBooks(b, b', id))
      && b'.runs.Keys == b.runs.Keys + (if b.current.None? then {adhoc} else {})
      && (b.current.None? ==> b'.results[adhoc] == [])
  {
  }

  lemma OpeningLogsNoExecution(b: Books, adhoc: RunId, now: real, stored: bool, id: RunId)
    ensures ResultsFromEvents(WithRun(b, adhoc, now, stored).log, id) == ResultsFromEvents(b.log, id)
  {
    LogPush(b.log, Event(b.number + 1, adhoc, User, Other("begin_run")), id);
  }

  /** A refused execution adds nothing to any run. What it can leave behind is an empty run: without a run in
      progress one is opened before the guard is asked. */
  lemma RefusedAddsNothing(b: Books, adhoc: RunId, adhocStored: bool, x: Execution)
    requires Running(b) && adhoc !in b.runs
    requires var v := RecordedExec(b, adhoc, adhocStored, x).1; v.GuardRefused? || v.BudgetRefused?
    ensures var b' := RecordedExec(b, adhoc, adhocStored, x).0;
      && Running(b') && b'.outputs == b.outputs && b'.intact == b.intact
      && (forall id :: id in b.runs ==> id in b'.runs && SameBooks(b, b', id))
      && b'.runs.Keys == b.runs.Keys + (if b.current.None? then {adhoc} else {})
      && (b.current.None? ==> b'.results[adhoc] == [])
    ensures forall id ::
      ResultsFromEvents(RecordedExec(b, adhoc, adhocStored, x).0.log, id) == ResultsFromEvents(b.log, id)
  {
    OpeningAddsNothing(b, adhoc, x.now, adhocStored);
    var begun := WithRun(b, adhoc, x.now, adhocStored);
    assert RecordedExec(b, adhoc, adhocStored, x).0 in {begun, BudgetChecked(begun, x.now, None).0};
    forall id { OpeningLogsNoExecution(b, adhoc, x.now, adhocStored, id); }
  }

  // ---- the session object ------------------------------------------------------------------------

  class DevSession {
    var runs: map<RunId, Run>
    var current: Option<RunId>
    var results: map<RunId, seq<ExecResult>>
    var outputs: map<(RunId, nat), string>
    var log: seq<Event>
    var number: nat
    ghost var intact: bool
    ghost var billed: map<RunId, nat>

    ghost function View(): Books
      reads this
    {
      Books(runs, current, results, outputs, log, number, intact, billed)
    }

    constructor ()
      ensures View() == OPENED
    {
      runs, current, results, outputs, log, number := map[], None, map[], map[], [], 0;
      intact, billed := true, map[];
    }

    method AppendEvent(run: RunId, actor: Actor, payload: Payload, stored: bool)
      modifies this`number, this`log
      ensures View() == Emit(old(View()), run, actor, payload, stored)
    {
      number := number + 1;
      if stored { log := log + [Event(number, run, actor, payload)]; }
    }

    method BeginRun(id: RunId, budget: Option<Budget>, now: real, actor: Actor, stored: bool)
      modifies this
      ensures View() == Begun(old(View()), id, budget, now, actor, stored)
      // it is the current run, on these terms, and has no executions yet
      ensures current == Some(id) && id in runs && id in results && results[id] == []
      ensures runs[id].budget == budget && runs[id].startedAt == now && runs[id].exceeded.None?
      ensures runs[id].execCount == runs[id].errorCount == 0 && runs[id].totalTime == 0.0 && !runs[id].finished
    {
      runs := runs[id := NewRun(budget, now)];
      current := Some(id);
      results := results[id := []];
      billed := billed[id := 0];
      AppendEvent(id, actor, Other("begin_run"), stored);
    }

    method RequireRun(adhoc: RunId, now: real, stored: bool)
      modifies this
      ensures View() == WithRun(old(View()), adhoc, now, stored)
    {
      if current.None? { BeginRun(adhoc, None, now, User, stored); }
    }

    method CheckBudget(now: real, cost: Option<real>) returns (reason: Option<string>)
      requires Running(View())
      modifies this`runs
      ensures (View(), reason) == BudgetChecked(old(View()), now, cost)
    {
      if current.None? { return None; }
      var id := current.value;
      reason := BudgetReason(runs[id], now, cost);
      if reason.Some? {
        runs := runs[id := runs[id].(exceeded := reason)];
      }
    }

    method CountExecution(id: RunId, x: Execution)
      requires Running(View()) && id in runs
      modifies this`runs, this`outputs, this`results, this`billed
      ensures View() == Count(old(View()), id, x)
    {
      var r := runs[id];
      var n := r.execCount + 1;
      runs := runs[id := r.(execCount := n, totalTime := r.totalTime + Seconds(x.result),
                            errorCount := r.errorCount + if x.result.isError then 1 else 0)];
      outputs := outputs[(id, n) := Clip(Output(x.result))];
      results := results[id := results[id] + [x.result]];
      billed := billed[id := billed[id] + if x.actor.System? then 0 else 1];
    }

    /** `_record`: the run, the lease guard, the budget, the counters, and then the log. */
    method Record(adhoc: RunId, adhocStored: bool, x: Execution) returns (v: Verdict)
      requires Running(View())
      modifies this
      ensures (View(), v) == RecordedExec(old(View()), adhoc, adhocStored, x)
    {
      var opens := current.None?;
      RequireRun(adhoc, x.now, adhocStored);
      if opens && !adhocStored { return StoreFailed; }
      if !x.guard { return GuardRefused; }
      if !x.actor.System? {
        var reason := CheckBudget(x.now, None);
        if reason.Some? { return BudgetRefused(reason.value); }
      }
      var id := current.value;
      CountExecution(id, x);
      intact := intact && x.stored;
      AppendEvent(id, x.actor, Exec(ClipResult(x.result), EncodeFiles(x.files)), x.stored);
      v := if x.stored then Accepted else StoreFailed;
    }

    method EndRun(adhoc: RunId, adhocStored: bool, now: real, stored: bool)
      requires Running(View())
      modifies this
      ensures View() == Ended(old(View()), adhoc, adhocStored, now, stored)
      // if only the end fails to be stored, the run is finished and yet goes on being the current one
      ensures (old(current).Some? || adhocStored) && !stored ==>
        current.Some? && current.value in runs && runs[current.value].finished
      // if both are, it is the current one no longer
      ensures (old(current).Some? || adhocStored) && stored ==>
        current.None? && (old(current).Some? ==> old(current).value in runs && runs[old(current).value].finished)
    {
      var opens := current.None?;
      RequireRun(adhoc, now, adhocStored);
      if opens && !adhocStored { return; }
      var id := current.value;
      runs := runs[id := runs[id].(finished := true)];
      AppendEvent(id, System, Other("end_run"), stored);
      if stored { current := None; }
    }
  }
}
