/** The token meter, the cost estimate, and the hook that stops a run once its budget is spent. */
module AgentBudget {
  import opened Prelude
  import opened Recording
  import opened Session

  // ---- the meter ------------------------------------------------------------------------

  datatype Usage = Usage(input: nat, output: nat, cacheRead: nat, cacheCreation: nat)

  const NO_USAGE := Usage(0, 0, 0, 0)

  function Plus(a: Usage, b: Usage): Usage {
    Usage(a.input + b.input, a.output + b.output, a.cacheRead + b.cacheRead, a.cacheCreation + b.cacheCreation)
  }

  /** One content block: the usage of its whole message, if present, and the message id, if any. */
  datatype Block = Block(usage: Option<Usage>, id: Option<string>)

  predicate HasId(b: Block) {
    b.id.Some? && b.id.value != ""
  }

  /** The ids whose usage has been counted. */
  function Seen(blocks: seq<Block>): set<string> {
    if blocks == [] then {} else
      var b := blocks[|blocks| - 1];
      Seen(blocks[..|blocks| - 1]) + if b.usage.Some? && HasId(b) then {b.id.value} else {}
  }

  /** Every message id counts once, with the usage of its first block; blocks without an id always count. */
  function Metered(blocks: seq<Block>): Usage {
    if blocks == [] then NO_USAGE else
      var b, before := blocks[|blocks| - 1], blocks[..|blocks| - 1];
      if b.usage.None? || (HasId(b) && b.id.value in Seen(before)) then Metered(before)
      else Plus(Metered(before), b.usage.value)
  }

  class UsageMeter {
    var total: Usage
    var seen: set<string>
    /** All blocks metered so far. */
    ghost var blocks: seq<Block>

    ghost predicate Valid()
      reads this
    {
      total == Metered(blocks) && seen == Seen(blocks)
    }

    constructor ()
      ensures Valid() && blocks == []
    {
      total, seen, blocks := NO_USAGE, {}, [];
    }

    method Add(b: Block)
      requires Valid()
      modifies this
      ensures Valid() && blocks == old(blocks) + [b]
    {
      blocks := blocks + [b];
      assert blocks[..|blocks| - 1] == old(blocks);
      if b.usage.None? { return; }
      if HasId(b) {
        if b.id.value in seen { return; }
        seen := seen + {b.id.value};
      }
      total := Plus(total, b.usage.value);
    }
  }

  lemma MeteredPush(blocks: seq<Block>, b: Block)
    ensures Seen(blocks + [b]) == Seen(blocks) + if b.usage.Some? && HasId(b) then {b.id.value} else {}
    ensures Metered(blocks + [b]) == if b.usage.None? || (HasId(b) && b.id.value in Seen(blocks)) then Metered(blocks)
                                     else Plus(Metered(blocks), b.usage.value)
  {
    assert (blocks + [b])[..|blocks|] == blocks;
  }

  /** A repeated block of a message already counted changes nothing, wherever it arrives. */
  lemma {:induction false} RepeatsAreFree(before: seq<Block>, b: Block, after: seq<Block>)
    requires HasId(b) && b.id.value in Seen(before)
    ensures Metered(before + [b] + after) == Metered(before + after)
    ensures Seen(before + [b] + after) == Seen(before + after)
  {
    if after == [] {
      MeteredPush(before, b);
      assert before + [b] + after == before + [b] && before + after == before;
    } else {
      var n := |after| - 1;
      RepeatsAreFree(before, b, after[..n]);
      MeteredPush(before + [b] + after[..n], after[n]);
      MeteredPush(before + after[..n], after[n]);
      assert before + [b] + after[..n] + [after[n]] == before + [b] + after;
      assert before + after[..n] + [after[n]] == before + after;
    }
  }

  /** The first blocks of the messages, in order: one block per distinct id. */
  function FirstBlocks(blocks: seq<Block>): seq<Block> {
    if blocks == [] then [] else
      var b, before := blocks[|blocks| - 1], blocks[..|blocks| - 1];
      if b.usage.None? || (HasId(b) && b.id.value in Seen(before)) then FirstBlocks(before)
      else FirstBlocks(before) + [b]
  }

  function Sum(blocks: seq<Block>): Usage {
    if blocks == [] then NO_USAGE else
      var b := blocks[|blocks| - 1];
      Plus(Sum(blocks[..|blocks| - 1]), if b.usage.Some? then b.usage.value else NO_USAGE)
  }

  /** The totals are the plain sum over distinct messages. */
  lemma {:induction false} TotalIsSumOverDistinctMessages(blocks: seq<Block>)
    ensures Metered(blocks) == Sum(FirstBlocks(blocks))
    ensures var f := FirstBlocks(blocks);
      && (forall i, j :: 0 <= i < j < |f| && HasId(f[i]) && HasId(f[j]) ==> f[i].id != f[j].id)
      && (forall i :: 0 <= i < |f| ==> f[i].usage.Some? && (HasId(f[i]) ==> f[i].id.value in Seen(blocks)))
      && (forall s :: s in Seen(blocks) ==> exists i :: 0 <= i < |f| && f[i].id == Some(s))
  {
    if blocks != [] {
      var n := |blocks| - 1;
      var b := blocks[n];
      TotalIsSumOverDistinctMessages(blocks[..n]);
      var g := FirstBlocks(blocks[..n]);
      var f := FirstBlocks(blocks);
      if f != g {
        assert f[..|g|] == g && f[|g|] == b;
      }
      forall s | s in Seen(blocks) ensures exists i :: 0 <= i < |f| && f[i].id == Some(s) {
        if s in Seen(blocks[..n]) {
          var i :| 0 <= i < |g| && g[i].id == Some(s);
          assert f[i].id == Some(s);
        } else {
          assert f[|g|].id == Some(s);
        }
      }
    }
  }

  /** Block `k` reports the usage of message `id`. */
  predicate Reports(blocks: seq<Block>, k: nat, id: string) {
    k < |blocks| && blocks[k].usage.Some? && blocks[k].id == Some(id)
  }

  ghost predicate Reported(blocks: seq<Block>, id: string) {
    exists k: nat :: Reports(blocks, k, id)
  }

  lemma ReportedPush(blocks: seq<Block>, b: Block, id: string)
    ensures Reported(blocks + [b], id) <==> Reported(blocks, id) || (b.usage.Some? && b.id == Some(id))
  {
    var all := blocks + [b];
    if Reported(blocks, id) {
      var k: nat :| Reports(blocks, k, id);
      assert Reports(all, k, id);
    }
    if b.usage.Some? && b.id == Some(id) { assert Reports(all, |blocks|, id); }
    if Reported(all, id) {
      var k: nat :| Reports(all, k, id);
      if k < |blocks| { assert Reports(blocks, k, id); }
    }
  }

  lemma {:induction false} SeenMeans(blocks: seq<Block>, id: string)
    ensures id in Seen(blocks) <==> id != "" && Reported(blocks, id)
  {
    if blocks != [] {
      var n := |blocks| - 1;
      SeenMeans(blocks[..n], id);
      ReportedPush(blocks[..n], blocks[n], id);
      assert blocks[..n] + [blocks[n]] == blocks;
    }
  }

  /** The blocks that report usage of no message in particular. */
  function Unnamed(blocks: seq<Block>): seq<Block> {
    if blocks == [] then [] else
      var b := blocks[|blocks| - 1];
      Unnamed(blocks[..|blocks| - 1]) + if b.usage.Some? && !HasId(b) then [b] else []
  }

  /** What counts: every block of no message in particular, and of each message the first block that reports usage. */
  lemma {:induction false} FirstBlocksAreFirst(blocks: seq<Block>)
    ensures Unnamed(FirstBlocks(blocks)) == Unnamed(blocks)
    ensures forall b :: b in FirstBlocks(blocks) && HasId(b) ==>
      exists k: nat :: Reports(blocks, k, b.id.value) && blocks[k] == b && b.id.value !in Seen(blocks[..k])
  {
    if blocks != [] {
      var n := |blocks| - 1;
      var b, g := blocks[n], FirstBlocks(blocks[..n]);
      FirstBlocksAreFirst(blocks[..n]);
      if FirstBlocks(blocks) != g { assert (g + [b])[..|g|] == g; }
      forall x | x in FirstBlocks(blocks) && HasId(x)
        ensures exists k: nat :: Reports(blocks, k, x.id.value) && blocks[k] == x && x.id.value !in Seen(blocks[..k])
      {
        if x in g {
          var k: nat :| Reports(blocks[..n], k, x.id.value) && blocks[..n][k] == x
                        && x.id.value !in Seen(blocks[..n][..k]);
          assert blocks[..n][..k] == blocks[..k] && Reports(blocks, k, x.id.value);
        } else {
          assert Reports(blocks, n, x.id.value);
        }
      }
    }
  }

  /** One kind of tokens over a list of blocks. */
  function SumBy(blocks: seq<Block>, tokens: Usage -> nat): nat {
    if blocks == [] then 0 else
      var b := blocks[|blocks| - 1];
      SumBy(blocks[..|blocks| - 1], tokens) + match b.usage case None => 0 case Some(u) => tokens(u)
  }

  lemma {:induction false} SumIsByKind(blocks: seq<Block>)
    ensures Sum(blocks) == Usage(SumBy(blocks, (u: Usage) => u.input), SumBy(blocks, (u: Usage) => u.output),
                                 SumBy(blocks, (u: Usage) => u.cacheRead), SumBy(blocks, (u: Usage) => u.cacheCreation))
  {
    if blocks != [] { SumIsByKind(blocks[..|blocks| - 1]); }
  }

  /** Each of the four totals is the sum of its own kind of tokens over the first blocks of the messages. */
  lemma TotalsByKind(blocks: seq<Block>)
    ensures var f, u := FirstBlocks(blocks), Metered(blocks);
      && u.input == SumBy(f, (u: Usage) => u.input) && u.output == SumBy(f, (u: Usage) => u.output)
      && u.cacheRead == SumBy(f, (u: Usage) => u.cacheRead)
      && u.cacheCreation == SumBy(f, (u: Usage) => u.cacheCreation)
  {
    TotalIsSumOverDistinctMessages(blocks);
    SumIsByKind(FirstBlocks(blocks));
  }

  // ---- the estimate -----------------------------------------------------------------------

  /** Dollars per million input and output tokens. */
  datatype Price = Price(input: real, output: real)

  datatype Report = Report(inputTokens: int, outputTokens: int, cacheRead: int, cacheCreation: int)

  function AsReport(u: Usage): Report {
    Report(u.input + u.cacheRead + u.cacheCreation, u.output, u.cacheRead, u.cacheCreation)
  }

  /** Python's `round(x, 4)`: to the nearest, halves to the even neighbour. */
  function Round4(x: real): real {
    var y := x * 10000.0;
    var low := y.Floor;
    var d := y - low as real;
    (if d < 0.5 || (d == 0.5 && low % 2 == 0) then low else low + 1) as real / 10000.0
  }

  function Plain(r: Report): int {
    Max(r.inputTokens - r.cacheRead - r.cacheCreation, 0)
  }

  function Term(tokens: int, price: real): real {
    tokens as real * price
  }

  function RawCost(p: Price, r: Report): real {
    (Term(Plain(r), p.input) + Term(r.cacheRead, p.input) * 0.1 + Term(r.cacheCreation, p.input) * 1.25
      + Term(r.outputTokens, p.output)) / 1000000.0
  }

  /** No price for the model, no estimate. */
  function Cost(p: Option<Price>, r: Report): Option<real> {
    if p.None? then None else Some(Round4(RawCost(p.value, r)))
  }

  /** On what the meter reports, the guard against a negative remainder never acts. */
  lemma NothingIsCutOff(u: Usage)
    ensures Plain(AsReport(u)) == AsReport(u).inputTokens - u.cacheRead - u.cacheCreation == u.input
  {
  }

  /** What the list prices come to, kind by kind: cache reads at a tenth of the input price, cache creation at five
      quarters of it. */
  function ListPrice(p: Price, u: Usage): real {
    (u.input as real + u.cacheRead as real / 10.0 + u.cacheCreation as real * 5.0 / 4.0) * p.input / 1000000.0
    + u.output as real * p.output / 1000000.0
  }

  lemma RawCostIsListPrice(p: Price, u: Usage)
    ensures RawCost(p, AsReport(u)) == ListPrice(p, u)
  {
    NothingIsCutOff(u);
    Distribute(u.input as real, u.cacheRead as real, u.cacheCreation as real, p.input);
  }

  lemma Distribute(a: real, b: real, d: real, p: real)
    ensures (a + b / 10.0 + d * 5.0 / 4.0) * p == a * p + b * p * 0.1 + d * p * 1.25
  {
    var x, y := b / 10.0, d * 5.0 / 4.0;
    assert (a + x + y) * p == a * p + x * p + y * p;
    assert x == 0.1 * b && y == 1.25 * d;
    assert 0.1 * b * p == b * p * 0.1 && 1.25 * d * p == d * p * 1.25;
  }

  /** Rounded to a multiple of a ten-thousandth that is nowhere further off than half of one. */
  lemma RoundsToNearest(x: real) returns (n: int)
    ensures Round4(x) == n as real / 10000.0
    ensures -0.5 <= n as real - x * 10000.0 <= 0.5
    ensures n as real - x * 10000.0 == 0.5 || n as real - x * 10000.0 == -0.5 ==> n % 2 == 0
  {
    var y := x * 10000.0;
    var low, d := y.Floor, y - y.Floor as real;
    n := if d < 0.5 || (d == 0.5 && low % 2 == 0) then low else low + 1;
  }

  /** The estimate for what the meter counted is its list price to the nearest ten-thousandth of a dollar, and there
      is none without a price. */
  lemma CostIsListPrice(p: Option<Price>, blocks: seq<Block>) returns (n: int)
    ensures p.None? ==> Cost(p, AsReport(Metered(blocks))).None?
    ensures p.Some? ==>
      && Cost(p, AsReport(Metered(blocks))) == Some(n as real / 10000.0)
      && -0.5 <= n as real - ListPrice(p.value, Metered(blocks)) * 10000.0 <= 0.5
  {
    n := 0;
    if p.Some? {
      RawCostIsListPrice(p.value, Metered(blocks));
      n := RoundsToNearest(RawCost(p.value, AsReport(Metered(blocks))));
    }
  }

  lemma RoundGrows(a: real, b: real)
    requires a <= b
    ensures Round4(a) <= Round4(b)
  {
    var x, y := a * 10000.0, b * 10000.0;
    assert x <= y;
    var low, high := x.Floor, y.Floor;
    if low == high {
      assert x - low as real <= y - high as real;
    }
  }

  lemma TermGrows(a: int, b: int, p: real)
    requires a <= b && p >= 0.0
    ensures Term(a, p) <= Term(b, p)
  {
    assert (b - a) as real * p >= 0.0;
  }

  lemma RawCostGrows(p: Price, u: Usage, v: Usage)
    requires p.input >= 0.0 && p.output >= 0.0
    requires u.input <= v.input && u.output <= v.output && u.cacheRead <= v.cacheRead
      && u.cacheCreation <= v.cacheCreation
    ensures RawCost(p, AsReport(u)) <= RawCost(p, AsReport(v))
  {
    NothingIsCutOff(u);
    NothingIsCutOff(v);
    TermGrows(u.input, v.input, p.input);
    TermGrows(u.cacheRead, v.cacheRead, p.input);
    TermGrows(u.cacheCreation, v.cacheCreation, p.input);
    TermGrows(u.output, v.output, p.output);
  }

  lemma {:induction false} MeteredGrows(blocks: seq<Block>, more: seq<Block>)
    ensures var u, v := Metered(blocks), Metered(blocks + more);
      u.input <= v.input && u.output <= v.output && u.cacheRead <= v.cacheRead && u.cacheCreation <= v.cacheCreation
  {
    if more == [] {
      assert blocks + more == blocks;
    } else {
      var n := |more| - 1;
      MeteredGrows(blocks, more[..n]);
      MeteredPush(blocks + more[..n], more[n]);
      assert blocks + more[..n] + [more[n]] == blocks + more;
    }
  }

  /** The estimated cost of a run never decreases as blocks come in. */
  lemma CostNeverDecreases(p: Price, blocks: seq<Block>, more: seq<Block>)
    requires p.input >= 0.0 && p.output >= 0.0
    ensures Cost(Some(p), AsReport(Metered(blocks))).value <= Cost(Some(p), AsReport(Metered(blocks + more))).value
  {
    MeteredGrows(blocks, more);
    RawCostGrows(p, Metered(blocks), Metered(blocks + more));
    RoundGrows(RawCost(p, AsReport(Metered(blocks))), RawCost(p, AsReport(Metered(blocks + more))));
  }

  // ---- the hook -----------------------------------------------------------------------------

  /** The answer to a tool call: `None` lets it through. An earlier budget reason is final. */
  function HookAnswer(b: Books, now: real, cost: Option<real>): Option<string>
    requires Running(b)
  {
    if b.current.Some? && b.runs[b.current.value].exceeded.Some? then b.runs[b.current.value].exceeded
    else BudgetChecked(b, now, cost).1
  }

  function AfterHook(b: Books, now: real, cost: Option<real>): Books
    requires Running(b)
  {
    if b.current.Some? && b.runs[b.current.value].exceeded.Some? then b else BudgetChecked(b, now, cost).0
  }

  method PreToolUse(session: DevSession, now: real, cost: Option<real>) returns (answer: Option<string>)
    requires Running(session.View())
    modifies session`runs
    ensures answer == HookAnswer(old(session.View()), now, cost)
    ensures session.View() == AfterHook(old(session.View()), now, cost)
  {
    if session.current.Some? && session.runs[session.current.value].exceeded.Some? {
      return session.runs[session.current.value].exceeded;
    }
    answer := session.CheckBudget(now, cost);
  }

  /** What can happen between two tool calls. */
  datatype Move = Work(op: Op) | ToolCall(now: real, cost: Option<real>)

  function Moved(b: Books, m: Move): Books
    requires Running(b)
  {
    match m
    case Work(op) => if Fresh(b, op) then Apply(b, op) else b
    case ToolCall(now, cost) => AfterHook(b, now, cost)
  }

  function MovedAll(b: Books, moves: seq<Move>): (r: Books)
    requires Sound(b)
    ensures Sound(r)
    decreases |moves|
  {
    if moves == [] then b
    else
      MoveSound(b, moves[0]);
      MovedAll(Moved(b, moves[0]), moves[1..])
  }

  lemma MoveSound(b: Books, m: Move)
    requires Sound(b)
    ensures Sound(Moved(b, m))
  {
    match m
    case Work(op) => if Fresh(b, op) { ApplySound(b, op); }
    case ToolCall(now, cost) => CheckSound(b, now, cost);
  }

  predicate Marked(b: Books, id: RunId) {
    id in b.runs && b.runs[id].exceeded.Some?
  }

  lemma BudgetKeepsMark(b: Books, now: real, cost: Option<real>, id: RunId)
    requires Running(b) && Marked(b, id)
    ensures Marked(BudgetChecked(b, now, cost).0, id)
  {
  }

  lemma CountKeepsMark(b: Books, run: RunId, x: Execution, id: RunId)
    requires Running(b) && Marked(b, id) && run in b.runs
    ensures Marked(LogExec(Count(b, run, x), run, x), id)
  {
  }

  lemma RecordKeepsMark(b: Books, adhoc: RunId, adhocStored: bool, x: Execution, id: RunId)
    requires Running(b) && Marked(b, id) && adhoc !in b.runs
    ensures Marked(RecordedExec(b, adhoc, adhocStored, x).0, id)
  {
    var begun := WithRun(b, adhoc, x.now, adhocStored);
    assert Running(begun) && Marked(begun, id);
    BudgetKeepsMark(begun, x.now, None, id);
    CountKeepsMark(begun, begun.current.value, x, id);
  }

  lemma EndKeepsMark(b: Books, adhoc: RunId, adhocStored: bool, now: real, stored: bool, id: RunId)
    requires Running(b) && Marked(b, id) && adhoc !in b.runs
    ensures Marked(Ended(b, adhoc, adhocStored, now, stored), id)
  {
    var begun := WithRun(b, adhoc, now, adhocStored);
    assert Running(begun) && Marked(begun, id);
  }

  lemma MoveKeepsMark(b: Books, m: Move, id: RunId)
    requires Running(b) && Marked(b, id)
    ensures Marked(Moved(b, m), id)
  {
    match m
    case ToolCall(_, _) =>
    case Work(op) =>
      match op
      case Record(adhoc, adhocStored, x) => if Fresh(b, op) { RecordKeepsMark(b, adhoc, adhocStored, x, id); }
      case End(adhoc, adhocStored, now, stored) =>
        if Fresh(b, op) { EndKeepsMark(b, adhoc, adhocStored, now, stored, id); }
      case Begin(_, _, _, _, _) =>
      case Check(_, _) =>
  }

  /** A denial marks the run it denies. */
  lemma DenialMarks(b: Books, now: real, cost: Option<real>)
    requires Sound(b) && HookAnswer(b, now, cost).Some?
    ensures b.current.Some? && Running(AfterHook(b, now, cost))
    ensures AfterHook(b, now, cost).runs[b.current.value].exceeded.Some?
  {
  }

  lemma {:induction false} MarkedForGood(b: Books, id: RunId, moves: seq<Move>)
    requires Sound(b) && Marked(b, id)
    ensures Marked(MovedAll(b, moves), id)
    decreases |moves|
  {
    if moves != [] {
      MoveSound(b, moves[0]);
      MoveKeepsMark(b, moves[0], id);
      MarkedForGood(Moved(b, moves[0]), id, moves[1..]);
    }
  }

  /** Once the hook has denied a call for a budget reason, whatever is recorded, checked, begun or ended in
      between, it denies every later call that is made while that run is the current one. */
  lemma DenialIsPermanent(b: Books, now: real, cost: Option<real>, moves: seq<Move>, later: real,
                          laterCost: Option<real>)
    requires Sound(b) && HookAnswer(b, now, cost).Some?
    requires MovedAll(b, [ToolCall(now, cost)] + moves).current == b.current
    ensures HookAnswer(MovedAll(b, [ToolCall(now, cost)] + moves), later, laterCost).Some?
  {
    DenialMarks(b, now, cost);
    MoveSound(b, ToolCall(now, cost));
    var first := AfterHook(b, now, cost);
    assert ([ToolCall(now, cost)] + moves)[1..] == moves;
    MarkedForGood(first, b.current.value, moves);
  }
}
