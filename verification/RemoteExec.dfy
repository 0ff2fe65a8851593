/** Any number of threads in `run_exec`, and the client that retries a dropped request. */
module RemoteExec {
  import opened Prelude
  import opened RequestTable

  type Caller = nat

  /** Where a request's thread is. `Told` is what it answers. */
  datatype Pc =
    | Starting(entry: nat)                 // owner, command not started yet
    | Running(entry: nat)                  // owner, command running
    | Waiting(entry: nat)                  // joined
    | Told(entry: nat, outcome: Outcome)
    | Denied(status: int)

  datatype Call = Call(id: RequestId, command: Command, pc: Pc)

  /** For every entry ever made: who made it, and how often its command was started. */
  datatype State = State(requests: Requests, calls: map<Caller, Call>, owners: seq<Caller>, runs: seq<nat>)

  datatype Step =
    | Arrive(caller: Caller, id: RequestId, command: Command, now: int)
    | Start(caller: Caller)
    | Finish(caller: Caller, outcome: Outcome)
    | Wake(caller: Caller)
    | Expire(caller: Caller)               // `done.wait` timed out

  const BEGIN := State(Requests([], []), map[], [], [])

  function Admit(c: Claim): Pc {
    match c
    case Owner(e) => Starting(e)
    case Joined(e) => Waiting(e)
    case Refused(status) => Denied(status)
  }

  ghost predicate Enabled(s: State, step: Step) {
    match step
    case Arrive(c, _, _, _) => c !in s.calls && Valid(s.requests)
    case Start(c) => c in s.calls && s.calls[c].pc.Starting? && s.calls[c].pc.entry < |s.runs|
    case Finish(c, _) => c in s.calls && s.calls[c].pc.Running? && s.calls[c].pc.entry < |s.requests.entries|
    case Wake(c) =>
      c in s.calls && s.calls[c].pc.Waiting? && s.calls[c].pc.entry < |s.requests.entries|
      && s.requests.entries[s.calls[c].pc.entry].outcome.Some?
    case Expire(c) => c in s.calls && s.calls[c].pc.Waiting?
  }

  function Move(s: State, c: Caller, pc: Pc): State
    requires c in s.calls
  {
    s.(calls := s.calls[c := s.calls[c].(pc := pc)])
  }

  ghost function Perform(s: State, step: Step): State
    requires Enabled(s, step)
  {
    match step
    case Arrive(c, id, command, now) =>
      var (k, claim) := Claimed(s.requests, id, command, now);
      var calls := s.calls[c := Call(id, command, Admit(claim))];
      if claim.Owner? then State(k, calls, s.owners + [c], s.runs + [0]) else State(k, calls, s.owners, s.runs)
    case Start(c) =>
      var e := s.calls[c].pc.entry;
      Move(s, c, Running(e)).(runs := s.runs[e := s.runs[e] + 1])
    case Finish(c, outcome) =>
      var e := s.calls[c].pc.entry;
      var entries := s.requests.entries[e := s.requests.entries[e].(outcome := Some(outcome))];
      Move(s, c, Told(e, outcome)).(requests := s.requests.(entries := entries))
    case Wake(c) =>
      var e := s.calls[c].pc.entry;
      Move(s, c, Told(e, s.requests.entries[e].outcome.value))
    case Expire(c) => Move(s, c, Denied(504))
  }

  ghost function Run(steps: seq<Step>): State {
    if steps == [] then BEGIN
    else
      var s := Run(steps[..|steps| - 1]);
      var step := steps[|steps| - 1];
      if Enabled(s, step) then Perform(s, step) else s
  }

  // ---- the invariant ----------------------------------------------------------------

  predicate Runner(pc: Pc) {
    pc.Starting? || pc.Running?
  }

  /** A call that got past the claim works on an entry made for its own id and command. */
  predicate CallOk(s: State, c: Caller, call: Call) {
    call.pc.Denied? ||
      (var e := call.pc.entry;
      && e < |s.requests.entries| && e < |s.owners| && e < |s.runs|
      && s.requests.entries[e].id == call.id && s.requests.entries[e].command == call.command
      && (Runner(call.pc) ==> s.owners[e] == c && s.requests.entries[e].outcome.None?)
      && (call.pc.Told? ==> s.requests.entries[e].outcome == Some(call.pc.outcome))
      && (call.pc.Starting? ==> s.runs[e] == 0)
      && (call.pc.Running? ==> s.runs[e] == 1))
  }

  /** An unfinished entry is in the table and not started twice; a finished one was started exactly once; and
      no earlier entry of the same id is still in the table. */
  ghost predicate EntryOk(s: State, e: nat)
    requires e < |s.requests.entries| && e < |s.runs|
  {
    && s.runs[e] <= 1
    && (InFlight(s.requests, e) ==> e in s.requests.table)
    && (!InFlight(s.requests, e) ==> s.runs[e] == 1)
    && (forall f :: 0 <= f < e && s.requests.entries[f].id == s.requests.entries[e].id ==> f !in s.requests.table)
  }

  ghost predicate Sound(s: State) {
    && Valid(s.requests)
    && |s.owners| == |s.requests.entries| && |s.runs| == |s.requests.entries|
    && (forall c :: c in s.calls ==> CallOk(s, c, s.calls[c]))
    && (forall e :: 0 <= e < |s.requests.entries| ==> EntryOk(s, e))
  }

  /** A claim that makes no entry, possibly after evictions. */
  lemma NoNewEntry(s: State, c: Caller, call: Call, table: seq<nat>)
    requires Sound(s) && c !in s.calls && Valid(Requests(table, s.requests.entries))
    requires forall e :: e in table ==> e in s.requests.table
    requires forall e :: e in s.requests.table && InFlight(s.requests, e) ==> e in table
    requires CallOk(s, c, call) && !Runner(call.pc)
    ensures Sound(State(Requests(table, s.requests.entries), s.calls[c := call], s.owners, s.runs))
  {
    var s' := State(Requests(table, s.requests.entries), s.calls[c := call], s.owners, s.runs);
    forall e | 0 <= e < |s.requests.entries| ensures EntryOk(s', e) {
      assert EntryOk(s, e);
    }
  }

  lemma NewEntry(s: State, c: Caller, id: RequestId, command: Command, now: int)
    requires Sound(s) && c !in s.calls && Claimed(s.requests, id, command, now).1.Owner?
    ensures Sound(Perform(s, Arrive(c, id, command, now)))
  {
    var s' := Perform(s, Arrive(c, id, command, now));
    var n := |s.requests.entries|;
    ClaimValid(s.requests, id, command, now);
    assert s'.requests.entries == s.requests.entries + [Entry(id, command, now, None)];
    assert s'.requests.table[|s'.requests.table| - 1] == n;
    forall d | d in s.calls ensures CallOk(s', d, s.calls[d]) {
      assert CallOk(s, d, s.calls[d]);
    }
    forall e | 0 <= e < n ensures EntryOk(s', e) {
      assert EntryOk(s, e);
    }
    forall f | 0 <= f < n && s.requests.entries[f].id == id ensures f !in s'.requests.table {
      assert f in s'.requests.table ==> f in s.requests.table;
    }
    assert EntryOk(s', n);
  }

  lemma ArriveSound(s: State, c: Caller, id: RequestId, command: Command, now: int)
    requires Sound(s) && c !in s.calls
    ensures Sound(Perform(s, Arrive(c, id, command, now)))
  {
    var (k, claim) := Claimed(s.requests, id, command, now);
    if claim.Owner? {
      NewEntry(s, c, id, command, now);
    } else {
      ClaimValid(s.requests, id, command, now);
      NoNewEntry(s, c, Call(id, command, Admit(claim)), k.table);
    }
  }

  lemma StartSound(s: State, c: Caller)
    requires Sound(s) && Enabled(s, Start(c))
    ensures Sound(Perform(s, Start(c)))
  {
    var s' := Perform(s, Start(c));
    assert CallOk(s, c, s.calls[c]);
    forall d | d in s'.calls ensures CallOk(s', d, s'.calls[d]) {
      assert CallOk(s, d, s.calls[d]);
    }
    forall e | 0 <= e < |s.requests.entries| ensures EntryOk(s', e) {
      assert EntryOk(s, e);
    }
  }

  lemma FinishSound(s: State, c: Caller, outcome: Outcome)
    requires Sound(s) && Enabled(s, Finish(c, outcome))
    ensures Sound(Perform(s, Finish(c, outcome)))
  {
    var s' := Perform(s, Finish(c, outcome));
    assert CallOk(s, c, s.calls[c]);
    forall d | d in s'.calls ensures CallOk(s', d, s'.calls[d]) {
      assert CallOk(s, d, s.calls[d]);
    }
    forall e | 0 <= e < |s.requests.entries| ensures EntryOk(s', e) {
      assert EntryOk(s, e);
    }
  }

  lemma WaiterSound(s: State, c: Caller, pc: Pc)
    requires Sound(s) && c in s.calls && !Runner(pc) && CallOk(s, c, s.calls[c].(pc := pc))
    ensures Sound(Move(s, c, pc))
  {
    var s' := Move(s, c, pc);
    forall e | 0 <= e < |s.requests.entries| ensures EntryOk(s', e) {
      assert EntryOk(s, e);
    }
    forall d | d in s'.calls ensures CallOk(s', d, s'.calls[d]) {
      assert d != c ==> CallOk(s, d, s.calls[d]);
    }
  }

  lemma StepSound(s: State, step: Step)
    requires Sound(s) && Enabled(s, step)
    ensures Sound(Perform(s, step))
  {
    match step
    case Arrive(c, id, command, now) => ArriveSound(s, c, id, command, now);
    case Start(c) => StartSound(s, c);
    case Finish(c, outcome) => FinishSound(s, c, outcome);
    case Wake(c) =>
      assert CallOk(s, c, s.calls[c]);
      WaiterSound(s, c, Perform(s, step).calls[c].pc);
    case Expire(c) => WaiterSound(s, c, Denied(504));
  }

  lemma {:induction false} RunSound(steps: seq<Step>)
    ensures Sound(Run(steps))
  {
    if steps != [] {
      RunSound(steps[..|steps| - 1]);
      var s := Run(steps[..|steps| - 1]);
      if Enabled(s, steps[|steps| - 1]) {
        StepSound(s, steps[|steps| - 1]);
      }
    }
  }

  // ---- what callers may rely on ---------------------------------------------------------

  /** In every interleaving a request's command is started at most once, exactly once by the time it has an
      outcome or its entry is evicted, and while the entry is in the table no other entry of that id is. */
  lemma StartedOnce(steps: seq<Step>, e: nat)
    requires e < |Run(steps).requests.entries|
    ensures var s := Run(steps); |s.runs| == |s.requests.entries| && s.runs[e] <= 1
    ensures var s := Run(steps); e !in s.requests.table || !InFlight(s.requests, e) ==> s.runs[e] == 1
    ensures var s := Run(steps);
      e in s.requests.table ==>
        forall f :: 0 <= f < |s.requests.entries| && f != e ==>
          s.requests.entries[f].id == s.requests.entries[e].id ==> f < e && f !in s.requests.table
  {
    RunSound(steps);
    var s := Run(steps);
    assert EntryOk(s, e);
    if e in s.requests.table {
      forall f | 0 <= f < |s.requests.entries| && f != e && s.requests.entries[f].id == s.requests.entries[e].id
        ensures f < e && f !in s.requests.table
      {
        assert EntryOk(s, f);
      }
    }
  }

  /** Every answer is the outcome of the one run of an entry made for exactly this id and command; callers of
      one entry get the same outcome, and whoever runs a command is the thread that made its entry. */
  lemma AnswersAreTheRuns(steps: seq<Step>, c: Caller, d: Caller)
    requires var s := Run(steps); c in s.calls && s.calls[c].pc.Told? && d in s.calls
    ensures var s := Run(steps); var e := s.calls[c].pc.entry;
      && e < |s.requests.entries| && |s.runs| == |s.requests.entries| && s.runs[e] == 1
      && s.requests.entries[e].id == s.calls[c].id && s.requests.entries[e].command == s.calls[c].command
      && s.requests.entries[e].outcome == Some(s.calls[c].pc.outcome)
      && (s.calls[d].pc == Starting(e) || s.calls[d].pc == Running(e) ==> false)
      && (s.calls[d].pc.Told? && s.calls[d].pc.entry == e ==>
            s.calls[d].pc.outcome == s.calls[c].pc.outcome && s.calls[d].command == s.calls[c].command)
  {
    RunSound(steps);
    var s := Run(steps);
    assert CallOk(s, c, s.calls[c]) && CallOk(s, d, s.calls[d]);
    assert EntryOk(s, s.calls[c].pc.entry);
  }

  /** A request id in the table with another command is refused with 409, and nothing is run or changed. */
  lemma OtherCommandRefused(s: State, c: Caller, id: RequestId, command: Command, now: int, e: nat)
    requires Valid(s.requests) && c !in s.calls && e in s.requests.table
    requires e < |s.requests.entries| && s.requests.entries[e].id == id && s.requests.entries[e].command != command
    ensures Perform(s, Arrive(c, id, command, now)) == s.(calls := s.calls[c := Call(id, command, Denied(409))])
  {
    var found := Find(s.requests, s.requests.table, id);
    var i :| 0 <= i < |s.requests.table| && s.requests.table[i] == e;
    if found.Some? {
      var j :| 0 <= j < |s.requests.table| && s.requests.table[j] == found.value;
      assert i == j;
    }
  }

  // ---- what every caller gets ---------------------------------------------------------------

  /** Where a call can be, given what its claim said. */
  predicate Follows(claim: Claim, pc: Pc) {
    match claim
    case Owner(e) => pc == Starting(e) || pc == Running(e) || (pc.Told? && pc.entry == e)
    case Joined(e) => pc == Waiting(e) || (pc.Told? && pc.entry == e) || pc == Denied(504)
    case Refused(status) => pc == Denied(status)
  }

  /** The step with which a call arrived. */
  ghost predicate ArrivedAt(steps: seq<Step>, n: nat, c: Caller, call: Call) {
    && n < |steps| && steps[n].Arrive? && steps[n].caller == c && steps[n].id == call.id
      && steps[n].command == call.command
    && Valid(Run(steps[..n]).requests) && c !in Run(steps[..n]).calls
    && Follows(Claimed(Run(steps[..n]).requests, call.id, call.command, steps[n].now).1, call.pc)
  }

  lemma FollowsStays(s: State, step: Step, c: Caller, claim: Claim)
    requires Enabled(s, step) && c in s.calls && Follows(claim, s.calls[c].pc)
    ensures var s' := Perform(s, step);
      && c in s'.calls && Follows(claim, s'.calls[c].pc) && s'.calls[c].id == s.calls[c].id
        && s'.calls[c].command == s.calls[c].command
  {
  }

  lemma NewCall(s: State, step: Step, c: Caller)
    requires Enabled(s, step) && c !in s.calls && c in Perform(s, step).calls
    ensures var call := Perform(s, step).calls[c];
      && step.Arrive? && step.caller == c && step.id == call.id && step.command == call.command
      && Follows(Claimed(s.requests, call.id, call.command, step.now).1, call.pc)
  {
  }

  lemma {:induction false} Arrival(steps: seq<Step>, c: Caller) returns (n: nat)
    requires c in Run(steps).calls
    ensures ArrivedAt(steps, n, c, Run(steps).calls[c])
  {
    n := |steps| - 1;
    var before, step := steps[..n], steps[n];
    var s := Run(before);
    if c in s.calls {
      var m := Arrival(before, c);
      assert before[..m] == steps[..m] && before[m] == steps[m];
      if Enabled(s, step) {
        FollowsStays(s, step, c, Claimed(Run(steps[..m]).requests, s.calls[c].id, s.calls[c].command, steps[m].now).1);
      }
      n := m;
    } else {
      NewCall(s, step, c);
    }
  }

  /** An entry for this request id is in the table. */
  predicate Holds(k: Requests, e: nat, id: RequestId) {
    e in k.table && e < |k.entries| && k.entries[e].id == id
  }

  lemma FindsThe(k: Requests, e: nat, id: RequestId)
    requires Valid(k) && Holds(k, e, id)
    ensures Find(k, k.table, id) == Some(e)
  {
    var f := Find(k, k.table, id);
    var i :| 0 <= i < |k.table| && k.table[i] == e;
    var j :| 0 <= j < |k.table| && k.table[j] == f.value;
  }

  /** What a claim says, in terms of what is in the table. */
  lemma ClaimMeans(k: Requests, id: RequestId, command: Command, now: int)
    requires Valid(k)
    ensures var claim := Claimed(k, id, command, now).1;
      && (forall e: nat :: Holds(k, e, id) ==>
        claim == if k.entries[e].command == command then Joined(e) else Refused(409))
      && (claim == Refused(409) ==> exists e: nat :: Holds(k, e, id) && k.entries[e].command != command)
      && (claim.Joined? ==> Holds(k, claim.entry, id) && k.entries[claim.entry].command == command)
      && (claim == Refused(429) <==> |k.table| == 256 && (forall e :: e in k.table ==> InFlight(k, e))
                                     && forall e: nat :: !Holds(k, e, id))
      && (claim.Refused? ==> claim.status == 409 || claim.status == 429)
  {
    forall e: nat | Holds(k, e, id) ensures Find(k, k.table, id) == Some(e) {
      FindsThe(k, e, id);
    }
    var found := Find(k, k.table, id);
    assert found.Some? ==> Holds(k, found.value, id);
    BusyExactlyWhenAllInFlight(k, id, command, now);
    assert (forall i :: 0 <= i < |k.table| ==> InFlight(k, k.table[i])) <==>
      (forall e :: e in k.table ==> InFlight(k, e));
  }

  /** What every caller of every run gets, by what the table held when it arrived. With an entry for its id and its
      command it waits, gets that entry's outcome, or a 504; it gets a 409 exactly if the entry was for another
      command, a 429 exactly if there was none and all 256 were in flight, and a 504 only if it had joined. */
  lemma EveryCallerIsServed(steps: seq<Step>, c: Caller) returns (n: nat)
    requires c in Run(steps).calls
    ensures ArrivedAt(steps, n, c, Run(steps).calls[c])
    ensures var k, call := Run(steps[..n]).requests, Run(steps).calls[c];
      && (forall e: nat :: Holds(k, e, call.id) && k.entries[e].command == call.command ==>
            call.pc == Waiting(e) || (call.pc.Told? && call.pc.entry == e) || call.pc == Denied(504))
      && (call.pc == Denied(409) <==> exists e: nat :: Holds(k, e, call.id) && k.entries[e].command != call.command)
      && (call.pc == Denied(429) <==> |k.table| == 256 && (forall e :: e in k.table ==> InFlight(k, e))
                                      && forall e: nat :: !Holds(k, e, call.id))
      && (call.pc == Denied(504) ==> exists e: nat :: Holds(k, e, call.id) && k.entries[e].command == call.command)
      && (call.pc.Denied? ==> call.pc.status in {409, 429, 504})
    ensures var s := Run(steps); var call := s.calls[c];
      call.pc.Told? ==>
        && call.pc.entry < |s.requests.entries|
        && s.requests.entries[call.pc.entry].outcome == Some(call.pc.outcome)
  {
    n := Arrival(steps, c);
    var call := Run(steps).calls[c];
    ClaimMeans(Run(steps[..n]).requests, call.id, call.command, steps[n].now);
    RunSound(steps);
    assert CallOk(Run(steps), c, call);
  }

  /** And no caller is stuck: an owner can start its command and finish it, a waiter whose entry has an outcome can be
      told it, and any waiter can give up with a 504. */
  lemma EveryCallerCanGoOn(steps: seq<Step>, c: Caller, outcome: Outcome)
    requires c in Run(steps).calls
    ensures Run(steps).calls[c].pc.Starting? ==>
      Run(steps + [Start(c)]).calls[c].pc == Running(Run(steps).calls[c].pc.entry)
    ensures Run(steps).calls[c].pc.Running? ==>
      var e, s' := Run(steps).calls[c].pc.entry, Run(steps + [Finish(c, outcome)]);
      s'.calls[c].pc == Told(e, outcome) && e < |s'.requests.entries| && s'.requests.entries[e].outcome == Some(outcome)
    ensures Run(steps).calls[c].pc.Waiting? ==>
      var e := Run(steps).calls[c].pc.entry;
      && e < |Run(steps).requests.entries|
      && (Run(steps).requests.entries[e].outcome.Some? ==>
            Run(steps + [Wake(c)]).calls[c].pc == Told(e, Run(steps).requests.entries[e].outcome.value))
      && Run(steps + [Expire(c)]).calls[c].pc == Denied(504)
  {
    RunSound(steps);
    assert CallOk(Run(steps), c, Run(steps).calls[c]);
    assert forall step :: (steps + [step])[..|steps|] == steps && (steps + [step])[|steps|] == step;
  }

  // ---- the client's retry ------------------------------------------------------------------

  /** What one HTTP attempt comes back with. */
  datatype Reply = Broken | Answer(outcome: Outcome) | Failure(status: int)

  /** `WorkloadClient.exec`: a transport error is retried once, with the same request id and command. */
  function Exec(first: Reply, second: Reply): Reply {
    if first.Broken? then second else first
  }

  /** What the agent's state of an attempt explains of what the client saw: a broken attempt may never have arrived. */
  predicate Explains(s: State, c: Caller, id: RequestId, command: Command, r: Reply) {
    && (c in s.calls ==> s.calls[c].id == id && s.calls[c].command == command)
    && match r
       case Broken => true
       case Answer(o) => c in s.calls && s.calls[c].pc.Told? && s.calls[c].pc.outcome == o
       case Failure(status) => c in s.calls && s.calls[c].pc == Denied(status)
  }

  /** Two calls with one id and one command are on one entry, or the earlier entry was finished and evicted. */
  lemma OneEntryOrEvicted(s: State, c: Caller, d: Caller)
    requires Sound(s) && c in s.calls && d in s.calls && !s.calls[c].pc.Denied? && !s.calls[d].pc.Denied?
    requires s.calls[c].id == s.calls[d].id && s.calls[c].pc.entry < s.calls[d].pc.entry
    ensures var e := s.calls[c].pc.entry;
      e < |s.requests.entries| && |s.runs| == |s.requests.entries|
      && e !in s.requests.table && s.requests.entries[e].outcome.Some? && s.runs[e] == 1
  {
    assert CallOk(s, c, s.calls[c]) && CallOk(s, d, s.calls[d]);
    assert EntryOk(s, s.calls[c].pc.entry) && EntryOk(s, s.calls[d].pc.entry);
  }

  /** The two attempts of one client call, whether or not the first one ever arrived. If both got past the claim they
      are on one entry and at most one of them runs the command, unless the earlier entry was finished and evicted;
      whatever answer the client ends up with is the outcome of one run of its command under its id. */
  lemma RetryJoinsTheRun(steps: seq<Step>, s: State, c: Caller, d: Caller, id: RequestId, command: Command,
                         first: Reply, second: Reply)
    requires s == Run(steps) && c != d && Explains(s, c, id, command, first) && Explains(s, d, id, command, second)
    ensures c in s.calls && d in s.calls && !s.calls[c].pc.Denied? && !s.calls[d].pc.Denied? ==>
      var e, f := s.calls[c].pc.entry, s.calls[d].pc.entry;
      && e < |s.requests.entries| && f < |s.requests.entries| && |s.runs| == |s.requests.entries|
      && s.runs[e] <= 1 && s.runs[f] <= 1
      && (e == f ==> !(Runner(s.calls[c].pc) && Runner(s.calls[d].pc)))
      && (e != f ==> Min(e, f) !in s.requests.table && s.requests.entries[Min(e, f)].outcome.Some?)
    ensures Exec(first, second).Answer? ==> exists e: nat ::
      && e < |s.requests.entries| && e < |s.runs|
      && s.requests.entries[e].id == id && s.requests.entries[e].command == command
      && s.requests.entries[e].outcome == Some(Exec(first, second).outcome) && s.runs[e] == 1
    ensures Exec(first, second).Failure? ==> Exec(first, second).status in {409, 429, 504}
    // only a broken attempt is retried
    ensures Exec(first, second) == match first case Broken => second case _ => first
  {
    RunSound(steps);
    assert c in s.calls ==> CallOk(s, c, s.calls[c]);
    assert d in s.calls ==> CallOk(s, d, s.calls[d]);
    var last := if first.Broken? then d else c;
    if last in s.calls {
      var _ := EveryCallerIsServed(steps, last);
      if Exec(first, second).Answer? { assert EntryOk(s, s.calls[last].pc.entry); }
    }
    if c in s.calls && d in s.calls && !s.calls[c].pc.Denied? && !s.calls[d].pc.Denied? {
      var e, f := s.calls[c].pc.entry, s.calls[d].pc.entry;
      assert EntryOk(s, e) && EntryOk(s, f);
      if e < f { OneEntryOrEvicted(s, c, d); }
      if f < e { OneEntryOrEvicted(s, d, c); }
    }
  }
}
