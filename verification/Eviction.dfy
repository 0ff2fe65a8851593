/** Which stored results the request table gives up, over whole runs: those of the requests that arrived first. */
module Eviction {
  import opened Prelude
  import opened RequestTable
  import opened RemoteExec

  // ---- which step made an entry --------------------------------------------------------------

  /** The arrival at position `n` made entry `e`. */
  ghost predicate MadeAt(steps: seq<Step>, n: nat, e: nat) {
    && n < |steps| && steps[n].Arrive?
    && |Run(steps[..n]).requests.entries| == e && |Run(steps[..n + 1]).requests.entries| == e + 1
  }

  /** What an arrival that makes an entry puts there, and that no other step makes or restamps one. */
  lemma EntriesGrow(s: State, step: Step)
    requires Sound(s) && Enabled(s, step)
    ensures var old', new' := s.requests.entries, Perform(s, step).requests.entries;
      && |old'| <= |new'| <= |old'| + 1
      && (forall e :: 0 <= e < |old'| ==>
            new'[e].id == old'[e].id && new'[e].command == old'[e].command && new'[e].created == old'[e].created)
      && (|new'| == |old'| + 1 ==>
            step.Arrive? && new'[|old'|].id == step.id && new'[|old'|].command == step.command
            && new'[|old'|].created == step.now)
  {
    if step.Finish? { assert CallOk(s, step.caller, s.calls[step.caller]); }
  }

  /** In every run, each entry was made by one arrival and bears its id, its command and its clock. */
  lemma {:induction false} MakerOf(steps: seq<Step>, e: nat) returns (n: nat)
    requires e < |Run(steps).requests.entries|
    ensures MadeAt(steps, n, e)
    ensures var entry := Run(steps).requests.entries[e];
      entry.id == steps[n].id && entry.command == steps[n].command && entry.created == steps[n].now
  {
    var m := |steps| - 1;
    var before, step := steps[..m], steps[m];
    RunSound(before);
    if Enabled(Run(before), step) { EntriesGrow(Run(before), step); }
    if e < |Run(before).requests.entries| {
      n := MakerOf(before, e);
      assert before[..n] == steps[..n] && before[..n + 1] == steps[..n + 1] && before[n] == steps[n];
    } else {
      n := m;
      assert steps[..m + 1] == steps;
    }
  }

  lemma {:induction false} EntriesStay(steps: seq<Step>, n: nat)
    requires n <= |steps|
    ensures |Run(steps[..n]).requests.entries| <= |Run(steps).requests.entries|
  {
    if n == |steps| {
      assert steps[..n] == steps;
    } else {
      var m := |steps| - 1;
      assert steps[..m][..n] == steps[..n];
      EntriesStay(steps[..m], n);
      RunSound(steps[..m]);
      if Enabled(Run(steps[..m]), steps[m]) { EntriesGrow(Run(steps[..m]), steps[m]); }
    }
  }

  /** Entries are made in the order of the arrivals. */
  lemma MadeInOrder(steps: seq<Step>, n: nat, e: nat, m: nat, f: nat)
    requires MadeAt(steps, n, e) && MadeAt(steps, m, f)
    ensures e < f <==> n < m
  {
    if n < m {
      assert steps[..m][..n + 1] == steps[..n + 1];
      EntriesStay(steps[..m], n + 1);
    } else if m < n {
      assert steps[..n][..m + 1] == steps[..m + 1];
      EntriesStay(steps[..n], m + 1);
    }
  }

  // ---- the table lists entries in that order -----------------------------------------------------

  ghost predicate Increasing(s: seq<nat>) {
    forall i, j :: 0 <= i < j < |s| ==> s[i] < s[j]
  }

  lemma {:induction false} WithoutIncreases(table: seq<nat>, victims: seq<nat>)
    requires Increasing(table)
    ensures Increasing(Without(table, victims))
  {
    if table != [] {
      var rest := Without(table[1..], victims);
      WithoutIncreases(table[1..], victims);
      forall j | 0 <= j < |rest| ensures table[0] < rest[j] {
        assert rest[j] in table[1..];
      }
    }
  }

  lemma {:induction false} FinishedIncreases(k: Requests, table: seq<nat>)
    requires Increasing(table) && forall i :: 0 <= i < |table| ==> table[i] < |k.entries|
    ensures Increasing(Finished(k, table))
  {
    if table != [] {
      var rest := Finished(k, table[1..]);
      FinishedIncreases(k, table[1..]);
      forall j | 0 <= j < |rest| ensures table[0] < rest[j] {
        assert rest[j] in table[1..];
      }
    }
  }

  lemma ClaimIncreases(k: Requests, id: RequestId, c: Command, now: int)
    requires Valid(k) && Increasing(k.table)
    ensures Increasing(Claimed(k, id, c, now).0.table)
  {
    WithoutIncreases(k.table, Victims(k));
    EvictValid(k);
  }

  lemma {:induction false} RunIncreases(steps: seq<Step>)
    ensures Increasing(Run(steps).requests.table)
  {
    if steps != [] {
      var before, step := steps[..|steps| - 1], steps[|steps| - 1];
      RunIncreases(before);
      if Enabled(Run(before), step) && step.Arrive? {
        ClaimIncreases(Run(before).requests, step.id, step.command, step.now);
      }
    }
  }

  // ---- sorting what is in order already changes nothing ----------------------------------------------

  lemma {:induction false} InsertLast(k: Requests, s: seq<nat>, e: nat)
    requires Sorted(k, s) && e < |k.entries| && e !in s && Distinct(s)
    requires forall i :: 0 <= i < |s| ==> k.entries[s[i]].created <= k.entries[e].created
    ensures Insert(k, s, e) == s + [e]
  {
    if s != [] {
      InsertLast(k, s[1..], e);
      assert [s[0]] + (s[1..] + [e]) == s + [e];
    }
  }

  lemma ButTheLast(k: Requests, s: seq<nat>)
    requires s != [] && Sorted(k, s) && Distinct(s)
    ensures var n := |s| - 1;
      && Sorted(k, s[..n]) && Distinct(s[..n]) && s[n] < |k.entries| && s[n] !in s[..n]
      && (forall i :: 0 <= i < n ==> s[..n][i] < |k.entries| && k.entries[s[..n][i]].created <= k.entries[s[n]].created)
      && s[..n] + [s[n]] == s
  {
  }

  lemma {:induction false} SortedStays(k: Requests, s: seq<nat>)
    requires Sorted(k, s) && Distinct(s)
    ensures SortByCreated(k, s) == s
  {
    if s != [] {
      var n := |s| - 1;
      ButTheLast(k, s);
      SortedStays(k, s[..n]);
      InsertLast(k, s[..n], s[n]);
      assert SortByCreated(k, s) == Insert(k, SortByCreated(k, s[..n]), s[n]);
    }
  }

  // ---- what is given up -----------------------------------------------------------------------------

  /** The clocks the agent reads at arrivals do not go back. */
  ghost predicate ClocksForward(steps: seq<Step>) {
    forall i, j :: 0 <= i < j < |steps| && steps[i].Arrive? && steps[j].Arrive? ==> steps[i].now <= steps[j].now
  }

  /** The last step gives up the finished entry `e` and keeps the finished entry `f`. */
  ghost predicate GivesUp(steps: seq<Step>, e: nat, f: nat) {
    && steps != []
    && var k, k' := Run(steps[..|steps| - 1]).requests, Run(steps).requests;
       e in k.table && e !in k'.table && f in k.table && f in k'.table && !InFlight(k, f)
  }

  lemma Behind(s: seq<nat>, n: nat, f: nat) returns (j: nat)
    requires n <= |s| && f in s && f !in s[..n]
    ensures n <= j < |s| && s[j] == f
  {
    assert s == s[..n] + s[n..];
    var i :| 0 <= i < |s[n..]| && s[n..][i] == f;
    j := n + i;
  }

  lemma SplitAt(s: seq<nat>, n: nat, e: nat, f: nat)
    requires Increasing(s) && n <= |s| && e in s[..n] && f in s && f !in s[..n]
    ensures e < f
  {
    var i :| 0 <= i < n && s[i] == e;
    var j := Behind(s, n, f);
  }

  /** Eviction takes `e` and leaves the finished entry `f`. */
  ghost predicate Prefers(k: Requests, e: nat, f: nat) {
    Valid(k) && e in Victims(k) && f in Finished(k, k.table) && f !in Victims(k)
  }

  ghost predicate ClaimTakes(k: Requests, id: RequestId, c: Command, now: int, e: nat, f: nat) {
    && Valid(k) && e in k.table && e !in Claimed(k, id, c, now).0.table
    && f in k.table && f in Claimed(k, id, c, now).0.table
  }

  /** A claim gives something up only if it finds no entry of its id and the table full, and then what it evicts. */
  lemma ClaimGivesUp(k: Requests, id: RequestId, c: Command, now: int, e: nat, f: nat)
    requires ClaimTakes(k, id, c, now, e, f)
    ensures Find(k, k.table, id).None? && |k.table| == MAX_REQUESTS && e in Victims(k) && f !in Victims(k)
  {
  }

  /** Only an arrival that finds the table full gives anything up, by an eviction. */
  lemma GivenUpBy(steps: seq<Step>, e: nat, f: nat)
    requires GivesUp(steps, e, f)
    ensures Prefers(Run(steps[..|steps| - 1]).requests, e, f)
  {
    var before, step := steps[..|steps| - 1], steps[|steps| - 1];
    RunSound(before);
    var k := Run(before).requests;
    ClaimGivesUp(k, step.id, step.command, step.now, e, f);
  }

  /** In every run: what is given up bears no later clock than any finished result that stays; and if the clocks at
      arrivals do not go back, its request arrived first. */
  lemma FirstArrivedGoesFirst(steps: seq<Step>, e: nat, f: nat) returns (n: nat, m: nat)
    requires GivesUp(steps, e, f)
    ensures MadeAt(steps, n, e) && MadeAt(steps, m, f) && steps[n].now <= steps[m].now
    ensures ClocksForward(steps) ==> n < m
  {
    var before := steps[..|steps| - 1];
    var k := Run(before).requests;
    RunSound(before);
    GivenUpBy(steps, e, f);
    n := MakerBefore(steps, before, e);
    m := MakerBefore(steps, before, f);
    VictimsAreOlder(k, e, f);
    if ClocksForward(steps) {
      assert ClocksForward(before);
      EarlierEntry(before, e, f);
      MadeInOrder(steps, n, e, m, f);
    }
  }

  lemma MakerBefore(steps: seq<Step>, before: seq<Step>, e: nat) returns (n: nat)
    requires before <= steps && e < |Run(before).requests.entries|
    ensures MadeAt(steps, n, e) && Run(before).requests.entries[e].created == steps[n].now
  {
    n := MakerOf(before, e);
    assert before[..n] == steps[..n] && before[..n + 1] == steps[..n + 1] && before[n] == steps[n];
  }

  lemma EarlierEntry(steps: seq<Step>, e: nat, f: nat)
    requires ClocksForward(steps) && Prefers(Run(steps).requests, e, f)
    ensures e < f
  {
    var k := Run(steps).requests;
    var finished := Finished(k, k.table);
    RunIncreases(steps);
    FinishedIncreases(k, k.table);
    FinishedIsSorted(steps, k, finished);
    SortedStays(k, finished);
    assert Victims(k) == finished[..|Victims(k)|];
    SplitAt(finished, |Victims(k)|, e, f);
  }

  lemma VictimsAreOlder(k: Requests, e: nat, f: nat)
    requires Prefers(k, e, f)
    ensures e < |k.entries| && f < |k.entries| && k.entries[e].created <= k.entries[f].created
  {
    var s := SortByCreated(k, Finished(k, k.table));
    var n := |Victims(k)|;
    assert Victims(k) == s[..n] && f in s;
    var i :| 0 <= i < n && s[i] == e;
    var j := Behind(s, n, f);
  }

  lemma FinishedIsSorted(steps: seq<Step>, k: Requests, s: seq<nat>)
    requires k == Run(steps).requests && ClocksForward(steps) && Increasing(s)
    requires forall i :: 0 <= i < |s| ==> s[i] < |k.entries|
    ensures Sorted(k, s)
  {
    forall i, j | 0 <= i < j < |s| ensures k.entries[s[i]].created <= k.entries[s[j]].created {
      var n := MakerOf(steps, s[i]);
      var m := MakerOf(steps, s[j]);
      MadeInOrder(steps, n, s[i], m, s[j]);
    }
  }
}
