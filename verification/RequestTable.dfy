/** Idempotent remote execution: the bounded table of request ids in the workload agent.

    A thread that finds no entry for its request id becomes the owner and runs the
    command; any other thread with the same id and command waits for that run. Entries
    are held by reference, so a thread keeps the entry it was given after its eviction. */
module RequestTable {
  import opened Prelude

  const MAX_REQUESTS := 256

  type RequestId = string

  /** What the fingerprint is a digest of; two commands have the same fingerprint when they are equal. */
  datatype Command = Command(cmd: string, cwd: string, timeout: int, maxOutput: int)

  /** How a run ended: its result, or the exception every caller is to see. */
  datatype Outcome = Done(output: string) | Raised(error: string)

  /** `done` is set exactly when there is an outcome. */
  datatype Entry = Entry(id: RequestId, command: Command, created: int, outcome: Option<Outcome>)

  /** The dictionary in insertion order, as references into all entries ever made. */
  datatype Requests = Requests(table: seq<nat>, entries: seq<Entry>)

  datatype Claim = Owner(entry: nat) | Joined(entry: nat) | Refused(status: int)

  // ---- the dictionary ---------------------------------------------------------------

  ghost predicate Valid(k: Requests) {
    && |k.table| <= MAX_REQUESTS
    && (forall i :: 0 <= i < |k.table| ==> k.table[i] < |k.entries|)
    && (forall i, j :: 0 <= i < j < |k.table| ==> k.table[i] != k.table[j])
    && (forall i, j :: 0 <= i < j < |k.table| ==> k.entries[k.table[i]].id != k.entries[k.table[j]].id)
  }

  predicate InFlight(k: Requests, e: nat) {
    e < |k.entries| && k.entries[e].outcome.None?
  }

  function Find(k: Requests, table: seq<nat>, id: RequestId): (r: Option<nat>)
    requires forall i :: 0 <= i < |table| ==> table[i] < |k.entries|
    ensures r.Some? ==> r.value in table && k.entries[r.value].id == id
    ensures r.None? ==> forall i :: 0 <= i < |table| ==> k.entries[table[i]].id != id
  {
    if table == [] then None
    else if k.entries[table[0]].id == id then Some(table[0])
    else Find(k, table[1..], id)
  }

  /** The finished entries, in the order of the dictionary. */
  function Finished(k: Requests, table: seq<nat>): (r: seq<nat>)
    requires forall i :: 0 <= i < |table| ==> table[i] < |k.entries|
    requires forall i, j :: 0 <= i < j < |table| ==> table[i] != table[j]
    ensures forall e :: e in r <==> e in table && !InFlight(k, e)
    ensures Distinct(r) && |r| <= |table|
    ensures forall i :: 0 <= i < |r| ==> r[i] < |k.entries|
  {
    if table == [] then []
    else if InFlight(k, table[0]) then Finished(k, table[1..])
    else
      assert table[0] !in table[1..];
      [table[0]] + Finished(k, table[1..])
  }

  ghost predicate Distinct(s: seq<nat>) {
    forall i, j :: 0 <= i < j < |s| ==> s[i] != s[j]
  }

  // ---- sorting by creation time ---------------------------------------------------------

  predicate Sorted(k: Requests, s: seq<nat>) {
    && (forall i :: 0 <= i < |s| ==> s[i] < |k.entries|)
    && (forall i, j :: 0 <= i < j < |s| ==> k.entries[s[i]].created <= k.entries[s[j]].created)
  }

  /** What is inserted behind the first entry is not created earlier. */
  lemma NoneIsEarlier(k: Requests, s: seq<nat>, e: nat, r: seq<nat>)
    requires Sorted(k, s) && s != [] && e < |k.entries| && k.entries[s[0]].created <= k.entries[e].created
    requires forall i :: 0 <= i < |r| ==> r[i] < |k.entries|
    requires forall x :: x in r ==> x in s[1..] || x == e
    ensures forall i :: 0 <= i < |r| ==> k.entries[s[0]].created <= k.entries[r[i]].created
  {
    forall i | 0 <= i < |r| ensures k.entries[s[0]].created <= k.entries[r[i]].created {
      assert r[i] in r;
      if r[i] != e {
        var j :| 0 <= j < |s[1..]| && s[1..][j] == r[i];
        assert s[1 + j] == r[i];
      }
    }
  }

  /** Before the first entry created later, hence after its equals: the sort is stable. */
  function Insert(k: Requests, s: seq<nat>, e: nat): (r: seq<nat>)
    requires Sorted(k, s) && e < |k.entries| && e !in s && Distinct(s)
    ensures Sorted(k, r) && Distinct(r) && |r| == |s| + 1
    ensures forall x :: x in r <==> x in s || x == e
  {
    if s == [] || k.entries[e].created < k.entries[s[0]].created then [e] + s
    else
      assert s[0] !in s[1..];
      var r' := Insert(k, s[1..], e);
      NoneIsEarlier(k, s, e, r');
      [s[0]] + r'
  }

  function SortByCreated(k: Requests, s: seq<nat>): (r: seq<nat>)
    requires Distinct(s) && forall i :: 0 <= i < |s| ==> s[i] < |k.entries|
    ensures Sorted(k, r) && Distinct(r) && |r| == |s|
    ensures forall x :: x in r <==> x in s
  {
    if s == [] then [] else
      var n := |s| - 1;
      assert s[n] !in s[..n];
      Insert(k, SortByCreated(k, s[..n]), s[n])
  }

  /** The oldest quarter of the finished entries, but at least one if there is any. */
  function Victims(k: Requests): (r: seq<nat>)
    requires Valid(k)
    ensures forall e :: e in r ==> e in k.table && !InFlight(k, e)
  {
    var f := Finished(k, k.table);
    SortByCreated(k, f)[..Min(|f|, Max(1, |f| / 4))]
  }

  function Without(table: seq<nat>, victims: seq<nat>): (r: seq<nat>)
    requires Distinct(table)
    ensures forall e :: e in r <==> e in table && e !in victims
    ensures Distinct(r) && |r| <= |table|
    ensures (exists e :: e in victims && e in table) ==> |r| < |table|
  {
    if table == [] then []
    else if table[0] in victims then Without(table[1..], victims)
    else
      assert table[0] !in table[1..];
      [table[0]] + Without(table[1..], victims)
  }

  function Evict(k: Requests): Requests
    requires Valid(k)
  {
    k.(table := Without(k.table, Victims(k)))
  }

  function Push(k: Requests, id: RequestId, c: Command, now: int): Requests {
    Requests(k.table + [|k.entries|], k.entries + [Entry(id, c, now, None)])
  }

  /** `_claim_request`, one critical section. */
  function Claimed(k: Requests, id: RequestId, c: Command, now: int): (Requests, Claim)
    requires Valid(k)
  {
    var found := Find(k, k.table, id);
    if found.Some? then
      (k, if k.entries[found.value].command == c then Joined(found.value) else Refused(409))
    else
      var k' := if |k.table| >= MAX_REQUESTS then Evict(k) else k;
      if |k'.table| >= MAX_REQUESTS then (k', Refused(429))
      else (Push(k', id, c, now), Owner(|k.entries|))
  }

  /** The agent's table, changed in place by its threads. */
  class Agent {
    var table: seq<nat>
    var entries: seq<Entry>

    function View(): Requests
      reads this
    {
      Requests(table, entries)
    }

    constructor ()
      ensures View() == Requests([], []) && Valid(View())
    {
      table, entries := [], [];
    }

    method Claim(id: RequestId, c: Command, now: int) returns (r: Claim)
      requires Valid(View())
      modifies this
      ensures (View(), r) == Claimed(old(View()), id, c, now)
    {
      var found := Find(View(), table, id);
      if found.Some? {
        if entries[found.value].command != c { return Refused(409); }
        return Joined(found.value);
      }
      if |table| >= MAX_REQUESTS {
        var victims := Victims(View());
        table := Without(table, victims);
        if |table| >= MAX_REQUESTS { return Refused(429); }
      }
      entries := entries + [Entry(id, c, now, None)];
      table := table + [|entries| - 1];
      r := Owner(|entries| - 1);
    }

    /** The owner stores how its run ended and wakes everyone who waits. */
    method Finish(e: nat, outcome: Outcome)
      requires e < |entries|
      modifies this`entries
      ensures entries == old(entries)[e := old(entries)[e].(outcome := Some(outcome))]
      // everyone who joined finds the outcome, the entry may now be evicted, and the table is as sound as it was
      ensures !InFlight(View(), e) && entries[e].outcome == Some(outcome)
      ensures forall f :: f != e ==> (InFlight(View(), f) <==> InFlight(old(View()), f))
      ensures Valid(old(View())) ==> Valid(View())
    {
      entries := entries[e := entries[e].(outcome := Some(outcome))];
    }
  }

  // ---- one claim ------------------------------------------------------------------------

  lemma EvictKeepsInFlight(k: Requests, e: nat)
    requires Valid(k) && e in k.table && InFlight(k, e)
    ensures e in Evict(k).table
  {
  }

  lemma EvictValid(k: Requests)
    requires Valid(k)
    ensures Valid(Evict(k)) && forall e :: e in Evict(k).table ==> e in k.table
  {
    var t := Evict(k).table;
    forall i | 0 <= i < |t| ensures t[i] in k.table && t[i] < |k.entries| {
      assert t[i] in t;
    }
    forall i, j | 0 <= i < j < |t| ensures k.entries[t[i]].id != k.entries[t[j]].id {
      assert t[i] in t && t[j] in t;
      var a :| 0 <= a < |k.table| && k.table[a] == t[i];
      var b :| 0 <= b < |k.table| && k.table[b] == t[j];
      assert a != b;
    }
  }

  lemma PushValid(k: Requests, id: RequestId, c: Command, now: int)
    requires Valid(k) && |k.table| < MAX_REQUESTS
    requires forall i :: 0 <= i < |k.table| ==> k.entries[k.table[i]].id != id
    ensures Valid(Push(k, id, c, now))
  {
    var k' := Push(k, id, c, now);
    assert forall i :: 0 <= i < |k.table| ==>
      k'.table[i] == k.table[i] && k'.entries[k'.table[i]] == k.entries[k.table[i]];
  }

  /** A claim keeps the table within its bound and never drops a request in flight; what it adds is its own. */
  lemma ClaimValid(k: Requests, id: RequestId, c: Command, now: int)
    requires Valid(k)
    ensures var (k', r) := Claimed(k, id, c, now);
      && Valid(k')
      && (forall e :: e in k.table && InFlight(k, e) ==> e in k'.table)
      && (forall e :: e in k'.table ==> e in k.table || r == Owner(e))
      && |k'.table| <= 256
  {
    if Find(k, k.table, id).None? && |k.table| >= MAX_REQUESTS {
      var k' := Evict(k);
      EvictValid(k);
      forall e | e in k.table && InFlight(k, e) ensures e in k'.table {
        EvictKeepsInFlight(k, e);
      }
      if |k'.table| < MAX_REQUESTS {
        forall i | 0 <= i < |k'.table| ensures k'.entries[k'.table[i]].id != id {
          assert k'.table[i] in k.table;
        }
        PushValid(k', id, c, now);
      }
    } else if Find(k, k.table, id).None? {
      PushValid(k, id, c, now);
    }
  }

  lemma EvictMakesRoom(k: Requests)
    requires Valid(k) && Finished(k, k.table) != []
    ensures |Evict(k).table| < |k.table|
  {
    var s := SortByCreated(k, Finished(k, k.table));
    assert s[0] in s && s[0] in k.table;
    assert Victims(k)[0] == s[0] && s[0] in Victims(k);
  }

  lemma SomeFinished(k: Requests)
    requires Valid(k) && Finished(k, k.table) != []
    ensures exists i :: 0 <= i < |k.table| && !InFlight(k, k.table[i])
  {
    var f := Finished(k, k.table);
    assert f[0] in f;
  }

  lemma NothingToEvict(k: Requests)
    requires Valid(k) && Finished(k, k.table) == []
    ensures Evict(k).table == k.table && forall i :: 0 <= i < |k.table| ==> InFlight(k, k.table[i])
  {
    assert forall i :: 0 <= i < |k.table| ==> k.table[i] in k.table;
    WithoutNothing(k.table);
  }

  lemma BusyAfterEviction(k: Requests, id: RequestId, c: Command, now: int)
    requires Valid(k)
    ensures Claimed(k, id, c, now).1 == Refused(429) <==>
      Find(k, k.table, id).None? && |k.table| >= MAX_REQUESTS && |Evict(k).table| >= MAX_REQUESTS
  {
  }

  /** A new request is turned away with 429 exactly when all 256 entries are in flight. */
  lemma BusyExactlyWhenAllInFlight(k: Requests, id: RequestId, c: Command, now: int)
    requires Valid(k)
    ensures Claimed(k, id, c, now).1 == Refused(429) <==>
      && Find(k, k.table, id).None? && |k.table| == 256
      && (forall i :: 0 <= i < |k.table| ==> InFlight(k, k.table[i]))
  {
    BusyAfterEviction(k, id, c, now);
    if Finished(k, k.table) != [] {
      SomeFinished(k);
      EvictMakesRoom(k);
    } else {
      NothingToEvict(k);
    }
  }

  lemma {:induction false} WithoutNothing(table: seq<nat>)
    requires Distinct(table)
    ensures Without(table, []) == table
  {
    if table != [] { WithoutNothing(table[1..]); }
  }

  lemma SortedSplit(k: Requests, s: seq<nat>, n: nat, v: nat, e: nat)
    requires Sorted(k, s) && Distinct(s) && n <= |s| && v in s[..n] && e in s[n..]
    ensures e in s && e !in s[..n] && v < |k.entries| && e < |k.entries| && k.entries[v].created <= k.entries[e].created
  {
    var a :| 0 <= a < n && s[a] == v;
    var b :| n <= b < |s| && s[b] == e;
  }

  function Elements(s: seq<nat>): (r: set<nat>)
    ensures forall x :: x in r <==> x in s
  {
    if s == [] then {} else {s[0]} + Elements(s[1..])
  }

  lemma {:induction false} SizeOf(s: seq<nat>)
    requires Distinct(s)
    ensures |Elements(s)| == |s|
  {
    if s != [] {
      SizeOf(s[1..]);
      assert s[0] !in s[1..];
    }
  }

  lemma WithoutSize(table: seq<nat>, victims: seq<nat>)
    requires Distinct(table) && Distinct(victims) && forall e :: e in victims ==> e in table
    ensures |Without(table, victims)| == |table| - |victims|
  {
    var rest := Without(table, victims);
    SizeOf(table);
    SizeOf(victims);
    SizeOf(rest);
    assert Elements(victims) <= Elements(table);
    assert Elements(rest) == Elements(table) - Elements(victims);
  }

  lemma VictimsDistinct(k: Requests)
    requires Valid(k)
    ensures Distinct(Victims(k))
    ensures var f := |Finished(k, k.table)|; |Victims(k)| == if f == 0 then 0 else Max(1, f / 4)
  {
  }

  /** An eviction removes a quarter of what is finished, but one at least. */
  lemma EvictionSize(k: Requests)
    requires Valid(k)
    ensures var f := |Finished(k, k.table)|;
      |Evict(k).table| == |k.table| - if f == 0 then 0 else Max(1, f / 4)
  {
    VictimsDistinct(k);
    WithoutSize(k.table, Victims(k));
  }

  /** Only to a new id that finds the table full. */
  lemma LostToANewId(k: Requests, id: RequestId, c: Command, now: int, lost: nat)
    requires Valid(k) && lost in k.table && lost !in Claimed(k, id, c, now).0.table
    ensures |k.table| == MAX_REQUESTS && forall i :: 0 <= i < |k.table| ==> k.entries[k.table[i]].id != id
    ensures lost in Victims(k) && lost !in Evict(k).table && !InFlight(k, lost)
  {
  }

  /** A stored result is lost only if all finished entries but the oldest quarter (at least one) remain, none
      of them created earlier. */
  lemma LostResultsAreOldest(k: Requests, id: RequestId, c: Command, now: int, lost: nat) returns (kept: seq<nat>)
    requires Valid(k) && lost in k.table && lost !in Claimed(k, id, c, now).0.table
    ensures !InFlight(k, lost) && lost < |k.entries|
    ensures var f := |Finished(k, k.table)|; |kept| == f - Max(1, f / 4)
    ensures Distinct(kept)
    ensures forall e :: e in kept ==> e < |k.entries| && k.entries[lost].created <= k.entries[e].created
    ensures forall e :: e in kept ==> e in Claimed(k, id, c, now).0.table && !InFlight(k, e)
    // which happens only to a new id that finds the table full, and then to a quarter of what is finished
    ensures |k.table| == 256 && forall i :: 0 <= i < |k.table| ==> k.entries[k.table[i]].id != id
    ensures |Evict(k).table| == |k.table| - Max(1, |Finished(k, k.table)| / 4)
  {
    LostToANewId(k, id, c, now, lost);
    EvictionSize(k);
    var f := Finished(k, k.table);
    var s := SortByCreated(k, f);
    var n := |Victims(k)|;
    assert Victims(k) == s[..n];
    kept := s[n..];
    forall e | e in kept
      ensures e < |k.entries| && k.entries[lost].created <= k.entries[e].created && e in Evict(k).table
    {
      SortedSplit(k, s, n, lost, e);
    }
  }
}
