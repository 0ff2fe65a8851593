/** The in-process lock table: one reference-counted lock per runtime session in use. */
module SessionLocks {
  import opened Prelude

  type Rid = string
  type Thread = nat

  /** `[RLock, waiters]`, held by reference: threads keep the entry they were given. `rid` is the key it was
      made under, which the program does not store. */
  datatype Entry = Entry(rid: Rid, holder: Option<Thread>, waiters: nat)

  /** The dictionary and every entry ever made; an entry reference is an index into `entries`. */
  datatype Locks = Locks(table: map<Rid, nat>, entries: seq<Entry>)

  ghost predicate WellFormed(k: Locks) {
    forall r :: r in k.table ==> k.table[r] < |k.entries|
  }

  // ---- the two critical sections ----------------------------------------------------

  function Count(k: Locks, e: nat): Locks
    requires e < |k.entries|
  {
    k.(entries := k.entries[e := k.entries[e].(waiters := k.entries[e].waiters + 1)])
  }

  /** Under the guard: find or make the entry, and count this thread. */
  function Enter(k: Locks, rid: Rid): Locks
    requires WellFormed(k)
  {
    if rid in k.table then Count(k, k.table[rid])
    else Locks(k.table[rid := |k.entries|], k.entries + [Entry(rid, None, 1)])
  }

  /** Under the guard: uncount this thread; the last one removes the dictionary key. */
  function Leave(k: Locks, rid: Rid, e: nat): Locks
    requires e < |k.entries| && k.entries[e].waiters > 0
  {
    var left := k.entries[e].waiters - 1;
    Locks(if left == 0 then k.table - {rid} else k.table, k.entries[e := k.entries[e].(waiters := left)])
  }

  class LockTable {
    var table: map<Rid, nat>
    var entries: seq<Entry>

    function View(): Locks
      reads this
    {
      Locks(table, entries)
    }

    constructor ()
      ensures View() == Locks(map[], [])
    {
      table, entries := map[], [];
    }

    method Register(rid: Rid) returns (e: nat)
      requires WellFormed(View())
      modifies this
      ensures View() == Enter(old(View()), rid) && WellFormed(View())
      ensures rid in table && e == table[rid]
    {
      if rid !in table {
        entries := entries + [Entry(rid, None, 0)];
        table := table[rid := |entries| - 1];
      }
      e := table[rid];
      assert rid !in old(table) ==> entries[..e] == old(entries);
      entries := entries[e := entries[e].(waiters := entries[e].waiters + 1)];
    }

    method Unregister(rid: Rid, e: nat)
      requires WellFormed(View()) && e < |entries| && entries[e].waiters > 0
      modifies this
      ensures View() == Leave(old(View()), rid, e) && WellFormed(View())
    {
      entries := entries[e := entries[e].(waiters := entries[e].waiters - 1)];
      if entries[e].waiters == 0 {
        table := table - {rid};
      }
    }
  }

  // ---- any number of threads ------------------------------------------------------------

  /** A thread that is not in the map is outside. */
  datatype Pc = Queued(rid: Rid, entry: nat) | Inside(rid: Rid, entry: nat) | Leaving(rid: Rid, entry: nat)

  datatype State = State(locks: Locks, threads: map<Thread, Pc>)

  /** `Abandon` is an exception raised in a thread that still waits for the lock. */
  datatype Step =
    | Arrive(t: Thread, rid: Rid)
    | Lock(t: Thread)
    | Unlock(t: Thread)
    | Abandon(t: Thread)
    | Depart(t: Thread)

  const START := State(Locks(map[], []), map[])

  predicate HasEntry(s: State, t: Thread) {
    t in s.threads && s.threads[t].entry < |s.locks.entries|
  }

  ghost predicate Enabled(s: State, step: Step) {
    match step
    case Arrive(t, _) => t !in s.threads && WellFormed(s.locks)
    case Lock(t) => HasEntry(s, t) && s.threads[t].Queued? && s.locks.entries[s.threads[t].entry].holder.None?
    case Unlock(t) => HasEntry(s, t) && s.threads[t].Inside?
    case Abandon(t) => t in s.threads && s.threads[t].Queued?
    case Depart(t) => HasEntry(s, t) && s.threads[t].Leaving? && s.locks.entries[s.threads[t].entry].waiters > 0
  }

  function SetHolder(k: Locks, e: nat, h: Option<Thread>): Locks
    requires e < |k.entries|
  {
    k.(entries := k.entries[e := k.entries[e].(holder := h)])
  }

  ghost function Perform(s: State, step: Step): State
    requires Enabled(s, step)
  {
    match step
    case Arrive(t, rid) =>
      var k := Enter(s.locks, rid);
      State(k, s.threads[t := Queued(rid, k.table[rid])])
    case Lock(t) =>
      var p := s.threads[t];
      State(SetHolder(s.locks, p.entry, Some(t)), s.threads[t := Inside(p.rid, p.entry)])
    case Unlock(t) =>
      var p := s.threads[t];
      State(SetHolder(s.locks, p.entry, None), s.threads[t := Leaving(p.rid, p.entry)])
    case Abandon(t) => s.(threads := s.threads[t := Leaving(s.threads[t].rid, s.threads[t].entry)])
    case Depart(t) => State(Leave(s.locks, s.threads[t].rid, s.threads[t].entry), s.threads - {t})
  }

  ghost function Run(steps: seq<Step>): State {
    if steps == [] then START
    else
      var s := Run(steps[..|steps| - 1]);
      var step := steps[|steps| - 1];
      if Enabled(s, step) then Perform(s, step) else s
  }

  function Registered(s: State, rid: Rid): set<Thread> {
    set t | t in s.threads && s.threads[t].rid == rid
  }

  /** The entry of `r`: its count is the number of registered threads, which is not zero, and whoever holds its
      lock is inside. */
  ghost predicate EntrySound(s: State, r: Rid)
    requires r in s.locks.table && s.locks.table[r] < |s.locks.entries|
  {
    var e := s.locks.table[r];
    && s.locks.entries[e].rid == r
    && s.locks.entries[e].waiters == |Registered(s, r)|
    && Registered(s, r) != {}
    && (s.locks.entries[e].holder.Some? ==>
          s.locks.entries[e].holder.value in s.threads && s.threads[s.locks.entries[e].holder.value] == Inside(r, e))
  }

  /** A thread refers to the entry in the table, and holds its lock if it is inside. */
  predicate OnEntry(s: State, t: Thread)
    requires t in s.threads
  {
    var p := s.threads[t];
    && p.rid in s.locks.table && p.entry == s.locks.table[p.rid] && p.entry < |s.locks.entries|
    && (p.Inside? ==> s.locks.entries[p.entry].holder == Some(t))
  }

  /** All threads of a runtime session share the one entry in the table, which is its own. */
  ghost predicate Sound(s: State) {
    && WellFormed(s.locks)
    && (forall t :: t in s.threads ==> OnEntry(s, t))
    && (forall r :: r in s.locks.table ==> EntrySound(s, r))
  }

  /** A step of thread `t` for another runtime session changes nothing here. */
  lemma OthersSound(s: State, s': State, t: Thread, r: Rid)
    requires r in s.locks.table && s.locks.table[r] < |s.locks.entries| && EntrySound(s, r)
    requires r in s'.locks.table && s'.locks.table[r] == s.locks.table[r] && s.locks.table[r] < |s'.locks.entries|
    requires s'.locks.entries[s.locks.table[r]] == s.locks.entries[s.locks.table[r]]
    requires forall u :: u != t ==>
      (u in s'.threads <==> u in s.threads) && (u in s.threads ==> s'.threads[u] == s.threads[u])
    requires t in s.threads ==> s.threads[t].rid != r
    requires t in s'.threads ==> s'.threads[t].rid != r
    ensures EntrySound(s', r)
  {
    assert Registered(s', r) == Registered(s, r);
  }

  /** `Sound` put together again after a step of `t` for `rid`. */
  lemma Reassemble(s: State, s': State, t: Thread, rid: Rid)
    requires Sound(s) && WellFormed(s'.locks)
    requires forall r :: r != rid && r in s.locks.table ==> r in s'.locks.table && s'.locks.table[r] == s.locks.table[r]
    requires forall r :: r != rid && r in s'.locks.table ==> r in s.locks.table
    requires forall r :: r != rid && r in s.locks.table ==>
      s'.locks.entries[s.locks.table[r]] == s.locks.entries[s.locks.table[r]]
    requires rid in s'.locks.table ==> EntrySound(s', rid)
    requires forall u :: u != t ==>
      (u in s'.threads <==> u in s.threads) && (u in s.threads ==> s'.threads[u] == s.threads[u])
    requires t in s.threads ==> s.threads[t].rid == rid
    requires t in s'.threads ==> s'.threads[t].rid == rid
    requires forall u :: u in s'.threads && s'.threads[u].rid == rid ==> OnEntry(s', u)
    ensures Sound(s')
  {
    forall r | r in s'.locks.table && r != rid ensures EntrySound(s', r) {
      OthersSound(s, s', t, r);
    }
    forall u | u in s'.threads && s'.threads[u].rid != rid ensures OnEntry(s', u) {
      assert OnEntry(s, u);
    }
  }

  /** No two keys share an entry. */
  lemma OwnEntry(s: State, r: Rid, rid: Rid)
    requires Sound(s) && r in s.locks.table && rid in s.locks.table && r != rid
    ensures s.locks.table[r] != s.locks.table[rid]
  {
    assert EntrySound(s, r) && EntrySound(s, rid);
  }

  /** What `Enter` changes, and where. */
  lemma EnterFrame(k: Locks, rid: Rid)
    requires WellFormed(k)
    ensures var k' := Enter(k, rid); var e := if rid in k.table then k.table[rid] else |k.entries|;
      && WellFormed(k') && k'.table == k.table[rid := e]
      && k'.entries[e] == (if rid in k.table then k.entries[e].(waiters := k.entries[e].waiters + 1)
                            else Entry(rid, None, 1))
      && (forall i :: 0 <= i < |k.entries| && i != e ==> k'.entries[i] == k.entries[i])
  {
  }

  lemma ArriveEntry(s: State, t: Thread, rid: Rid)
    requires Sound(s) && t !in s.threads
    ensures rid in Perform(s, Arrive(t, rid)).locks.table && WellFormed(Perform(s, Arrive(t, rid)).locks)
    ensures EntrySound(Perform(s, Arrive(t, rid)), rid)
  {
    EnterFrame(s.locks, rid);
    var s' := Perform(s, Arrive(t, rid));
    assert Registered(s', rid) == Registered(s, rid) + {t};
    if rid in s.locks.table {
      assert EntrySound(s, rid);
    } else {
      forall u | u in s.threads ensures s.threads[u].rid != rid {
        assert OnEntry(s, u);
      }
      assert Registered(s', rid) == {t};
    }
  }

  lemma ArriveSound(s: State, t: Thread, rid: Rid)
    requires Sound(s) && t !in s.threads
    ensures Sound(Perform(s, Arrive(t, rid)))
  {
    var s' := Perform(s, Arrive(t, rid));
    ArriveEntry(s, t, rid);
    EnterFrame(s.locks, rid);
    forall r | r in s.locks.table && r != rid
      ensures s'.locks.entries[s.locks.table[r]] == s.locks.entries[s.locks.table[r]]
    {
      if rid in s.locks.table { OwnEntry(s, r, rid); }
    }
    forall u | u in s'.threads && s'.threads[u].rid == rid ensures OnEntry(s', u) {
      if u != t { assert OnEntry(s, u); }
    }
    Reassemble(s, s', t, rid);
  }

  /** The entry a thread leaves behind: one thread fewer, and its lock is not that thread's. */
  lemma DepartEntry(s: State, t: Thread)
    requires Sound(s) && Enabled(s, Depart(t)) && s.threads[t].rid in Perform(s, Depart(t)).locks.table
    ensures var s' := Perform(s, Depart(t)); var rid := s.threads[t].rid;
      s'.locks.table[rid] < |s'.locks.entries| && EntrySound(s', rid)
  {
    var s' := Perform(s, Depart(t));
    var rid := s.threads[t].rid;
    assert OnEntry(s, t) && EntrySound(s, rid) && t in Registered(s, rid);
    var before, after := s.locks.entries[s.threads[t].entry], s'.locks.entries[s.threads[t].entry];
    assert after.holder == before.holder && after.rid == before.rid && after.waiters == before.waiters - 1;
    assert Registered(s', rid) == Registered(s, rid) - {t};
    assert before.holder != Some(t);
  }

  lemma DepartSound(s: State, t: Thread)
    requires Sound(s) && Enabled(s, Depart(t))
    ensures Sound(Perform(s, Depart(t)))
  {
    var s' := Perform(s, Depart(t));
    var rid := s.threads[t].rid;
    assert OnEntry(s, t) && EntrySound(s, rid);
    forall r | r in s.locks.table && r != rid ensures s.locks.table[r] != s.locks.table[rid] {
      OwnEntry(s, r, rid);
    }
    assert t in Registered(s, rid);
    assert Registered(s', rid) == Registered(s, rid) - {t};
    if rid in s'.locks.table { DepartEntry(s, t); }
    if rid !in s'.locks.table { assert |Registered(s', rid)| == 0; }
    forall u | u in s'.threads && s'.threads[u].rid == rid ensures OnEntry(s', u) {
      assert OnEntry(s, u) && u in Registered(s', rid);
    }
    Reassemble(s, s', t, rid);
  }

  /** Taking, giving up or no longer wanting the lock changes neither the table nor any count. */
  lemma LockSound(s: State, t: Thread, h: Option<Thread>, p: Pc)
    requires Sound(s) && HasEntry(s, t)
    requires p.rid == s.threads[t].rid && p.entry == s.threads[t].entry
    requires var before := s.locks.entries[p.entry].holder;
      if p.Inside? then before.None? && h == Some(t)
      else h == if s.threads[t].Inside? then None else before
    ensures Sound(State(SetHolder(s.locks, p.entry, h), s.threads[t := p]))
  {
    var s' := State(SetHolder(s.locks, p.entry, h), s.threads[t := p]);
    assert OnEntry(s, t) && EntrySound(s, p.rid);
    LockEntry(s, s', t, p.rid);
    forall r | r in s.locks.table && r != p.rid ensures s.locks.table[r] != p.entry {
      OwnEntry(s, r, p.rid);
    }
    forall u | u in s'.threads && s'.threads[u].rid == p.rid ensures OnEntry(s', u) {
      assert OnEntry(s, u);
    }
    Reassemble(s, s', t, p.rid);
  }

  lemma LockEntry(s: State, s': State, t: Thread, rid: Rid)
    requires rid in s.locks.table && s.locks.table[rid] < |s.locks.entries| && EntrySound(s, rid)
    requires t in s.threads && s.threads[t].rid == rid && s.threads[t].entry == s.locks.table[rid]
    requires s'.locks.table == s.locks.table && |s'.locks.entries| == |s.locks.entries|
    requires t in s'.threads && s'.threads == s.threads[t := s'.threads[t]]
    requires s'.threads[t].rid == rid && s'.threads[t].entry == s.threads[t].entry
    requires var e := s.locks.table[rid];
      && s'.locks.entries[e] == s.locks.entries[e].(holder := s'.locks.entries[e].holder)
      && if s'.threads[t].Inside? then s.locks.entries[e].holder.None? && s'.locks.entries[e].holder == Some(t)
         else s'.locks.entries[e].holder == if s.threads[t].Inside? then None else s.locks.entries[e].holder
    ensures EntrySound(s', rid)
  {
    assert Registered(s', rid) == Registered(s, rid);
  }

  lemma StepSound(s: State, step: Step)
    requires Sound(s) && Enabled(s, step)
    ensures Sound(Perform(s, step))
  {
    match step
    case Arrive(t, rid) => ArriveSound(s, t, rid);
    case Depart(t) => DepartSound(s, t);
    case Lock(t) =>
      LockSound(s, t, Some(t), Inside(s.threads[t].rid, s.threads[t].entry));
    case Unlock(t) =>
      LockSound(s, t, None, Leaving(s.threads[t].rid, s.threads[t].entry));
    case Abandon(t) =>
      var p := s.threads[t];
      assert OnEntry(s, t);
      LockSound(s, t, s.locks.entries[p.entry].holder, Leaving(p.rid, p.entry));
      assert SetHolder(s.locks, p.entry, s.locks.entries[p.entry].holder) == s.locks;
  }

  lemma {:induction false} RunSound(steps: seq<Step>)
    ensures Sound(Run(steps)) && WellFormed(Run(steps).locks)
  {
    if steps != [] {
      RunSound(steps[..|steps| - 1]);
      var s := Run(steps[..|steps| - 1]);
      if Enabled(s, steps[|steps| - 1]) {
        StepSound(s, steps[|steps| - 1]);
      }
    }
  }

  ghost predicate BothInside(s: State, rid: Rid, t: Thread, u: Thread) {
    && t in s.threads && s.threads[t].Inside? && s.threads[t].rid == rid
    && u in s.threads && s.threads[u].Inside? && s.threads[u].rid == rid
  }

  /** For any interleaving: at most one thread is inside per runtime session; all its registered threads share
      one entry, whose count is their number; and the key is in the table exactly while there are any. */
  lemma OneThreadInside(steps: seq<Step>, rid: Rid)
    ensures var s := Run(steps);
      && (forall t, u :: BothInside(s, rid, t, u) ==> t == u)
      && (rid in s.locks.table <==> Registered(s, rid) != {})
      && (forall t :: t in Registered(s, rid) ==> OnEntry(s, t))
      && (rid in s.locks.table ==>
        WellFormed(s.locks) && s.locks.entries[s.locks.table[rid]].waiters == |Registered(s, rid)|)
  {
    RunSound(steps);
    var s := Run(steps);
    if rid in s.locks.table {
      assert EntrySound(s, rid);
    }
    forall t, u | BothInside(s, rid, t, u) ensures t == u {
      assert OnEntry(s, t) && OnEntry(s, u);
    }
    forall t | t in Registered(s, rid) ensures OnEntry(s, t) {
    }
  }

  /** A thread that gave up the lock can always be uncounted. */
  lemma LeaversDepart(steps: seq<Step>, t: Thread)
    requires t in Run(steps).threads && Run(steps).threads[t].Leaving?
    ensures Enabled(Run(steps), Depart(t))
  {
    RunSound(steps);
    var s := Run(steps);
    assert OnEntry(s, t) && EntrySound(s, s.threads[t].rid);
  }

  /** A thread that waits gets the lock as soon as no other thread of its runtime session is inside. */
  lemma WaiterGetsTheLock(steps: seq<Step>, t: Thread)
    requires var s := Run(steps); t in s.threads && s.threads[t].Queued?
    requires var s := Run(steps);
      forall u :: u in s.threads && s.threads[u].rid == s.threads[t].rid ==> !s.threads[u].Inside?
    ensures var s, s' := Run(steps), Run(steps + [Lock(t)]);
      t in s'.threads && s'.threads[t].Inside? && s'.threads[t].rid == s.threads[t].rid
    ensures var s' := Run(steps + [Lock(t)] + [Unlock(t)]); t in s'.threads && s'.threads[t].Leaving?
  {
    RunSound(steps);
    var s := Run(steps);
    assert OnEntry(s, t) && EntrySound(s, s.threads[t].rid);
    assert (steps + [Lock(t)])[..|steps|] == steps;
    RunSound(steps + [Lock(t)]);
    assert (steps + [Lock(t)] + [Unlock(t)])[..|steps| + 1] == steps + [Lock(t)];
  }

  /** When every thread has left, nothing remains in the table. */
  lemma NothingLeaks(steps: seq<Step>)
    requires Run(steps).threads == map[]
    ensures Run(steps).locks.table == map[]
  {
    RunSound(steps);
    var s := Run(steps);
    assert forall r :: r in s.locks.table ==> EntrySound(s, r) && Registered(s, r) == {};
  }
}
