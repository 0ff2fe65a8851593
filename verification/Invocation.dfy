/** One whole call of `invoke`: the lease around it, the session it resolves, and the executions it records. */
module Invocation {
  import opened Prelude
  import opened SessionItem
  import opened Registry
  import opened RuntimeApp
  import Books = Session

  /** One renewal while a call runs, and the item others left behind if the lease was lost by then. */
  datatype Beat = Beat(wall: real, net: Net, taken: Option<Item>)

  /** Everything a call meets: the attempts of its acquire, the clock at which it reads the record, what the session
      needs, the action and the record writes around it, its renewals and its release. */
  datatype Script = Script(start: real, env: nat -> Attempt, reading: real, answers: Answers, action: Action,
                           tail: RuntimeApp.Call, stop: Stop, erase: RuntimeApp.Call, beats: seq<Beat>,
                           release: RuntimeApp.Call)

  /** Nobody takes the lease while the call runs. */
  predicate Untaken(x: Script) {
    x.release.taken.None? && forall i :: 0 <= i < |x.beats| ==> x.beats[i].taken.None?
  }

  /** Nor while the session is resolved, or closed. */
  predicate Unhurried(x: Script) {
    Untaken(x) && Undisturbed(x.answers) && x.erase.taken.None?
  }

  /** The request is acknowledged, and nobody holds the item any more. */
  predicate Granted(x: Script, k: nat) {
    var a := x.env(k);
    a.net.Acked? && (a.item.holder.None? || a.item.holder.value.until < Trunc(a.wall))
  }

  /** Attempts are turned away for 90 seconds before the call gives up, unless a request fails. */
  ghost predicate TriedLongEnough(x: Script, k: nat) {
    && (forall j: nat :: j < k ==> !Granted(x, j) && x.env(j).mono < x.start + 90.0)
    && (!Granted(x, k) && x.env(k).net.Acked? ==> x.env(k).mono >= x.start + 90.0)
  }

  /** The lease is granted at attempt `k`, and the record it comes with opens. */
  predicate Leased(kms: bool, rid: Rid, owner: Owner, x: Script, k: nat) {
    Granted(x, k) && Visible(kms, rid, AfterAttempt(x.env(k), owner), x.reading).Ok?
  }

  /** An action that ends well and whose record write meets no trouble. */
  predicate WorksWell(x: Script) {
    && x.action.Work? && x.action.rest.Some? && !x.action.ended && x.action.midway.None? && Smooth(x.tail)
    && Untaken(x) && !x.release.net.Dropped?
  }

  /** The monotonic clock the acquire loop reads, half a second or more apart. */
  ghost predicate Monotonic(x: Script) {
    forall i: nat :: x.env(i).mono >= x.start && x.env(i + 1).mono >= x.env(i).mono + 0.5
  }

  /** A session created in the call has an id nobody has seen. */
  ghost predicate FreshId(p: RuntimeProcess, x: Script)
    reads p
  {
    x.answers.created.Some? ==>
      && x.answers.created.value.0 !in p.live && x.answers.created.value.0 !in p.closed
      && forall i: nat :: x.env(i).item.record.Some? ==>
        x.env(i).item.record.value.record.sessionId != x.answers.created.value.0
  }

  /** The renewal thread during the call, up to the first renewal that fails. */
  method Heartbeat(p: RuntimeProcess, rid: Rid, lease: DynamoLease, beats: seq<Beat>)
    requires lease.rid == rid && lease.table == p.registry.table && !lease.lost
    modifies lease`expires, lease`lost, p.registry.table
    ensures beats == [] ==> !lease.lost && lease.expires == old(lease.expires) && p.Item(rid) == old(p.Item(rid))
    ensures (forall i :: 0 <= i < |beats| ==> beats[i].taken.None?) ==>
      && p.Item(rid).record == old(p.Item(rid)).record && p.Item(rid).expiresAt == old(p.Item(rid)).expiresAt
      && (OwnedBy(p.Item(rid), lease.owner) <==> old(OwnedBy(p.Item(rid), lease.owner)))
    // every beat renews, or the lease is lost
    ensures beats != [] && (forall i :: 0 <= i < |beats| ==> beats[i].taken.None?) ==>
      (!lease.lost <==> old(OwnedBy(p.Item(rid), lease.owner)) && forall i :: 0 <= i < |beats| ==> beats[i].net.Acked?)
    ensures beats != [] && !lease.lost ==>
      && lease.expires == Trunc(beats[|beats| - 1].wall) + LEASE_SECONDS
      && p.Item(rid).holder == Some(Holder(lease.owner, lease.expires))
    ensures forall q :: q != rid ==> p.registry.table.At(q) == old(p.registry.table.At(q))
  {
    for i := 0 to |beats|
      invariant !lease.lost && (i == 0 ==> lease.expires == old(lease.expires) && p.Item(rid) == old(p.Item(rid)))
      invariant i > 0 ==>
        && lease.expires == Trunc(beats[i - 1].wall) + LEASE_SECONDS
        && p.Item(rid).holder == Some(Holder(lease.owner, lease.expires))
      invariant forall j :: 0 <= j < i ==> beats[j].net.Acked?
      invariant (forall j :: 0 <= j < |beats| ==> beats[j].taken.None?) ==>
        && p.Item(rid).record == old(p.Item(rid)).record && p.Item(rid).expiresAt == old(p.Item(rid)).expiresAt
        && (OwnedBy(p.Item(rid), lease.owner) <==> old(OwnedBy(p.Item(rid), lease.owner)))
      invariant forall q :: q != rid ==> p.registry.table.At(q) == old(p.registry.table.At(q))
    {
      p.Interfere(rid, lease.owner, beats[i].taken);
      var _ := lease.Renew([Wakeup(beats[i].wall, p.Item(rid), beats[i].net)]);
      if lease.lost { return; }
    }
  }

  /** The start of `registry.lease`. */
  method Take(p: RuntimeProcess, rid: Rid, owner: Owner, x: Script)
    returns (lease: DynamoLease, r: Result<Unit>, ghost k: nat)
    requires Monotonic(x)
    modifies p.registry.table
    ensures fresh(lease) && lease.owner == owner && lease.rid == rid && lease.table == p.registry.table
      && lease.kms == p.registry.kms
    ensures !lease.lost && !lease.stopped && p.Item(rid) == AfterAttempt(x.env(k), owner)
    ensures r.Ok? ==> Granted(x, k) && lease.expires == Trunc(x.env(k).wall) + LEASE_SECONDS
    ensures r.Ok? ==> Visible(p.registry.kms, rid, AfterAttempt(x.env(k), owner), x.reading) == Ok(lease.record)
    ensures Granted(x, k) && Visible(p.registry.kms, rid, AfterAttempt(x.env(k), owner), x.reading).Ok? ==> r.Ok?
    ensures Granted(x, 0) ==> k == 0
    ensures TriedLongEnough(x, k)
    ensures forall q :: q != rid ==> p.registry.table.At(q) == old(p.registry.table.At(q))
  {
    lease := new DynamoLease(p.registry.table, rid, owner, p.registry.kms);
    r, k := lease.Acquire(x.start, LEASE_WAIT_SECONDS, x.env, x.reading);
  }

  /** The end of `registry.lease`, after the renewals of the call. */
  method GiveBack(p: RuntimeProcess, rid: Rid, lease: DynamoLease, x: Script)
    requires lease.rid == rid && lease.table == p.registry.table && !lease.lost
    modifies lease`expires, lease`lost, lease`stopped, p.registry`leases, p.registry.table
    ensures p.registry.leases == old(p.registry.leases) - {rid}
    ensures Untaken(x) ==>
      && p.Item(rid).record == old(p.Item(rid)).record && p.Item(rid).expiresAt == old(p.Item(rid)).expiresAt
      && (old(OwnedBy(p.Item(rid), lease.owner)) && !x.release.net.Dropped? ==> p.Item(rid).holder.None?)
    ensures !x.release.net.Dropped? ==> !OwnedBy(p.Item(rid), lease.owner)
    ensures x.beats == [] ==> lease.expires == old(lease.expires)
    ensures x.beats == [] && Untaken(x) && old(OwnedBy(p.Item(rid), lease.owner)) ==> !lease.lost
    ensures forall q :: q != rid ==> p.registry.table.At(q) == old(p.registry.table.At(q))
  {
    Heartbeat(p, rid, lease, x.beats);
    p.registry.Exit(rid);
    p.Interfere(rid, lease.owner, x.release.taken);
    label Before:
    lease.Release(x.release.net);
    forall q | q != rid ensures p.registry.table.At(q) == old@Before(p.registry.table.At(q)) {
    }
  }

  /** The body of the call, under a lease that was granted, and the end of the lease. */
  method Serve(p: RuntimeProcess, rid: Rid, lease: DynamoLease, x: Script) returns (r: Result<Option<Sid>>)
    requires p.Valid() && rid !in p.registry.leases && !lease.lost
    requires lease.rid == rid && lease.table == p.registry.table && lease.kms == p.registry.kms && p.Current(rid, lease)
    requires x.answers.created.Some? ==>
      && x.answers.created.value.0 !in p.live && x.answers.created.value.0 !in p.closed
      && (lease.record.Some? ==> x.answers.created.value.0 != lease.record.value.sessionId)
    modifies p`cache, p`live, p`closed, p.registry`leases, p.registry.table, lease`expires, lease`lost, lease`stopped
    ensures p.Valid() && p.registry.leases == old(p.registry.leases)
    ensures old(OwnedBy(p.Item(rid), lease.owner)) && old(p.Resolves(rid, lease.record, x.answers)) && WorksWell(x) ==>
      r.Ok?
    ensures x.action.Work? && r.Ok? ==> r.value.Some? && rid in p.cache && p.cache[rid] == r.value.value
    ensures x.action.Work? && r.Ok? && lease.record.Some? ==>
      (r.value == Some(lease.record.value.sessionId) <==>
        old(p.Follows(rid, lease.record, p.Item(rid), lease.owner, x.answers)))
    ensures old(OwnedBy(p.Item(rid), lease.owner)) && Undisturbed(x.answers) && Calm(x.action, x.tail) ==>
      (r.Ok? <==> x.action.rest.Some? && old(p.Available(rid, lease.record, p.Item(rid), lease.owner, x.answers)))
    ensures old(OwnedBy(p.Item(rid), lease.owner)) && Undisturbed(x.answers) && x.action.Close? ==>
      (r.Ok? <==>
        || (old(rid !in p.cache) && lease.record.None?)
        || (x.stop.Clean? && old(p.Available(rid, lease.record, p.Item(rid), lease.owner, x.answers))))
    ensures x.action.Work? && r.Ok? && !(lease.record.Some? && r.value.value == lease.record.value.sessionId) ==>
      x.answers.created.Some? && r.value.value == x.answers.created.value.0
    ensures x.action.Work? && r.Ok? && !x.action.ended ==> r.value.value in p.live
    ensures x.action.Work? && r.Ok? && !x.action.ended && Untaken(x) ==>
      && Names(p.registry.kms, rid, p.Item(rid), r.value.value, p.live[r.value.value].rest, x.tail.now + p.ttl)
      && (!x.release.net.Dropped? ==> p.Item(rid).holder.None?)
    ensures x.action.Work? && r.Ok? && !x.action.ended ==>
      p.live[r.value.value].guard == if old(p.Hit(rid, lease.record)) then old(p.live)[r.value.value].guard
                                     else Some(lease)
    // a close leaves the session nowhere, and nothing is created only to be closed
    ensures x.action.Close? && r.Ok? && r.value.Some? ==>
      && r.value.value !in p.live && r.value.value in p.closed && rid !in p.cache
      && (old(OwnedBy(p.Item(rid), lease.owner)) && Unhurried(x) && !x.erase.net.Dropped? ==> p.Item(rid).record.None?)
    ensures x.action.Close? && r == Ok(None) ==>
      && old(rid !in p.cache) && lease.record.None?
      && p.cache == old(p.cache) && p.live == old(p.live) && p.closed == old(p.closed)
    // however the call ends, the lease is given back
    ensures !x.release.net.Dropped? ==> !OwnedBy(p.Item(rid), lease.owner)
    ensures x.beats == [] ==> lease.expires == old(lease.expires)
    ensures x.action.Work? && r.Ok? && !x.action.ended && x.beats == [] && Untaken(x) ==> !lease.lost
    ensures forall q :: q != rid ==>
      (q in p.cache <==> q in old(p.cache)) && (q in p.cache ==> p.cache[q] == old(p.cache)[q])
    ensures forall q :: q != rid ==> p.registry.table.At(q) == old(p.registry.table.At(q))
  {
    p.registry.Enter(rid, lease);
    r := p.Invoke(rid, lease, x.answers, x.action, x.tail, x.stop, x.erase);
    GiveBack(p, rid, lease, x);
  }

  /** `invoke` under `registry.lease`: acquire, serve, release. The lease object outlives the call; `record` is what
      it was handed. */
  method Call(p: RuntimeProcess, rid: Rid, owner: Owner, x: Script)
    returns (lease: DynamoLease, r: Result<Option<Sid>>, ghost k: nat, ghost record: Option<Record>)
    requires p.Valid() && rid !in p.registry.leases && Monotonic(x) && FreshId(p, x)
    modifies p`cache, p`live, p`closed, p.registry`leases, p.registry.table
    ensures p.Valid() && p.registry.leases == old(p.registry.leases) && fresh(lease) && lease.owner == owner
    // without the lease nothing happens but the attempt
    ensures r.Ok? ==>
      && Granted(x, k)
      && Visible(p.registry.kms, rid, AfterAttempt(x.env(k), owner), x.reading) == Ok(record)
    ensures !Granted(x, k) ==>
      && r.Err? && TriedLongEnough(x, k)
      && p.cache == old(p.cache) && p.live == old(p.live) && p.closed == old(p.closed)
      && p.Item(rid) == AfterAttempt(x.env(k), owner)
    ensures Granted(x, 0) ==> k == 0
    ensures var seen := Visible(p.registry.kms, rid, AfterAttempt(x.env(0), owner), x.reading);
      Granted(x, 0) && seen.Ok? && WorksWell(x) && old(p.Resolves(rid, seen.value, x.answers)) ==> r.Ok?
    // stickiness: the session of the record read under the lease is served exactly when it can be, else a new one
    ensures x.action.Work? && r.Ok? ==> r.value.Some? && rid in p.cache && p.cache[rid] == r.value.value
    ensures x.action.Work? && r.Ok? && record.Some? ==>
      (r.value == Some(record.value.sessionId) <==>
        old(p.Follows(rid, record, AfterAttempt(x.env(k), owner), owner, x.answers)))
    // with the lease, and unless somebody takes it, there is a session exactly when one of the two can be had
    ensures Leased(p.registry.kms, rid, owner, x, k) && Undisturbed(x.answers) && Calm(x.action, x.tail) ==>
      var item := AfterAttempt(x.env(k), owner); var handed := Visible(p.registry.kms, rid, item, x.reading).value;
      r.Ok? <==> x.action.rest.Some? && old(p.Available(rid, handed, item, owner, x.answers))
    ensures Leased(p.registry.kms, rid, owner, x, k) && Undisturbed(x.answers) && x.action.Close? ==>
      var item := AfterAttempt(x.env(k), owner); var handed := Visible(p.registry.kms, rid, item, x.reading).value;
      r.Ok? <==>
        || (old(rid !in p.cache) && handed.None?)
        || (x.stop.Clean? && old(p.Available(rid, handed, item, owner, x.answers)))
    ensures x.action.Work? && r.Ok? && !(record.Some? && r.value.value == record.value.sessionId) ==>
      x.answers.created.Some? && r.value.value == x.answers.created.value.0
    // the record left behind describes the session served, and the item is free for the next call
    ensures x.action.Work? && r.Ok? && !x.action.ended ==> r.value.value in p.live
    ensures x.action.Work? && r.Ok? && !x.action.ended && Untaken(x) ==>
      && Names(p.registry.kms, rid, p.Item(rid), r.value.value, p.live[r.value.value].rest, x.tail.now + p.ttl)
      && (!x.release.net.Dropped? ==> p.Item(rid).holder.None?)
    // a close leaves the session nowhere, and nothing is created only to be closed
    ensures x.action.Close? && r.Ok? && r.value.Some? ==>
      && r.value.value !in p.live && r.value.value in p.closed && rid !in p.cache
      && (Unhurried(x) && !x.erase.net.Dropped? ==> p.Item(rid).record.None?)
    ensures x.action.Close? && r == Ok(None) ==>
      && old(rid !in p.cache) && record.None?
      && p.cache == old(p.cache) && p.live == old(p.live) && p.closed == old(p.closed)
    // however a call ends that got as far as its session, the lease is given back; if the record it was granted does
    // not open, it keeps the item
    ensures Leased(p.registry.kms, rid, owner, x, k) && !x.release.net.Dropped? ==> !OwnedBy(p.Item(rid), owner)
    ensures Granted(x, k) && Visible(p.registry.kms, rid, AfterAttempt(x.env(k), owner), x.reading).Err? ==>
      r.Err? && p.Item(rid) == AfterAttempt(x.env(k), owner) && OwnedBy(p.Item(rid), owner)
    // the guard of a cached session stays the one it had
    ensures x.action.Work? && r.Ok? && !x.action.ended ==>
      p.live[r.value.value].guard == if old(p.Hit(rid, record)) then old(p.live)[r.value.value].guard else Some(lease)
    ensures r.Ok? && x.beats == [] ==> lease.expires == Trunc(x.env(k).wall) + LEASE_SECONDS
    ensures x.action.Work? && r.Ok? && !x.action.ended && x.beats == [] && Untaken(x) ==> !lease.lost
    ensures forall q :: q != rid ==>
      (q in p.cache <==> q in old(p.cache)) && (q in p.cache ==> p.cache[q] == old(p.cache)[q])
    ensures forall q :: q != rid ==> p.registry.table.At(q) == old(p.registry.table.At(q))
  {
    var a;
    lease, a, k := Take(p, rid, owner, x);
    record := lease.record;
    if a.Err? { return lease, Err(a.error), k, record; }
    r := Serve(p, rid, lease, x);
  }

  // ---- the guard of a cached session --------------------------------------------------------

  /** One execution in a session: the guard it has decides, whatever lease the current call holds. */
  method Execute(p: RuntimeProcess, sid: Sid, books: Books.DevSession, adhoc: string, adhocStored: bool,
                 x: Books.Execution, clock: real)
    returns (v: Books.Verdict)
    requires sid in p.live && Books.Running(books.View())
    modifies books
    ensures (books.View(), v) ==
      Books.RecordedExec(old(books.View()), adhoc, adhocStored, x.(guard := p.GuardPasses(sid, clock)))
    ensures old(books.View()).current.Some? ==> (v.GuardRefused? <==> !p.GuardPasses(sid, clock))
  {
    v := books.Record(adhoc, adhocStored, x.(guard := p.GuardPasses(sid, clock)));
  }

  /** Two calls of one process: the first creates the session, the second finds it in the cache, and its guard is
      the check of the first call's lease, which was given back. */
  method CallTwice(p: RuntimeProcess, rid: Rid, o1: Owner, o2: Owner, x: Script, y: Script, wall: real)
    returns (first: DynamoLease, second: DynamoLease, sid: Sid)
    requires p.Valid() && rid !in p.registry.leases && rid !in p.cache && Monotonic(x) && FreshId(p, x)
    requires WorksWell(x) && Creates(x.answers) && x.env(0).net.Acked? && x.env(0).item == NOTHING
    requires WorksWell(y) && y.answers.created.None? && y.reading <= (x.tail.now + p.ttl) as real
    modifies p`cache, p`live, p`closed, p.registry`leases, p.registry.table
    ensures fresh(first) && fresh(second) && first != second
    ensures x.beats == [] ==> first.expires == Trunc(x.env(0).wall) + LEASE_SECONDS && !first.lost
    ensures y.beats == [] ==> second.expires == Trunc(wall) + LEASE_SECONDS && !second.lost
    ensures sid in p.live && rid in p.cache && p.cache[rid] == sid
    ensures p.live[sid].guard == Some(first)
    ensures forall clock :: p.GuardPasses(sid, clock) <==> CheckPasses(first.lost, first.expires, clock)
  {
    var r1, r2;
    ghost var k, record;
    first, r1, k, record := Call(p, rid, o1, x);
    sid := r1.value.value;
    var item := p.Item(rid);
    var again := y.(start := 0.0, env := i => Attempt(wall, item, Acked, i as real * 0.5));
    assert Granted(again, 0);
    assert item.holder.None? && CanGrant(item, Trunc(wall));
    second, r2, k, record := Call(p, rid, o2, again);
  }

  /** An execution in the second of two such calls is let through exactly as long as the first lease passes its check,
      which is until 110 seconds after it was taken or last renewed: before that even if the lease of the second call
      has been lost, and not afterwards although the lease of the second call is in force. */
  method ExecuteInSecondCall(p: RuntimeProcess, rid: Rid, o1: Owner, o2: Owner, x: Script, y: Script, wall: real,
                             books: Books.DevSession, e: Books.Execution, clock: real)
    returns (v: Books.Verdict, first: DynamoLease, second: DynamoLease)
    requires p.Valid() && rid !in p.registry.leases && rid !in p.cache && Monotonic(x) && FreshId(p, x)
    requires WorksWell(x) && Creates(x.answers) && x.env(0).net.Acked? && x.env(0).item == NOTHING
    requires WorksWell(y) && y.answers.created.None? && y.reading <= (x.tail.now + p.ttl) as real
    requires Books.Running(books.View()) && books.current.Some?
    modifies p`cache, p`live, p`closed, p.registry`leases, p.registry.table, books
    ensures first != second && (v.GuardRefused? <==> !CheckPasses(first.lost, first.expires, clock))
    ensures x.beats == [] ==> (v.GuardRefused? <==> clock >= (Trunc(x.env(0).wall) + LEASE_SECONDS) as real - 10.0)
    ensures y.beats == [] ==>
      (CheckPasses(second.lost, second.expires, clock) <==> clock < (Trunc(wall) + LEASE_SECONDS) as real - 10.0)
  {
    var sid;
    first, second, sid := CallTwice(p, rid, o1, o2, x, y, wall);
    v := Execute(p, sid, books, "", true, e, clock);
  }
}
