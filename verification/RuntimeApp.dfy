/** How one process resolves a runtime session under a lease.

    The process keeps a cache (runtime session -> session) and the sessions it has live.
    Every answer from outside, and everything other processes do to the item between two
    of this process's remote calls, is an argument. Others can only change the item after
    this lease has lost it, and it never comes back (see `LeaseProtocol.Fencing`). */
module RuntimeApp {
  import opened Prelude
  import opened SessionItem
  import opened Registry
  import LeaseProtocol

  /** A live session: the lease whose check guards its executions, and what its registry record would say. */
  datatype LiveSession = LiveSession(guard: Option<DynamoLease>, rest: string)

  /** One registry call: how it ends, its clock, and the item others left behind if the lease was lost by then. */
  datatype Call = Call(net: Net, now: int, taken: Option<Item>)

  /** What the outside answers while a session is resolved. */
  datatype Answers = Answers(
    detaches: bool,              // letting go of a stale cached session succeeds
    attached: Option<string>,    // adopting the recorded sandbox and hosts succeeds, with this description
    refresh: Call,               // the record write after an attach
    erase: Call,                 // the record delete after a failed attach
    profileValid: bool,
    created: Option<(Sid, string)>,  // a fresh session id and its description
    put: Call,                   // the record write after a create
    stop: Stop)                  // how closing the created session ends

  /** How a session shuts down: cleanly, with a host that raises, or with a sandbox that does. Its status becomes
      closed in the first two cases, although the second is an error as well. */
  datatype Stop = Clean | HostRaises | SandboxRaises

  /** The registry's record names session `sid` with description `rest`, until `expiry`. */
  predicate Names(kms: bool, rid: Rid, i: Item, sid: Sid, rest: string, expiry: int) {
    && i.record.Some? && i.expiresAt == Some(expiry)
    && var r := OpenChecked(kms, rid, i.record.value);
       r.Ok? && r.value.sessionId == sid && r.value.rest == rest
  }

  predicate NamesSession(kms: bool, rid: Rid, i: Item, sid: Sid) {
    && i.record.Some?
    && var r := OpenChecked(kms, rid, i.record.value);
       r.Ok? && r.value.sessionId == sid
  }

  /** The item a call finds: what is known, unless others took the lease first. */
  function AsFound(i: Item, owner: Owner, taken: Option<Item>): Item {
    if taken.Some? && !OwnedBy(taken.value, owner) then taken.value else i
  }

  /** The write is acknowledged, so it was carried out while the lease still owned the item. */
  predicate Lands(i: Item, owner: Owner, call: Call) {
    call.net.Acked? && OwnedBy(AsFound(i, owner, call.taken), owner)
  }

  /** Nobody takes the lease while the session is resolved. */
  predicate Undisturbed(a: Answers) {
    a.refresh.taken.None? && a.erase.taken.None? && a.put.taken.None?
  }

  /** A registry call that meets no trouble. */
  predicate Smooth(call: Call) {
    call.net.Acked? && call.taken.None?
  }

  lemma PutNames(kms: bool, rid: Rid, sid: Sid, rest: string, now: int, ttl: int, i: Item)
    ensures var stored := Seal(kms, rid, Stamp(rid, Record(rid, sid, rest, 0, 0), now, ttl));
      Names(kms, rid, Write(i, stored), sid, rest, now + ttl)
  {
  }

  /** A new session is to be had, and its record write meets no trouble. */
  predicate Creates(a: Answers) {
    a.profileValid && a.created.Some? && Smooth(a.put)
  }

  /** No record of a new session is written: none is created, or the write never arrives. */
  predicate Unrecorded(a: Answers) {
    !a.profileValid || a.created.None? || a.put.net.Dropped?
  }

  /** What a call does with the session once it has one: shut it down, or work that may raise or change the
      session's description, during which somebody else may shut the session down (`ended`), and which may write
      the record on its own (`midway`). */
  datatype Action = Close | Work(rest: Option<string>, ended: bool, midway: Option<Call>)

  /** The record writes of an action meet no trouble. */
  predicate Calm(w: Action, tail: Call) {
    w.Work? && Smooth(tail) && (w.midway.Some? ==> Smooth(w.midway.value))
  }

  class RuntimeProcess {
    const registry: DynamoRegistry
    const ttl: int
    var cache: map<Rid, Sid>
    var live: map<Sid, LiveSession>
    var closed: set<Sid>      // sessions whose status is closed

    constructor (registry: DynamoRegistry, ttl: int)
      ensures Valid() && this.registry == registry && this.ttl == ttl
    {
      this.registry, this.ttl := registry, ttl;
      cache, live, closed := map[], map[], {};
    }

    /** A session leaves `live` before its status becomes closed, and a session adopted anew is ready. */
    ghost predicate Valid()
      reads this
    {
      forall s :: s in live ==> s !in closed
    }

    /** The guard of a live session lets an execution through at this time. */
    predicate GuardPasses(sid: Sid, clock: real)
      requires sid in live
      reads this, if sid in live && live[sid].guard.Some? then {live[sid].guard.value} else {}
    {
      var g := live[sid].guard;
      g.None? || CheckPasses(g.value.lost, g.value.expires, clock)
    }

    /** This process serves `rid` under the lease of `owner`. */
    ghost predicate Serving(rid: Rid, lease: DynamoLease)
      reads registry
    {
      && rid in registry.leases && registry.leases[rid] == lease
      && lease.kms == registry.kms && lease.rid == rid && lease.table == registry.table
    }

    function Item(rid: Rid): Item
      reads registry.table
    {
      registry.table.At(rid)
    }

    /** While the lease owns the item, the record it was handed is the one in the item. */
    ghost predicate Current(rid: Rid, lease: DynamoLease)
      reads registry.table, lease
    {
      OwnedBy(Item(rid), lease.owner) && lease.record.Some? ==>
        NamesSession(registry.kms, rid, Item(rid), lease.record.value.sessionId)
    }

    method Interfere(rid: Rid, owner: Owner, taken: Option<Item>)
      modifies registry.table
      ensures Item(rid) == AsFound(old(Item(rid)), owner, taken)
      ensures forall q :: q != rid ==> registry.table.At(q) == old(registry.table.At(q))
    {
      if taken.Some? && !OwnedBy(taken.value, owner) {
        registry.table.Store(rid, taken.value);
      }
    }

    /** Writes the record of a session, unless its status is closed: then nothing happens. A write that is not
        acknowledged drops the cache entry and, for a session nobody else knows yet, closes the session. */
    method Remember(rid: Rid, sid: Sid, lease: DynamoLease, created: bool, call: Call, stop: Stop) returns (ok: bool)
      requires Valid() && (sid in live || sid in closed) && Serving(rid, lease)
      modifies this`cache, this`live, this`closed, registry.table
      ensures Valid()
      ensures sid in old(closed) ==>
        ok && cache == old(cache) && live == old(live) && closed == old(closed) && Item(rid) == old(Item(rid))
      ensures sid !in old(closed) ==>
        && (ok <==> Lands(old(Item(rid)), lease.owner, call))
        && (ok ==>
              && OwnedBy(Item(rid), lease.owner)
              && Names(registry.kms, rid, Item(rid), sid, old(live)[sid].rest, call.now + ttl))
        && (OwnedBy(Item(rid), lease.owner) <==> OwnedBy(AsFound(old(Item(rid)), lease.owner, call.taken), lease.owner))
        && (call.net.Dropped? ==> Item(rid) == AsFound(old(Item(rid)), lease.owner, call.taken))
        && cache == (if ok then old(cache)[rid := sid] else old(cache) - {rid})
        && live == (if ok || !created then old(live) else old(live) - {sid})
        && closed == (if !ok && created && !stop.SandboxRaises? then old(closed) + {sid} else old(closed))
      ensures forall q :: q != rid ==> registry.table.At(q) == old(registry.table.At(q))
    {
      if sid in closed { return true; }
      ok := WriteRecord(rid, sid, live[sid].rest, lease, call);
      if ok {
        cache := cache[rid := sid];
      } else {
        cache := cache - {rid};
        if created {
          live := live - {sid};
          if !stop.SandboxRaises? { closed := closed + {sid}; }
        }
      }
    }

    /** The record write itself. */
    method WriteRecord(rid: Rid, sid: Sid, rest: string, lease: DynamoLease, call: Call) returns (ok: bool)
      requires Serving(rid, lease)
      modifies registry.table
      ensures ok <==> Lands(old(Item(rid)), lease.owner, call)
      ensures ok ==> OwnedBy(Item(rid), lease.owner) && Names(registry.kms, rid, Item(rid), sid, rest, call.now + ttl)
      // a put that arrives while the lease owns the item writes, acknowledged or not; any other changes nothing
      ensures if !call.net.Dropped? && OwnedBy(AsFound(old(Item(rid)), lease.owner, call.taken), lease.owner)
              then Names(registry.kms, rid, Item(rid), sid, rest, call.now + ttl)
              else Item(rid) == AsFound(old(Item(rid)), lease.owner, call.taken)
      ensures OwnedBy(Item(rid), lease.owner) <==>
        OwnedBy(AsFound(old(Item(rid)), lease.owner, call.taken), lease.owner)
      ensures forall q :: q != rid ==> registry.table.At(q) == old(registry.table.At(q))
    {
      Interfere(rid, lease.owner, call.taken);
      PutNames(registry.kms, rid, sid, rest, call.now, ttl, Item(rid));
      var r := registry.Put(rid, Record(rid, sid, rest, 0, 0), call.now, ttl, call.net);
      ok := r.Ok?;
    }

    /** Deletes the record; a failure is only logged. */
    method EraseRecord(rid: Rid, lease: DynamoLease, call: Call)
      requires Serving(rid, lease)
      modifies registry.table
      ensures OwnedBy(Item(rid), lease.owner) <==>
        OwnedBy(AsFound(old(Item(rid)), lease.owner, call.taken), lease.owner)
      ensures var found := AsFound(old(Item(rid)), lease.owner, call.taken);
        Item(rid) == if !call.net.Dropped? && OwnedBy(found, lease.owner) then found.(record := None) else found
      ensures forall q :: q != rid ==> registry.table.At(q) == old(registry.table.At(q))
    {
      Interfere(rid, lease.owner, call.taken);
      var _ := registry.Delete(rid, call.net);
    }

    /** Adopts the recorded session: the live one if there is one, else whatever the outside still has. */
    method Attach(record: Record, attached: Option<string>) returns (ok: bool)
      requires Valid()
      modifies this`live, this`closed
      ensures Valid() && closed == if ok then old(closed) - {record.sessionId} else old(closed)
      ensures ok <==> ValidSid(record.sessionId) && (record.sessionId in old(live) || attached.Some?)
      ensures ok ==> record.sessionId in live
      ensures live == if ok && record.sessionId !in old(live)
                      then old(live)[record.sessionId := LiveSession(None, attached.value)] else old(live)
    {
      if !ValidSid(record.sessionId) { return false; }
      if record.sessionId in live { return true; }
      if attached.None? { return false; }
      closed := closed - {record.sessionId};
      live := live[record.sessionId := LiveSession(None, attached.value)];
      ok := true;
    }

    method Guard(sid: Sid, lease: DynamoLease)
      requires sid in live
      modifies this`live
      ensures live == old(live)[sid := old(live)[sid].(guard := Some(lease))]
    {
      live := live[sid := live[sid].(guard := Some(lease))];
    }

    // ---- resolving a session -------------------------------------------------------

    /** The cache agrees with the record, and the session is live here. */
    predicate Hit(rid: Rid, record: Option<Record>)
      reads this
    {
      record.Some? && rid in cache && cache[rid] == record.value.sessionId && cache[rid] in live
    }

    /** The cache holds a live session the record does not name. */
    predicate Stale(rid: Rid, record: Option<Record>)
      reads this
    {
      rid in cache && cache[rid] in live && (record.None? || record.value.sessionId != cache[rid])
    }

    /** Nothing stands in the way of a session: the cached one is the recorded one, or there is none and one can be
        created. */
    predicate Resolves(rid: Rid, record: Option<Record>, a: Answers)
      reads this
    {
      Hit(rid, record) || (record.None? && !Stale(rid, record) && Creates(a))
    }

    /** The recorded session can be adopted. */
    predicate Reachable(record: Option<Record>, attached: Option<string>)
      reads this
    {
      record.Some? && ValidSid(record.value.sessionId) && (record.value.sessionId in live || attached.Some?)
    }

    /** The recorded session can be adopted, and the refresh of its record lands. */
    predicate Adopts(item: Item, lease: DynamoLease, a: Answers)
      reads this, lease
    {
      Reachable(lease.record, a.attached) && Lands(item, lease.owner, a.refresh)
    }

    /** The recorded session is to be served: it is cached and live, or, once a stale one is let go, it can be adopted
        and the refresh of its record lands. */
    predicate Follows(rid: Rid, record: Option<Record>, item: Item, owner: Owner, a: Answers)
      reads this
    {
      || Hit(rid, record)
      || ((Stale(rid, record) ==> a.detaches) && Reachable(record, a.attached) && Lands(item, owner, a.refresh))
    }

    /** There is a session to serve: the recorded one, or, once a stale one is let go, a new one. */
    predicate Available(rid: Rid, record: Option<Record>, item: Item, owner: Owner, a: Answers)
      reads this
    {
      Follows(rid, record, item, owner, a) || ((Stale(rid, record) ==> a.detaches) && Creates(a))
    }

    method ForgetLocal(rid: Rid, detaches: bool) returns (ok: bool)
      requires Valid() && rid in cache
      modifies this`cache, this`live
      ensures Valid()
      ensures cache == old(cache) - {rid} && live == old(live) - {old(cache)[rid]}
      ensures ok <==> old(cache)[rid] !in old(live) || detaches
    {
      var sid := cache[rid];
      cache := cache - {rid};
      ok := sid !in live || detaches;
      live := live - {sid};
    }

    /** The cached session if the record names it; otherwise the cache entry goes, and with it a live session
        another process owns now. */
    method UseCache(rid: Rid, record: Option<Record>, detaches: bool) returns (hit: bool, ok: bool)
      requires Valid()
      modifies this`cache, this`live
      ensures Valid()
      ensures hit <==> old(Hit(rid, record))
      ensures hit <==> record.Some? && old(rid in cache && cache[rid] == record.value.sessionId && cache[rid] in live)
      ensures old(rid in cache) && !(record.Some? && record.value.sessionId == old(cache)[rid]) ==>
        live == old(live) - {old(cache)[rid]} && (ok <==> old(cache)[rid] !in old(live) || detaches)
      ensures ok <==> (old(Stale(rid, record)) ==> detaches)
      ensures cache == if hit then old(cache) else old(cache) - {rid}
      ensures live == if old(Stale(rid, record)) then old(live) - {old(cache)[rid]} else old(live)
    {
      hit, ok := false, true;
      if rid in cache {
        var sid := cache[rid];
        if record.Some? && record.value.sessionId == sid {
          hit := sid in live;
          if !hit { cache := cache - {rid}; }
        } else {
          ok := ForgetLocal(rid, detaches);
        }
      }
    }

    /** Adopt the recorded session and refresh its record; if either fails, delete the record. When the
        refresh is what failed, the adopted session stays live although nothing refers to it any more. */
    method Reattach(rid: Rid, record: Record, lease: DynamoLease, a: Answers) returns (ok: bool)
      requires Valid() && Serving(rid, lease)
      modifies this`cache, this`live, this`closed, registry.table
      ensures Valid()
      ensures closed == if old(Reachable(Some(record), a.attached)) then old(closed) - {record.sessionId}
                        else old(closed)
      ensures ok <==> old(Reachable(Some(record), a.attached)) && Lands(old(Item(rid)), lease.owner, a.refresh)
      ensures ok ==> cache == old(cache)[rid := record.sessionId]
      ensures ok ==> NamesSession(registry.kms, rid, Item(rid), record.sessionId) && OwnedBy(Item(rid), lease.owner)
      ensures !ok ==> cache == old(cache) || cache == old(cache) - {rid}
      ensures !ok && Undisturbed(a) && old(OwnedBy(Item(rid), lease.owner)) && !a.erase.net.Dropped? ==>
        Item(rid).record.None?
      ensures live.Keys == old(live.Keys) + if old(Reachable(Some(record), a.attached)) then {record.sessionId} else {}
      ensures forall s :: s in old(live) && s != record.sessionId ==> live[s] == old(live)[s]
      ensures ok ==> live[record.sessionId].guard == Some(lease)
      ensures OwnedBy(Item(rid), lease.owner) ==> old(OwnedBy(Item(rid), lease.owner))
      ensures Undisturbed(a) && old(OwnedBy(Item(rid), lease.owner)) ==> OwnedBy(Item(rid), lease.owner)
      ensures forall q :: q != rid ==> registry.table.At(q) == old(registry.table.At(q))
    {
      var sid := record.sessionId;
      ok := Attach(record, a.attached);
      if ok {
        Guard(sid, lease);
        cache := cache[rid := sid];
        ok := Remember(rid, sid, lease, false, a.refresh, Clean);
      }
      if !ok { EraseRecord(rid, lease, a.erase); }
    }

    /** Create a session and write its record; without the record the session is closed again. */
    method CreateFresh(rid: Rid, lease: DynamoLease, a: Answers) returns (r: Result<Sid>)
      requires Valid() && Serving(rid, lease)
      requires a.created.Some? ==> a.created.value.0 !in live && a.created.value.0 !in closed
      modifies this`cache, this`live, this`closed, registry.table
      ensures Valid()
      ensures r.Ok? ==> a.created.Some? && r.value == a.created.value.0 && cache == old(cache)[rid := r.value]
      ensures r.Ok? ==> live == old(live)[r.value := LiveSession(Some(lease), a.created.value.1)]
      ensures r.Ok? ==> NamesSession(registry.kms, rid, Item(rid), r.value)
      ensures r.Ok? <==> a.profileValid && a.created.Some? && Lands(old(Item(rid)), lease.owner, a.put)
      ensures a.put.taken.None? && Unrecorded(a) ==> Item(rid) == old(Item(rid))
      ensures r.Ok? ==> OwnedBy(Item(rid), lease.owner)
      ensures r.Err? ==> live == old(live) && (cache == old(cache) || cache == old(cache) - {rid})
      ensures a.created.Some? && a.profileValid && !a.stop.SandboxRaises? && r.Err? ==> a.created.value.0 in closed
      ensures OwnedBy(Item(rid), lease.owner) ==> old(OwnedBy(Item(rid), lease.owner))
      ensures Undisturbed(a) && old(OwnedBy(Item(rid), lease.owner)) ==> OwnedBy(Item(rid), lease.owner)
      ensures forall q :: q != rid ==> registry.table.At(q) == old(registry.table.At(q))
    {
      if !a.profileValid { return Err("invalid profile"); }
      if a.created.None? { return Err("create failed"); }
      var (sid, rest) := a.created.value;
      live := live[sid := LiveSession(Some(lease), rest)];
      var ok := Remember(rid, sid, lease, true, a.put, a.stop);
      assert live == if ok then old(live)[sid := LiveSession(Some(lease), rest)] else old(live);
      if ok {
        r := Ok(sid);
      } else {
        r := Err("session registry write failed; refusing to continue without a durable record");
      }
    }

    /** The session of the record, or a new one, once the cache has been looked at. */
    method Bind(rid: Rid, lease: DynamoLease, a: Answers) returns (r: Result<Sid>)
      requires Valid() && Serving(rid, lease)
      requires a.created.Some? ==> a.created.value.0 !in live && a.created.value.0 !in closed
      requires a.created.Some? && lease.record.Some? ==> a.created.value.0 != lease.record.value.sessionId
      modifies this`cache, this`live, this`closed, registry.table
      ensures Valid()
      ensures r.Ok? ==> r.value in live && rid in cache && cache[rid] == r.value && live[r.value].guard == Some(lease)
      ensures r.Ok? ==> NamesSession(registry.kms, rid, Item(rid), r.value) && OwnedBy(Item(rid), lease.owner)
      ensures OwnedBy(Item(rid), lease.owner) ==> old(OwnedBy(Item(rid), lease.owner))
      ensures Undisturbed(a) && old(OwnedBy(Item(rid), lease.owner)) ==> OwnedBy(Item(rid), lease.owner)
      ensures lease.record.Some? ==>
        (r == Ok(lease.record.value.sessionId) <==> old(Adopts(Item(rid), lease, a)))
      ensures old(OwnedBy(Item(rid), lease.owner)) && Undisturbed(a) ==>
        (r.Ok? <==> old(Adopts(Item(rid), lease, a)) || Creates(a))
      ensures lease.record.None? && Creates(a) && old(OwnedBy(Item(rid), lease.owner)) ==> r.Ok?
      ensures old(OwnedBy(Item(rid), lease.owner)) && Undisturbed(a) && !a.erase.net.Dropped? && Unrecorded(a) ==>
        lease.record.Some? ==> r.Ok? || Item(rid).record.None?
      ensures r.Ok? && !(lease.record.Some? && r.value == lease.record.value.sessionId) ==>
        a.created.Some? && r.value == a.created.value.0
      ensures a.created.Some? ==> (a.created.value.0 in live <==> r == Ok(a.created.value.0))
      ensures a.created.Some? && a.profileValid && !a.stop.SandboxRaises? && r.Err? ==> a.created.value.0 in closed
      ensures lease.record.Some? && old(Reachable(lease.record, a.attached)) ==> lease.record.value.sessionId in live
      ensures forall q :: q != rid ==> (q in cache <==> q in old(cache)) && (q in cache ==> cache[q] == old(cache)[q])
      ensures forall q :: q != rid ==> registry.table.At(q) == old(registry.table.At(q))
      ensures forall s :: s in old(live) && !(lease.record.Some? && s == lease.record.value.sessionId) ==>
        s in live && live[s] == old(live)[s]
      ensures forall s :: s in live && s !in old(live) ==>
        r == Ok(s) || (lease.record.Some? && s == lease.record.value.sessionId)
    {
      if lease.record.Some? {
        var ok := Reattach(rid, lease.record.value, lease, a);
        if ok { return Ok(lease.record.value.sessionId); }
      }
      r := CreateFresh(rid, lease, a);
    }

    method Session(rid: Rid, lease: DynamoLease, a: Answers) returns (r: Result<Sid>)
      requires Valid() && Serving(rid, lease) && Current(rid, lease)
      requires a.created.Some? ==> a.created.value.0 !in live && a.created.value.0 !in closed
      requires a.created.Some? && lease.record.Some? ==> a.created.value.0 != lease.record.value.sessionId
      modifies this`cache, this`live, this`closed, registry.table
      ensures Valid()
      // without trouble there is a session
      ensures old(OwnedBy(Item(rid), lease.owner)) && old(Resolves(rid, lease.record, a)) ==>
        r.Ok? && OwnedBy(Item(rid), lease.owner)
      // what is returned is live, cached, and named by the record for as long as the lease owns the item
      ensures r.Ok? ==> r.value in live && rid in cache && cache[rid] == r.value
      ensures r.Ok? && OwnedBy(Item(rid), lease.owner) ==> NamesSession(registry.kms, rid, Item(rid), r.value)
      ensures OwnedBy(Item(rid), lease.owner) ==> old(OwnedBy(Item(rid), lease.owner))
      ensures Undisturbed(a) && old(OwnedBy(Item(rid), lease.owner)) ==> OwnedBy(Item(rid), lease.owner)
      // the recorded session is returned exactly when it can be; and unless somebody takes the lease there is one
      // exactly when that or a new one can be had
      ensures lease.record.Some? ==>
        (r == Ok(lease.record.value.sessionId) <==> old(Follows(rid, lease.record, Item(rid), lease.owner, a)))
      ensures old(OwnedBy(Item(rid), lease.owner)) && Undisturbed(a) ==>
        (r.Ok? <==> old(Available(rid, lease.record, Item(rid), lease.owner, a)))
      // a record whose session is not returned is deleted
      ensures old(OwnedBy(Item(rid), lease.owner)) && Undisturbed(a) && !a.erase.net.Dropped? && Unrecorded(a) ==>
        lease.record.Some? && (old(Stale(rid, lease.record)) ==> a.detaches) ==> r.Ok? || Item(rid).record.None?
      // a cached session that the record does not name is let go
      ensures old(rid in cache) && old(cache)[rid] in old(live) ==>
        (lease.record.Some? && lease.record.value.sessionId == old(cache)[rid]) || old(cache)[rid] !in live
      // anything else that is returned is the session created here; if it is not returned it is closed
      ensures r.Ok? && !(lease.record.Some? && r.value == lease.record.value.sessionId) ==>
                a.created.Some? && r.value == a.created.value.0
      ensures a.created.Some? ==> (a.created.value.0 in live <==> r == Ok(a.created.value.0))
      ensures a.created.Some? && a.profileValid && !a.stop.SandboxRaises? && r.Err? ==>
        (old(Stale(rid, lease.record)) ==> a.detaches) ==> a.created.value.0 in closed
      // an adopted session whose record refresh failed is not returned, yet stays live here
      ensures lease.record.Some? && !old(Stale(rid, lease.record)) && old(Reachable(lease.record, a.attached)) ==>
                lease.record.value.sessionId in live
      // a session bound in this call is guarded by this lease, a cached one keeps the guard it had
      ensures r.Ok? ==> live[r.value].guard == if old(Hit(rid, lease.record)) then old(live)[r.value].guard
                                           else Some(lease)
      // other runtime sessions, and sessions neither cached, recorded nor created here, are left alone
      ensures forall q :: q != rid ==> (q in cache <==> q in old(cache)) && (q in cache ==> cache[q] == old(cache)[q])
      ensures forall q :: q != rid ==> registry.table.At(q) == old(registry.table.At(q))
      ensures forall s ::
        (s in old(live) && !(rid in old(cache) && s == old(cache)[rid])
          && !(lease.record.Some? && s == lease.record.value.sessionId))
        ==> s in live && live[s] == old(live)[s]
    {
      var hit, let := UseCache(rid, lease.record, a.detaches);
      if hit { return Ok(lease.record.value.sessionId); }
      if !let { return Err("detach failed"); }
      r := Bind(rid, lease, a);
    }

    // ---- one invocation --------------------------------------------------------------

    /** Shuts the session down; only if that goes without an error do the cache entry and the record go as well. */
    method CloseSession(rid: Rid, sid: Sid, lease: DynamoLease, stop: Stop, erase: Call) returns (ok: bool)
      requires Valid() && Serving(rid, lease)
      modifies this`cache, this`live, this`closed, registry.table
      ensures Valid() && (ok <==> stop.Clean?) && live == old(live) - {sid}
      ensures closed == if stop.SandboxRaises? then old(closed) else old(closed) + {sid}
      ensures cache == if ok then old(cache) - {rid} else old(cache)
      ensures ok && !erase.net.Dropped? && OwnedBy(Item(rid), lease.owner) ==> Item(rid).record.None?
      ensures erase.taken.None? && old(OwnedBy(Item(rid), lease.owner)) ==> OwnedBy(Item(rid), lease.owner)
      ensures !ok ==> Item(rid) == old(Item(rid))
      ensures forall q :: q != rid ==> (q in cache <==> q in old(cache)) && (q in cache ==> cache[q] == old(cache)[q])
      ensures forall q :: q != rid ==> registry.table.At(q) == old(registry.table.At(q))
    {
      live := live - {sid};
      if !stop.SandboxRaises? { closed := closed + {sid}; }
      ok := stop.Clean?;
      if ok {
        cache := cache - {rid};
        EraseRecord(rid, lease, erase);
      }
    }

    /** The action itself, and the record write after it: of the session in the cache, if it is still live. */
    method Act(rid: Rid, sid: Sid, lease: DynamoLease, w: Action, tail: Call) returns (ok: bool)
      requires Valid() && Serving(rid, lease) && sid in live && rid in cache && cache[rid] == sid && w.Work?
      modifies this`cache, this`live, this`closed, registry.table
      ensures Valid()
      ensures ok ==> w.rest.Some? && cache == old(cache)
      ensures Calm(w, tail) && old(OwnedBy(Item(rid), lease.owner)) ==> (ok <==> w.rest.Some?)
      ensures w.rest.None? ==> !ok && cache == old(cache) && live == old(live) && Item(rid) == old(Item(rid))
      ensures ok && !w.ended ==>
        && sid in live && live[sid] == old(live)[sid].(rest := w.rest.value)
        && OwnedBy(Item(rid), lease.owner) && Names(registry.kms, rid, Item(rid), sid, w.rest.value, tail.now + ttl)
      ensures ok && w.ended ==> sid !in live && sid in closed && Item(rid) == old(Item(rid))
      ensures !ok ==> cache == old(cache) || cache == old(cache) - {rid}
      ensures forall q :: q != rid ==> (q in cache <==> q in old(cache)) && (q in cache ==> cache[q] == old(cache)[q])
      ensures forall q :: q != rid ==> registry.table.At(q) == old(registry.table.At(q))
    {
      if w.rest.None? { return false; }
      live := live[sid := live[sid].(rest := w.rest.value)];
      if w.ended {
        live := live - {sid};
        closed := closed + {sid};
      }
      if w.midway.Some? {
        ok := Remember(rid, sid, lease, false, w.midway.value, Clean);
        if !ok { return; }
      }
      ok := true;
      if cache[rid] in live { ok := Remember(rid, cache[rid], lease, false, tail, Clean); }
    }

    /** One call under a lease. After any call that returns normally and was not a close, the lease still owned
        the item at the last write, and the record describes the session as the call left it. */
    method Invoke(rid: Rid, lease: DynamoLease, a: Answers, action: Action, tail: Call, stop: Stop, erase: Call)
      returns (r: Result<Option<Sid>>)
      requires Valid() && Serving(rid, lease) && Current(rid, lease)
      requires a.created.Some? ==> a.created.value.0 !in live && a.created.value.0 !in closed
      requires a.created.Some? && lease.record.Some? ==> a.created.value.0 != lease.record.value.sessionId
      modifies this`cache, this`live, this`closed, registry.table
      ensures Valid()
      // unless somebody takes the lease: it returns exactly when there is a session and the action ends well, and a
      // close exactly when there is nothing to close, or a session that shuts down cleanly
      ensures old(OwnedBy(Item(rid), lease.owner)) && Undisturbed(a) && Calm(action, tail) ==>
        (r.Ok? <==> action.rest.Some? && old(Available(rid, lease.record, Item(rid), lease.owner, a)))
      ensures old(OwnedBy(Item(rid), lease.owner)) && Undisturbed(a) && action.Close? ==>
        (r.Ok? <==>
          || (old(rid !in cache) && lease.record.None?)
          || (stop.Clean? && old(Available(rid, lease.record, Item(rid), lease.owner, a))))
      // without trouble the call returns
      ensures old(OwnedBy(Item(rid), lease.owner)) && old(Resolves(rid, lease.record, a)) ==>
        action.Work? && action.rest.Some? && action.midway.None? && Smooth(tail) ==> r.Ok?
      ensures action.Work? && r.Ok? ==> r.value.Some? && rid in cache && cache[rid] == r.value.value
      ensures action.Work? && r.Ok? && !action.ended ==>
        && r.value.value in live && OwnedBy(Item(rid), lease.owner) && action.rest == Some(live[r.value.value].rest)
        && Names(registry.kms, rid, Item(rid), r.value.value, live[r.value.value].rest, tail.now + ttl)
      ensures action.Work? && r.Ok? && action.ended ==> r.value.value !in live && r.value.value in closed
      ensures action.Work? && r.Ok? && lease.record.Some? ==>
        (r.value == Some(lease.record.value.sessionId) <==>
          old(Follows(rid, lease.record, Item(rid), lease.owner, a)))
      ensures action.Work? && r.Ok? && !(lease.record.Some? && r.value.value == lease.record.value.sessionId) ==>
        a.created.Some? && r.value.value == a.created.value.0
      ensures action.Work? && r.Ok? && !action.ended ==>
        live[r.value.value].guard == if old(Hit(rid, lease.record)) then old(live)[r.value.value].guard else Some(lease)
      ensures action.Close? && r.Ok? && r.value.Some? ==>
        && stop.Clean? && r.value.value !in live && r.value.value in closed && rid !in cache
        && (!erase.net.Dropped? && OwnedBy(Item(rid), lease.owner) ==> Item(rid).record.None?)
      ensures action.Close? && r.Ok? && Undisturbed(a) && erase.taken.None? && old(OwnedBy(Item(rid), lease.owner)) ==>
        OwnedBy(Item(rid), lease.owner)
      // nothing is created only to be closed
      ensures action.Close? && r == Ok(None) ==>
        && old(rid !in cache) && lease.record.None?
        && cache == old(cache) && live == old(live) && closed == old(closed) && Item(rid) == old(Item(rid))
      ensures forall q :: q != rid ==> registry.table.At(q) == old(registry.table.At(q))
      ensures forall q :: q != rid ==> (q in cache <==> q in old(cache)) && (q in cache ==> cache[q] == old(cache)[q])
    {
      if action.Close? && rid !in cache && lease.record.None? { return Ok(None); }
      var s := Session(rid, lease, a);
      if s.Err? { return Err(s.error); }
      var sid := s.value;
      match action
      case Close =>
        var ok := CloseSession(rid, sid, lease, stop, erase);
        r := if ok then Ok(Some(sid)) else Err("close failed");
      case Work(_, _, _) =>
        var ok := Act(rid, sid, lease, action, tail);
        r := if ok then Ok(Some(sid)) else Err("the action raised, or its record could not be written");
    }
  }

  // ---- what the lease protocol contributes ------------------------------------------------

  lemma {:induction false} UnchangedValue(log: seq<LeaseProtocol.Effect>, g: nat)
    requires g <= |log| && forall j :: g <= j < |log| ==> !LeaseProtocol.Changes(log[j])
    ensures LeaseProtocol.Play(log).value == LeaseProtocol.Play(log[..g]).value
  {
    if g < |log| {
      var n := |log| - 1;
      assert log[..n][..g] == log[..g];
      UnchangedValue(log[..n], g);
    } else {
      assert log[..g] == log;
    }
  }

  /** In every run of any number of processes, a lease that owns the item and has not written yet is `Current`: the
      item names the session of the record it was handed, and it was handed none only if the item has none or it
      had expired. */
  lemma HeldLeaseIsCurrent(c: LeaseProtocol.Config, clocks: seq<real>, steps: seq<LeaseProtocol.Step>, o: Owner,
                           s: LeaseProtocol.State)
    requires s == LeaseProtocol.Run(c, LeaseProtocol.Init(clocks), steps)
    requires o in s.leases && LeaseProtocol.Adopted(s.leases[o]) && OwnedBy(s.item, o)
    requires forall j :: 0 <= j < |s.log| && LeaseProtocol.By(s.log[j], o) ==> !LeaseProtocol.Changes(s.log[j])
    ensures s.leases[o].record.Some? ==> NamesSession(c.kms, c.rid, s.item, s.leases[o].record.value.sessionId)
    ensures s.leases[o].record.None? <==> LeaseProtocol.NothingLeft(s.item.record, s.leases[o].readAt)
  {
    LeaseProtocol.RunRefines(c, clocks, steps);
    var l := s.leases[o];
    assert LeaseProtocol.Fits(c, s.log, LeaseProtocol.Play(s.log).past, o, l);
    var g :| 0 <= g < |s.log| && s.log[g] == LeaseProtocol.Began(o)
      && l.seen.record == LeaseProtocol.Play(s.log[..g]).value;
    LeaseProtocol.WritesWhileOwned(s, o, g);
    UnchangedValue(s.log, g);
    LeaseProtocol.RecordIsWhatWasStored(c, l);
  }
}
