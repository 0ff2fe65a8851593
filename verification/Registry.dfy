/** The lease and registry objects of one process, over a table shared with other processes.

    The methods are the sequential code of one process. Where other processes can act
    between two remote calls, the item they leave behind is an argument of the method. */
module Registry {
  import opened Prelude
  import opened SessionItem

  class Table {
    var items: map<Rid, Item>

    constructor ()
      ensures items == map[]
    {
      items := map[];
    }

    function At(rid: Rid): Item
      reads this
    {
      if rid in items then items[rid] else NOTHING
    }

    method Store(rid: Rid, item: Item)
      modifies this
      ensures items == old(items)[rid := item]
    {
      items := items[rid := item];
    }
  }

  /** One turn of the acquire loop: the wall clock it reads, the item its request finds, how the request
      ends, and the monotonic clock it reads when the condition failed. */
  datatype Attempt = Attempt(wall: real, item: Item, net: Net, mono: real)

  predicate Refused(a: Attempt) {
    a.net.Acked? && !CanGrant(a.item, Trunc(a.wall))
  }

  /** The item as an attempt leaves it. */
  function AfterAttempt(a: Attempt, owner: Owner): Item {
    if a.net.Dropped? || !CanGrant(a.item, Trunc(a.wall)) then a.item else Grant(a.item, owner, Trunc(a.wall))
  }

  /** One wake-up of the renewal thread. */
  datatype Wakeup = Wakeup(wall: real, item: Item, net: Net)

  predicate Renewed(w: Wakeup, owner: Owner) {
    w.net.Acked? && OwnedBy(w.item, owner)
  }

  function AfterWakeup(w: Wakeup, owner: Owner): Item {
    if OwnedBy(w.item, owner) && !w.net.Dropped? then Extend(w.item, Trunc(w.wall) + LEASE_SECONDS) else w.item
  }

  class DynamoLease {
    const table: Table
    const rid: Rid
    const owner: Owner
    const kms: bool
    var expires: int
    var lost: bool
    var stopped: bool
    var record: Option<Record>

    constructor (table: Table, rid: Rid, owner: Owner, kms: bool)
      ensures this.table == table && this.rid == rid && this.owner == owner && this.kms == kms
      ensures expires == 0 && !lost && !stopped && record == None
    {
      this.table, this.rid, this.owner, this.kms := table, rid, owner, kms;
      expires, lost, stopped, record := 0, false, false, None;
    }

    /** Tries until the first attempt that is not refused, or until the deadline has passed. A granted
        attempt leaves the item leased and the record as of time `reading`; nothing else is touched. */
    method Acquire(start: real, wait: int, env: nat -> Attempt, reading: real) returns (r: Result<Unit>, ghost k: nat)
      requires forall i: nat :: env(i).mono >= start && env(i + 1).mono >= env(i).mono + 0.5
      modifies this`expires, this`record, table
      // every attempt before the last is turned away, because somebody holds the item and has time left
      ensures forall j: nat :: j < k ==>
        && env(j).net.Acked? && env(j).item.holder.Some? && env(j).item.holder.value.until >= Trunc(env(j).wall)
        && env(j).mono < start + wait as real
      // the last one is granted exactly if nobody holds the item or its holder's time is up, whatever its record
      ensures var i, now := env(k).item, Trunc(env(k).wall);
        if i.holder.None? || i.holder.value.until < now then
          && (env(k).net.Dropped? ==> table.At(rid) == i)
          && (!env(k).net.Dropped? ==>
                && table.At(rid).holder == Some(Holder(owner, now + 120)) && table.At(rid).record == i.record
                && table.At(rid).expiresAt == Some(if i.expiresAt.Some? then i.expiresAt.value else now + 86_400))
          && expires == (if env(k).net.Acked? then now + 120 else old(expires))
          && (r.Ok? <==> env(k).net.Acked? && Visible(kms, rid, table.At(rid), reading).Ok?)
        else
          table.At(rid) == i && r.Err? && expires == old(expires)
      ensures forall j: nat :: j < k ==> Refused(env(j)) && env(j).mono < start + wait as real
      ensures table.items == old(table.items)[rid := AfterAttempt(env(k), owner)]
      ensures var granted := env(k).net.Acked? && CanGrant(env(k).item, Trunc(env(k).wall));
        && (granted ==> expires == Trunc(env(k).wall) + LEASE_SECONDS)
        && (!granted ==> expires == old(expires) && record == old(record))
        && (r.Ok? ==> granted && Visible(kms, rid, table.At(rid), reading) == Ok(record))
        && (granted && r.Err? ==> Visible(kms, rid, table.At(rid), reading).Err?)
        && (Refused(env(k)) ==> r.Err? && env(k).mono >= start + wait as real)
    {
      var deadline := start + wait as real;
      var i: nat := 0;
      while Refused(env(i)) && env(i).mono < deadline
        invariant forall j: nat :: j < i ==> Refused(env(j)) && env(j).mono < deadline
        invariant table.items == old(table.items) && expires == old(expires) && record == old(record)
        decreases ((deadline - env(i).mono) * 2.0).Floor + 1
      {
        i := i + 1;
      }
      k := i;
      var a := env(i);
      table.Store(rid, AfterAttempt(a, owner));
      if !a.net.Acked? { return Err("request failed"), k; }
      if Refused(a) { return Err("development session is busy in another process; retry the request"), k; }
      expires := Trunc(a.wall) + LEASE_SECONDS;
      record := None;
      var v := Visible(kms, rid, table.At(rid), reading);
      if v.Err? { return Err(v.error), k; }
      record := v.value;
      return Ok(Unit), k;
    }

    method Check(clock: real) returns (ok: bool)
      ensures ok <==> !lost && clock < expires as real - 10.0
      ensures ok <==> CheckPasses(lost, expires, clock)
    {
      ok := !(lost || clock >= expires as real - 10.0);
    }

    /** The renewal thread. It gives up for good at the first wake-up that does not prove ownership, and
        as long as it has not, the local deadline is the one the last renewal wrote into the item. */
    method Renew(wakeups: seq<Wakeup>) returns (done: nat)
      requires !lost
      modifies this`expires, this`lost, table
      ensures done <= |wakeups| && (forall j :: 0 <= j < done ==> Renewed(wakeups[j], owner))
      ensures lost <==> done < |wakeups|
      ensures lost ==> !Renewed(wakeups[done], owner)
      ensures expires == if done == 0 then old(expires) else Trunc(wakeups[done - 1].wall) + LEASE_SECONDS
      ensures !lost && wakeups != [] ==> OwnedBy(table.At(rid), owner) && table.At(rid).holder.value.until == expires
      ensures wakeups != [] ==> table.At(rid) == AfterWakeup(wakeups[if lost then done else done - 1], owner)
      ensures table.items.Keys == old(table.items.Keys) + (if wakeups == [] then {} else {rid})
      ensures forall q :: q in old(table.items) && q != rid ==> table.items[q] == old(table.items[q])
    {
      done := 0;
      while done < |wakeups|
        invariant 0 <= done <= |wakeups| && !lost
        invariant forall j :: 0 <= j < done ==> Renewed(wakeups[j], owner)
        invariant expires == if done == 0 then old(expires) else Trunc(wakeups[done - 1].wall) + LEASE_SECONDS
        invariant done > 0 ==> OwnedBy(table.At(rid), owner) && table.At(rid).holder.value.until == expires
        invariant done > 0 ==> table.At(rid) == AfterWakeup(wakeups[done - 1], owner)
        invariant table.items.Keys == old(table.items.Keys) + (if done == 0 then {} else {rid})
        invariant forall q :: q in old(table.items) && q != rid ==> table.items[q] == old(table.items[q])
      {
        var w := wakeups[done];
        var until := Trunc(w.wall) + LEASE_SECONDS;
        var owned := OwnedBy(w.item, owner);
        table.Store(rid, if owned && !w.net.Dropped? then Extend(w.item, until) else w.item);
        if !owned || !w.net.Acked? {
          lost := true;
          return;
        }
        expires := until;
        done := done + 1;
      }
    }

    /** Gives the item up if it is still ours. Only a refusal marks the lease as lost. */
    method Release(net: Net)
      modifies this`stopped, this`lost, table
      ensures stopped
      ensures var was := old(table.At(rid));
        && table.items == old(table.items)[rid := if OwnedBy(was, owner) && !net.Dropped? then Free(was) else was]
        && (lost <==> old(lost) || (net.Acked? && !OwnedBy(was, owner)))
    {
      stopped := true;
      var item := table.At(rid);
      if OwnedBy(item, owner) {
        table.Store(rid, if net.Dropped? then item else Free(item));
      } else {
        table.Store(rid, item);
        if net.Acked? { lost := true; }
      }
    }
  }

  class DynamoRegistry {
    const table: Table
    const kms: bool
    var leases: map<Rid, DynamoLease>

    constructor (table: Table, kms: bool)
      ensures this.table == table && this.kms == kms && leases == map[]
    {
      this.table, this.kms, leases := table, kms, map[];
    }

    /** The condition a write carries: ownership if this process holds a lease, none otherwise. */
    predicate MayWrite(rid: Rid)
      reads this, table
    {
      rid !in leases || OwnedBy(table.At(rid), leases[rid].owner)
    }

    method Enter(rid: Rid, lease: DynamoLease)
      modifies this`leases
      ensures leases == old(leases)[rid := lease]
    {
      leases := leases[rid := lease];
    }

    method Exit(rid: Rid)
      modifies this`leases
      ensures leases == old(leases) - {rid}
    {
      leases := leases - {rid};
    }

    method Get(rid: Rid, clock: real) returns (r: Result<Option<Record>>)
      ensures r == Visible(kms, rid, table.At(rid), clock)
      // a record is returned only to the runtime session it was written for, with a key only if it was sealed for it
      ensures r.Ok? && r.value.Some? ==> r.value.value.rid == rid && table.At(rid).record.Some?
      ensures r.Ok? && r.value.Some? && kms ==> table.At(rid).record == Some(Sealed(rid, r.value.value))
      // what `Put` stored is returned whole until it expires
      ensures forall record, now, ttl, before: Item ::
                table.At(rid) == Write(before, Seal(kms, rid, Stamp(rid, record, now, ttl))) ==>
                  r == Ok(if clock <= (now + ttl) as real then Some(Stamp(rid, record, now, ttl)) else None)
    {
      r := Visible(kms, rid, table.At(rid), clock);
    }

    method Put(rid: Rid, record: Record, now: int, ttl: int, net: Net) returns (r: Result<Unit>)
      modifies table
      ensures r.Ok? <==> net.Acked? && (rid in leases ==> old(OwnedBy(table.At(rid), leases[rid].owner)))
      ensures r.Ok? <==> old(MayWrite(rid)) && net.Acked?
      ensures old(MayWrite(rid)) && !net.Dropped? ==>
        table.items == old(table.items)[rid := Write(old(table.At(rid)), Seal(kms, rid, Stamp(rid, record, now, ttl)))]
      ensures !old(MayWrite(rid)) || net.Dropped? ==> table.items == old(table.items)
    {
      if net.Dropped? { return Err("request failed"); }
      if !MayWrite(rid) { return Err("session lease lost; registry write refused"); }
      table.Store(rid, Write(table.At(rid), Seal(kms, rid, Stamp(rid, record, now, ttl))));
      r := if net.Acked? then Ok(Unit) else Err("request failed");
    }

    method Delete(rid: Rid, net: Net) returns (r: Result<Unit>)
      modifies table
      ensures r.Ok? <==> net.Acked? && (rid in leases ==> old(OwnedBy(table.At(rid), leases[rid].owner)))
      // under a lease only the record goes, the item and its lease stay; without one the whole item goes
      ensures r.Ok? ==> table.At(rid) == if rid in leases then old(table.At(rid)).(record := None) else NOTHING
      ensures r.Ok? <==> old(MayWrite(rid)) && net.Acked?
      ensures old(MayWrite(rid)) && !net.Dropped? ==>
        table.items == if rid in leases then old(table.items)[rid := Erase(old(table.At(rid)))]
                       else old(table.items) - {rid}
      ensures !old(MayWrite(rid)) || net.Dropped? ==> table.items == old(table.items)
    {
      if net.Dropped? { return Err("request failed"); }
      if rid !in leases {
        table.items := table.items - {rid};
      } else if !MayWrite(rid) {
        return Err("session lease lost; registry delete refused");
      } else {
        table.Store(rid, Erase(table.At(rid)));
      }
      r := if net.Acked? then Ok(Unit) else Err("request failed");
    }
  }

  // ---- what a stored record is good for ------------------------------------------------

  /** A record put under `rid` is read back whole until its expiry passes, and not at all afterwards. */
  lemma PutIsVisibleUntilExpiry(kms: bool, rid: Rid, r: Record, now: int, ttl: int, i: Item, clock: real)
    ensures Visible(kms, rid, Write(i, Seal(kms, rid, Stamp(rid, r, now, ttl))), clock)
         == Ok(if clock <= (now + ttl) as real then Some(Record(rid, r.sessionId, r.rest, now, now + ttl)) else None)
    ensures Write(i, Seal(kms, rid, Stamp(rid, r, now, ttl))).holder == i.holder
  {
  }

  /** A record copied under another runtime session id is refused, sealed or not. */
  lemma CopiedRecordIsRefused(kms: bool, rid: Rid, other: Rid, r: Record, now: int, ttl: int, i: Item, clock: real)
    requires rid != other && clock <= (now + ttl) as real
    ensures Visible(kms, other, Write(i, Seal(kms, rid, Stamp(rid, r, now, ttl))), clock).Err?
  {
  }

  /** With a key configured, a record nobody sealed is refused. */
  lemma ForgedRecordIsRefused(rid: Rid, r: Record, i: Item, clock: real)
    requires clock <= r.expiresAt as real
    ensures Visible(true, rid, Write(i, Clear(r)), clock).Err?
  {
  }
}
