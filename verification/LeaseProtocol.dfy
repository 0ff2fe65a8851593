/** Any number of processes competing for the lease of one runtime session.

    Every remote call of the lease and the registry is one atomic step on the item;
    the clock read before it and the local assignment after it are steps of their
    own, so any other process can run in between. Steps may be taken late, in any
    order and after a crash of the others; a step that is not enabled changes nothing,
    hence a run is simply a sequence of steps. */
module LeaseProtocol {
  import opened Prelude
  import opened SessionItem

  /** Where a lease object is in its life. `Gone` is a process that
      crashed or an `acquire` that raised "busy"; `Broken` is a record that did not open. */
  datatype Phase = Waiting | Read(now: int) | Granted(now: int) | Held | Releasing | Finished | Gone | Broken

  /** Where its renewal thread is: idle, about to send `until`, or sent but not yet assigned. */
  datatype Renewal = Idle | Want(until: int) | Sent(until: int) | Stopped

  /** `seen` is the item the successful acquire returned; `record` is what the lease made of it at its own
      time `readAt`. */
  datatype Lease = Lease(proc: nat, phase: Phase, renewal: Renewal, expires: int, lost: bool,
                         seen: Item, record: Option<Record>, readAt: real)

  function NewLease(proc: nat): Lease {
    Lease(proc, Waiting, Idle, 0, false, NOTHING, None, 0.0)
  }

  datatype Effect =
    | Began(owner: Owner)
    | Wrote(owner: Owner, stored: Stored)
    | Erased(owner: Owner)
    | Renewed(owner: Owner)
    | Freed(owner: Owner)
    | Expired

  /** The item, one clock per process, all lease objects, and everything that ever took effect on the item. */
  datatype State = State(item: Item, clocks: seq<real>, leases: map<Owner, Lease>, log: seq<Effect>)

  datatype Config = Config(rid: Rid, kms: bool)

  datatype Step =
    | Tick(clocks: seq<real>)
    | Create(owner: Owner, proc: nat)
    | ReadClock(owner: Owner)
    | TryAcquire(owner: Owner)
    | GiveUp(owner: Owner)
    | Adopt(owner: Owner)
    | RenewRead(owner: Owner)
    | RenewSend(owner: Owner, acked: bool)
    | RenewAssign(owner: Owner)
    | RenewFail(owner: Owner)
    | Put(owner: Owner, record: Record, now: int, ttl: int)
    | Delete(owner: Owner)
    | ReleaseCall(owner: Owner)
    | ReleaseSend(owner: Owner, acked: bool)
    | ReleaseFail(owner: Owner)
    | TtlDelete
    | Crash(owner: Owner)

  function Init(clocks: seq<real>): State {
    State(NOTHING, clocks, map[], [])
  }

  // ---- the steps -------------------------------------------------------------

  predicate Subject(s: State, o: Owner) {
    o in s.leases && s.leases[o].proc < |s.clocks| && !s.leases[o].phase.Gone?
  }

  function Clock(s: State, o: Owner): real
    requires Subject(s, o)
  {
    s.clocks[s.leases[o].proc]
  }

  function Set(s: State, o: Owner, l: Lease): State {
    s.(leases := s.leases[o := l])
  }

  /** The renewal thread and the writers of a lease exist once `acquire` has returned. */
  predicate Adopted(l: Lease) {
    l.phase.Held? || l.phase.Releasing? || l.phase.Finished?
  }

  function Acquire(s: State, o: Owner): State
    requires Subject(s, o) && s.leases[o].phase.Read?
  {
    var l := s.leases[o];
    var now := l.phase.now;
    if CanGrant(s.item, now) then
      var item := Grant(s.item, o, now);
      Set(s, o, l.(phase := Granted(now), seen := item)).(item := item, log := s.log + [Began(o)])
    else
      Set(s, o, l.(phase := Waiting))
  }

  function AdoptGrant(c: Config, s: State, o: Owner): State
    requires Subject(s, o) && s.leases[o].phase.Granted?
  {
    var l := s.leases[o];
    var l' := l.(expires := l.phase.now + LEASE_SECONDS, readAt := Clock(s, o));
    match Visible(c.kms, c.rid, l.seen, Clock(s, o))
    case Err(_) => Set(s, o, l'.(phase := Broken))
    case Ok(r) => Set(s, o, l'.(phase := Held, record := r))
  }

  function SendRenewal(s: State, o: Owner, acked: bool): State
    requires o in s.leases && s.leases[o].renewal.Want?
  {
    var l := s.leases[o];
    var dead := l.(renewal := Stopped, lost := true);
    if !OwnedBy(s.item, o) then Set(s, o, dead)
    else
      Set(s, o, if acked then l.(renewal := Sent(l.renewal.until)) else dead)
        .(item := Extend(s.item, l.renewal.until), log := s.log + [Renewed(o)])
  }

  function SendRelease(s: State, o: Owner, acked: bool): State
    requires Subject(s, o) && s.leases[o].phase.Releasing?
  {
    var l := s.leases[o].(phase := Finished);
    if !OwnedBy(s.item, o) then Set(s, o, l.(lost := l.lost || acked))
    else Set(s, o, l).(item := Free(s.item), log := s.log + [Freed(o)])
  }

  predicate Enabled(s: State, step: Step) {
    match step
    case Tick(clocks) => |clocks| == |s.clocks|
    case Create(o, proc) => o !in s.leases && proc < |s.clocks|
    case ReadClock(o) => Subject(s, o) && s.leases[o].phase.Waiting?
    case TryAcquire(o) => Subject(s, o) && s.leases[o].phase.Read?
    case GiveUp(o) => Subject(s, o) && s.leases[o].phase.Waiting?
    case Adopt(o) => Subject(s, o) && s.leases[o].phase.Granted?
    case RenewRead(o) => Subject(s, o) && Adopted(s.leases[o]) && s.leases[o].renewal.Idle?
    case RenewSend(o, _) => o in s.leases && s.leases[o].renewal.Want?
    case RenewAssign(o) => Subject(s, o) && s.leases[o].renewal.Sent?
    case RenewFail(o) => Subject(s, o) && s.leases[o].renewal.Want?
    case Put(o, _, _, _) => o in s.leases && OwnedBy(s.item, o)
    case Delete(o) => o in s.leases && OwnedBy(s.item, o)
    case ReleaseCall(o) => Subject(s, o) && s.leases[o].phase.Held?
    case ReleaseSend(o, _) => Subject(s, o) && s.leases[o].phase.Releasing?
    case ReleaseFail(o) => Subject(s, o) && s.leases[o].phase.Releasing?
    case TtlDelete => s.item.expiresAt.Some?
    case Crash(o) => Subject(s, o)
  }

  function Perform(c: Config, s: State, step: Step): State
    requires Enabled(s, step)
  {
    match step
    case Tick(clocks) => s.(clocks := clocks)
    case Create(o, proc) => Set(s, o, NewLease(proc))
    case ReadClock(o) => Set(s, o, s.leases[o].(phase := Read(Trunc(Clock(s, o)))))
    case TryAcquire(o) => Acquire(s, o)
    case GiveUp(o) => Set(s, o, s.leases[o].(phase := Gone))
    case Adopt(o) => AdoptGrant(c, s, o)
    case RenewRead(o) => Set(s, o, s.leases[o].(renewal := Want(Trunc(Clock(s, o)) + LEASE_SECONDS)))
    case RenewSend(o, acked) => SendRenewal(s, o, acked)
    case RenewAssign(o) => Set(s, o, s.leases[o].(renewal := Idle, expires := s.leases[o].renewal.until))
    case RenewFail(o) => Set(s, o, s.leases[o].(renewal := Stopped, lost := true))
    case Put(o, r, now, ttl) =>
      var stored := Seal(c.kms, c.rid, Stamp(c.rid, r, now, ttl));
      s.(item := Write(s.item, stored), log := s.log + [Wrote(o, stored)])
    case Delete(o) => s.(item := Erase(s.item), log := s.log + [Erased(o)])
    case ReleaseCall(o) => Set(s, o, s.leases[o].(phase := Releasing))
    case ReleaseSend(o, acked) => SendRelease(s, o, acked)
    case ReleaseFail(o) => Set(s, o, s.leases[o].(phase := Finished))
    case TtlDelete => s.(item := NOTHING, log := s.log + [Expired])
    case Crash(o) => Set(s, o, s.leases[o].(phase := Gone))
  }

  function Next(c: Config, s: State, step: Step): State {
    if Enabled(s, step) then Perform(c, s, step) else s
  }

  function Run(c: Config, s: State, steps: seq<Step>): State {
    if steps == [] then s else Next(c, Run(c, s, steps[..|steps| - 1]), steps[|steps| - 1])
  }

  // ---- what one sequential owner at a time may do -----------------------------

  /** The sequential registry: one writer at a time, never the same writer twice. */
  datatype Spec = Spec(writer: Option<Owner>, past: set<Owner>, value: Option<Stored>)

  predicate Allowed(p: Spec, e: Effect) {
    match e
    case Began(o) => o !in p.past
    case Expired => true
    case _ => p.writer == Some(e.owner)
  }

  function Take(p: Spec, e: Effect): Spec {
    match e
    case Began(o) => Spec(Some(o), p.past + {o}, p.value)
    case Wrote(_, v) => p.(value := Some(v))
    case Erased(_) => p.(value := None)
    case Renewed(_) => p
    case Freed(_) => p.(writer := None)
    case Expired => p.(writer := None, value := None)
  }

  function Play(log: seq<Effect>): Spec {
    if log == [] then Spec(None, {}, None) else Take(Play(log[..|log| - 1]), log[|log| - 1])
  }

  ghost predicate Legal(log: seq<Effect>) {
    forall i :: 0 <= i < |log| ==> Allowed(Play(log[..i]), log[i])
  }

  lemma PlayPush(log: seq<Effect>, e: Effect)
    ensures Play(log + [e]) == Take(Play(log), e)
  {
    assert (log + [e])[..|log|] == log;
  }

  lemma LegalPush(log: seq<Effect>, e: Effect)
    requires Legal(log) && Allowed(Play(log), e)
    ensures Legal(log + [e])
  {
    forall i | 0 <= i < |log + [e]| ensures Allowed(Play((log + [e])[..i]), (log + [e])[i]) {
      assert (log + [e])[..i] == log[..i];
      assert log[..|log|] == log;
    }
  }

  // ---- refinement --------------------------------------------------------------

  function HolderOf(i: Item): Option<Owner> {
    if i.holder.None? then None else Some(i.holder.value.owner)
  }

  predicate EverGranted(l: Lease) {
    !l.phase.Waiting? && !l.phase.Read?
  }

  /** Stored values are the ones this deployment seals, so they open and name this session. */
  ghost predicate WellSealed(c: Config, v: Option<Stored>) {
    v.Some? ==> exists r: Record :: r.rid == c.rid && v.value == Seal(c.kms, c.rid, r)
  }

  /** An item with a record expires with it. */
  predicate Dated(i: Item) {
    i.record.Some? ==> i.expiresAt == Some(i.record.value.record.expiresAt)
  }

  /** A lease that began was handed the value the sequential registry had at that moment. */
  ghost predicate SawCurrent(log: seq<Effect>, o: Owner, seen: Item) {
    exists g :: 0 <= g < |log| && log[g] == Began(o) && seen.record == Play(log[..g]).value
  }

  /** The lease's record is what it made of the item it was handed when it read it. */
  predicate FromSeen(c: Config, l: Lease) {
    Visible(c.kms, c.rid, l.seen, l.readAt) == Ok(l.record)
  }

  predicate Working(l: Lease) {
    l.phase.Granted? || Adopted(l)
  }

  ghost predicate Fits(c: Config, log: seq<Effect>, past: set<Owner>, o: Owner, l: Lease) {
    && !l.phase.Broken?
    && (Working(l) ==> o in past && SawCurrent(log, o, l.seen) && WellSealed(c, l.seen.record) && Dated(l.seen))
    && (Adopted(l) ==> FromSeen(c, l))
  }

  ghost predicate Refines(c: Config, s: State) {
    && Legal(s.log)
    && Play(s.log).writer == HolderOf(s.item)
    && Play(s.log).value == s.item.record
    && WellSealed(c, s.item.record) && Dated(s.item)
    && (forall o :: o in Play(s.log).past ==> o in s.leases && EverGranted(s.leases[o]))
    && (forall o :: o in s.leases ==> Fits(c, s.log, Play(s.log).past, o, s.leases[o]))
  }

  lemma FitsStays(c: Config, log: seq<Effect>, log': seq<Effect>, past: set<Owner>, past': set<Owner>,
                  o: Owner, l: Lease, l': Lease)
    requires Fits(c, log, past, o, l) && log <= log' && past <= past'
    requires l'.seen == l.seen && !l'.phase.Broken? && (Working(l') ==> Working(l))
    requires Adopted(l') ==> FromSeen(c, l') || (Adopted(l) && l'.record == l.record && l'.readAt == l.readAt)
    ensures Fits(c, log', past', o, l')
  {
    if Working(l') {
      var g :| 0 <= g < |log| && log[g] == Began(o) && l.seen.record == Play(log[..g]).value;
      assert log'[..g] == log[..g];
    }
  }

  lemma WellSealedOpens(c: Config, i: Item, clock: real)
    requires WellSealed(c, i.record)
    ensures Visible(c.kms, c.rid, i, clock).Ok?
  {
  }

  /** Steps of one lease that leave the item alone. */
  lemma LocalRefines(c: Config, s: State, o: Owner, l: Lease)
    requires Refines(c, s) && !l.phase.Broken?
    requires o !in s.leases ==> !Working(l)
    requires o in s.leases ==> l.seen == s.leases[o].seen && (EverGranted(s.leases[o]) ==> EverGranted(l))
    requires o in s.leases && Working(l) ==> Working(s.leases[o])
    requires Adopted(l) ==>
      || FromSeen(c, l)
      || (o in s.leases && Adopted(s.leases[o]) && l.record == s.leases[o].record && l.readAt == s.leases[o].readAt)
    ensures Refines(c, Set(s, o, l))
  {
    var past := Play(s.log).past;
    if o in s.leases {
      FitsStays(c, s.log, s.log, past, past, o, s.leases[o], l);
    }
  }

  lemma AdoptRefines(c: Config, s: State, o: Owner)
    requires Refines(c, s) && Subject(s, o) && s.leases[o].phase.Granted?
    ensures Refines(c, AdoptGrant(c, s, o))
    ensures AdoptGrant(c, s, o).leases[o].phase == Held
  {
    assert Fits(c, s.log, Play(s.log).past, o, s.leases[o]);
    WellSealedOpens(c, s.leases[o].seen, Clock(s, o));
    assert FromSeen(c, AdoptGrant(c, s, o).leases[o]);
    LocalRefines(c, s, o, AdoptGrant(c, s, o).leases[o]);
  }

  /** Steps whose effect on the item is one the sequential registry allows. */
  lemma EffectRefines(c: Config, s: State, s': State, e: Effect)
    requires Refines(c, s) && !e.Began? && Allowed(Play(s.log), e)
    requires s'.log == s.log + [e]
    requires Take(Play(s.log), e).writer == HolderOf(s'.item) && Take(Play(s.log), e).value == s'.item.record
    requires WellSealed(c, s'.item.record) && Dated(s'.item)
    requires forall o :: o in s.leases <==> o in s'.leases
    requires forall o :: o in s.leases ==>
               && s'.leases[o].seen == s.leases[o].seen && s'.leases[o].record == s.leases[o].record
               && s'.leases[o].readAt == s.leases[o].readAt
    requires forall o :: o in s.leases ==>
               s'.leases[o].phase == s.leases[o].phase || (Adopted(s.leases[o]) && Adopted(s'.leases[o]))
    ensures Refines(c, s')
  {
    PlayPush(s.log, e);
    LegalPush(s.log, e);
    var past := Play(s.log).past;
    forall o | o in s'.leases ensures Fits(c, s'.log, past, o, s'.leases[o]) {
      FitsStays(c, s.log, s'.log, past, past, o, s.leases[o], s'.leases[o]);
    }
  }

  lemma WriteRefines(c: Config, s: State, o: Owner, r: Record, now: int, ttl: int)
    requires Refines(c, s) && Enabled(s, Put(o, r, now, ttl))
    ensures Refines(c, Perform(c, s, Put(o, r, now, ttl)))
  {
    var stamped := Stamp(c.rid, r, now, ttl);
    assert stamped.rid == c.rid;
    EffectRefines(c, s, Perform(c, s, Put(o, r, now, ttl)), Wrote(o, Seal(c.kms, c.rid, stamped)));
  }

  lemma RenewalRefines(c: Config, s: State, o: Owner, acked: bool)
    requires Refines(c, s) && o in s.leases && s.leases[o].renewal.Want?
    ensures Refines(c, SendRenewal(s, o, acked))
  {
    if OwnedBy(s.item, o) {
      EffectRefines(c, s, SendRenewal(s, o, acked), Renewed(o));
    } else {
      LocalRefines(c, s, o, SendRenewal(s, o, acked).leases[o]);
    }
  }

  lemma ReleaseRefines(c: Config, s: State, o: Owner, acked: bool)
    requires Refines(c, s) && Subject(s, o) && s.leases[o].phase.Releasing?
    ensures Refines(c, SendRelease(s, o, acked))
  {
    if OwnedBy(s.item, o) {
      EffectRefines(c, s, SendRelease(s, o, acked), Freed(o));
    } else {
      LocalRefines(c, s, o, SendRelease(s, o, acked).leases[o]);
    }
  }

  lemma GrantRefines(c: Config, s: State, o: Owner)
    requires Refines(c, s) && Subject(s, o) && s.leases[o].phase.Read? && CanGrant(s.item, s.leases[o].phase.now)
    ensures Refines(c, Acquire(s, o))
  {
    var s' := Acquire(s, o);
    var past := Play(s.log).past;
    PlayPush(s.log, Began(o));
    LegalPush(s.log, Began(o));
    assert s'.log[..|s.log|] == s.log && s'.log[|s.log|] == Began(o);
    assert Fits(c, s'.log, past + {o}, o, s'.leases[o]);
    forall p | p in s.leases && p != o ensures Fits(c, s'.log, past + {o}, p, s'.leases[p]) {
      FitsStays(c, s.log, s'.log, past, past + {o}, p, s.leases[p], s.leases[p]);
    }
  }

  lemma NextRefines(c: Config, s: State, step: Step)
    requires Refines(c, s)
    ensures Refines(c, Next(c, s, step))
  {
    if Enabled(s, step) {
      match step
      case Tick(_) =>
      case TryAcquire(o) =>
        if CanGrant(s.item, s.leases[o].phase.now) {
          GrantRefines(c, s, o);
        } else {
          LocalRefines(c, s, o, Next(c, s, step).leases[o]);
        }
      case Adopt(o) => AdoptRefines(c, s, o);
      case RenewSend(o, acked) => RenewalRefines(c, s, o, acked);
      case Put(o, r, now, ttl) => WriteRefines(c, s, o, r, now, ttl);
      case Delete(o) => EffectRefines(c, s, Next(c, s, step), Erased(o));
      case ReleaseSend(o, acked) => ReleaseRefines(c, s, o, acked);
      case TtlDelete => EffectRefines(c, s, Next(c, s, step), Expired);
      case _ => LocalRefines(c, s, step.owner, Next(c, s, step).leases[step.owner]);
    }
  }

  /** In every run, under arbitrary clocks, delays, crashes and TTL deletions, the item behaves as a
      sequential registry with one writer at a time, and no record a lease is handed fails to open. */
  lemma {:induction false} RunRefines(c: Config, clocks: seq<real>, steps: seq<Step>)
    ensures Refines(c, Run(c, Init(clocks), steps))
  {
    if steps != [] {
      RunRefines(c, clocks, steps[..|steps| - 1]);
      NextRefines(c, Run(c, Init(clocks), steps[..|steps| - 1]), steps[|steps| - 1]);
    }
  }

  // ---- fencing -------------------------------------------------------------------

  predicate By(e: Effect, o: Owner) {
    !e.Expired? && e.owner == o
  }

  lemma {:induction false} PastOwners(log: seq<Effect>, i: nat, o: Owner)
    requires Legal(log) && i < |log| && By(log[i], o)
    ensures o in Play(log).past
  {
    var n := |log| - 1;
    assert log[..n] + [log[n]] == log;
    LegalPrefix(log, n);
    if i < n {
      PastOwners(log[..n], i, o);
    } else if !log[n].Began? {
      assert Allowed(Play(log[..n]), log[n]);
      var g := BlockStart(log[..n], o);
      PastOwners(log[..n], g, o);
    }
  }

  lemma LegalPrefix(log: seq<Effect>, n: nat)
    requires Legal(log) && n <= |log|
    ensures Legal(log[..n])
  {
    forall i | 0 <= i < n ensures Allowed(Play(log[..n][..i]), log[..n][i]) {
      assert log[..n][..i] == log[..i];
    }
  }

  /** The current writer began at some point and everything since is its own. */
  lemma {:induction false} BlockStart(log: seq<Effect>, o: Owner) returns (g: nat)
    requires Legal(log) && Play(log).writer == Some(o)
    ensures g < |log| && log[g] == Began(o)
    ensures forall j :: g <= j < |log| ==> By(log[j], o)
    decreases |log|
  {
    var n := |log| - 1;
    LegalPrefix(log, n);
    assert Allowed(Play(log[..n]), log[n]);
    if log[n] == Began(o) {
      g := n;
    } else {
      g := BlockStart(log[..n], o);
    }
  }

  /** Nothing of an owner comes before it began. */
  lemma BeganFirst(log: seq<Effect>, o: Owner, g: nat, i: nat)
    requires Legal(log) && g < |log| && log[g] == Began(o) && i < |log| && By(log[i], o)
    ensures g <= i
  {
    if i < g {
      LegalPrefix(log, g);
      assert Allowed(Play(log[..g]), log[g]);
      PastOwners(log[..g], i, o);
    }
  }

  /** The effects of one owner are consecutive: nobody else's, and no TTL deletion, lies between two of them. */
  lemma OwnerBlocks(log: seq<Effect>, o: Owner, i: nat, j: nat, k: nat)
    requires Legal(log) && i <= j <= k < |log| && By(log[i], o) && By(log[k], o)
    ensures By(log[j], o)
  {
    assert Allowed(Play(log[..k]), log[k]);
    if log[k].Began? {
      BeganFirst(log, o, k, i);
    } else {
      LegalPrefix(log, k);
      var g := BlockStart(log[..k], o);
      BeganFirst(log, o, g, i);
      assert j < k ==> log[..k][j] == log[j];
    }
  }

  /** Fencing without clocks: once a later lease has begun, nothing an earlier lease sends takes effect,
      whatever the clocks say and however late it arrives. */
  lemma Fencing(c: Config, clocks: seq<real>, steps: seq<Step>, earlier: Owner, i: nat, j: nat, k: nat)
    requires var log := Run(c, Init(clocks), steps).log;
      i < j < k < |log| && By(log[i], earlier) && log[j].Began? && log[j].owner != earlier
    ensures !By(Run(c, Init(clocks), steps).log[k], earlier)
  {
    var log := Run(c, Init(clocks), steps).log;
    RunRefines(c, clocks, steps);
    if By(log[k], earlier) {
      OwnerBlocks(log, earlier, i, j, k);
    }
  }

  // ---- the record ------------------------------------------------------------------

  predicate Changes(e: Effect) {
    e.Wrote? || e.Erased? || e.Expired?
  }

  /** `v` is the last value written and not erased or expired since, or nothing. */
  ghost predicate LastValue(log: seq<Effect>, v: Option<Stored>) {
    || (v.None? && forall j :: 0 <= j < |log| ==> !Changes(log[j]))
    || (exists k :: 0 <= k < |log| && Changes(log[k]) && (forall j :: k < j < |log| ==> !Changes(log[j]))
          && v == if log[k].Wrote? then Some(log[k].stored) else None)
  }

  lemma {:induction false} PlayIsLastValue(log: seq<Effect>)
    ensures LastValue(log, Play(log).value)
  {
    if log != [] {
      var n := |log| - 1;
      PlayIsLastValue(log[..n]);
      if Changes(log[n]) {
        assert log[n] == log[|log| - 1];
      } else if exists j :: 0 <= j < n && Changes(log[j]) {
        var k :| 0 <= k < n && Changes(log[..n][k]) && (forall j :: k < j < n ==> !Changes(log[..n][j]))
          && Play(log[..n]).value == if log[..n][k].Wrote? then Some(log[..n][k].stored) else None;
        assert Changes(log[k]);
        assert forall j :: k < j < |log| ==> j == n || log[j] == log[..n][j];
      }
    }
  }

  lemma AcquireSawLastValue(c: Config, s: State, o: Owner) returns (g: nat)
    requires Refines(c, s) && o in s.leases && Working(s.leases[o])
    ensures g < |s.log| && s.log[g] == Began(o) && LastValue(s.log[..g], s.leases[o].seen.record)
  {
    assert Fits(c, s.log, Play(s.log).past, o, s.leases[o]);
    g :| 0 <= g < |s.log| && s.log[g] == Began(o) && s.leases[o].seen.record == Play(s.log[..g]).value;
    PlayIsLastValue(s.log[..g]);
  }

  lemma WritesWhileOwned(s: State, o: Owner, g: nat)
    requires Legal(s.log) && Play(s.log).writer == Some(o) && g < |s.log| && By(s.log[g], o)
    ensures forall j :: g <= j < |s.log| ==> By(s.log[j], o)
  {
    var h := BlockStart(s.log, o);
    forall j | g <= j < |s.log| ensures By(s.log[j], o) {
      OwnerBlocks(s.log, o, g, j, |s.log| - 1);
    }
  }

  /** No value was left, or it had expired. */
  predicate NothingLeft(v: Option<Stored>, clock: real) {
    v.None? || (v.value.record.expiresAt as real) < clock
  }

  lemma RecordIsWhatWasStored(c: Config, l: Lease)
    requires FromSeen(c, l) && WellSealed(c, l.seen.record) && Dated(l.seen)
    ensures l.record.Some? ==> l.seen.record == Some(Seal(c.kms, c.rid, l.record.value))
    ensures l.record.None? <==> NothingLeft(l.seen.record, l.readAt)
  {
  }

  /** The record handed out at acquire is the last one earlier leases left, and there is one unless nothing was
      left or it had expired on the lease's clock; from then until the lease loses the item every effect is its
      own, and the item holds the last value of that history. */
  lemma LeaseSeesTheRegistry(c: Config, clocks: seq<real>, steps: seq<Step>, o: Owner, s: State) returns (g: nat)
    requires s == Run(c, Init(clocks), steps)
    requires o in s.leases && Working(s.leases[o])
    ensures g < |s.log| && s.log[g] == Began(o) && LastValue(s.log[..g], s.leases[o].seen.record)
    ensures LastValue(s.log, s.item.record)
    ensures OwnedBy(s.item, o) ==> forall j :: g <= j < |s.log| ==> By(s.log[j], o)
    ensures Adopted(s.leases[o]) ==>
      && (s.leases[o].record.None? <==> NothingLeft(s.leases[o].seen.record, s.leases[o].readAt))
      && (s.leases[o].record.Some? ==> s.leases[o].seen.record == Some(Seal(c.kms, c.rid, s.leases[o].record.value)))
  {
    RunRefines(c, clocks, steps);
    g := AcquireSawLastValue(c, s, o);
    PlayIsLastValue(s.log);
    if OwnedBy(s.item, o) {
      WritesWhileOwned(s, o, g);
    }
    assert Fits(c, s.log, Play(s.log).past, o, s.leases[o]);
    if Adopted(s.leases[o]) {
      RecordIsWhatWasStored(c, s.leases[o]);
    }
  }

  /** What `acquire` makes of that item never fails to open or to name this session. */
  lemma NoLeaseIsBroken(c: Config, clocks: seq<real>, steps: seq<Step>, o: Owner)
    requires o in Run(c, Init(clocks), steps).leases
    ensures !Run(c, Init(clocks), steps).leases[o].phase.Broken?
  {
    RunRefines(c, clocks, steps);
  }
}
