/** Mutual exclusion of the lease when clocks are monotone and nearly agree.

    The margin in `check` is 10 seconds; integer truncation and the strict comparison
    in the acquire condition give one more. The bound of 11 seconds is exact. An item may
    be deleted as expired once some clock has passed its `expires_at`, leased or not, so
    exclusion also asks that the item outlives the lease, by an exact bound too. */
module LeaseExclusion {
  import opened Prelude
  import opened SessionItem
  import opened LeaseProtocol

  // ---- timed runs ----------------------------------------------------------------

  /** No two clocks differ by more than `skew` seconds; time counts from the epoch. */
  ghost predicate Agree(clocks: seq<real>, skew: real) {
    && (forall p :: 0 <= p < |clocks| ==> clocks[p] >= 0.0)
    && (forall p, q :: 0 <= p < |clocks| && 0 <= q < |clocks| ==> clocks[p] - clocks[q] <= skew)
  }

  ghost predicate TimedStep(s: State, step: Step, skew: real) {
    match step
    case Tick(clocks) =>
      |clocks| == |s.clocks| ==> Agree(clocks, skew) && forall p :: 0 <= p < |clocks| ==> s.clocks[p] <= clocks[p]
    case TtlDelete => s.item.expiresAt.Some? ==>
      exists p :: 0 <= p < |s.clocks| && s.item.expiresAt.value < Trunc(s.clocks[p])
    case _ => true
  }

  ghost predicate Timed(c: Config, s: State, steps: seq<Step>, skew: real) {
    && Agree(s.clocks, skew)
    && forall i :: 0 <= i < |steps| ==> TimedStep(Run(c, s, steps[..i]), steps[i], skew)
  }

  /** How far before the end of the lease the item may expire: not at all under the largest difference of clocks. */
  function Slack(skew: real): real {
    if skew <= 11.0 then skew - 11.0 else 0.0
  }

  /** A leased item does not expire before its lease, but for the slack. */
  predicate Covered(i: Item, skew: real) {
    i.holder.Some? ==> i.expiresAt.Some? && i.expiresAt.value as real >= i.holder.value.until as real + Slack(skew)
  }

  /** TTL deletes no item whose lease it may cut short. */
  ghost predicate Spared(c: Config, s: State, steps: seq<Step>, skew: real) {
    forall i :: 0 <= i < |steps| && steps[i].TtlDelete? ==> Covered(Run(c, s, steps[..i]).item, skew)
  }

  /** What processes can see for themselves, from the attributes an acquire returns and from what they send
      later: every grant, renewal and put leaves a covered item. */
  ghost predicate Covering(c: Config, s: State, steps: seq<Step>, skew: real) {
    forall i :: 0 <= i < |steps| && (steps[i].TryAcquire? || steps[i].RenewSend? || steps[i].Put?) ==>
      Covered(Next(c, Run(c, s, steps[..i]), steps[i]).item, skew)
  }

  /** A lease in use: acquired, its release not yet carried out, and its check returning normally. */
  predicate InForce(s: State, o: Owner) {
    && Subject(s, o)
    && (s.leases[o].phase.Held? || s.leases[o].phase.Releasing?)
    && CheckPasses(s.leases[o].lost, s.leases[o].expires, Clock(s, o))
  }

  ghost predicate Exclusive(s: State) {
    && (forall o :: InForce(s, o) ==> OwnedBy(s.item, o))
    && (forall a, b :: InForce(s, a) && InForce(s, b) ==> a == b)
  }

  // ---- the invariant ----------------------------------------------------------------

  /** `t` is a deadline the lease has set itself or is about to. */
  predicate Deadline(l: Lease, t: int) {
    || (Adopted(l) && t == l.expires)
    || (l.phase.Granted? && t == l.phase.now + LEASE_SECONDS)
    || (l.renewal.Sent? && t == l.renewal.until)
  }

  ghost predicate Paced(s: State, skew: real, o: Owner, l: Lease) {
    && l.proc < |s.clocks|
    && (l.phase.Read? ==> forall p :: 0 <= p < |s.clocks| ==> l.phase.now as real - skew <= s.clocks[p])
    && (!l.renewal.Idle? && !l.renewal.Stopped? ==> Adopted(l) || l.phase.Gone?)
    && (l.phase.Read? || l.phase.Granted? ==> l.phase.now as real <= s.clocks[l.proc])
    && (Adopted(l) ==> (l.expires - LEASE_SECONDS) as real <= s.clocks[l.proc])
    && (l.renewal.Sent? ==> (l.renewal.until - LEASE_SECONDS) as real <= s.clocks[l.proc])
    && (l.renewal.Want? ==> (l.renewal.until - LEASE_SECONDS) as real <= s.clocks[l.proc])
    && (l.renewal.Want? && Adopted(l) ==> l.expires <= l.renewal.until)
    // the owner's deadlines are covered by the item; everyone else's have passed the margin
    && (forall t :: Deadline(l, t) && !l.phase.Finished? && !l.phase.Gone? ==>
          if OwnedBy(s.item, o) then t <= s.item.holder.value.until
          else t as real - 10.0 <= s.clocks[l.proc])
  }

  ghost predicate AllPaced(s: State, skew: real) {
    && Agree(s.clocks, skew)
    && (forall o :: o in s.leases ==> Paced(s, skew, o, s.leases[o]))
    && (s.item.holder.Some? ==>
      s.item.holder.value.owner in s.leases && EverGranted(s.leases[s.item.holder.value.owner]))
  }

  lemma TruncBounds(x: real)
    requires x >= 0.0
    ensures Trunc(x) as real <= x < (Trunc(x) + 1) as real
  {
  }

  /** A takeover at clock reading `now` finds every deadline of the previous owner past the margin. */
  lemma TakeoverIsLate(s: State, skew: real, now: int, o: Owner, t: int)
    requires AllPaced(s, skew) && skew <= 11.0 && o in s.leases
    requires forall p :: 0 <= p < |s.clocks| ==> now as real - skew <= s.clocks[p]
    requires OwnedBy(s.item, o) && s.item.holder.value.until < now && t <= s.item.holder.value.until
    ensures t as real - 10.0 <= s.clocks[s.leases[o].proc]
  {
    assert t + 1 <= now;
  }

  lemma GrantPaced(s: State, skew: real, o: Owner)
    requires AllPaced(s, skew) && skew <= 11.0
    requires Subject(s, o) && s.leases[o].phase.Read? && CanGrant(s.item, s.leases[o].phase.now)
    ensures AllPaced(Acquire(s, o), skew)
  {
    var s' := Acquire(s, o);
    var now := s.leases[o].phase.now;
    assert Paced(s, skew, o, s.leases[o]);
    forall p | p in s.leases && p != o ensures Paced(s', skew, p, s.leases[p]) {
      assert Paced(s, skew, p, s.leases[p]);
      forall t | Deadline(s.leases[p], t) && OwnedBy(s.item, p) && !s.leases[p].phase.Finished?
        && !s.leases[p].phase.Gone?
        ensures t as real - 10.0 <= s.clocks[s.leases[p].proc]
      {
        TakeoverIsLate(s, skew, now, p, t);
      }
    }
  }

  lemma TickPaced(s: State, skew: real, clocks: seq<real>)
    requires AllPaced(s, skew) && |clocks| == |s.clocks| && Agree(clocks, skew)
    requires forall p :: 0 <= p < |clocks| ==> s.clocks[p] <= clocks[p]
    ensures AllPaced(s.(clocks := clocks), skew)
  {
    forall o | o in s.leases ensures Paced(s.(clocks := clocks), skew, o, s.leases[o]) {
      assert Paced(s, skew, o, s.leases[o]);
    }
  }

  /** Only the lease `o` changes, the item does not. */
  lemma LocalPaced(s: State, skew: real, o: Owner, l: Lease)
    requires AllPaced(s, skew) && Paced(s, skew, o, l)
    requires o in s.leases && EverGranted(s.leases[o]) ==> EverGranted(l)
    ensures AllPaced(Set(s, o, l), skew)
  {
    forall p | p in Set(s, o, l).leases ensures Paced(Set(s, o, l), skew, p, Set(s, o, l).leases[p]) {
      if p != o { assert Paced(s, skew, p, s.leases[p]); }
    }
  }

  /** The item is extended by its owner or given up by it, or loses the record only. */
  lemma ItemPaced(s: State, skew: real, item: Item, log: seq<Effect>)
    requires AllPaced(s, skew)
    requires HolderOf(item) == HolderOf(s.item)
    requires item.holder.Some? ==> s.item.holder.value.until <= item.holder.value.until
    ensures AllPaced(s.(item := item, log := log), skew)
  {
    var s' := s.(item := item, log := log);
    forall p | p in s.leases ensures Paced(s', skew, p, s.leases[p]) {
      assert Paced(s, skew, p, s.leases[p]);
      assert OwnedBy(s.item, p) <==> OwnedBy(item, p);
    }
  }

  /** An item that is deleted although leased has expired, so the margin of its lease has begun. */
  lemma TtlPaced(s: State, skew: real, log: seq<Effect>)
    requires AllPaced(s, skew) && skew <= 11.0 && s.item.expiresAt.Some? && Covered(s.item, skew)
    requires exists p :: 0 <= p < |s.clocks| && s.item.expiresAt.value < Trunc(s.clocks[p])
    ensures AllPaced(s.(item := NOTHING, log := log), skew)
  {
    var s' := s.(item := NOTHING, log := log);
    var p :| 0 <= p < |s.clocks| && s.item.expiresAt.value < Trunc(s.clocks[p]);
    TruncBounds(s.clocks[p]);
    forall o | o in s.leases ensures Paced(s', skew, o, s.leases[o]) {
      assert Paced(s, skew, o, s.leases[o]);
      if OwnedBy(s.item, o) {
        assert s.item.holder.value.until as real - 10.0 <= s.clocks[s.leases[o].proc];
      }
    }
  }

  lemma AdoptPaced(c: Config, s: State, skew: real, o: Owner)
    requires AllPaced(s, skew) && Subject(s, o) && s.leases[o].phase.Granted?
    ensures AllPaced(AdoptGrant(c, s, o), skew)
  {
    var l := AdoptGrant(c, s, o).leases[o];
    assert Paced(s, skew, o, s.leases[o]);
    assert Deadline(s.leases[o], s.leases[o].phase.now + LEASE_SECONDS);
    assert Paced(s, skew, o, l);
    LocalPaced(s, skew, o, l);
  }

  lemma ReadPaced(c: Config, s: State, skew: real, o: Owner)
    requires AllPaced(s, skew) && Enabled(s, ReadClock(o))
    ensures AllPaced(Perform(c, s, ReadClock(o)), skew)
  {
    var l := s.leases[o];
    assert Paced(s, skew, o, l);
    TruncBounds(Clock(s, o));
    LocalPaced(s, skew, o, l.(phase := Read(Trunc(Clock(s, o)))));
  }

  lemma WantPaced(s: State, skew: real, o: Owner, l: Lease, until: int)
    requires Paced(s, skew, o, l) && Adopted(l) && l.renewal.Idle?
    requires l.expires <= until && (until - LEASE_SECONDS) as real <= s.clocks[l.proc]
    ensures Paced(s, skew, o, l.(renewal := Want(until)))
  {
    var l' := l.(renewal := Want(until));
    forall t | Deadline(l', t) ensures Deadline(l, t) {
    }
  }

  /** A renewal asks for a deadline no earlier than the one before. */
  lemma RenewalIsLater(expires: int, clock: real)
    requires clock >= 0.0 && (expires - LEASE_SECONDS) as real <= clock
    ensures expires <= Trunc(clock) + LEASE_SECONDS && Trunc(clock) as real <= clock
  {
    TruncBounds(clock);
    assert (expires - LEASE_SECONDS) as real < (Trunc(clock) + 1) as real;
  }

  lemma RenewReadPaced(c: Config, s: State, skew: real, o: Owner)
    requires AllPaced(s, skew) && Enabled(s, RenewRead(o))
    ensures AllPaced(Perform(c, s, RenewRead(o)), skew)
  {
    var l := s.leases[o];
    var now := Trunc(Clock(s, o));
    assert Paced(s, skew, o, l);
    RenewalIsLater(l.expires, Clock(s, o));
    WantPaced(s, skew, o, l, now + LEASE_SECONDS);
    LocalPaced(s, skew, o, l.(renewal := Want(now + LEASE_SECONDS)));
  }

  /** Changes to one lease that set it no new deadline. */
  lemma FewerDeadlines(s: State, skew: real, o: Owner, l': Lease)
    requires AllPaced(s, skew) && o in s.leases
    requires var l := s.leases[o];
      && l'.proc == l.proc && l'.expires == l.expires && (l'.renewal == l.renewal || l'.renewal.Stopped?)
      && (EverGranted(l) ==> EverGranted(l')) && !l'.phase.Granted? && !l'.phase.Read? && (Adopted(l') ==> Adopted(l))
      && (Adopted(l) ==> Adopted(l') || l'.phase.Gone?) && (l'.phase.Gone? || !l.phase.Gone?)
      && (l.phase.Finished? ==> l'.phase.Finished? || l'.phase.Gone?)
    ensures AllPaced(Set(s, o, l'), skew)
  {
    var l := s.leases[o];
    assert Paced(s, skew, o, l);
    forall t | Deadline(l', t) ensures Deadline(l, t) {
    }
    assert Paced(s, skew, o, l');
    LocalPaced(s, skew, o, l');
  }

  lemma AssignPaced(c: Config, s: State, skew: real, o: Owner)
    requires AllPaced(s, skew) && Enabled(s, RenewAssign(o))
    ensures AllPaced(Perform(c, s, RenewAssign(o)), skew)
  {
    var l := s.leases[o];
    assert Paced(s, skew, o, l);
    var l' := l.(renewal := Idle, expires := l.renewal.until);
    assert forall t :: Deadline(l', t) ==> Deadline(l, t);
    LocalPaced(s, skew, o, l');
  }

  /** A lease that is not the item's owner, before or after. */
  lemma BystanderPaced(s: State, s': State, skew: real, o: Owner, l: Lease)
    requires Paced(s, skew, o, l) && s'.clocks == s.clocks
    requires !OwnedBy(s.item, o) && !OwnedBy(s'.item, o)
    ensures Paced(s', skew, o, l)
  {
  }

  lemma SendPaced(s: State, skew: real, o: Owner, acked: bool)
    requires AllPaced(s, skew) && o in s.leases && s.leases[o].renewal.Want?
    ensures AllPaced(SendRenewal(s, o, acked), skew)
  {
    var l := s.leases[o];
    assert Paced(s, skew, o, l);
    if !OwnedBy(s.item, o) {
      FewerDeadlines(s, skew, o, l.(renewal := Stopped, lost := true));
    } else {
      var s' := SendRenewal(s, o, acked);
      assert Paced(s', skew, o, s'.leases[o]);
      forall p | p in s.leases && p != o ensures Paced(s', skew, p, s'.leases[p]) {
        BystanderPaced(s, s', skew, p, s.leases[p]);
      }
    }
  }

  lemma ReleasePaced(s: State, skew: real, o: Owner, acked: bool)
    requires AllPaced(s, skew) && Subject(s, o) && s.leases[o].phase.Releasing?
    ensures AllPaced(SendRelease(s, o, acked), skew)
  {
    var s' := SendRelease(s, o, acked);
    var l := s.leases[o];
    assert Paced(s, skew, o, l);
    if !OwnedBy(s.item, o) {
      LocalPaced(s, skew, o, s'.leases[o]);
    } else {
      assert Paced(s', skew, o, s'.leases[o]);
      forall p | p in s.leases && p != o ensures Paced(s', skew, p, s'.leases[p]) {
        BystanderPaced(s, s', skew, p, s.leases[p]);
      }
    }
  }

  lemma NextPaced(c: Config, s: State, skew: real, step: Step)
    requires AllPaced(s, skew) && skew <= 11.0 && TimedStep(s, step, skew)
    requires step.TtlDelete? ==> Covered(s.item, skew)
    ensures AllPaced(Next(c, s, step), skew)
  {
    if Enabled(s, step) {
      match step
      case Tick(clocks) => TickPaced(s, skew, clocks);
      case Create(o, proc) =>
        assert Paced(s, skew, o, NewLease(proc));
        LocalPaced(s, skew, o, NewLease(proc));
      case ReadClock(o) => ReadPaced(c, s, skew, o);
      case RenewRead(o) => RenewReadPaced(c, s, skew, o);
      case TryAcquire(o) =>
        if CanGrant(s.item, s.leases[o].phase.now) {
          GrantPaced(s, skew, o);
        } else {
          FewerDeadlines(s, skew, o, s.leases[o].(phase := Waiting));
        }
      case Adopt(o) => AdoptPaced(c, s, skew, o);
      case RenewSend(o, acked) => SendPaced(s, skew, o, acked);
      case RenewAssign(o) => AssignPaced(c, s, skew, o);
      case Put(_, _, _, _) => ItemPaced(s, skew, Next(c, s, step).item, Next(c, s, step).log);
      case Delete(_) => ItemPaced(s, skew, Next(c, s, step).item, Next(c, s, step).log);
      case ReleaseSend(o, acked) => ReleasePaced(s, skew, o, acked);
      case TtlDelete => TtlPaced(s, skew, Next(c, s, step).log);
      case _ => FewerDeadlines(s, skew, step.owner, Next(c, s, step).leases[step.owner]);
    }
  }

  lemma PrefixTimed(c: Config, s: State, steps: seq<Step>, skew: real, n: nat)
    requires Timed(c, s, steps, skew) && n <= |steps|
    ensures Timed(c, s, steps[..n], skew)
    ensures Spared(c, s, steps, skew) ==> Spared(c, s, steps[..n], skew)
  {
    assert forall i :: 0 <= i < n ==> steps[..n][..i] == steps[..i] && steps[..n][i] == steps[i];
  }

  lemma {:induction false} RunPaced(c: Config, clocks: seq<real>, steps: seq<Step>, skew: real)
    requires Timed(c, Init(clocks), steps, skew) && Spared(c, Init(clocks), steps, skew) && skew <= 11.0
    ensures AllPaced(Run(c, Init(clocks), steps), skew)
  {
    if steps != [] {
      var n := |steps| - 1;
      PrefixTimed(c, Init(clocks), steps, skew, n);
      RunPaced(c, clocks, steps[..n], skew);
      NextPaced(c, Run(c, Init(clocks), steps[..n]), skew, steps[n]);
    }
  }

  lemma PacedIsExclusive(s: State, skew: real)
    requires AllPaced(s, skew)
    ensures Exclusive(s)
  {
    forall o | InForce(s, o) ensures OwnedBy(s.item, o) {
      assert Paced(s, skew, o, s.leases[o]);
      assert Deadline(s.leases[o], s.leases[o].expires);
    }
  }

  /** At most one lease is in force, and it is the one the item names. */
  lemma MutualExclusion(c: Config, clocks: seq<real>, steps: seq<Step>, skew: real)
    requires Timed(c, Init(clocks), steps, skew) && Spared(c, Init(clocks), steps, skew) && skew <= 11.0
    ensures Exclusive(Run(c, Init(clocks), steps))
  {
    RunPaced(c, clocks, steps, skew);
    PacedIsExclusive(Run(c, Init(clocks), steps), skew);
  }

  // ---- the bound is exact ---------------------------------------------------------

  function Acquiring(o: Owner, proc: nat): seq<Step> {
    [Create(o, proc), ReadClock(o), TryAcquire(o), Adopt(o)]
  }

  /** Two processes, the second one's clock ahead by more than 11 seconds. */
  function LateTakeover(slow: real): seq<Step> {
    Acquiring(0, 0) + [Tick([slow, 121.0])] + Acquiring(1, 1)
  }

  lemma {:induction false} RunAppend(c: Config, s: State, a: seq<Step>, b: seq<Step>)
    ensures Run(c, s, a + b) == Run(c, Run(c, s, a), b)
  {
    if b == [] {
      assert a + b == a;
    } else {
      var n := |b| - 1;
      assert (a + b)[..|a + b| - 1] == a + b[..n];
      RunAppend(c, s, a, b[..n]);
    }
  }

  lemma RunOne(c: Config, s: State, step: Step)
    ensures Run(c, s, [step]) == Next(c, s, step)
  {
    assert [step][..0] == [];
  }

  /** The lease an undisturbed acquire leaves in process `proc`. */
  function HeldLease(s: State, o: Owner, proc: nat, now: int): Lease
    requires proc < |s.clocks|
  {
    Lease(proc, Held, Idle, now + LEASE_SECONDS, false, Grant(s.item, o, now), None, s.clocks[proc])
  }

  /** An undisturbed acquire of a free or expired item that carries no record. */
  lemma AcquiringRun(c: Config, s: State, o: Owner, proc: nat)
    requires o !in s.leases && proc < |s.clocks| && s.item.record.None? && CanGrant(s.item, Trunc(s.clocks[proc]))
    ensures var now := Trunc(s.clocks[proc]);
      Run(c, s, Acquiring(o, proc)) ==
        State(Grant(s.item, o, now), s.clocks, s.leases[o := HeldLease(s, o, proc, now)], s.log + [Began(o)])
  {
    var now := Trunc(s.clocks[proc]);
    var s1 := Set(s, o, NewLease(proc));
    var s2 := Set(s, o, NewLease(proc).(phase := Read(now)));
    assert Next(c, s, Create(o, proc)) == s1;
    assert Next(c, s1, ReadClock(o)) == s2;
    RunOne(c, s, Create(o, proc));
    RunAppend(c, s, [Create(o, proc)], [ReadClock(o)]);
    RunOne(c, s1, ReadClock(o));
    RunAppend(c, s, [Create(o, proc)] + [ReadClock(o)], [TryAcquire(o)]);
    var s3 := Acquire(s2, o);
    RunOne(c, s2, TryAcquire(o));
    RunAppend(c, s, [Create(o, proc)] + [ReadClock(o)] + [TryAcquire(o)], [Adopt(o)]);
    RunOne(c, s3, Adopt(o));
    assert [Create(o, proc)] + [ReadClock(o)] + [TryAcquire(o)] + [Adopt(o)] == Acquiring(o, proc);
    assert s3.leases == s.leases[o := NewLease(proc).(phase := Granted(now), seen := Grant(s.item, o, now))];
  }

  // ---- who may take the item over ------------------------------------------------------

  /** Nobody holds the item, or its holder's time is up at the clock reading `now`. */
  predicate Vacant(i: Item, now: int) {
    match i.holder
    case None => true
    case Some(h) => h.until < now
  }

  /** A new lease that has read its clock. */
  lemma AskingRun(c: Config, s: State, o: Owner, proc: nat)
    requires o !in s.leases && proc < |s.clocks|
    ensures Run(c, s, [Create(o, proc)] + [ReadClock(o)]) ==
      Set(s, o, NewLease(proc).(phase := Read(Trunc(s.clocks[proc]))))
  {
    var s1 := Set(s, o, NewLease(proc));
    assert Next(c, s, Create(o, proc)) == s1;
    RunOne(c, s, Create(o, proc));
    RunAppend(c, s, [Create(o, proc)], [ReadClock(o)]);
    RunOne(c, s1, ReadClock(o));
    var l := NewLease(proc).(phase := Read(Trunc(s.clocks[proc])));
    assert s1.leases[o := l] == s.leases[o := l];
  }

  /** What its request and the local steps after it come to, whatever the item holds. */
  lemma RequestRun(c: Config, s: State, o: Owner)
    requires Refines(c, s) && Subject(s, o) && s.leases[o].phase.Read? && s.leases[o].phase.now == Trunc(Clock(s, o))
    ensures var r := Run(c, s, [TryAcquire(o)] + [Adopt(o)]); var now := Trunc(Clock(s, o));
      && Subject(r, o) && r.clocks == s.clocks
      && (Vacant(s.item, now) ==>
            && r.leases[o].phase.Held? && r.leases[o].expires == now + LEASE_SECONDS
            && r.leases[o].readAt == Clock(s, o)
            && r.item == Item(Some(Holder(o, now + LEASE_SECONDS)), s.item.record, r.item.expiresAt)
            && r.item.expiresAt == Some(if s.item.expiresAt.Some? then s.item.expiresAt.value
                                        else now + DEFAULT_TTL_SECONDS)
            && r.leases[o].seen == r.item && FromSeen(c, r.leases[o]))
      && (!Vacant(s.item, now) ==> r.leases[o].phase.Waiting? && r.item == s.item)
  {
    var s1 := Acquire(s, o);
    RunOne(c, s, TryAcquire(o));
    RunAppend(c, s, [TryAcquire(o)], [Adopt(o)]);
    RunOne(c, s1, Adopt(o));
    if Vacant(s.item, Trunc(Clock(s, o))) { WellSealedOpens(c, s1.leases[o].seen, Clock(s1, o)); }
  }

  /** In every run, whoever asks: a new lease gets the item exactly if nobody holds it or its holder's time is up by
      the process's clock, whatever record it carries; the record stays, and is handed over exactly if it has not
      expired by that clock. So a process that crashed with the lease keeps nobody out for longer than that. */
  lemma TakeoverRun(c: Config, clocks: seq<real>, steps: seq<Step>, o: Owner, proc: nat, s: State)
    requires s == Run(c, Init(clocks), steps) && o !in s.leases && proc < |s.clocks|
    ensures var r := Run(c, Init(clocks), steps + Acquiring(o, proc)); var now := Trunc(s.clocks[proc]);
      && o in r.leases
      && (r.leases[o].phase.Held? <==> s.item.holder.None? || s.item.holder.value.until < now)
      && (!r.leases[o].phase.Held? ==> r.leases[o].phase.Waiting? && r.item == s.item)
      && (r.leases[o].phase.Held? ==>
            && r.item.holder == Some(Holder(o, now + 120)) && r.leases[o].expires == now + 120
            && r.item.record == s.item.record
            && r.item.expiresAt == Some(if s.item.expiresAt.Some? then s.item.expiresAt.value else now + 86_400)
            && (r.leases[o].record.Some? <==>
                  s.item.record.Some? && s.clocks[proc] <= s.item.record.value.record.expiresAt as real)
            && (r.leases[o].record.Some? ==>
                  s.item.record == Some(Seal(c.kms, c.rid, r.leases[o].record.value))))
  {
    RunAppend(c, Init(clocks), steps, Acquiring(o, proc));
    RunAppend(c, s, [Create(o, proc)] + [ReadClock(o)], [TryAcquire(o)] + [Adopt(o)]);
    assert [Create(o, proc)] + [ReadClock(o)] + ([TryAcquire(o)] + [Adopt(o)]) == Acquiring(o, proc);
    AskingRun(c, s, o, proc);
    var s1 := Set(s, o, NewLease(proc).(phase := Read(Trunc(s.clocks[proc]))));
    RunRefines(c, clocks, steps);
    LocalRefines(c, s, o, s1.leases[o]);
    RequestRun(c, s1, o);
    RunRefines(c, clocks, steps + Acquiring(o, proc));
    var r := Run(c, Init(clocks), steps + Acquiring(o, proc));
    if r.leases[o].phase.Held? {
      assert Fits(c, r.log, Play(r.log).past, o, r.leases[o]);
      RecordIsWhatWasStored(c, r.leases[o]);
    }
  }

  /** Acquiring neither moves a clock nor deletes anything. */
  lemma AcquiringIsTimed(c: Config, s: State, o: Owner, proc: nat, skew: real)
    requires Agree(s.clocks, skew)
    ensures Timed(c, s, Acquiring(o, proc), skew)
  {
  }

  lemma TimedAppend(c: Config, s: State, a: seq<Step>, b: seq<Step>, skew: real)
    requires Timed(c, s, a, skew) && Timed(c, Run(c, s, a), b, skew)
    ensures Timed(c, s, a + b, skew)
  {
    forall i | 0 <= i < |a + b| ensures TimedStep(Run(c, s, (a + b)[..i]), (a + b)[i], skew) {
      Reached(c, s, a, b, i);
    }
  }

  lemma Reached(c: Config, s: State, a: seq<Step>, b: seq<Step>, i: nat)
    requires i < |a + b|
    ensures i < |a| ==> (a + b)[i] == a[i] && Run(c, s, (a + b)[..i]) == Run(c, s, a[..i])
    ensures i >= |a| ==> (a + b)[i] == b[i - |a|] && Run(c, s, (a + b)[..i]) == Run(c, Run(c, s, a), b[..i - |a|])
  {
    if i < |a| {
      assert (a + b)[..i] == a[..i];
    } else {
      assert (a + b)[..i] == a + b[..i - |a|];
      RunAppend(c, s, a, b[..i - |a|]);
    }
  }

  lemma OneStepTimed(c: Config, s: State, step: Step, skew: real)
    requires Agree(s.clocks, skew) && TimedStep(s, step, skew)
    ensures Timed(c, s, [step], skew)
  {
    assert [step][..0] == [];
  }

  lemma OneMoreStep(c: Config, s: State, a: seq<Step>, step: Step, skew: real)
    requires Timed(c, s, a, skew) && Agree(Run(c, s, a).clocks, skew) && TimedStep(Run(c, s, a), step, skew)
    ensures Timed(c, s, a + [step], skew) && Run(c, s, a + [step]) == Next(c, Run(c, s, a), step)
  {
    OneStepTimed(c, Run(c, s, a), step, skew);
    TimedAppend(c, s, a, [step], skew);
    RunAppend(c, s, a, [step]);
    RunOne(c, Run(c, s, a), step);
  }

  /** An acquire, after which time passes. */
  lemma LeasedRun(c: Config, s: State, o: Owner, proc: nat, later: seq<real>, skew: real)
    requires o !in s.leases && proc < |s.clocks| && s.item == NOTHING && |later| == |s.clocks|
    requires Agree(s.clocks, skew) && TimedStep(s, Tick(later), skew)
    ensures Timed(c, s, Acquiring(o, proc) + [Tick(later)], skew)
    ensures var now := Trunc(s.clocks[proc]);
      Run(c, s, Acquiring(o, proc) + [Tick(later)]) ==
        State(Grant(NOTHING, o, now), later, s.leases[o := HeldLease(s, o, proc, now)], s.log + [Began(o)])
  {
    AcquiringRun(c, s, o, proc);
    AcquiringIsTimed(c, s, o, proc, skew);
    OneMoreStep(c, s, Acquiring(o, proc), Tick(later), skew);
  }

  lemma LateTakeoverIsSpared(c: Config, slow: real, skew: real)
    ensures Spared(c, Init([0.0, 0.0]), LateTakeover(slow), skew)
  {
    assert forall i :: 0 <= i < |LateTakeover(slow)| ==> !LateTakeover(slow)[i].TtlDelete?;
  }

  /** One process acquires, time passes, and another acquires the item left. */
  lemma TwoLeases(c: Config, s: State, o: Owner, p: nat, later: seq<real>, other: Owner, q: nat, skew: real)
    requires o !in s.leases && other !in s.leases && o != other && p < |s.clocks| && q < |s.clocks| && p != q
    requires s.item == NOTHING && |later| == |s.clocks| && Agree(s.clocks, skew) && TimedStep(s, Tick(later), skew)
    requires Trunc(s.clocks[p]) + LEASE_SECONDS < Trunc(later[q])
    ensures Timed(c, s, Acquiring(o, p) + [Tick(later)] + Acquiring(other, q), skew)
    ensures var r := Run(c, s, Acquiring(o, p) + [Tick(later)] + Acquiring(other, q));
      && InForce(r, other)
      && (later[p] < (Trunc(s.clocks[p]) + LEASE_SECONDS) as real - 10.0 ==> InForce(r, o))
  {
    var a := Acquiring(o, p) + [Tick(later)];
    LeasedRun(c, s, o, p, later, skew);
    var r := Run(c, s, a);
    TruncBounds(later[q]);
    AcquiringRun(c, r, other, q);
    AcquiringIsTimed(c, r, other, q, skew);
    RunAppend(c, s, a, Acquiring(other, q));
    TimedAppend(c, s, a, Acquiring(other, q), skew);
  }

  lemma LateTakeoverHappens(c: Config, slow: real, skew: real)
    requires 0.0 <= slow < 110.0 && 121.0 - slow <= skew
    ensures Timed(c, Init([0.0, 0.0]), LateTakeover(slow), skew)
    ensures var s := Run(c, Init([0.0, 0.0]), LateTakeover(slow)); InForce(s, 0) && InForce(s, 1)
  {
    assert Trunc(121.0) == 121 && Trunc(0.0) == 0;
    TwoLeases(c, Init([0.0, 0.0]), 0, 0, [slow, 121.0], 1, 1, skew);
  }

  /** Mutual exclusion in all timed runs that TTL spares holds for a clock difference of up to 11 seconds and no
      more. */
  lemma SkewBoundIsExact(c: Config, skew: real)
    ensures (forall clocks: seq<real>, steps: seq<Step> ::
               Timed(c, Init(clocks), steps, skew) && Spared(c, Init(clocks), steps, skew) ==>
                 Exclusive(Run(c, Init(clocks), steps))) <==> skew <= 11.0
  {
    if skew <= 11.0 {
      forall clocks: seq<real>, steps: seq<Step>
        | Timed(c, Init(clocks), steps, skew) && Spared(c, Init(clocks), steps, skew)
        ensures Exclusive(Run(c, Init(clocks), steps))
      {
        MutualExclusion(c, clocks, steps, skew);
      }
    } else {
      var slow := if skew <= 121.0 then 121.0 - skew else 0.0;
      LateTakeoverHappens(c, slow, skew);
      LateTakeoverIsSpared(c, slow, skew);
      assert !Exclusive(Run(c, Init([0.0, 0.0]), LateTakeover(slow)));
    }
  }

  // ---- renewals keep a lease in force -------------------------------------------------------

  function Renewing(o: Owner): seq<Step> {
    [RenewRead(o), RenewSend(o, true)] + [RenewAssign(o)]
  }

  lemma RenewalSent(c: Config, s: State, o: Owner)
    requires Subject(s, o) && s.leases[o].phase.Held? && s.leases[o].renewal.Idle? && OwnedBy(s.item, o)
    ensures var until := Trunc(Clock(s, o)) + LEASE_SECONDS;
      Run(c, s, [RenewRead(o), RenewSend(o, true)]) == s.(
        item := Item(Some(Holder(o, until)), s.item.record, s.item.expiresAt),
        leases := s.leases[o := s.leases[o].(renewal := Sent(until))], log := s.log + [Renewed(o)])
  {
    var until := Trunc(Clock(s, o)) + LEASE_SECONDS;
    var s1 := Set(s, o, s.leases[o].(renewal := Want(until)));
    RunOne(c, s, RenewRead(o));
    RunAppend(c, s, [RenewRead(o)], [RenewSend(o, true)]);
    assert [RenewRead(o)] + [RenewSend(o, true)] == [RenewRead(o), RenewSend(o, true)];
    RunOne(c, s1, RenewSend(o, true));
    var l := s.leases[o].(renewal := Sent(until));
    assert s1.leases[o := l] == s.leases[o := l];
  }

  /** A renewal of the owner that goes through extends the lease, in the item and locally, to 120 seconds after the
      clock it read, and changes nothing else: the lease is in force again, even if its time was nearly up. */
  lemma RenewalExtends(c: Config, s: State, o: Owner)
    requires Subject(s, o) && s.leases[o].phase.Held? && s.leases[o].renewal.Idle? && OwnedBy(s.item, o)
    ensures var r := Run(c, s, Renewing(o)); var until := Trunc(Clock(s, o)) + 120;
      && r.item == Item(Some(Holder(o, until)), s.item.record, s.item.expiresAt) && r.clocks == s.clocks
      && r.leases == s.leases[o := s.leases[o].(expires := until)]
      && (!s.leases[o].lost ==> InForce(r, o))
  {
    RenewalSent(c, s, o);
    var s1 := Run(c, s, [RenewRead(o), RenewSend(o, true)]);
    RunAppend(c, s, [RenewRead(o), RenewSend(o, true)], [RenewAssign(o)]);
    RunOne(c, s1, RenewAssign(o));
    var l := s.leases[o].(expires := Trunc(Clock(s, o)) + LEASE_SECONDS);
    assert s1.leases[o := l] == s.leases[o := l];
  }

  // ---- when a lease is lost -------------------------------------------------------------------

  /** A step in which a lease learns that it cannot prove ownership: a renewal that is not acknowledged or not
      granted, or a release that is refused. */
  predicate Loses(s: State, step: Step, o: Owner) {
    && Enabled(s, step)
    && match step
       case RenewSend(q, acked) => q == o && !(acked && s.item.holder.Some? && s.item.holder.value.owner == o)
       case RenewFail(q) => q == o
       case ReleaseSend(q, acked) => q == o && acked && !(s.item.holder.Some? && s.item.holder.value.owner == o)
       case _ => false
  }

  ghost predicate EverLoses(c: Config, clocks: seq<real>, steps: seq<Step>, o: Owner) {
    exists i :: 0 <= i < |steps| && Loses(Run(c, Init(clocks), steps[..i]), steps[i], o)
  }

  lemma LosesPush(c: Config, clocks: seq<real>, steps: seq<Step>, step: Step, o: Owner)
    ensures EverLoses(c, clocks, steps + [step], o) <==>
      EverLoses(c, clocks, steps, o) || Loses(Run(c, Init(clocks), steps), step, o)
  {
    var all := steps + [step];
    assert forall i :: 0 <= i < |steps| ==> all[..i] == steps[..i] && all[i] == steps[i];
    assert all[..|steps|] == steps && all[|steps|] == step;
    if Loses(Run(c, Init(clocks), steps), step, o) {
      assert Loses(Run(c, Init(clocks), all[..|steps|]), all[|steps|], o);
    }
    if EverLoses(c, clocks, steps, o) {
      var i :| 0 <= i < |steps| && Loses(Run(c, Init(clocks), steps[..i]), steps[i], o);
      assert Loses(Run(c, Init(clocks), all[..i]), all[i], o);
    }
  }

  lemma LostStep(c: Config, s: State, step: Step, o: Owner)
    ensures o in s.leases || Loses(s, step, o) ==>
      o in s.leases && o in Next(c, s, step).leases
      && (Next(c, s, step).leases[o].lost <==> s.leases[o].lost || Loses(s, step, o))
    ensures o in Next(c, s, step).leases && o !in s.leases ==> !Next(c, s, step).leases[o].lost
  {
  }

  /** In every run a lease is lost exactly if it met such a step; from then on its check never passes again. */
  lemma {:induction false} LostExactly(c: Config, clocks: seq<real>, steps: seq<Step>, o: Owner)
    ensures var s := Run(c, Init(clocks), steps);
      && (EverLoses(c, clocks, steps, o) ==> o in s.leases)
      && (o in s.leases ==> (s.leases[o].lost <==> EverLoses(c, clocks, steps, o)))
      && (EverLoses(c, clocks, steps, o) ==> forall clock :: !CheckPasses(s.leases[o].lost, s.leases[o].expires, clock))
  {
    if steps != [] {
      var before, step := steps[..|steps| - 1], steps[|steps| - 1];
      assert steps == before + [step];
      LostExactly(c, clocks, before, o);
      LosesPush(c, clocks, before, step, o);
      LostStep(c, Run(c, Init(clocks), before), step, o);
    }
  }

  // ---- the hypotheses that are not about skew ----------------------------------------

  function ReleasedBy(o: Owner): seq<Step> {
    [ReleaseCall(o)] + [ReleaseSend(o, true)]
  }

  lemma ReleasingRun(c: Config, s: State, o: Owner, skew: real)
    requires Subject(s, o) && s.leases[o].phase.Held? && OwnedBy(s.item, o) && Agree(s.clocks, skew)
    ensures Run(c, s, ReleasedBy(o)) ==
      State(Free(s.item), s.clocks, s.leases[o := s.leases[o].(phase := Finished)], s.log + [Freed(o)])
    ensures Timed(c, s, ReleasedBy(o), skew)
  {
    var s1 := Set(s, o, s.leases[o].(phase := Releasing));
    RunOne(c, s, ReleaseCall(o));
    OneStepTimed(c, s, ReleaseCall(o), skew);
    OneMoreStep(c, s, [ReleaseCall(o)], ReleaseSend(o, true), skew);
    assert s1.leases[o := s.leases[o].(phase := Finished)] == s.leases[o := s.leases[o].(phase := Finished)];
  }

  /** `check` goes on passing after a successful release: nothing marks the lease. */
  lemma ReleasedLeaseStillPasses(c: Config)
    ensures var s := Run(c, Init([0.0]), Acquiring(0, 0) + ReleasedBy(0));
      && s.item.holder.None? && Subject(s, 0) && s.leases[0].phase.Finished?
      && CheckPasses(s.leases[0].lost, s.leases[0].expires, Clock(s, 0))
  {
    AcquiringRun(c, Init([0.0]), 0, 0);
    ReleasingRun(c, Run(c, Init([0.0]), Acquiring(0, 0)), 0, 0.0);
    RunAppend(c, Init([0.0]), Acquiring(0, 0), ReleasedBy(0));
  }

  // ---- items that expire under a lease ------------------------------------------------------

  lemma CoverStays(c: Config, s: State, step: Step, skew: real)
    requires Covered(s.item, skew)
    requires step.TryAcquire? || step.RenewSend? || step.Put? ==> Covered(Next(c, s, step).item, skew)
    ensures Covered(Next(c, s, step).item, skew)
  {
  }

  lemma {:induction false} CoveringRunsAreSpared(c: Config, clocks: seq<real>, steps: seq<Step>, skew: real)
    requires Covering(c, Init(clocks), steps, skew)
    ensures Spared(c, Init(clocks), steps, skew) && Covered(Run(c, Init(clocks), steps).item, skew)
  {
    if steps != [] {
      var n := |steps| - 1;
      assert forall i :: 0 <= i < n ==> steps[..n][..i] == steps[..i] && steps[..n][i] == steps[i];
      CoveringRunsAreSpared(c, clocks, steps[..n], skew);
      CoverStays(c, Run(c, Init(clocks), steps[..n]), steps[n], skew);
    }
  }

  /** If every grant, renewal and put leaves an item that outlives the lease, exclusion holds whatever TTL deletes. */
  lemma CoveringRunsExclude(c: Config, clocks: seq<real>, steps: seq<Step>, skew: real)
    requires Timed(c, Init(clocks), steps, skew) && Covering(c, Init(clocks), steps, skew) && skew <= 11.0
    ensures Exclusive(Run(c, Init(clocks), steps))
  {
    CoveringRunsAreSpared(c, clocks, steps, skew);
    MutualExclusion(c, clocks, steps, skew);
  }

  /** The clocks at the moment an item that expires at `expiry` may be deleted: all as late as the difference
      allows, but for process `q`. */
  function Expired(clocks: seq<real>, q: nat, expiry: int, skew: real): seq<real>
    requires q < |clocks|
  {
    var slow := if clocks[q] >= (expiry + 1) as real - skew then clocks[q] else (expiry + 1) as real - skew;
    seq(|clocks|, i => slow + skew)[q := slow]
  }

  lemma ExpiredIsTimed(s: State, q: nat, expiry: int, skew: real)
    requires Agree(s.clocks, skew) && q < |s.clocks|
    ensures TimedStep(s, Tick(Expired(s.clocks, q, expiry, skew)), skew)
    ensures forall p :: 0 <= p < |s.clocks| && p != q ==> expiry < Trunc(Expired(s.clocks, q, expiry, skew)[p])
    ensures Expired(s.clocks, q, expiry, skew)[q] == s.clocks[q]
      || Expired(s.clocks, q, expiry, skew)[q] == (expiry + 1) as real - skew
  {
    var clocks := Expired(s.clocks, q, expiry, skew);
    forall p | 0 <= p < |s.clocks| ensures s.clocks[p] <= clocks[p] && (p != q ==> clocks[p] == clocks[q] + skew) {
      assert s.clocks[p] - s.clocks[q] <= skew;
    }
    forall p | 0 <= p < |s.clocks| && p != q ensures expiry < Trunc(clocks[p]) {
      TruncBounds(clocks[p]);
    }
  }

  function Deletion(clocks: seq<real>, o: Owner, proc: nat): seq<Step> {
    [Tick(clocks)] + [TtlDelete] + Acquiring(o, proc)
  }

  lemma DeletionRun(c: Config, s: State, clocks: seq<real>, o: Owner, proc: nat, skew: real)
    requires Agree(s.clocks, skew) && |clocks| == |s.clocks| && TimedStep(s, Tick(clocks), skew)
    requires s.item.expiresAt.Some? && proc < |clocks| && s.item.expiresAt.value < Trunc(clocks[proc]) && o !in s.leases
    ensures Timed(c, s, Deletion(clocks, o, proc), skew)
    ensures var r := Run(c, s, Deletion(clocks, o, proc));
      && r.clocks == clocks && (forall q :: q in s.leases ==> q in r.leases && r.leases[q] == s.leases[q])
      && InForce(r, o)
  {
    var s1 := s.(clocks := clocks);
    var s2 := s1.(item := NOTHING, log := s.log + [LeaseProtocol.Effect.Expired]);
    OneStepTimed(c, s, Tick(clocks), skew);
    RunOne(c, s, Tick(clocks));
    OneStepTimed(c, s1, TtlDelete, skew);
    RunOne(c, s1, TtlDelete);
    TimedAppend(c, s, [Tick(clocks)], [TtlDelete], skew);
    RunAppend(c, s, [Tick(clocks)], [TtlDelete]);
    AcquiringIsTimed(c, s2, o, proc, skew);
    TimedAppend(c, s, [Tick(clocks)] + [TtlDelete], Acquiring(o, proc), skew);
    RunAppend(c, s, [Tick(clocks)] + [TtlDelete], Acquiring(o, proc));
    AcquiringRun(c, s2, o, proc);
    TruncBounds(clocks[proc]);
  }

  /** What the item says of its owner: until when it is held, as the owner has it or is about to assign it. */
  ghost predicate Tracks(s: State, o: Owner, l: Lease) {
    && l.proc < |s.clocks|
    && (OwnedBy(s.item, o) ==> EverGranted(l))
    && (l.phase.Read? || l.phase.Granted? ==> l.phase.now as real <= s.clocks[l.proc])
    && (Adopted(l) ==> (l.expires - LEASE_SECONDS) as real <= s.clocks[l.proc])
    && (!l.renewal.Idle? && !l.renewal.Stopped? ==> Adopted(l) || l.phase.Gone?)
    && (Adopted(l) && l.renewal.Want? ==> l.expires <= l.renewal.until)
    && (Adopted(l) && l.renewal.Sent? ==> l.expires <= l.renewal.until)
    && (l.renewal.Want? ==> (l.renewal.until - LEASE_SECONDS) as real <= s.clocks[l.proc])
    && (l.renewal.Sent? ==> (l.renewal.until - LEASE_SECONDS) as real <= s.clocks[l.proc])
    && (OwnedBy(s.item, o) && l.phase.Granted? ==> s.item.holder.value.until == l.phase.now + LEASE_SECONDS)
    && (OwnedBy(s.item, o) && Adopted(l) && !l.lost ==>
          s.item.holder.value.until == if l.renewal.Sent? then l.renewal.until else l.expires)
  }

  ghost predicate AllTrack(s: State, skew: real) {
    && Agree(s.clocks, skew)
    && (forall o :: o in s.leases ==> Tracks(s, o, s.leases[o]))
    && (s.item.holder.Some? ==> s.item.holder.value.owner in s.leases && s.item.expiresAt.Some?)
  }

  /** A step of another lease changes the item only as far as it is not `o`'s. */
  lemma OthersTrack(c: Config, s: State, step: Step, skew: real, o: Owner)
    requires AllTrack(s, skew) && TimedStep(s, step, skew) && o in s.leases
    requires step.Tick? || step.TtlDelete? || step.owner != o
    ensures o in Next(c, s, step).leases && Tracks(Next(c, s, step), o, s.leases[o])
    ensures Next(c, s, step).leases[o] == s.leases[o]
  {
    assert Tracks(s, o, s.leases[o]);
  }

  lemma ClockReadTracks(c: Config, s: State, step: Step, skew: real)
    requires AllTrack(s, skew) && Enabled(s, step) && (step.ReadClock? || step.RenewRead?)
    ensures var s' := Next(c, s, step); step.owner in s'.leases && Tracks(s', step.owner, s'.leases[step.owner])
  {
    var o := step.owner;
    assert Tracks(s, o, s.leases[o]);
    TruncBounds(Clock(s, o));
    if step.RenewRead? { RenewalIsLater(s.leases[o].expires, Clock(s, o)); }
  }

  lemma AcquireTracks(c: Config, s: State, step: Step, skew: real)
    requires AllTrack(s, skew) && Enabled(s, step) && (step.TryAcquire? || step.Adopt?)
    ensures var s' := Next(c, s, step); step.owner in s'.leases && Tracks(s', step.owner, s'.leases[step.owner])
  {
    assert Tracks(s, step.owner, s.leases[step.owner]);
  }

  lemma OwnStepTracks(c: Config, s: State, step: Step, skew: real)
    requires AllTrack(s, skew) && !step.Tick? && !step.TtlDelete? && Enabled(s, step)
    ensures var s' := Next(c, s, step); step.owner in s'.leases && Tracks(s', step.owner, s'.leases[step.owner])
  {
    if step.ReadClock? || step.RenewRead? {
      ClockReadTracks(c, s, step, skew);
    } else if step.TryAcquire? || step.Adopt? {
      AcquireTracks(c, s, step, skew);
    } else if !step.Create? {
      assert Tracks(s, step.owner, s.leases[step.owner]);
    }
  }

  lemma NextTracks(c: Config, s: State, step: Step, skew: real)
    requires AllTrack(s, skew) && TimedStep(s, step, skew)
    ensures AllTrack(Next(c, s, step), skew)
  {
    var s' := Next(c, s, step);
    if Enabled(s, step) {
      forall o | o in s'.leases ensures Tracks(s', o, s'.leases[o]) {
        if step.Tick? || step.TtlDelete? || step.owner != o {
          OthersTrack(c, s, step, skew, o);
        } else {
          OwnStepTracks(c, s, step, skew);
        }
      }
      HolderStays(c, s, step);
    }
  }

  /** An item that is held has a known owner and an expiry. */
  lemma HolderStays(c: Config, s: State, step: Step)
    requires s.item.holder.Some? ==> s.item.holder.value.owner in s.leases && s.item.expiresAt.Some?
    ensures var s' := Next(c, s, step);
      s'.item.holder.Some? ==> s'.item.holder.value.owner in s'.leases && s'.item.expiresAt.Some?
  {
  }

  lemma {:induction false} RunTracks(c: Config, clocks: seq<real>, steps: seq<Step>, skew: real)
    requires Timed(c, Init(clocks), steps, skew)
    ensures AllTrack(Run(c, Init(clocks), steps), skew)
  {
    if steps != [] {
      var n := |steps| - 1;
      PrefixTimed(c, Init(clocks), steps, skew, n);
      RunTracks(c, clocks, steps[..n], skew);
      NextTracks(c, Run(c, Init(clocks), steps[..n]), steps[n], skew);
    }
  }

  /** If the owner's last renewal is still to be assigned, it assigns it. */
  function Assigning(l: Lease, o: Owner): seq<Step> {
    if l.renewal.Sent? then [RenewAssign(o)] else []
  }

  /** With it assigned, a lease in force has the deadline that the item has. */
  lemma AssigningRun(c: Config, s: State, o: Owner, skew: real)
    requires AllTrack(s, skew) && InForce(s, o) && OwnedBy(s.item, o)
    ensures Timed(c, s, Assigning(s.leases[o], o), skew)
    ensures var r := Run(c, s, Assigning(s.leases[o], o));
      && r.item == s.item && r.clocks == s.clocks && r.leases.Keys == s.leases.Keys
      && InForce(r, o) && r.leases[o].proc == s.leases[o].proc && r.leases[o].expires == s.item.holder.value.until
  {
    assert Tracks(s, o, s.leases[o]);
    if s.leases[o].renewal.Sent? {
      RunOne(c, s, RenewAssign(o));
      OneStepTimed(c, s, RenewAssign(o), skew);
    }
  }

  /** Once the item of a lease in force expires too early, time can pass so that a second one is in force beside. */
  lemma UncoveredNow(c: Config, s: State, skew: real, o: Owner, other: Owner, proc: nat) returns (more: seq<Step>)
    requires Agree(s.clocks, skew) && skew <= 11.0 && InForce(s, o) && OwnedBy(s.item, o)
    requires s.item.expiresAt.Some? && !Covered(s.item, skew) && s.leases[o].expires == s.item.holder.value.until
    requires other !in s.leases && proc < |s.clocks| && proc != s.leases[o].proc
    ensures Timed(c, s, more, skew) && !Exclusive(Run(c, s, more))
  {
    var q, expiry := s.leases[o].proc, s.item.expiresAt.value;
    var late := Expired(s.clocks, q, expiry, skew);
    more := Deletion(late, other, proc);
    ExpiredIsTimed(s, q, expiry, skew);
    DeletionRun(c, s, late, other, proc, skew);
    assert InForce(Run(c, s, more), o) && InForce(Run(c, s, more), other);
  }

  /** The condition on the item is exact too: from every timed state in which the item of a lease in force expires
      too early, by however little, time can pass so that a second lease is in force beside it. */
  lemma UncoveredItemBreaksExclusion(c: Config, clocks: seq<real>, steps: seq<Step>, skew: real,
                                     o: Owner, other: Owner, proc: nat)
    returns (more: seq<Step>)
    requires skew <= 11.0 && Timed(c, Init(clocks), steps, skew)
    requires var s := Run(c, Init(clocks), steps);
      && InForce(s, o) && OwnedBy(s.item, o) && !Covered(s.item, skew)
      && other !in s.leases && proc < |s.clocks| && proc != s.leases[o].proc
    ensures Timed(c, Init(clocks), steps + more, skew)
    ensures !Exclusive(Run(c, Init(clocks), steps + more))
  {
    var s := Run(c, Init(clocks), steps);
    RunTracks(c, clocks, steps, skew);
    var first := Assigning(s.leases[o], o);
    AssigningRun(c, s, o, skew);
    var r := Run(c, s, first);
    var rest := UncoveredNow(c, r, skew, o, other, proc);
    TimedAppend(c, s, first, rest, skew);
    RunAppend(c, s, first, rest);
    more := first + rest;
    TimedAppend(c, Init(clocks), steps, more, skew);
    RunAppend(c, Init(clocks), steps, more);
  }

  /** An item leased once, released, and left alone until later. */
  function LeasedOnce(o: Owner, proc: nat, later: seq<real>): seq<Step> {
    Acquiring(o, proc) + ReleasedBy(o) + [Tick(later)]
  }

  lemma LeasedOnceRun(c: Config, s: State, o: Owner, proc: nat, later: seq<real>, skew: real)
    requires o !in s.leases && proc < |s.clocks| && s.item == NOTHING && |later| == |s.clocks|
    requires Agree(s.clocks, skew) && TimedStep(s, Tick(later), skew)
    ensures Timed(c, s, LeasedOnce(o, proc, later), skew)
    ensures var r := Run(c, s, LeasedOnce(o, proc, later));
      && r.clocks == later && r.leases.Keys == s.leases.Keys + {o}
      && r.item == Item(None, None, Some(Trunc(s.clocks[proc]) + DEFAULT_TTL_SECONDS))
  {
    AcquiringRun(c, s, o, proc);
    AcquiringIsTimed(c, s, o, proc, skew);
    ReleasingRun(c, Run(c, s, Acquiring(o, proc)), o, skew);
    TimedAppend(c, s, Acquiring(o, proc), ReleasedBy(o), skew);
    RunAppend(c, s, Acquiring(o, proc), ReleasedBy(o));
    OneMoreStep(c, s, Acquiring(o, proc) + ReleasedBy(o), Tick(later), skew);
  }

  function DayBefore(): seq<Step> {
    LeasedOnce(0, 0, [86500.0, 86500.0])
  }

  /** Leased again, it keeps the old `expires_at`, which has passed already: the item is not covered. */
  lemma LeasedAgain(c: Config, s: State, o: Owner, p: nat, later: seq<real>, other: Owner, q: nat, skew: real)
    requires o !in s.leases && other !in s.leases && o != other && p < |s.clocks| && q < |s.clocks|
    requires s.item == NOTHING && |later| == |s.clocks| && Agree(s.clocks, skew) && TimedStep(s, Tick(later), skew)
    ensures Timed(c, s, LeasedOnce(o, p, later) + Acquiring(other, q), skew)
    ensures var r := Run(c, s, LeasedOnce(o, p, later) + Acquiring(other, q));
      var until := Trunc(later[q]) + LEASE_SECONDS;
      && r.clocks == later && r.leases.Keys == s.leases.Keys + {o, other} && InForce(r, other)
      && r.item == Item(Some(Holder(other, until)), None, Some(Trunc(s.clocks[p]) + DEFAULT_TTL_SECONDS))
      && r.leases[other].expires == until && r.leases[other].proc == q
  {
    LeasedOnceRun(c, s, o, p, later, skew);
    var r := Run(c, s, LeasedOnce(o, p, later));
    TruncBounds(later[q]);
    AcquiringRun(c, r, other, q);
    AcquiringIsTimed(c, r, other, q, skew);
    TimedAppend(c, s, LeasedOnce(o, p, later), Acquiring(other, q), skew);
    RunAppend(c, s, LeasedOnce(o, p, later), Acquiring(other, q));
  }

  /** So TTL deletion can let a second lease in beside one in force, even with perfect clocks. */
  lemma TtlDeletionBreaksExclusion(c: Config) returns (more: seq<Step>)
    ensures Timed(c, Init([0.0, 0.0]), DayBefore() + Acquiring(1, 1) + more, 0.0)
    ensures !Exclusive(Run(c, Init([0.0, 0.0]), DayBefore() + Acquiring(1, 1) + more))
  {
    assert Trunc(86500.0) == 86500 && Trunc(0.0) == 0;
    LeasedAgain(c, Init([0.0, 0.0]), 0, 0, [86500.0, 86500.0], 1, 1, 0.0);
    more := UncoveredItemBreaksExclusion(c, [0.0, 0.0], DayBefore() + Acquiring(1, 1), 0.0, 1, 2, 0);
  }
}
