/** Executions that two processes could let through at once: the guard of a live session is the check of the lease
    it was bound under, which the process may have given back long ago. */
module GuardExclusion {
  import opened Prelude
  import opened SessionItem
  import opened Stickiness
  import opened Scenes
  import LE = LeaseExclusion
  import LP = LeaseProtocol

  /** The lease a live session of process `p` is guarded by passes its check. */
  predicate GuardPasses(s: State, p: nat, sid: Sid) {
    && p < |s.leases.clocks| && sid in ProcessAt(s.procs, p).live
    && var g := ProcessAt(s.procs, p).live[sid];
       g in s.leases.leases && CheckPasses(s.leases.leases[g].lost, s.leases.leases[g].expires, s.leases.clocks[p])
  }

  /** The call of `o` is in its action, and an execution of its session would be let through. */
  predicate LetsThrough(s: State, o: Owner) {
    Going(s, o) && s.calls[o].pc.Chosen? && GuardPasses(s, s.leases.leases[o].proc, s.calls[o].pc.sid)
  }

  // ---- what a process keeps to -----------------------------------------------------------------

  predicate Done(l: LP.Lease) {
    l.phase.Finished? || l.phase.Gone?
  }

  predicate AtRest(r: LP.Renewal) {
    r.Idle? || r.Stopped?
  }

  /** A process takes one lease at a time, and a release waits for the renewal thread, which ends with it. */
  ghost predicate OrderlyStep(s: LP.State, e: LP.Step) {
    match e
    case Create(_, p) => forall o :: o in s.leases && s.leases[o].proc == p ==> Done(s.leases[o])
    case RenewRead(o) => o in s.leases ==> !s.leases[o].phase.Finished?
    case ReleaseSend(o, _) => o in s.leases ==> AtRest(s.leases[o].renewal)
    case ReleaseFail(o) => o in s.leases ==> AtRest(s.leases[o].renewal)
    case _ => true
  }

  /** Protocol steps as the clocks, TTL and the processes take them. */
  ghost predicate TimelyStep(s: State, step: Step, skew: real) {
    step.Protocol? ==>
      && LE.TimedStep(s.leases, step.step, skew) && OrderlyStep(s.leases, step.step)
      && (step.step.TtlDelete? ==> LE.Covered(s.leases.item, skew))
  }

  ghost predicate Timely(c: LP.Config, clocks: seq<real>, steps: seq<Step>, skew: real) {
    LE.Agree(clocks, skew) && forall i :: 0 <= i < |steps| ==> TimelyStep(Run(c, clocks, steps[..i]), steps[i], skew)
  }

  // ---- leases of one process follow each other --------------------------------------------------

  predicate Kept(clocks: seq<real>, l: LP.Lease) {
    && l.proc < |clocks| && (l.expires - LEASE_SECONDS) as real <= clocks[l.proc]
    && (l.phase.Finished? ==> AtRest(l.renewal))
    && (LP.Adopted(l) && l.renewal.Sent? ==> l.expires <= l.renewal.until)
  }

  /** Once a lease has read its clock, no earlier deadline `t` of its process lies beyond its own. */
  predicate Limits(l: LP.Lease, t: int) {
    match l.phase
    case Read(now) => t <= now + LEASE_SECONDS
    case Granted(now) => t <= now + LEASE_SECONDS
    case Held => t <= l.expires
    case Releasing => t <= l.expires
    case _ => true
  }

  /** Of two leases of one process, one is done before the other begins. */
  predicate Follows(l: LP.Lease, earlier: LP.Lease) {
    l.proc == earlier.proc && !Done(l) && !l.phase.Broken? ==> Done(earlier) && Limits(l, earlier.expires)
  }

  ghost predicate InOrder(s: LP.State) {
    && (forall o :: o in s.leases ==> Kept(s.clocks, s.leases[o]))
    && (forall o, g :: o in s.leases && g in s.leases && o != g ==> Follows(s.leases[o], s.leases[g]))
  }

  /** A step changes the lease of its owner only, and its fields the less the later it comes. */
  lemma OtherLeases(c: LP.Config, s: LP.State, e: LP.Step, o: Owner)
    requires e.Tick? || e.TtlDelete? || e.owner != o
    ensures o in LP.Next(c, s, e).leases <==> o in s.leases
    ensures o in s.leases ==> LP.Next(c, s, e).leases[o] == s.leases[o]
  {
  }

  lemma OwnStepKept(c: LP.Config, s: LP.State, e: LP.Step, skew: real)
    requires LE.AllPaced(s, skew) && OrderlyStep(s, e) && !e.Tick? && !e.TtlDelete?
    requires e.owner in s.leases && Kept(s.clocks, s.leases[e.owner])
    ensures e.owner in LP.Next(c, s, e).leases && Kept(s.clocks, LP.Next(c, s, e).leases[e.owner])
  {
    assert LE.Paced(s, skew, e.owner, s.leases[e.owner]);
  }

  lemma ClocksStay(c: LP.Config, s: LP.State, e: LP.Step, skew: real)
    requires LE.TimedStep(s, e, skew)
    ensures var clocks := LP.Next(c, s, e).clocks;
      && |clocks| == |s.clocks| && (forall p :: 0 <= p < |clocks| ==> s.clocks[p] <= clocks[p])
      && (!e.Tick? ==> clocks == s.clocks)
  {
  }

  lemma KeptStays(c: LP.Config, s: LP.State, e: LP.Step, skew: real, o: Owner)
    requires LE.AllPaced(s, skew) && LE.TimedStep(s, e, skew) && OrderlyStep(s, e)
    requires o in s.leases ==> Kept(s.clocks, s.leases[o])
    requires o in LP.Next(c, s, e).leases
    ensures Kept(LP.Next(c, s, e).clocks, LP.Next(c, s, e).leases[o])
  {
    ClocksStay(c, s, e, skew);
    if e.Tick? || e.TtlDelete? || e.owner != o {
      OtherLeases(c, s, e, o);
    } else if o in s.leases {
      OwnStepKept(c, s, e, skew);
    }
  }

  /** A step of the later lease: it reads its clock when the earlier deadline was set by it. */
  lemma LaterStep(c: LP.Config, s: LP.State, e: LP.Step, skew: real, o: Owner, earlier: LP.Lease)
    requires LE.AllPaced(s, skew) && o in s.leases && !e.Tick? && !e.TtlDelete? && e.owner == o
    requires Kept(s.clocks, s.leases[o]) && Kept(s.clocks, earlier) && Follows(s.leases[o], earlier)
    ensures Follows(LP.Next(c, s, e).leases[o], earlier)
  {
    if e.ReadClock? && LP.Enabled(s, e) { LE.TruncBounds(LP.Clock(s, o)); }
  }

  /** A step of the earlier lease: it is done, so it sets no deadline any more. */
  lemma EarlierStep(c: LP.Config, s: LP.State, e: LP.Step, g: Owner, l: LP.Lease)
    requires OrderlyStep(s, e) && g in s.leases && !e.Tick? && !e.TtlDelete? && e.owner == g
    requires Kept(s.clocks, s.leases[g]) && Follows(l, s.leases[g])
    ensures Follows(l, LP.Next(c, s, e).leases[g])
  {
  }

  lemma FollowsStays(c: LP.Config, s: LP.State, e: LP.Step, skew: real, o: Owner, g: Owner)
    requires LE.AllPaced(s, skew) && OrderlyStep(s, e) && InOrder(s) && o != g
    requires o in LP.Next(c, s, e).leases && g in LP.Next(c, s, e).leases
    ensures Follows(LP.Next(c, s, e).leases[o], LP.Next(c, s, e).leases[g])
  {
    if e.Tick? || e.TtlDelete? || e.owner != o { OtherLeases(c, s, e, o); }
    if e.Tick? || e.TtlDelete? || e.owner != g { OtherLeases(c, s, e, g); }
    if o in s.leases && g in s.leases {
      assert Follows(s.leases[o], s.leases[g]);
      if e.Tick? || e.TtlDelete? {
      } else if e.owner == o {
        LaterStep(c, s, e, skew, o, s.leases[g]);
      } else if e.owner == g {
        EarlierStep(c, s, e, g, s.leases[o]);
      }
    }
  }

  lemma StepInOrder(c: LP.Config, s: LP.State, e: LP.Step, skew: real)
    requires LE.AllPaced(s, skew) && LE.TimedStep(s, e, skew) && OrderlyStep(s, e) && InOrder(s)
    ensures InOrder(LP.Next(c, s, e))
  {
    var s' := LP.Next(c, s, e);
    forall o | o in s'.leases ensures Kept(s'.clocks, s'.leases[o]) {
      KeptStays(c, s, e, skew, o);
    }
    forall o, g | o in s'.leases && g in s'.leases && o != g ensures Follows(s'.leases[o], s'.leases[g]) {
      FollowsStays(c, s, e, skew, o, g);
    }
  }

  // ---- guards belong to their process -------------------------------------------------------------

  ghost predicate OwnGuards(s: State) {
    forall p, sid :: sid in ProcessAt(s.procs, p).live ==> IsGuard(s, p, ProcessAt(s.procs, p).live[sid])
  }

  predicate IsGuard(s: State, p: nat, g: Owner) {
    g in s.leases.leases && s.leases.leases[g].proc == p
  }

  lemma LeasesKeepTheirProcess(c: LP.Config, s: State, step: Step, p: nat, g: Owner)
    requires IsGuard(s, p, g)
    ensures IsGuard(Next(c, s, step), p, g)
  {
    var beneath := StepBeneath(c, s, step);
    if beneath != [] { ProcessStays(c, s.leases, beneath[0], g); }
  }

  lemma ProcessStays(c: LP.Config, s: LP.State, e: LP.Step, g: Owner)
    requires g in s.leases
    ensures g in LP.Next(c, s, e).leases && LP.Next(c, s, e).leases[g].proc == s.leases[g].proc
  {
  }

  /** The live sessions of `x'` are those of `x`, but for ones guarded by `o`. */
  predicate GuardedBy(x': Process, x: Process, o: Owner) {
    forall sid :: sid in x'.live ==> x'.live[sid] == o || (sid in x.live && x'.live[sid] == x.live[sid])
  }

  lemma MovedLive(s: State, s0: State, o: Owner, x: Process, k: Call)
    requires o in s.leases.leases && s0.procs == s.procs && s0.leases.leases == s.leases.leases
    requires GuardedBy(x, ProcessOf(s, o), o)
    ensures GuardedBy(ProcessOf(Move(s0, o, x, k), o), ProcessOf(s, o), o)
    ensures forall p :: p != s.leases.leases[o].proc ==> ProcessAt(Move(s0, o, x, k).procs, p) == ProcessAt(s.procs, p)
  {
  }

  lemma RememberedLive(c: LP.Config, s: State, o: Owner, sid: Sid, w: Write, landed: Call, not: Call, forget: set<Sid>)
    requires o in s.leases.leases
    ensures var s' := Remembered(c, s, o, sid, w, landed, not, forget);
      && o in s'.leases.leases && GuardedBy(ProcessAt(s'.procs, s.leases.leases[o].proc), ProcessOf(s, o), o)
      && forall p :: p != s.leases.leases[o].proc ==> ProcessAt(s'.procs, p) == ProcessAt(s.procs, p)
  {
    var x := ProcessOf(s, o);
    MovedLive(s, Put(c, s, o, sid, w), o, x.(cached := Some(sid)), landed);
    MovedLive(s, Put(c, s, o, sid, w), o, x.(cached := None, live := x.live - forget), not);
  }

  /** Steps of a call that write a record. */
  lemma WritersLive(c: LP.Config, s: State, step: Step)
    requires Enabled(s, step) && (step.Refresh? || step.RecordNew? || step.Remember? || step.Finish?)
    ensures var s', o := Perform(c, s, step), step.owner;
      && GuardedBy(ProcessAt(s'.procs, s.leases.leases[o].proc), ProcessOf(s, o), o)
      && forall p :: p != s.leases.leases[o].proc ==> ProcessAt(s'.procs, p) == ProcessAt(s.procs, p)
  {
    var o, k, x := step.owner, s.calls[step.owner], ProcessOf(s, step.owner);
    match step
    case Refresh(_, w) =>
      RememberedLive(c, s, o, k.pc.sid, w, k.(pc := Chosen(k.pc.sid)), k.(pc := Erasing), {});
    case RecordNew(_, w) =>
      RememberedLive(c, s, o, k.pc.sid, w, k.(pc := Chosen(k.pc.sid)), k.(pc := Failed), {k.pc.sid});
    case Remember(_, w) => RememberedLive(c, s, o, k.pc.sid, w, k, k.(pc := Failed), {});
    case Finish(_, w) =>
      MovedLive(s, s, o, x, k.(pc := Returned(k.pc.sid)));
      if x.cached.Some? {
        RememberedLive(c, s, o, x.cached.value, w, k.(pc := Returned(k.pc.sid)), k.(pc := Failed), {});
      }
  }

  /** A session becomes live under the lease of the call that adopts or creates it. */
  lemma LiveStep(c: LP.Config, s: State, step: Step, p: nat, sid: Sid)
    requires sid in ProcessAt(Next(c, s, step).procs, p).live
    ensures var g := ProcessAt(Next(c, s, step).procs, p).live[sid];
      || (sid in ProcessAt(s.procs, p).live && g == ProcessAt(s.procs, p).live[sid])
      || IsGuard(s, p, g)
  {
    if Enabled(s, step) && (step.Refresh? || step.RecordNew? || step.Remember? || step.Finish?) {
      WritersLive(c, s, step);
    }
  }

  lemma StepOwnGuards(c: LP.Config, s: State, step: Step)
    requires OwnGuards(s)
    ensures OwnGuards(Next(c, s, step))
  {
    var s' := Next(c, s, step);
    forall p, sid | sid in ProcessAt(s'.procs, p).live ensures IsGuard(s', p, ProcessAt(s'.procs, p).live[sid]) {
      LiveStep(c, s, step, p, sid);
      LeasesKeepTheirProcess(c, s, step, p, ProcessAt(s'.procs, p).live[sid]);
    }
  }

  /** A session that a call adopts or creates is cached, and guarded by its own lease from then on, whatever guarded
      it before. */
  lemma BoundIsGuarded(c: LP.Config, s: State, step: Step)
    requires Enabled(s, step) && (step.Attach? || step.Create?)
    ensures var o, s' := step.owner, Next(c, s, step);
      && o in s'.calls && o in s'.leases.leases
      && (s'.calls[o].pc.Refreshing? || s'.calls[o].pc.Recording? ==>
            var sid := s'.calls[o].pc.sid;
            ProcessOf(s', o).cached == Some(sid) && sid in ProcessOf(s', o).live && ProcessOf(s', o).live[sid] == o)
      && (step.Create? ==> s'.calls[o].pc == Recording(step.sid))
  {
  }

  // ---- every run --------------------------------------------------------------------------------------

  lemma {:induction false} RunInOrder(c: LP.Config, clocks: seq<real>, steps: seq<Step>, skew: real)
    requires Timely(c, clocks, steps, skew) && skew <= 11.0
    ensures var s := Run(c, clocks, steps); LE.AllPaced(s.leases, skew) && InOrder(s.leases) && OwnGuards(s)
  {
    if steps != [] {
      var n := |steps| - 1;
      var before, step := steps[..n], steps[n];
      var s := Run(c, clocks, before);
      assert forall i :: 0 <= i < n ==> before[..i] == steps[..i] && before[i] == steps[i];
      RunInOrder(c, clocks, before, skew);
      StepOwnGuards(c, s, step);
      var beneath := StepBeneath(c, s, step);
      if beneath != [] {
        assert TimelyStep(s, step, skew);
        LE.NextPaced(c, s.leases, skew, beneath[0]);
        StepInOrder(c, s.leases, beneath[0], skew);
      }
    }
  }

  /** A call whose executions are let through owns the item, even if the guard is an earlier lease. */
  lemma GuardedCallOwns(s: State, skew: real, o: Owner)
    requires LE.AllPaced(s.leases, skew) && InOrder(s.leases) && OwnGuards(s) && LetsThrough(s, o)
    ensures OwnedBy(s.leases.item, o)
  {
    var l := s.leases.leases[o];
    var g := ProcessAt(s.procs, l.proc).live[s.calls[o].pc.sid];
    assert IsGuard(s, l.proc, g);
    if g != o { assert Follows(l, s.leases.leases[g]); }
    assert LE.Paced(s.leases, skew, o, l);
    assert LE.Deadline(l, l.expires);
  }

  /** In every run of orderly processes whose clocks are monotone and differ by at most 11 s, and whose leases TTL
      does not cut short, the executions of at most one call are let through, and that call owns the item. */
  lemma OneCallExecutes(c: LP.Config, clocks: seq<real>, steps: seq<Step>, skew: real, a: Owner, b: Owner)
    requires Timely(c, clocks, steps, skew) && skew <= 11.0
    requires LetsThrough(Run(c, clocks, steps), a) && LetsThrough(Run(c, clocks, steps), b)
    ensures a == b && OwnedBy(Run(c, clocks, steps).leases.item, a)
  {
    RunInOrder(c, clocks, steps, skew);
    GuardedCallOwns(Run(c, clocks, steps), skew, a);
    GuardedCallOwns(Run(c, clocks, steps), skew, b);
  }

  /** Between calls it is otherwise: the guard of a lease given back still passes while another process serves the
      same session, whatever the clocks. */
  lemma TwoGuardsPass(c: LP.Config, clocks: seq<real>, sid: Sid, w: Write, w': Write)
    requires |clocks| >= 2 && ValidSid(sid) && w.net.Acked? && w'.net.Acked? && clocks[1] <= (w.now + w.ttl) as real
    ensures var s := Run(c, clocks, Prologue(sid, w) + Follow(1, w'));
      && GuardPasses(s, 0, sid) && GuardPasses(s, 1, sid)
      && ProcessAt(s.procs, 0).live[sid] != ProcessAt(s.procs, 1).live[sid]
  {
    var s0, s1 := PrologueRun(c, clocks, sid, w);
    SecondLease(c, s0, clocks, sid, w);
    Scenes.Follows(c, s1, 1, sid, w');
    AfterAppend(c, Init(clocks), Prologue(sid, w), Follow(1, w'));
    RunIsAfter(c, clocks, Prologue(sid, w) + Follow(1, w'));
    InForceAtOnce(clocks[0]);
    InForceAtOnce(clocks[1]);
  }

  lemma InForceAtOnce(clock: real)
    ensures CheckPasses(false, Trunc(clock) + LEASE_SECONDS, clock)
  {
  }
}
