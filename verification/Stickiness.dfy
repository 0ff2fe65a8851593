/** Every call of every process for one runtime session, on top of the lease protocol: which session a call
    serves, what it writes, and why later calls serve the same one whatever their process had cached.

    The remote calls of `_session`, `_remember` and `invoke` are steps; what lies between two of them is local
    to one process, which serves one call at a time. A process that crashed takes no more steps; the one that
    replaces it is another process with an empty cache. */
module Stickiness {
  import opened Prelude
  import opened SessionItem
  import LP = LeaseProtocol

  /** A process: its cache entry, its live sessions with the lease whose check guards each, and the lease of the
      call it is serving. */
  datatype Process = Process(cached: Option<Sid>, live: map<Sid, Owner>, serving: Option<Owner>)

  datatype Pc =
    | Attaching(sid: Sid)     // the recorded session is to be adopted
    | Refreshing(sid: Sid)    // adopted, its record is to be refreshed
    | Erasing                 // not followed, its record is to be deleted
    | Creating
    | Recording(sid: Sid)     // created, its record is to be written
    | Chosen(sid: Sid)        // `_session` has returned it, the action runs
    | Returned(sid: Sid)
    | Closed
    | Failed

  /** The call under one lease: where it is, and what it created. */
  datatype Call = Call(pc: Pc, created: Option<Sid>)

  datatype State = State(leases: LP.State, procs: map<nat, Process>, calls: map<Owner, Call>, used: set<Sid>)

  /** One record write: the description it carries, the clock, the time to live, and how it ends. */
  datatype Write = Write(rest: string, now: int, ttl: int, net: Net)

  datatype Step =
    | Protocol(step: LP.Step)
    | Begin(owner: Owner, detaches: bool)
    | Attach(owner: Owner, reachable: bool)
    | Refresh(owner: Owner, write: Write)
    | Erase(owner: Owner, net: Net)
    | Create(owner: Owner, sid: Sid)
    | CreateFails(owner: Owner)
    | RecordNew(owner: Owner, write: Write)
    | Remember(owner: Owner, write: Write)      // a record write in the middle of the action
    | Raise(owner: Owner)
    | Finish(owner: Owner, write: Write)
    | Close(owner: Owner, closes: bool, net: Net)
    | End(proc: nat, sid: Sid)                  // somebody else shuts a live session down

  function Init(clocks: seq<real>): State {
    State(LP.Init(clocks), map[], map[], {})
  }

  // ---- the steps -------------------------------------------------------------------------

  predicate Over(pc: Pc) {
    pc.Returned? || pc.Closed? || pc.Failed?
  }

  predicate Held(s: State, o: Owner) {
    o in s.leases.leases && s.leases.leases[o].phase.Held?
  }

  /** The call of `o` can go on: its lease object has not crashed. */
  predicate Going(s: State, o: Owner) {
    Held(s, o) && o in s.calls
  }

  function ProcessAt(procs: map<nat, Process>, p: nat): Process {
    if p in procs then procs[p] else Process(None, map[], None)
  }

  function ProcessOf(s: State, o: Owner): Process
    requires o in s.leases.leases
  {
    ProcessAt(s.procs, s.leases.leases[o].proc)
  }

  function Move(s: State, o: Owner, x: Process, call: Call): State
    requires o in s.leases.leases
  {
    s.(procs := s.procs[s.leases.leases[o].proc := x.(serving := if Over(call.pc) then None else Some(o))],
       calls := s.calls[o := call])
  }

  predicate Enabled(s: State, step: Step) {
    match step
    case Protocol(e) => !e.Put? && !e.Delete? && (e.ReleaseCall? && e.owner in s.calls ==> Over(s.calls[e.owner].pc))
    case Begin(o, _) => Held(s, o) && o !in s.calls && ProcessOf(s, o).serving.None?
    case Attach(o, _) => Going(s, o) && s.calls[o].pc.Attaching?
    case Refresh(o, _) => Going(s, o) && s.calls[o].pc.Refreshing?
    case Erase(o, _) => Going(s, o) && s.calls[o].pc.Erasing?
    case Create(o, sid) => Going(s, o) && s.calls[o].pc.Creating? && sid !in s.used
    case CreateFails(o) => Going(s, o) && s.calls[o].pc.Creating?
    case RecordNew(o, _) => Going(s, o) && s.calls[o].pc.Recording?
    case Remember(o, _) => Going(s, o) && s.calls[o].pc.Chosen?
    case Raise(o) => Going(s, o) && s.calls[o].pc.Chosen?
    case Finish(o, _) => Going(s, o) && s.calls[o].pc.Chosen?
    case Close(o, _, _) => Going(s, o) && s.calls[o].pc.Chosen?
    case End(_, _) => true
  }

  function RecordOf(c: LP.Config, sid: Sid, w: Write): Record {
    Record(c.rid, sid, w.rest, 0, 0)
  }

  function PutBy(c: LP.Config, o: Owner, sid: Sid, w: Write): LP.Step {
    LP.Put(o, RecordOf(c, sid, w), w.now, w.ttl)
  }

  /** A put under the lease of `o`, unless it never arrives. */
  function Put(c: LP.Config, s: State, o: Owner, sid: Sid, w: Write): State {
    if w.net.Dropped? then s else s.(leases := LP.Next(c, s.leases, PutBy(c, o, sid, w)))
  }

  predicate Lands(s: State, o: Owner, w: Write) {
    w.net.Acked? && o in s.leases.leases && OwnedBy(s.leases.item, o)
  }

  function Delete(c: LP.Config, s: State, o: Owner, net: Net): State {
    if net.Dropped? then s else s.(leases := LP.Next(c, s.leases, LP.Delete(o)))
  }

  predicate Hit(x: Process, record: Option<Record>) {
    record.Some? && x.cached == Some(record.value.sessionId) && record.value.sessionId in x.live
  }

  predicate Stale(x: Process, record: Option<Record>) {
    x.cached.Some? && !(record.Some? && x.cached.value == record.value.sessionId)
  }

  /** The process as a new call finds it: the cache is kept on a hit only, and a stale session is let go. */
  function CacheUsed(x: Process, record: Option<Record>): Process {
    if Hit(x, record) then x
    else Process(None, if Stale(x, record) then x.live - {x.cached.value} else x.live, None)
  }

  /** What the cache and the record make of a new call. */
  function FirstCall(x: Process, record: Option<Record>, detaches: bool): Call {
    if Hit(x, record) then Call(Chosen(record.value.sessionId), None)
    else if Stale(x, record) && x.cached.value in x.live && !detaches then Call(Failed, None)
    else if record.Some? then Call(Attaching(record.value.sessionId), None)
    else Call(Creating, None)
  }

  function Began(s: State, o: Owner, detaches: bool): State
    requires Held(s, o)
  {
    var record, x := s.leases.leases[o].record, ProcessOf(s, o);
    Move(s, o, CacheUsed(x, record), FirstCall(x, record, detaches))
  }

  function Attached(s: State, o: Owner, reachable: bool): State
    requires Going(s, o) && s.calls[o].pc.Attaching?
  {
    var sid, x := s.calls[o].pc.sid, ProcessOf(s, o);
    if ValidSid(sid) && (sid in x.live || reachable) then
      Move(s, o, Process(Some(sid), x.live[sid := o], None), s.calls[o].(pc := Refreshing(sid)))
    else
      Move(s, o, x, s.calls[o].(pc := Erasing))
  }

  /** The record write of a live session; what the call becomes depends on whether it landed. */
  function Remembered(c: LP.Config, s: State, o: Owner, sid: Sid, w: Write, landed: Call, not: Call,
                      forget: set<Sid>): State
    requires o in s.leases.leases
  {
    var x := ProcessOf(s, o);
    if Lands(s, o, w) then Move(Put(c, s, o, sid, w), o, x.(cached := Some(sid)), landed)
    else Move(Put(c, s, o, sid, w), o, x.(cached := None, live := x.live - forget), not)
  }

  function Perform(c: LP.Config, s: State, step: Step): State
    requires Enabled(s, step)
  {
    match step
    case Protocol(e) => s.(leases := LP.Next(c, s.leases, e))
    case Begin(o, detaches) => Began(s, o, detaches)
    case Attach(o, reachable) => Attached(s, o, reachable)
    case Refresh(o, w) =>
      var k := s.calls[o];
      Remembered(c, s, o, k.pc.sid, w, k.(pc := Chosen(k.pc.sid)), k.(pc := Erasing), {})
    case Erase(o, net) => Move(Delete(c, s, o, net), o, ProcessOf(s, o), s.calls[o].(pc := Creating))
    case Create(o, sid) =>
      var x := ProcessOf(s, o);
      Move(s, o, Process(Some(sid), x.live[sid := o], None), s.calls[o].(pc := Recording(sid), created := Some(sid)))
        .(used := s.used + {sid})
    case CreateFails(o) => Move(s, o, ProcessOf(s, o), s.calls[o].(pc := Failed))
    case RecordNew(o, w) =>
      var k := s.calls[o];
      Remembered(c, s, o, k.pc.sid, w, k.(pc := Chosen(k.pc.sid)), k.(pc := Failed), {k.pc.sid})
    case Remember(o, w) =>
      var k := s.calls[o];
      if k.pc.sid !in ProcessOf(s, o).live then s
      else Remembered(c, s, o, k.pc.sid, w, k, k.(pc := Failed), {})
    case Raise(o) => Move(s, o, ProcessOf(s, o), s.calls[o].(pc := Failed))
    case Finish(o, w) =>
      var k, x := s.calls[o], ProcessOf(s, o);
      if x.cached.None? || x.cached.value !in x.live then Move(s, o, x, k.(pc := Returned(k.pc.sid)))
      else Remembered(c, s, o, x.cached.value, w, k.(pc := Returned(k.pc.sid)), k.(pc := Failed), {})
    case Close(o, closes, net) =>
      var k, x := s.calls[o], ProcessOf(s, o);
      var left := x.live - {k.pc.sid};
      if closes then Move(Delete(c, s, o, net), o, Process(None, left, None), k.(pc := Closed))
      else Move(s, o, x.(live := left), k.(pc := Failed))
    case End(p, sid) =>
      var x := ProcessAt(s.procs, p);
      s.(procs := s.procs[p := x.(live := x.live - {sid})])
  }

  function Next(c: LP.Config, s: State, step: Step): State {
    if Enabled(s, step) then Perform(c, s, step) else s
  }

  function Run(c: LP.Config, clocks: seq<real>, steps: seq<Step>): State {
    if steps == [] then Init(clocks) else Next(c, Run(c, clocks, steps[..|steps| - 1]), steps[|steps| - 1])
  }

  // ---- every run is a run of the lease protocol ------------------------------------------

  /** The session a step writes a record for. */
  predicate WritesRecord(s: State, step: Step, sid: Sid) {
    && Enabled(s, step)
    && match step
       case Refresh(o, _) => s.calls[o].pc.sid == sid
       case RecordNew(o, _) => s.calls[o].pc.sid == sid
       case Remember(o, _) => s.calls[o].pc.sid == sid
       case Finish(o, _) => ProcessOf(s, o).cached == Some(sid)
       case _ => false
  }

  /** What a protocol step beneath a call step is. */
  predicate Beneath(s: State, step: Step, e: LP.Step) {
    match e
    case Put(o, record, _, _) => WritesRecord(s, step, record.sessionId) && step.owner == o
    case Delete(o) => Enabled(s, step) && (step.Erase? || (step.Close? && step.closes)) && step.owner == o
    case _ => step == Protocol(e)
  }

  /** What a step does to the item and the leases: at most one protocol step. */
  lemma StepBeneath(c: LP.Config, s: State, step: Step) returns (beneath: seq<LP.Step>)
    ensures Next(c, s, step).leases == LP.Run(c, s.leases, beneath) && |beneath| <= 1
    ensures beneath != [] ==>
      Beneath(s, step, beneath[0]) && Next(c, s, step).leases == LP.Next(c, s.leases, beneath[0])
  {
    beneath := [];
    if Enabled(s, step) && Next(c, s, step).leases != s.leases {
      match step
      case Protocol(e) => beneath := [e];
      case Refresh(o, w) => beneath := [PutBy(c, o, s.calls[o].pc.sid, w)];
      case RecordNew(o, w) => beneath := [PutBy(c, o, s.calls[o].pc.sid, w)];
      case Remember(o, w) => beneath := [PutBy(c, o, s.calls[o].pc.sid, w)];
      case Finish(o, w) => beneath := [PutBy(c, o, ProcessOf(s, o).cached.value, w)];
      case Erase(o, _) => beneath := [LP.Delete(o)];
      case Close(o, _, _) => beneath := [LP.Delete(o)];
      case _ =>
    }
  }

  lemma {:induction false} Append(c: LP.Config, s: LP.State, a: seq<LP.Step>, b: seq<LP.Step>)
    requires |b| <= 1
    ensures LP.Run(c, s, a + b) == LP.Run(c, LP.Run(c, s, a), b)
  {
    if b == [] {
      assert a + b == a;
    } else {
      assert (a + b)[..|a|] == a && b[..0] == [];
    }
  }

  lemma {:induction false} RunBeneath(c: LP.Config, clocks: seq<real>, steps: seq<Step>) returns (beneath: seq<LP.Step>)
    ensures Run(c, clocks, steps).leases == LP.Run(c, LP.Init(clocks), beneath)
  {
    if steps == [] {
      beneath := [];
    } else {
      var before := RunBeneath(c, clocks, steps[..|steps| - 1]);
      var more := StepBeneath(c, Run(c, clocks, steps[..|steps| - 1]), steps[|steps| - 1]);
      Append(c, LP.Init(clocks), before, more);
      beneath := before + more;
    }
  }

  lemma RunRefines(c: LP.Config, clocks: seq<real>, steps: seq<Step>)
    ensures LP.Refines(c, Run(c, clocks, steps).leases)
  {
    var beneath := RunBeneath(c, clocks, steps);
    LP.RunRefines(c, clocks, beneath);
  }

  // ---- what the item holds after a lease's last effect -------------------------------------

  predicate Names(v: Option<Stored>, sid: Sid) {
    v.Some? && v.value.record.sessionId == sid
  }

  /** The value the last effect of `o` left. */
  function Left(log: seq<LP.Effect>, o: Owner): Option<Stored> {
    if log == [] then None
    else if LP.By(log[|log| - 1], o) then LP.Play(log).value
    else Left(log[..|log| - 1], o)
  }

  lemma LeftPush(log: seq<LP.Effect>, e: LP.Effect, o: Owner)
    ensures Left(log + [e], o) == if LP.By(e, o) then LP.Take(LP.Play(log), e).value else Left(log, o)
  {
    LP.PlayPush(log, e);
    assert (log + [e])[..|log|] == log;
  }

  /** The current writer made the last effect. */
  lemma WriterIsLast(log: seq<LP.Effect>, o: Owner)
    requires LP.Legal(log) && LP.Play(log).writer == Some(o)
    ensures Left(log, o) == LP.Play(log).value
  {
    var g := LP.BlockStart(log, o);
    assert LP.By(log[|log| - 1], o);
  }

  /** A lease that is past its acquire: its record is what it will always be. */
  predicate Settled(l: LP.Lease) {
    LP.Adopted(l) || l.phase.Gone?
  }

  predicate SameLease(l: LP.Lease, l': LP.Lease) {
    l'.proc == l.proc && l'.record == l.record && l'.seen == l.seen && l'.readAt == l.readAt
  }

  lemma SettledStays(c: LP.Config, s: LP.State, e: LP.Step, o: Owner)
    requires o in s.leases && Settled(s.leases[o])
    ensures o in LP.Next(c, s, e).leases && Settled(LP.Next(c, s, e).leases[o])
      && SameLease(s.leases[o], LP.Next(c, s, e).leases[o])
  {
  }

  // ---- the invariant -----------------------------------------------------------------------

  predicate Served(k: Call) {
    k.pc.Chosen? || k.pc.Returned?
  }

  /** The session a call works on is the recorded one, or the one it created. */
  predicate Targets(l: LP.Lease, k: Call) {
    && (k.pc.Attaching? || k.pc.Refreshing? || (Served(k) && k.created.None?) ==>
          k.created.None? && l.record.Some? && l.record.value.sessionId == k.pc.sid)
    && (k.pc.Recording? || (Served(k) && k.created.Some?) ==> k.created == Some(k.pc.sid))
    && (k.pc.Erasing? || k.pc.Creating? ==> k.created.None?)
  }

  predicate Leaves(v: Option<Stored>, l: LP.Lease, k: Call) {
    && (k.pc.Attaching? || k.pc.Refreshing? ==> v == l.seen.record)
    && (Served(k) ==> Names(v, k.pc.sid))
  }

  predicate InCache(x: Process, o: Owner, k: Call) {
    !Over(k.pc) ==> x.serving == Some(o) && (k.pc.Chosen? ==> x.cached == Some(k.pc.sid))
  }

  ghost predicate CallOk(s: State, o: Owner, exempt: Option<Owner>)
    requires o in s.calls
  {
    && o in s.leases.leases && Settled(s.leases.leases[o])
    && Targets(s.leases.leases[o], s.calls[o])
    && InCache(ProcessOf(s, o), o, s.calls[o])
    && (exempt != Some(o) ==> Leaves(Left(s.leases.log, o), s.leases.leases[o], s.calls[o]))
  }

  /** A write names the session the writer's record named, or the one its call created. */
  predicate Carries(l: LP.Lease, k: Call, sid: Sid) {
    (l.record.Some? && l.record.value.sessionId == sid) || k.created == Some(sid)
  }

  predicate WriteOk(s: State, e: LP.Effect) {
    e.Wrote? ==>
      && e.owner in s.calls && e.owner in s.leases.leases
      && Carries(s.leases.leases[e.owner], s.calls[e.owner], e.stored.record.sessionId)
  }

  ghost predicate Sound(s: State, exempt: Option<Owner>) {
    && (forall o :: o in s.calls ==> CallOk(s, o, exempt))
    && (forall o :: o in s.leases.leases && o !in s.calls && LP.Working(s.leases.leases[o]) ==>
          Left(s.leases.log, o) == s.leases.leases[o].seen.record)
    && (forall j :: 0 <= j < |s.leases.log| ==> WriteOk(s, s.leases.log[j]))
  }

  /** A local step of the call of `o`, which may follow a remote call that changed what `o` left. */
  lemma MoveSound(s: State, o: Owner, x: Process, k: Call)
    requires Sound(s, Some(o)) && Held(s, o)
    requires if o in s.calls then !Over(s.calls[o].pc) else ProcessOf(s, o).serving.None?
    requires Targets(s.leases.leases[o], k) && Leaves(Left(s.leases.log, o), s.leases.leases[o], k)
    requires k.pc.Chosen? ==> x.cached == Some(k.pc.sid)
    requires o in s.calls && s.calls[o].created.Some? ==> k.created == s.calls[o].created
    ensures Sound(Move(s, o, x, k), None)
  {
    var s' := Move(s, o, x, k);
    forall q | q in s'.calls ensures CallOk(s', q, None) {
      if q in s.calls { assert CallOk(s, q, Some(o)); }
      if o in s.calls { assert CallOk(s, o, Some(o)); }
    }
    forall j | 0 <= j < |s.leases.log| ensures WriteOk(s', s.leases.log[j]) {
      assert WriteOk(s, s.leases.log[j]);
    }
  }

  /** An effect of `o` on the item: only what `o` left changes. */
  lemma EffectSound(s: State, s': State, o: Owner, e: LP.Effect)
    requires Sound(s, None) && o in s.calls && LP.By(e, o)
    requires s'.leases.log == s.leases.log + [e] && s'.leases.leases == s.leases.leases && s'.procs == s.procs
      && s'.calls == s.calls
    requires WriteOk(s, e)
    ensures Sound(s', Some(o))
  {
    forall q | q in s.calls ensures CallOk(s', q, Some(o)) {
      assert CallOk(s, q, None);
      LeftPush(s.leases.log, e, q);
    }
    forall q | q in s.leases.leases && q !in s.calls && LP.Working(s.leases.leases[q])
      ensures Left(s'.leases.log, q) == s.leases.leases[q].seen.record
    {
      LeftPush(s.leases.log, e, q);
    }
    forall j | 0 <= j < |s'.leases.log| ensures WriteOk(s', s'.leases.log[j]) {
      if j < |s.leases.log| { assert WriteOk(s, s.leases.log[j]); }
    }
  }

  lemma ExemptSound(s: State, o: Owner)
    requires Sound(s, None)
    ensures Sound(s, Some(o))
  {
    forall q | q in s.calls ensures CallOk(s, q, Some(o)) {
      assert CallOk(s, q, None);
    }
  }

  lemma PutSound(c: LP.Config, s: State, o: Owner, sid: Sid, w: Write)
    requires Sound(s, None) && o in s.calls && o in s.leases.leases && Carries(s.leases.leases[o], s.calls[o], sid)
    ensures Sound(Put(c, s, o, sid, w), Some(o))
    ensures Lands(s, o, w) ==> Names(Left(Put(c, s, o, sid, w).leases.log, o), sid)
  {
    var s' := Put(c, s, o, sid, w);
    if w.net.Dropped? || !OwnedBy(s.leases.item, o) {
      ExemptSound(s, o);
    } else {
      var e := LP.Wrote(o, Seal(c.kms, c.rid, Stamp(c.rid, RecordOf(c, sid, w), w.now, w.ttl)));
      EffectSound(s, s', o, e);
      LeftPush(s.leases.log, e, o);
    }
  }

  lemma DeleteSound(c: LP.Config, s: State, o: Owner, net: Net)
    requires Sound(s, None) && o in s.calls && o in s.leases.leases
    ensures Sound(Delete(c, s, o, net), Some(o))
  {
    if net.Dropped? || !OwnedBy(s.leases.item, o) {
      ExemptSound(s, o);
    } else {
      EffectSound(s, Delete(c, s, o, net), o, LP.Erased(o));
    }
  }

  lemma RememberedSound(c: LP.Config, s: State, o: Owner, sid: Sid, w: Write, landed: Call, not: Call, forget: set<Sid>)
    requires Sound(s, None) && Going(s, o) && !Over(s.calls[o].pc) && Carries(s.leases.leases[o], s.calls[o], sid)
    requires Targets(s.leases.leases[o], landed) && Served(landed) && landed.pc.sid == sid
    requires Targets(s.leases.leases[o], not) && (not.pc.Erasing? || not.pc.Failed?)
    requires landed.created == not.created == s.calls[o].created
    ensures Sound(Remembered(c, s, o, sid, w, landed, not, forget), None)
  {
    var x := ProcessOf(s, o);
    PutSound(c, s, o, sid, w);
    if Lands(s, o, w) {
      MoveSound(Put(c, s, o, sid, w), o, x.(cached := Some(sid)), landed);
    } else {
      MoveSound(Put(c, s, o, sid, w), o, x.(cached := None, live := x.live - forget), not);
    }
  }

  lemma LeftNamesRecord(c: LP.Config, s: State, o: Owner)
    requires Sound(s, None) && LP.Refines(c, s.leases) && Held(s, o) && o !in s.calls
    ensures Left(s.leases.log, o) == s.leases.leases[o].seen.record
    ensures var record := s.leases.leases[o].record; record.Some? ==>
      Names(Left(s.leases.log, o), record.value.sessionId)
  {
    assert LP.Fits(c, s.leases.log, LP.Play(s.leases.log).past, o, s.leases.leases[o]);
    LP.RecordIsWhatWasStored(c, s.leases.leases[o]);
  }

  /** A new call: a hit serves what the item holds, anything else has yet to touch it. */
  lemma BeginSound(c: LP.Config, s: State, o: Owner, detaches: bool)
    requires Sound(s, None) && LP.Refines(c, s.leases) && Enabled(s, Begin(o, detaches))
    ensures Sound(Began(s, o, detaches), None)
  {
    var record, x := s.leases.leases[o].record, ProcessOf(s, o);
    LeftNamesRecord(c, s, o);
    ExemptSound(s, o);
    MoveSound(s, o, CacheUsed(x, record), FirstCall(x, record, detaches));
  }

  // ---- protocol steps under calls ----------------------------------------------------------

  /** What protocol steps other than puts and deletes add to the log. */
  lemma ProtocolEffect(c: LP.Config, s: LP.State, step: LP.Step) returns (more: seq<LP.Effect>)
    requires !step.Put? && !step.Delete?
    ensures LP.Next(c, s, step).log == s.log + more && |more| <= 1
    ensures forall e :: e in more ==> !e.Wrote? && !e.Erased? && (e.Renewed? || e.Freed? ==> OwnedBy(s.item, e.owner))
    ensures forall e :: e in more && e.Began? ==>
      && (e.owner in s.leases ==> s.leases[e.owner].phase.Read?)
      && e.owner in LP.Next(c, s, step).leases && LP.Next(c, s, step).leases[e.owner].seen.record == s.item.record
  {
    var s' := LP.Next(c, s, step);
    if s'.log == s.log {
      more := [];
      assert s.log + [] == s.log;
    } else {
      more := [s'.log[|s'.log| - 1]];
    }
  }

  /** A lease begins to work only with the effect that begins it. */
  lemma BeginsWithEffect(c: LP.Config, s: LP.State, step: LP.Step, o: Owner)
    requires o in LP.Next(c, s, step).leases && LP.Working(LP.Next(c, s, step).leases[o])
    ensures LP.Next(c, s, step).log == s.log + [LP.Began(o)]
         || (o in s.leases && LP.Working(s.leases[o]) && LP.Next(c, s, step).leases[o].seen == s.leases[o].seen)
  {
  }

  /** A renewal or a release by `o`, or an effect that is not its own, changes nothing of what it left. */
  lemma LeftStays(c: LP.Config, s: LP.State, e: LP.Effect, o: Owner)
    requires LP.Refines(c, s) && !e.Wrote? && !e.Erased? && e != LP.Began(o)
    requires e.Renewed? || e.Freed? ==> OwnedBy(s.item, e.owner)
    ensures Left(s.log + [e], o) == Left(s.log, o)
  {
    LeftPush(s.log, e, o);
    if LP.By(e, o) { WriterIsLast(s.log, o); }
  }

  lemma ProtocolLeaves(c: LP.Config, s: LP.State, step: LP.Step, o: Owner)
    requires LP.Refines(c, s) && !step.Put? && !step.Delete? && o in s.leases && !s.leases[o].phase.Read?
    ensures Left(LP.Next(c, s, step).log, o) == Left(s.log, o)
  {
    var more := ProtocolEffect(c, s, step);
    if more == [] {
      assert s.log + [] == s.log;
    } else {
      assert more == [more[0]] && more[0] in more;
      LeftStays(c, s, more[0], o);
    }
  }

  lemma ProtocolSeen(c: LP.Config, s: LP.State, step: LP.Step, o: Owner)
    requires LP.Refines(c, s) && !step.Put? && !step.Delete?
    requires var s' := LP.Next(c, s, step); o in s'.leases && LP.Working(s'.leases[o])
    requires o in s.leases && LP.Working(s.leases[o]) ==> Left(s.log, o) == s.leases[o].seen.record
    ensures Left(LP.Next(c, s, step).log, o) == LP.Next(c, s, step).leases[o].seen.record
  {
    BeginsWithEffect(c, s, step, o);
    if LP.Next(c, s, step).log == s.log + [LP.Began(o)] {
      var more := ProtocolEffect(c, s, step);
      assert more == [LP.Began(o)] by {
        assert (s.log + more)[|s.log|..] == more && (s.log + [LP.Began(o)])[|s.log|..] == [LP.Began(o)];
      }
      assert LP.Began(o) in more;
      LeftPush(s.log, LP.Began(o), o);
    } else {
      ProtocolLeaves(c, s, step, o);
    }
  }

  lemma ProtocolSound(c: LP.Config, s: State, step: LP.Step)
    requires Sound(s, None) && LP.Refines(c, s.leases) && !step.Put? && !step.Delete?
    ensures Sound(s.(leases := LP.Next(c, s.leases, step)), None)
  {
    var s' := s.(leases := LP.Next(c, s.leases, step));
    forall o | o in s.calls ensures CallOk(s', o, None) {
      assert CallOk(s, o, None);
      SettledStays(c, s.leases, step, o);
      ProtocolLeaves(c, s.leases, step, o);
    }
    forall o | o in s'.leases.leases && o !in s.calls && LP.Working(s'.leases.leases[o])
      ensures Left(s'.leases.log, o) == s'.leases.leases[o].seen.record
    {
      ProtocolSeen(c, s.leases, step, o);
    }
    var more := ProtocolEffect(c, s.leases, step);
    forall j | 0 <= j < |s'.leases.log| ensures WriteOk(s', s'.leases.log[j]) {
      if j < |s.leases.log| {
        WriteStays(c, s, step, j);
      } else {
        assert s'.leases.log[j] in more;
      }
    }
  }

  lemma WriteStays(c: LP.Config, s: State, step: LP.Step, j: nat)
    requires Sound(s, None) && j < |s.leases.log|
    ensures WriteOk(s.(leases := LP.Next(c, s.leases, step)), s.leases.log[j])
  {
    assert WriteOk(s, s.leases.log[j]);
    if s.leases.log[j].Wrote? {
      assert CallOk(s, s.leases.log[j].owner, None);
      SettledStays(c, s.leases, step, s.leases.log[j].owner);
    }
  }

  lemma EndSound(s: State, p: nat, x: Process)
    requires Sound(s, None) && x.cached == ProcessAt(s.procs, p).cached && x.serving == ProcessAt(s.procs, p).serving
    ensures Sound(s.(procs := s.procs[p := x]), None)
  {
    var s' := s.(procs := s.procs[p := x]);
    forall o | o in s.calls ensures CallOk(s', o, None) {
      assert CallOk(s, o, None);
    }
    forall j | 0 <= j < |s.leases.log| ensures WriteOk(s', s.leases.log[j]) {
      assert WriteOk(s, s.leases.log[j]);
    }
  }

  // ---- every step, every run ---------------------------------------------------------------

  /** Steps that write a record. */
  lemma WriteStepSound(c: LP.Config, s: State, step: Step)
    requires Sound(s, None) && Enabled(s, step) && (step.Refresh? || step.RecordNew? || step.Remember? || step.Finish?)
    ensures Sound(Perform(c, s, step), None)
  {
    var o, w := step.owner, step.write;
    var k := s.calls[o];
    assert CallOk(s, o, None);
    ExemptSound(s, o);
    match step
    case Refresh(_, _) =>
      RememberedSound(c, s, o, k.pc.sid, w, k.(pc := Chosen(k.pc.sid)), k.(pc := Erasing), {});
    case RecordNew(_, _) =>
      RememberedSound(c, s, o, k.pc.sid, w, k.(pc := Chosen(k.pc.sid)), k.(pc := Failed), {k.pc.sid});
    case Remember(_, _) => RememberedSound(c, s, o, k.pc.sid, w, k, k.(pc := Failed), {});
    case Finish(_, _) =>
      if k.pc.sid !in ProcessOf(s, o).live {
        MoveSound(s, o, ProcessOf(s, o), k.(pc := Returned(k.pc.sid)));
      } else {
        RememberedSound(c, s, o, k.pc.sid, w, k.(pc := Returned(k.pc.sid)), k.(pc := Failed), {});
      }
  }

  /** Steps of a call that send nothing. */
  lemma QuietStepSound(c: LP.Config, s: State, step: Step)
    requires Sound(s, None) && Enabled(s, step) && (step.Attach? || step.CreateFails? || step.Raise?)
    ensures Sound(Perform(c, s, step), None)
  {
    var o := step.owner;
    assert CallOk(s, o, None);
    ExemptSound(s, o);
    match step
    case Attach(_, reachable) =>
      MoveSound(s, o, ProcessOf(Attached(s, o, reachable), o).(serving := None), Attached(s, o, reachable).calls[o]);
    case CreateFails(_) => MoveSound(s, o, ProcessOf(s, o), s.calls[o].(pc := Failed));
    case Raise(_) => MoveSound(s, o, ProcessOf(s, o), s.calls[o].(pc := Failed));
  }

  lemma CreateSound(c: LP.Config, s: State, o: Owner, sid: Sid)
    requires Sound(s, None) && Enabled(s, Create(o, sid))
    ensures Sound(Perform(c, s, Create(o, sid)), None)
  {
    var x := Process(Some(sid), ProcessOf(s, o).live[sid := o], None);
    var k := s.calls[o].(pc := Recording(sid), created := Some(sid));
    assert CallOk(s, o, None);
    ExemptSound(s, o);
    MoveSound(s, o, x, k);
    UsedAside(Move(s, o, x, k), s.used + {sid});
  }

  lemma DeletedSound(c: LP.Config, s: State, o: Owner, net: Net, x: Process, k: Call)
    requires Sound(s, None) && Going(s, o) && !Over(s.calls[o].pc)
    requires Targets(s.leases.leases[o], k) && (k.pc.Creating? || k.pc.Closed?) && k.created == s.calls[o].created
    ensures Sound(Move(Delete(c, s, o, net), o, x, k), None)
  {
    assert CallOk(s, o, None);
    DeleteSound(c, s, o, net);
    MoveSound(Delete(c, s, o, net), o, x, k);
  }

  lemma EraseSound(c: LP.Config, s: State, o: Owner, net: Net)
    requires Sound(s, None) && Enabled(s, Erase(o, net))
    ensures Sound(Perform(c, s, Erase(o, net)), None)
  {
    assert CallOk(s, o, None);
    DeletedSound(c, s, o, net, ProcessOf(s, o), s.calls[o].(pc := Creating));
  }

  lemma CloseSound(c: LP.Config, s: State, o: Owner, closes: bool, net: Net)
    requires Sound(s, None) && Enabled(s, Close(o, closes, net))
    ensures Sound(Perform(c, s, Close(o, closes, net)), None)
  {
    var k, x := s.calls[o], ProcessOf(s, o);
    var left := x.live - {k.pc.sid};
    assert CallOk(s, o, None);
    if closes {
      DeletedSound(c, s, o, net, Process(None, left, None), k.(pc := Closed));
    } else {
      ExemptSound(s, o);
      MoveSound(s, o, x.(live := left), k.(pc := Failed));
    }
  }

  lemma UsedAside(s: State, used: set<Sid>)
    requires Sound(s, None)
    ensures Sound(s.(used := used), None)
  {
    var s' := s.(used := used);
    forall o | o in s.calls ensures CallOk(s', o, None) {
      assert CallOk(s, o, None);
    }
    forall j | 0 <= j < |s.leases.log| ensures WriteOk(s', s.leases.log[j]) {
      assert WriteOk(s, s.leases.log[j]);
    }
  }

  lemma StepSound(c: LP.Config, s: State, step: Step)
    requires Sound(s, None) && LP.Refines(c, s.leases)
    ensures Sound(Next(c, s, step), None)
  {
    if Enabled(s, step) {
      match step
      case Protocol(e) => ProtocolSound(c, s, e);
      case Begin(o, detaches) => BeginSound(c, s, o, detaches);
      case End(p, sid) =>
        var x := ProcessAt(s.procs, p);
        EndSound(s, p, x.(live := x.live - {sid}));
      case Refresh(_, _) => WriteStepSound(c, s, step);
      case RecordNew(_, _) => WriteStepSound(c, s, step);
      case Remember(_, _) => WriteStepSound(c, s, step);
      case Finish(_, _) => WriteStepSound(c, s, step);
      case Create(o, sid) => CreateSound(c, s, o, sid);
      case Erase(o, net) => EraseSound(c, s, o, net);
      case Close(o, closes, net) => CloseSound(c, s, o, closes, net);
      case _ => QuietStepSound(c, s, step);
    }
  }

  lemma {:induction false} RunSound(c: LP.Config, clocks: seq<real>, steps: seq<Step>)
    ensures Sound(Run(c, clocks, steps), None)
  {
    if steps != [] {
      var before := steps[..|steps| - 1];
      RunSound(c, clocks, before);
      RunRefines(c, clocks, before);
      StepSound(c, Run(c, clocks, before), steps[|steps| - 1]);
    }
  }
}
