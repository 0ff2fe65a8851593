/** Short runs of calls, to show that what the theorems about all runs leave open does happen. */
module Scenes {
  import opened Prelude
  import opened CallSteps
  import opened SessionItem
  import opened Stickiness
  import opened Handover
  import opened LostRefresh
  import LP = LeaseProtocol

  function After(c: LP.Config, s: State, steps: seq<Step>): State
    decreases |steps|
  {
    if steps == [] then s else After(c, Next(c, s, steps[0]), steps[1..])
  }

  lemma {:induction false} AfterAppend(c: LP.Config, s: State, a: seq<Step>, b: seq<Step>)
    ensures After(c, s, a + b) == After(c, After(c, s, a), b)
    decreases |a|
  {
    if a == [] {
      assert a + b == b;
    } else {
      assert (a + b)[1..] == a[1..] + b;
      AfterAppend(c, Next(c, s, a[0]), a[1..], b);
    }
  }

  lemma {:induction false} RunIsAfter(c: LP.Config, clocks: seq<real>, steps: seq<Step>)
    ensures Run(c, clocks, steps) == After(c, Init(clocks), steps)
  {
    if steps != [] {
      var n := |steps| - 1;
      RunIsAfter(c, clocks, steps[..n]);
      assert steps == steps[..n] + [steps[n]];
      AfterAppend(c, Init(clocks), steps[..n], [steps[n]]);
      assert [steps[n]][1..] == [];
    }
  }

  // ---- taking and giving back a lease ----------------------------------------------------------

  function Acquire(o: Owner, p: nat): seq<Step> {
    [Protocol(LP.Create(o, p)), Protocol(LP.ReadClock(o)), Protocol(LP.TryAcquire(o)), Protocol(LP.Adopt(o))]
  }

  function Taken(s: LP.State, o: Owner, p: nat, record: Option<Record>): LP.Lease
    requires p < |s.clocks|
  {
    var now := Trunc(s.clocks[p]);
    LP.Lease(p, LP.Held, LP.Idle, now + LEASE_SECONDS, false, Grant(s.item, o, now), record, s.clocks[p])
  }

  lemma FourSteps(c: LP.Config, s: State, a: Step, b: Step, d: Step, e: Step)
    ensures After(c, s, [a, b, d, e]) == Next(c, Next(c, Next(c, Next(c, s, a), b), d), e)
  {
    var s1 := Next(c, s, a);
    var s2 := Next(c, s1, b);
    var s3 := Next(c, s2, d);
    assert [a, b, d, e][1..] == [b, d, e] && [b, d, e][1..] == [d, e] && [d, e][1..] == [e] && [e][1..] == [];
    assert After(c, s, [a, b, d, e]) == After(c, s1, [b, d, e]);
    assert After(c, s1, [b, d, e]) == After(c, s2, [d, e]);
    assert After(c, s2, [d, e]) == After(c, s3, [e]);
    assert After(c, s3, [e]) == After(c, Next(c, s3, e), []);
  }

  lemma TwoSteps(c: LP.Config, s: State, a: Step, b: Step)
    ensures After(c, s, [a, b]) == Next(c, Next(c, s, a), b)
  {
    assert [a, b][1..] == [b] && [b][1..] == [];
    assert After(c, Next(c, s, a), [b]) == After(c, Next(c, Next(c, s, a), b), []);
  }

  /** A new lease that has read its clock. */
  function Asking(s: LP.State, p: nat): LP.Lease
    requires p < |s.clocks|
  {
    LP.NewLease(p).(phase := LP.Read(Trunc(s.clocks[p])))
  }

  lemma Asks(c: LP.Config, s: State, o: Owner, p: nat)
    requires o !in s.leases.leases && p < |s.leases.clocks|
    ensures Next(c, Next(c, s, Protocol(LP.Create(o, p))), Protocol(LP.ReadClock(o))) ==
      s.(leases := LP.Set(s.leases, o, Asking(s.leases, p)))
  {
    var s1 := s.(leases := LP.Set(s.leases, o, LP.NewLease(p)));
    assert Next(c, s, Protocol(LP.Create(o, p))) == s1;
    assert s1.leases.leases[o := Asking(s.leases, p)] == s.leases.leases[o := Asking(s.leases, p)];
  }

  lemma IsGranted(c: LP.Config, s: State, o: Owner, p: nat)
    requires p < |s.leases.clocks| && o in s.leases.leases && s.leases.leases[o] == Asking(s.leases, p)
    requires CanGrant(s.leases.item, Trunc(s.leases.clocks[p]))
    requires Visible(c.kms, c.rid, Grant(s.leases.item, o, Trunc(s.leases.clocks[p])), s.leases.clocks[p]).Ok?
    ensures var item := Grant(s.leases.item, o, Trunc(s.leases.clocks[p]));
      var record := Visible(c.kms, c.rid, item, s.leases.clocks[p]).value;
      Next(c, Next(c, s, Protocol(LP.TryAcquire(o))), Protocol(LP.Adopt(o))) == s.(leases := LP.State(
        item, s.leases.clocks, s.leases.leases[o := Taken(s.leases, o, p, record)], s.leases.log + [LP.Began(o)]))
  {
    var now := Trunc(s.leases.clocks[p]);
    var item := Grant(s.leases.item, o, now);
    var l := LP.NewLease(p).(phase := LP.Granted(now), seen := item);
    assert Next(c, s, Protocol(LP.TryAcquire(o))) ==
      s.(leases := LP.State(item, s.leases.clocks, s.leases.leases[o := l], s.leases.log + [LP.Began(o)]));
  }

  lemma Acquires(c: LP.Config, s: State, o: Owner, p: nat)
    requires o !in s.leases.leases && p < |s.leases.clocks| && CanGrant(s.leases.item, Trunc(s.leases.clocks[p]))
    requires Visible(c.kms, c.rid, Grant(s.leases.item, o, Trunc(s.leases.clocks[p])), s.leases.clocks[p]).Ok?
    ensures var now := Trunc(s.leases.clocks[p]); var item := Grant(s.leases.item, o, now);
      var record := Visible(c.kms, c.rid, item, s.leases.clocks[p]).value;
      After(c, s, Acquire(o, p)) == s.(leases := LP.State(item, s.leases.clocks,
        s.leases.leases[o := Taken(s.leases, o, p, record)], s.leases.log + [LP.Began(o)]))
  {
    FourSteps(c, s, Protocol(LP.Create(o, p)), Protocol(LP.ReadClock(o)), Protocol(LP.TryAcquire(o)),
              Protocol(LP.Adopt(o)));
    Asks(c, s, o, p);
    IsGranted(c, s.(leases := LP.Set(s.leases, o, Asking(s.leases, p))), o, p);
  }

  lemma RunThenAfter(c: LP.Config, clocks: seq<real>, steps: seq<Step>, more: seq<Step>)
    ensures Run(c, clocks, steps + more) == After(c, Run(c, clocks, steps), more)
  {
    RunIsAfter(c, clocks, steps);
    RunIsAfter(c, clocks, steps + more);
    AfterAppend(c, Init(clocks), steps, more);
  }

  /** What a new lease makes of a stored record that has not expired. */
  lemma HandsOver(c: LP.Config, s: State, o: Owner, p: nat, v: Stored)
    requires LP.Refines(c, s.leases) && p < |s.leases.clocks| && s.leases.item.record == Some(v)
    requires s.leases.clocks[p] <= v.record.expiresAt as real
    ensures var seen := Visible(c.kms, c.rid, Grant(s.leases.item, o, Trunc(s.leases.clocks[p])), s.leases.clocks[p]);
      seen.Ok? && seen.value.Some? && seen.value.value.sessionId == v.record.sessionId
  {
    LP.WellSealedOpens(c, Grant(s.leases.item, o, Trunc(s.leases.clocks[p])), s.leases.clocks[p]);
  }

  lemma CallsHaveLeases(s: State, o: Owner)
    requires Sound(s, None)
    ensures o in s.calls ==> o in s.leases.leases
  {
    if o in s.calls { assert CallOk(s, o, None); }
  }

  function Recovering(o: Owner, p: nat, refresh: Write, finish: Write): seq<Step> {
    Acquire(o, p) + [Begin(o, true), Attach(o, true), Refresh(o, refresh), Finish(o, finish)]
  }

  /** From every state of every run, whatever happened to the process that held the lease: as soon as its time is up
      by the clock of an idle process, a call of that process gets the item and returns the session of the record,
      unless that has expired. */
  lemma RecordedSessionIsRecovered(c: LP.Config, clocks: seq<real>, steps: seq<Step>, s: State, o: Owner, p: nat,
                                   v: Stored, refresh: Write, finish: Write)
    requires s == Run(c, clocks, steps) && o !in s.leases.leases && p < |s.leases.clocks|
    requires ProcessAt(s.procs, p).serving.None? && refresh.net.Acked? && finish.net.Acked?
    requires s.leases.item.holder.None? || s.leases.item.holder.value.until < Trunc(s.leases.clocks[p])
    requires s.leases.item.record == Some(v) && s.leases.clocks[p] <= v.record.expiresAt as real
    requires ValidSid(v.record.sessionId)
    ensures var r := Run(c, clocks, steps + Recovering(o, p, refresh, finish));
      o in r.calls && r.calls[o].pc == Returned(v.record.sessionId)
  {
    RunRefines(c, clocks, steps);
    RunSound(c, clocks, steps);
    HandsOver(c, s, o, p, v);
    Acquires(c, s, o, p);
    var s1 := After(c, s, Acquire(o, p));
    CallsHaveLeases(s, o);
    CanFollow(c, s1, o, refresh, finish);
    FourSteps(c, s1, Begin(o, true), Attach(o, true), Refresh(o, refresh), Finish(o, finish));
    AfterAppend(c, s, Acquire(o, p), [Begin(o, true), Attach(o, true), Refresh(o, refresh), Finish(o, finish)]);
    RunThenAfter(c, clocks, steps, Recovering(o, p, refresh, finish));
  }

  function GiveBack(o: Owner): seq<Step> {
    [Protocol(LP.ReleaseCall(o)), Protocol(LP.ReleaseSend(o, true))]
  }

  lemma GivesBack(c: LP.Config, s: State, o: Owner)
    requires Held(s, o) && LP.Subject(s.leases, o) && OwnedBy(s.leases.item, o)
      && (o in s.calls ==> Over(s.calls[o].pc))
    ensures var l := s.leases.leases[o];
      After(c, s, GiveBack(o)) == s.(leases := LP.State(Free(s.leases.item), s.leases.clocks,
        s.leases.leases[o := l.(phase := LP.Finished)], s.leases.log + [LP.Freed(o)]))
  {
    var l := s.leases.leases[o];
    var s1 := s.(leases := LP.Set(s.leases, o, l.(phase := LP.Releasing)));
    assert Next(c, s, Protocol(LP.ReleaseCall(o))) == s1;
    TwoSteps(c, s, Protocol(LP.ReleaseCall(o)), Protocol(LP.ReleaseSend(o, true)));
    assert s1.leases.leases[o := l.(phase := LP.Finished)] == s.leases.leases[o := l.(phase := LP.Finished)];
  }

  // ---- a call that creates a session -----------------------------------------------------------------------------

  function Named(c: LP.Config, sid: Sid, w: Write): Stored {
    Seal(c.kms, c.rid, Stamp(c.rid, RecordOf(c, sid, w), w.now, w.ttl))
  }

  /** A process with nothing cached, serving nothing. */
  predicate Blank(s: State, o: Owner)
    requires o in s.leases.leases
  {
    ProcessOf(s, o) == Process(None, map[], None)
  }

  /** The state after a put of `o` that arrived. */
  function Stored(c: LP.Config, s: State, o: Owner, sid: Sid, w: Write): State {
    s.(leases := s.leases.(item := SessionItem.Write(s.leases.item, Named(c, sid, w)),
                           log := s.leases.log + [LP.Wrote(o, Named(c, sid, w))]))
  }

  lemma PutStores(c: LP.Config, s: State, o: Owner, sid: Sid, w: Write)
    requires Held(s, o) && OwnedBy(s.leases.item, o) && !w.net.Dropped?
    ensures Put(c, s, o, sid, w) == Stored(c, s, o, sid, w)
  {
  }

  /** Only the call of `o`, its process and the item differ. */
  ghost predicate OnlyMoved(s: State, s': State, o: Owner) {
    && o in s.leases.leases && s'.leases.leases == s.leases.leases && s'.leases.clocks == s.leases.clocks
    && (forall q :: q != s.leases.leases[o].proc ==> ProcessAt(s'.procs, q) == ProcessAt(s.procs, q))
    && (forall q :: q != o ==> (q in s'.calls <==> q in s.calls) && (q in s.calls ==> s'.calls[q] == s.calls[q]))
  }

  /** The call of `o` stands at `k`, its process at `x`. */
  predicate At(s: State, o: Owner, x: Process, k: Call) {
    o in s.leases.leases && o in s.calls && s.calls[o] == k && ProcessOf(s, o) == x
  }

  lemma Moves(s: State, o: Owner, x: Process, k: Call)
    requires o in s.leases.leases
    ensures OnlyMoved(s, Move(s, o, x, k), o)
    ensures At(Move(s, o, x, k), o, x.(serving := if Over(k.pc) then None else Some(o)), k)
  {
  }

  lemma Begins(c: LP.Config, s: State, o: Owner)
    requires Held(s, o) && o !in s.calls && Blank(s, o)
    ensures var s' := Next(c, s, Begin(o, true)); var record := s.leases.leases[o].record;
      && OnlyMoved(s, s', o) && s'.leases == s.leases && s'.used == s.used
      && At(s', o, Process(None, map[], Some(o)),
            Call(if record.Some? then Attaching(record.value.sessionId) else Creating, None))
  {
    var record := s.leases.leases[o].record;
    Moves(s, o, Process(None, map[], None), FirstCall(Process(None, map[], None), record, true));
  }

  lemma Attaches(c: LP.Config, s: State, o: Owner, sid: Sid)
    requires Held(s, o) && ValidSid(sid) && At(s, o, Process(None, map[], Some(o)), Call(Attaching(sid), None))
    ensures var s' := Next(c, s, Attach(o, true));
      && OnlyMoved(s, s', o) && s'.leases == s.leases && s'.used == s.used
      && At(s', o, Process(Some(sid), map[sid := o], Some(o)), Call(Refreshing(sid), None))
  {
    Moves(s, o, Process(Some(sid), map[sid := o], None), Call(Refreshing(sid), None));
    assert map[][sid := o] == map[sid := o];
  }

  lemma Creates(c: LP.Config, s: State, o: Owner, sid: Sid, x: Process)
    requires Held(s, o) && sid !in s.used && At(s, o, x, Call(Creating, None))
    ensures var s' := Next(c, s, Create(o, sid));
      && OnlyMoved(s, s', o) && s'.leases == s.leases && s'.used == s.used + {sid}
      && At(s', o, Process(Some(sid), x.live[sid := o], Some(o)), Call(Recording(sid), Some(sid)))
  {
    Moves(s, o, Process(Some(sid), x.live[sid := o], None), Call(Recording(sid), Some(sid)));
  }

  /** A record write that lands. */
  lemma Lands(c: LP.Config, s: State, o: Owner, sid: Sid, w: Write, landed: Call, not: Call, forget: set<Sid>)
    requires Held(s, o) && OwnedBy(s.leases.item, o) && w.net.Acked?
    ensures var s' := Remembered(c, s, o, sid, w, landed, not, forget);
      && OnlyMoved(s, s', o) && s'.leases == Stored(c, s, o, sid, w).leases && s'.used == s.used
      && OwnedBy(s'.leases.item, o) && Held(s', o)
      && At(s', o, Process(Some(sid), ProcessOf(s, o).live, if Over(landed.pc) then None else Some(o)), landed)
  {
    PutStores(c, s, o, sid, w);
    Moves(Stored(c, s, o, sid, w), o, ProcessOf(s, o).(cached := Some(sid)), landed);
  }

  /** A record write that is carried out but not acknowledged. */
  lemma LosesReply(c: LP.Config, s: State, o: Owner, sid: Sid, w: Write, landed: Call, not: Call)
    requires Held(s, o) && OwnedBy(s.leases.item, o) && w.net.Unacked?
    ensures var s' := Remembered(c, s, o, sid, w, landed, not, {});
      && OnlyMoved(s, s', o) && s'.leases == Stored(c, s, o, sid, w).leases && s'.used == s.used
      && OwnedBy(s'.leases.item, o) && Held(s', o)
      && At(s', o, Process(None, ProcessOf(s, o).live, if Over(not.pc) then None else Some(o)), not)
  {
    var x := ProcessOf(s, o);
    PutStores(c, s, o, sid, w);
    assert x.live - {} == x.live;
    Moves(Stored(c, s, o, sid, w), o, x.(cached := None), not);
  }

  function Opening(o: Owner, sid: Sid): seq<Step> {
    [Begin(o, true), Create(o, sid)]
  }

  lemma Opens(c: LP.Config, s: State, o: Owner, sid: Sid)
    requires Held(s, o) && o !in s.calls && Blank(s, o) && s.leases.leases[o].record.None? && sid !in s.used
    ensures var s' := After(c, s, Opening(o, sid));
      && OnlyMoved(s, s', o) && s'.leases == s.leases && s'.used == s.used + {sid}
      && At(s', o, Process(Some(sid), map[sid := o], Some(o)), Call(Recording(sid), Some(sid)))
  {
    Begins(c, s, o);
    Creates(c, Next(c, s, Begin(o, true)), o, sid, Process(None, map[], Some(o)));
    assert map[][sid := o] == map[sid := o];
    TwoSteps(c, s, Begin(o, true), Create(o, sid));
  }

  function Recorded(o: Owner, w: Write, last: Write): seq<Step> {
    [RecordNew(o, w), Finish(o, last)]
  }

  lemma Records(c: LP.Config, s: State, o: Owner, sid: Sid, w: Write, last: Write, live: map<Sid, Owner>)
    requires Held(s, o) && OwnedBy(s.leases.item, o) && w.net.Acked? && last.net.Acked? && sid in live
    requires At(s, o, Process(Some(sid), live, Some(o)), Call(Recording(sid), Some(sid)))
    ensures var s' := After(c, s, Recorded(o, w, last));
      && OnlyMoved(s, s', o) && At(s', o, Process(Some(sid), live, None), Call(Returned(sid), Some(sid)))
      && s'.leases.item == SessionItem.Write(s.leases.item, Named(c, sid, last)) && s'.used == s.used
  {
    Lands(c, s, o, sid, w, Call(Chosen(sid), Some(sid)), Call(Failed, Some(sid)), {sid});
    var s1 := Next(c, s, RecordNew(o, w));
    Lands(c, s1, o, sid, last, Call(Returned(sid), Some(sid)), Call(Failed, Some(sid)), {});
    TwoSteps(c, s, RecordNew(o, w), Finish(o, last));
  }

  function ServeNew(o: Owner, sid: Sid, w: Write): seq<Step> {
    Opening(o, sid) + Recorded(o, w, w)
  }

  /** The process is left with the new session cached and guarded by this lease. */
  lemma ServesNew(c: LP.Config, s: State, o: Owner, sid: Sid, w: Write)
    requires Held(s, o) && o !in s.calls && Blank(s, o) && OwnedBy(s.leases.item, o) && w.net.Acked?
    requires s.leases.leases[o].record.None? && sid !in s.used
    ensures var s' := After(c, s, ServeNew(o, sid, w));
      && OnlyMoved(s, s', o) && At(s', o, Process(Some(sid), map[sid := o], None), Call(Returned(sid), Some(sid)))
      && s'.leases.item == SessionItem.Write(s.leases.item, Named(c, sid, w)) && s'.used == s.used + {sid}
  {
    Opens(c, s, o, sid);
    Records(c, After(c, s, Opening(o, sid)), o, sid, w, w, map[sid := o]);
    AfterAppend(c, s, Opening(o, sid), Recorded(o, w, w));
  }

  // ---- a call that cannot follow its record ------------------------------------------------------

  /** The recorded session is out of reach, and its record is deleted. */
  function TurningAway(o: Owner, net: Net): seq<Step> {
    [Begin(o, true), Attach(o, false)] + [Erase(o, net)]
  }

  function StartingAfresh(o: Owner, net: Net, sid: Sid, w: Write, last: Write): seq<Step> {
    TurningAway(o, net) + ([Create(o, sid)] + Recorded(o, w, last))
  }

  lemma OneStep(c: LP.Config, s: State, a: Step)
    ensures After(c, s, [a]) == Next(c, s, a)
  {
    assert [a][1..] == [];
    assert After(c, Next(c, s, a), []) == Next(c, s, a);
  }

  lemma TurnsAway(c: LP.Config, s: State, o: Owner, net: Net)
    requires Held(s, o) && o !in s.calls && ProcessOf(s, o).serving.None? && OwnedBy(s.leases.item, o)
    requires var record := s.leases.leases[o].record; record.Some? && record.value.sessionId !in ProcessOf(s, o).live
    ensures var s' := After(c, s, TurningAway(o, net));
      && Going(s', o) && s'.calls[o] == Call(Creating, None) && ProcessOf(s', o).serving == Some(o)
      && s'.used == s.used && OwnedBy(s'.leases.item, o)
      && s'.leases.item == (if net.Dropped? then s.leases.item else s.leases.item.(record := None))
  {
    CannotAdopt(c, s, o);
    var s1 := After(c, s, [Begin(o, true), Attach(o, false)]);
    OneStep(c, s1, Erase(o, net));
    ErasesTheRecord(c, s1, Erase(o, net));
    AfterAppend(c, s, [Begin(o, true), Attach(o, false)], [Erase(o, net)]);
  }

  lemma CannotAdopt(c: LP.Config, s: State, o: Owner)
    requires Held(s, o) && o !in s.calls && ProcessOf(s, o).serving.None?
    requires var record := s.leases.leases[o].record; record.Some? && record.value.sessionId !in ProcessOf(s, o).live
    ensures var s' := After(c, s, [Begin(o, true), Attach(o, false)]);
      && Going(s', o) && s'.calls[o] == Call(Erasing, None) && ProcessOf(s', o).serving == Some(o)
      && s'.used == s.used && s'.leases == s.leases
  {
    TwoSteps(c, s, Begin(o, true), Attach(o, false));
  }

  lemma RecordsAfresh(c: LP.Config, s: State, o: Owner, sid: Sid, w: Write, last: Write)
    requires Going(s, o) && s.calls[o] == Call(Creating, None) && ProcessOf(s, o).serving == Some(o)
    requires OwnedBy(s.leases.item, o) && sid !in s.used && w.net.Acked? && last.net.Acked?
    ensures var s' := After(c, s, [Create(o, sid)] + Recorded(o, w, last));
      && o in s'.calls && s'.calls[o] == Call(Returned(sid), Some(sid))
      && Names(s'.leases.item.record, sid) && s'.leases.item.expiresAt == Some(last.now + last.ttl)
  {
    AfterAppend(c, s, [Create(o, sid)], Recorded(o, w, last));
    var live := ProcessOf(s, o).live[sid := o];
    CreatesOne(c, s, o, sid, live);
    RecordedAfresh(c, After(c, s, [Create(o, sid)]), o, sid, w, last, live);
  }

  lemma RecordedAfresh(c: LP.Config, s: State, o: Owner, sid: Sid, w: Write, last: Write, live: map<Sid, Owner>)
    requires Held(s, o) && OwnedBy(s.leases.item, o) && w.net.Acked? && last.net.Acked? && sid in live
    requires At(s, o, Process(Some(sid), live, Some(o)), Call(Recording(sid), Some(sid)))
    ensures var s' := After(c, s, Recorded(o, w, last));
      && o in s'.calls && s'.calls[o] == Call(Returned(sid), Some(sid))
      && Names(s'.leases.item.record, sid) && s'.leases.item.expiresAt == Some(last.now + last.ttl)
  {
    Records(c, s, o, sid, w, last, live);
  }

  lemma CreatesOne(c: LP.Config, s: State, o: Owner, sid: Sid, live: map<Sid, Owner>)
    requires Going(s, o) && s.calls[o] == Call(Creating, None) && ProcessOf(s, o).serving == Some(o)
    requires sid !in s.used && live == ProcessOf(s, o).live[sid := o]
    ensures var s' := After(c, s, [Create(o, sid)]);
      && OnlyMoved(s, s', o) && s'.leases == s.leases
      && At(s', o, Process(Some(sid), live, Some(o)), Call(Recording(sid), Some(sid)))
  {
    Creates(c, s, o, sid, ProcessOf(s, o));
    OneStep(c, s, Create(o, sid));
  }

  /** From every state in which a call begins whose recorded session is out of reach: the record is deleted, and the
      call goes on to return a new session, which the item names afterwards. */
  lemma StartsAfresh(c: LP.Config, s: State, o: Owner, net: Net, sid: Sid, w: Write, last: Write)
    requires Held(s, o) && o !in s.calls && ProcessOf(s, o).serving.None? && OwnedBy(s.leases.item, o)
    requires var record := s.leases.leases[o].record; record.Some? && record.value.sessionId !in ProcessOf(s, o).live
    requires sid !in s.used && w.net.Acked? && last.net.Acked?
    ensures var s' := After(c, s, TurningAway(o, net));
      s'.leases.item == if net.Dropped? then s.leases.item else s.leases.item.(record := None)
    ensures var s' := After(c, s, StartingAfresh(o, net, sid, w, last));
      && o in s'.calls && s'.calls[o] == Call(Returned(sid), Some(sid))
      && Names(s'.leases.item.record, sid) && s'.leases.item.expiresAt == Some(last.now + last.ttl)
  {
    TurnsAway(c, s, o, net);
    RecordsAfresh(c, After(c, s, TurningAway(o, net)), o, sid, w, last);
    AfterAppend(c, s, TurningAway(o, net), [Create(o, sid)] + Recorded(o, w, last));
  }

  // ---- a call in another process ---------------------------------------------------------------

  function Adopting(o: Owner): seq<Step> {
    [Begin(o, true), Attach(o, true)]
  }

  lemma Adopts(c: LP.Config, s: State, o: Owner, sid: Sid)
    requires Held(s, o) && o !in s.calls && Blank(s, o) && ValidSid(sid)
    requires s.leases.leases[o].record.Some? && s.leases.leases[o].record.value.sessionId == sid
    ensures var s' := After(c, s, Adopting(o));
      && OnlyMoved(s, s', o) && s'.leases == s.leases && s'.used == s.used
      && At(s', o, Process(Some(sid), map[sid := o], Some(o)), Call(Refreshing(sid), None))
  {
    Begins(c, s, o);
    Attaches(c, Next(c, s, Begin(o, true)), o, sid);
    TwoSteps(c, s, Begin(o, true), Attach(o, true));
  }

  function Confirming(o: Owner, w: Write): seq<Step> {
    [Refresh(o, w), Finish(o, w)]
  }

  lemma Confirms(c: LP.Config, s: State, o: Owner, sid: Sid, w: Write)
    requires Held(s, o) && OwnedBy(s.leases.item, o) && w.net.Acked?
    requires At(s, o, Process(Some(sid), map[sid := o], Some(o)), Call(Refreshing(sid), None))
    ensures var s' := After(c, s, Confirming(o, w));
      OnlyMoved(s, s', o) && At(s', o, Process(Some(sid), map[sid := o], None), Call(Returned(sid), None))
  {
    Lands(c, s, o, sid, w, Call(Chosen(sid), None), Call(Erasing, None), {});
    var s1 := Next(c, s, Refresh(o, w));
    Lands(c, s1, o, sid, w, Call(Returned(sid), None), Call(Failed, None), {});
    TwoSteps(c, s, Refresh(o, w), Finish(o, w));
  }

  function Follow(o: Owner, w: Write): seq<Step> {
    Adopting(o) + Confirming(o, w)
  }

  lemma Follows(c: LP.Config, s: State, o: Owner, sid: Sid, w: Write)
    requires Held(s, o) && o !in s.calls && Blank(s, o) && OwnedBy(s.leases.item, o) && w.net.Acked? && ValidSid(sid)
    requires s.leases.leases[o].record.Some? && s.leases.leases[o].record.value.sessionId == sid
    ensures var s' := After(c, s, Follow(o, w));
      OnlyMoved(s, s', o) && At(s', o, Process(Some(sid), map[sid := o], None), Call(Returned(sid), None))
  {
    Adopts(c, s, o, sid);
    Confirms(c, After(c, s, Adopting(o)), o, sid, w);
    AfterAppend(c, s, Adopting(o), Confirming(o, w));
  }

  // ---- a call whose refresh loses its reply ------------------------------------------------------

  /** The refresh is carried out, the delete after it is not. */
  function Losing(o: Owner, lost: Write): seq<Step> {
    [Refresh(o, lost), Erase(o, Dropped)]
  }

  lemma Loses(c: LP.Config, s: State, o: Owner, sid: Sid, lost: Write, x: Process)
    requires Held(s, o) && OwnedBy(s.leases.item, o) && lost.net.Unacked?
    requires At(s, o, Process(Some(sid), map[sid := o], Some(o)), Call(Refreshing(sid), None))
    requires x == Process(None, map[sid := o], Some(o))
    ensures var s' := After(c, s, Losing(o, lost));
      && OnlyMoved(s, s', o) && At(s', o, x, Call(Creating, None)) && OwnedBy(s'.leases.item, o) && s'.used == s.used
      && s'.leases.log == s.leases.log + [LP.Wrote(o, Named(c, sid, lost))]
  {
    LosesReply(c, s, o, sid, lost, Call(Chosen(sid), None), Call(Erasing, None));
    var s1 := Next(c, s, Refresh(o, lost));
    Moves(s1, o, x, Call(Creating, None));
    assert Next(c, s1, Erase(o, Dropped)) == Move(s1, o, x, Call(Creating, None));
    TwoSteps(c, s, Refresh(o, lost), Erase(o, Dropped));
  }

  function Replacing(o: Owner, sid: Sid, w: Write): seq<Step> {
    [Create(o, sid), RecordNew(o, w)]
  }

  lemma Replaces(c: LP.Config, s: State, o: Owner, sid: Sid, w: Write, x: Process)
    requires Held(s, o) && OwnedBy(s.leases.item, o) && w.net.Acked? && sid !in s.used
      && At(s, o, x, Call(Creating, None))
    ensures var s' := After(c, s, Replacing(o, sid, w));
      && OnlyMoved(s, s', o) && o in s'.calls && s'.calls[o] == Call(Chosen(sid), Some(sid))
      && s'.leases.log == s.leases.log + [LP.Wrote(o, Named(c, sid, w))]
  {
    Creates(c, s, o, sid, x);
    var s1 := Next(c, s, Create(o, sid));
    Lands(c, s1, o, sid, w, Call(Chosen(sid), Some(sid)), Call(Failed, Some(sid)), {sid});
    TwoSteps(c, s, Create(o, sid), RecordNew(o, w));
  }

  function LoseTheRefresh(o: Owner, sid: Sid, lost: Write, w: Write): seq<Step> {
    Adopting(o) + Losing(o, lost) + Replacing(o, sid, w)
  }

  lemma LosesTheRefresh(c: LP.Config, s: State, o: Owner, first: Sid, sid: Sid, lost: Write, w: Write)
    requires Held(s, o) && o !in s.calls && Blank(s, o) && OwnedBy(s.leases.item, o) && ValidSid(first)
    requires w.net.Acked? && lost.net.Unacked? && sid !in s.used
    requires s.leases.leases[o].record.Some? && s.leases.leases[o].record.value.sessionId == first
    ensures var s' := After(c, s, LoseTheRefresh(o, sid, lost, w));
      && OnlyMoved(s, s', o) && o in s'.calls && s'.calls[o] == Call(Chosen(sid), Some(sid))
      && s'.leases.log == s.leases.log + [LP.Wrote(o, Named(c, first, lost))] + [LP.Wrote(o, Named(c, sid, w))]
  {
    var x := Process(None, map[first := o], Some(o));
    Adopts(c, s, o, first);
    var s1 := After(c, s, Adopting(o));
    Loses(c, s1, o, first, lost, x);
    AfterAppend(c, s, Adopting(o), Losing(o, lost));
    Replaces(c, After(c, s1, Losing(o, lost)), o, sid, w, x);
    AfterAppend(c, s, Adopting(o) + Losing(o, lost), Replacing(o, sid, w));
  }

  // ---- whole runs -------------------------------------------------------------------------------

  /** The first process serves a new session and gives its lease back. */
  function FirstServes(sid: Sid, w: Write): seq<Step> {
    Acquire(0, 0) + ServeNew(0, sid, w) + GiveBack(0)
  }

  lemma FirstAcquires(c: LP.Config, clocks: seq<real>)
    requires |clocks| >= 2
    ensures var s := After(c, Init(clocks), Acquire(0, 0));
      && s.procs == map[] && s.calls == map[] && s.used == {} && s.leases.clocks == clocks
      && s.leases.leases == map[0 := Taken(LP.Init(clocks), 0, 0, None)] && OwnedBy(s.leases.item, 0)
  {
    Acquires(c, Init(clocks), 0, 0);
    assert map[][0 := Taken(LP.Init(clocks), 0, 0, None)] == map[0 := Taken(LP.Init(clocks), 0, 0, None)];
  }

  /** What the first process leaves: the item free, with the record, and its session cached and guarded. */
  ghost predicate ServedOnce(c: LP.Config, s: State, clocks: seq<real>, sid: Sid, w: Write)
    requires |clocks| >= 2
  {
    && s.leases.clocks == clocks && s.used == {sid} && s.calls.Keys == {0}
    && s.leases.leases == map[0 := Taken(LP.Init(clocks), 0, 0, None).(phase := LP.Finished)]
    && s.leases.item == Item(None, Some(Named(c, sid, w)), Some(w.now + w.ttl))
    && ProcessAt(s.procs, 0) == Process(Some(sid), map[sid := 0], None)
    && (forall q :: q != 0 ==> ProcessAt(s.procs, q) == Process(None, map[], None))
  }

  lemma FirstServesOnce(c: LP.Config, clocks: seq<real>, sid: Sid, w: Write)
    requires |clocks| >= 2 && w.net.Acked?
    ensures ServedOnce(c, After(c, Init(clocks), FirstServes(sid, w)), clocks, sid, w)
  {
    var init := Init(clocks);
    FirstAcquires(c, clocks);
    var s1 := After(c, init, Acquire(0, 0));
    ServesNew(c, s1, 0, sid, w);
    var s2 := After(c, s1, ServeNew(0, sid, w));
    AfterAppend(c, init, Acquire(0, 0), ServeNew(0, sid, w));
    GivesBack(c, s2, 0);
    AfterAppend(c, init, Acquire(0, 0) + ServeNew(0, sid, w), GiveBack(0));
    GivenBack(c, s1, s2, After(c, s2, GiveBack(0)), clocks, sid, w);
  }

  lemma GivenBack(c: LP.Config, s1: State, s2: State, s: State, clocks: seq<real>, sid: Sid, w: Write)
    requires |clocks| >= 2 && s1.procs == map[] && s1.calls == map[] && s1.leases.clocks == clocks
    requires s1.leases.leases == map[0 := Taken(LP.Init(clocks), 0, 0, None)]
    requires OnlyMoved(s1, s2, 0) && At(s2, 0, Process(Some(sid), map[sid := 0], None), Call(Returned(sid), Some(sid)))
    requires s2.used == {sid} && s2.leases.item == SessionItem.Write(s1.leases.item, Named(c, sid, w))
    requires s.procs == s2.procs && s.calls == s2.calls && s.used == s2.used && s.leases.clocks == s2.leases.clocks
    requires s.leases.item == Free(s2.leases.item)
    requires s.leases.leases == s2.leases.leases[0 := s2.leases.leases[0].(phase := LP.Finished)]
    ensures ServedOnce(c, s, clocks, sid, w)
  {
    var l := Taken(LP.Init(clocks), 0, 0, None);
    assert map[0 := l][0 := l.(phase := LP.Finished)] == map[0 := l.(phase := LP.Finished)];
    assert forall q :: q in s.calls <==> q == 0;
  }

  /** And then the second process takes a lease, which is handed the record. */
  function Prologue(sid: Sid, w: Write): seq<Step> {
    FirstServes(sid, w) + Acquire(1, 1)
  }

  lemma SecondLease(c: LP.Config, s: State, clocks: seq<real>, sid: Sid, w: Write)
    requires |clocks| >= 2 && ServedOnce(c, s, clocks, sid, w) && clocks[1] <= (w.now + w.ttl) as real
    ensures var s' := After(c, s, Acquire(1, 1));
      && s' == s.(leases := s'.leases) && s'.leases.clocks == clocks
      && OwnedBy(s'.leases.item, 1) && Blank(s', 1)
      && s'.leases.leases.Keys == {0, 1} && s'.leases.leases[0] == s.leases.leases[0]
      && s'.leases.leases[1].phase.Held? && s'.leases.leases[1].proc == 1 && !s'.leases.leases[1].lost
      && s'.leases.leases[1].expires == Trunc(clocks[1]) + LEASE_SECONDS
      && s'.leases.leases[1].record.Some? && s'.leases.leases[1].record.value.sessionId == sid
  {
    Acquires(c, s, 1, 1);
  }

  lemma PrologueRun(c: LP.Config, clocks: seq<real>, sid: Sid, w: Write) returns (s0: State, s: State)
    requires |clocks| >= 2 && w.net.Acked? && clocks[1] <= (w.now + w.ttl) as real
    ensures s0 == After(c, Init(clocks), FirstServes(sid, w)) && ServedOnce(c, s0, clocks, sid, w)
    ensures s == After(c, Init(clocks), Prologue(sid, w)) && s == After(c, s0, Acquire(1, 1))
  {
    FirstServesOnce(c, clocks, sid, w);
    s0 := After(c, Init(clocks), FirstServes(sid, w));
    s := After(c, s0, Acquire(1, 1));
    AfterAppend(c, Init(clocks), FirstServes(sid, w), Acquire(1, 1));
  }

  /** A run in which a serving call leaves effective writes of both sessions. */
  lemma BothSessionsAreWritten(c: LP.Config, clocks: seq<real>, first: Sid, sid: Sid, w: Write, lost: Write)
    requires |clocks| >= 2 && ValidSid(first) && sid != first && w.net.Acked? && lost.net.Unacked?
    requires clocks[1] <= (w.now + w.ttl) as real
    ensures var s := Run(c, clocks, Prologue(first, w) + LoseTheRefresh(1, sid, lost, w));
      && 1 in s.calls && s.calls[1] == Call(Chosen(sid), Some(sid))
      && WroteRecorded(s, 1) && LostRefresh.Wrote(s.leases.log, 1, sid)
  {
    var s0, s1 := PrologueRun(c, clocks, first, w);
    SecondLease(c, s0, clocks, first, w);
    LosesTheRefresh(c, s1, 1, first, sid, lost, w);
    AfterAppend(c, Init(clocks), Prologue(first, w), LoseTheRefresh(1, sid, lost, w));
    RunIsAfter(c, clocks, Prologue(first, w) + LoseTheRefresh(1, sid, lost, w));
    var s := After(c, s1, LoseTheRefresh(1, sid, lost, w));
    var n := |s1.leases.log|;
    assert IsWrite(s.leases.log[n], 1, first) && IsWrite(s.leases.log[n + 1], 1, sid);
  }
}
