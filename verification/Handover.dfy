/** What calls leave to later calls, what they are handed, and that they can follow it. */
module Handover {
  import opened Prelude
  import opened SessionItem
  import opened Stickiness
  import LP = LeaseProtocol

  // ---- what follows for every run ----------------------------------------------------------

  /** Every effective write names the recorded session or the one the call created; of a call that served without
      creating, the one it served. */
  lemma WritesNameTheSession(c: LP.Config, clocks: seq<real>, steps: seq<Step>, j: nat, s: State)
    requires s == Run(c, clocks, steps) && j < |s.leases.log| && s.leases.log[j].Wrote?
    ensures var o := s.leases.log[j].owner;
      && o in s.calls && o in s.leases.leases
      && Carries(s.leases.leases[o], s.calls[o], s.leases.log[j].stored.record.sessionId)
      && (Served(s.calls[o]) && s.calls[o].created.None? ==>
        s.leases.log[j].stored.record.sessionId == s.calls[o].pc.sid)
  {
    RunSound(c, clocks, steps);
    assert WriteOk(s, s.leases.log[j]);
    assert CallOk(s, s.leases.log[j].owner, None);
  }

  /** What a call that served a session leaves in the item names that session, and stays there until the next
      lease begins or TTL deletes the item. */
  lemma ServedLeavesItsName(c: LP.Config, clocks: seq<real>, steps: seq<Step>, o: Owner, s: State)
    requires s == Run(c, clocks, steps) && o in s.calls && Served(s.calls[o])
    ensures Names(Left(s.leases.log, o), s.calls[o].pc.sid)
    ensures OwnedBy(s.leases.item, o) ==> Names(s.leases.item.record, s.calls[o].pc.sid)
  {
    RunSound(c, clocks, steps);
    RunRefines(c, clocks, steps);
    assert CallOk(s, o, None);
    if OwnedBy(s.leases.item, o) { WriterIsLast(s.leases.log, o); }
  }

  lemma {:induction false} BeganBefore(log: seq<LP.Effect>, i: nat, o: Owner) returns (g: nat)
    requires LP.Legal(log) && i < |log| && LP.By(log[i], o)
    ensures g <= i && log[g] == LP.Began(o)
  {
    if log[i].Began? {
      g := i;
    } else {
      LP.LegalPrefix(log, i);
      assert LP.Allowed(LP.Play(log[..i]), log[i]);
      g := LP.BlockStart(log[..i], o);
    }
  }

  /** The value after the last effect of `o`, if nothing of it follows position `h`, is the value there. */
  lemma {:induction false} LeftIsThere(log: seq<LP.Effect>, o: Owner, h: nat)
    requires 0 < h <= |log| && LP.By(log[h - 1], o)
    requires forall j :: h <= j < |log| ==> !LP.By(log[j], o)
    ensures Left(log, o) == LP.Play(log[..h]).value
  {
    if h == |log| {
      assert log[..h] == log;
    } else {
      var n := |log| - 1;
      assert log[..n][h - 1] == log[h - 1];
      assert forall j :: h <= j < n ==> log[..n][j] == log[j];
      LeftIsThere(log[..n], o, h);
      assert log[..n][..h] == log[..h];
    }
  }

  // ---- what a call was handed --------------------------------------------------------------

  /** The lease was handed the item as it was when it began, and made of it what its clock said. */
  ghost predicate Handed(c: LP.Config, log: seq<LP.Effect>, o: Owner, l: LP.Lease) {
    LP.SawCurrent(log, o, l.seen) && LP.WellSealed(c, l.seen.record) && LP.Dated(l.seen) && LP.FromSeen(c, l)
  }

  ghost predicate AllHanded(c: LP.Config, s: State) {
    forall o :: o in s.calls ==>
      o in s.leases.leases && Settled(s.leases.leases[o]) && Handed(c, s.leases.log, o, s.leases.leases[o])
  }

  lemma LogGrows(c: LP.Config, s: LP.State, step: LP.Step)
    ensures s.log <= LP.Next(c, s, step).log
  {
  }

  lemma HandedStays(c: LP.Config, s: LP.State, step: LP.Step, o: Owner)
    requires o in s.leases && Settled(s.leases[o]) && Handed(c, s.log, o, s.leases[o])
    ensures var s' := LP.Next(c, s, step);
      o in s'.leases && Settled(s'.leases[o]) && Handed(c, s'.log, o, s'.leases[o])
  {
    var l, log' := s.leases[o], LP.Next(c, s, step).log;
    SettledStays(c, s, step, o);
    LogGrows(c, s, step);
    var g :| 0 <= g < |s.log| && s.log[g] == LP.Began(o) && l.seen.record == LP.Play(s.log[..g]).value;
    assert log'[g] == s.log[g] && log'[..g] == s.log[..g];
  }

  lemma NewCalls(c: LP.Config, s: State, step: Step, o: Owner)
    requires o in Next(c, s, step).calls && o !in s.calls
    ensures Held(s, o) && Next(c, s, step).leases == s.leases
  {
  }

  lemma {:induction false} RunHanded(c: LP.Config, clocks: seq<real>, steps: seq<Step>)
    ensures AllHanded(c, Run(c, clocks, steps))
  {
    if steps != [] {
      var before, step := steps[..|steps| - 1], steps[|steps| - 1];
      var s := Run(c, clocks, before);
      RunHanded(c, clocks, before);
      RunRefines(c, clocks, before);
      var beneath := StepBeneath(c, s, step);
      var s' := Next(c, s, step);
      forall o | o in s'.calls
        ensures o in s'.leases.leases && Settled(s'.leases.leases[o])
          && Handed(c, s'.leases.log, o, s'.leases.leases[o])
      {
        if o !in s.calls {
          NewCalls(c, s, step, o);
          assert LP.Fits(c, s.leases.log, LP.Play(s.leases.log).past, o, s.leases.leases[o]);
        } else if beneath != [] {
          assert beneath[..0] == [];
          HandedStays(c, s.leases, beneath[0], o);
        }
      }
    }
  }

  /** A lease that began when the map named `sid` is handed the record naming it, or nothing if that has expired
      on its clock. */
  lemma HandOver(c: LP.Config, log: seq<LP.Effect>, o: Owner, l: LP.Lease, g: nat, sid: Sid)
    requires LP.Legal(log) && Handed(c, log, o, l)
    requires g < |log| && log[g] == LP.Began(o) && Names(LP.Play(log[..g]).value, sid)
    ensures l.record.Some? ==> l.record.value.sessionId == sid
    ensures l.record.None? <==> (LP.Play(log[..g]).value.value.record.expiresAt as real) < l.readAt
  {
    var i :| 0 <= i < |log| && log[i] == LP.Began(o) && l.seen.record == LP.Play(log[..i]).value;
    LP.BeganFirst(log, o, i, g);
    LP.BeganFirst(log, o, g, i);
    LP.RecordIsWhatWasStored(c, l);
  }

  // ---- and calls can get there -----------------------------------------------------------------

  predicate Acked(w: Write) {
    w.net.Acked?
  }

  /** A put leaves the lease and the item's owner as they are. */
  lemma PutKeepsTheLease(c: LP.Config, s: State, o: Owner, sid: Sid, w: Write)
    requires Held(s, o) && OwnedBy(s.leases.item, o)
    ensures var s' := Put(c, s, o, sid, w);
      s'.leases.leases == s.leases.leases && OwnedBy(s'.leases.item, o) && s'.calls == s.calls && s'.procs == s.procs
  {
  }

  lemma FollowTheRecord(c: LP.Config, s: State, o: Owner, w: Write, sid: Sid)
    requires Going(s, o) && OwnedBy(s.leases.item, o) && Acked(w) && ValidSid(sid)
    requires s.calls[o] == Call(Attaching(sid), None) || s.calls[o] == Call(Chosen(sid), None)
    requires s.calls[o].pc.Chosen? ==> ProcessOf(s, o).cached == Some(sid)
    ensures var s' := Next(c, Next(c, s, Attach(o, true)), Refresh(o, w));
      && Going(s', o) && OwnedBy(s'.leases.item, o) && s'.calls[o].pc == Chosen(sid)
        && ProcessOf(s', o).cached == Some(sid)
  {
    if s.calls[o].pc.Attaching? {
      var s1 := Attached(s, o, true);
      PutKeepsTheLease(c, s1, o, sid, w);
    }
  }

  lemma BeginsToFollow(c: LP.Config, s: State, o: Owner, sid: Sid)
    requires Held(s, o) && o !in s.calls && ProcessOf(s, o).serving.None? && OwnedBy(s.leases.item, o)
    requires s.leases.leases[o].record.Some? && s.leases.leases[o].record.value.sessionId == sid
    ensures var s' := Next(c, s, Begin(o, true));
      && Going(s', o) && OwnedBy(s'.leases.item, o)
      && (s'.calls[o] == Call(Attaching(sid), None)
          || (s'.calls[o] == Call(Chosen(sid), None) && ProcessOf(s', o).cached == Some(sid)))
  {
  }

  lemma FinishReturns(c: LP.Config, s: State, o: Owner, w: Write, sid: Sid)
    requires Going(s, o) && OwnedBy(s.leases.item, o) && Acked(w)
    requires s.calls[o].pc == Chosen(sid) && ProcessOf(s, o).cached == Some(sid)
    ensures o in Next(c, s, Finish(o, w)).calls && Next(c, s, Finish(o, w)).calls[o].pc == Returned(sid)
  {
    PutKeepsTheLease(c, s, o, sid, w);
  }

  /** Whatever its process has cached, a call that owns the item, can let go of a stale session and can reach the
      recorded one returns the recorded one. */
  lemma CanFollow(c: LP.Config, s: State, o: Owner, refresh: Write, finish: Write)
    requires Held(s, o) && o !in s.calls && ProcessOf(s, o).serving.None? && OwnedBy(s.leases.item, o)
    requires s.leases.leases[o].record.Some? && ValidSid(s.leases.leases[o].record.value.sessionId) && Acked(refresh)
      && Acked(finish)
    ensures var s2 := Next(c, Next(c, s, Begin(o, true)), Attach(o, true));
      var s' := Next(c, Next(c, s2, Refresh(o, refresh)), Finish(o, finish));
      o in s'.calls && s'.calls[o].pc == Returned(s.leases.leases[o].record.value.sessionId)
  {
    var sid := s.leases.leases[o].record.value.sessionId;
    var s1 := Next(c, s, Begin(o, true));
    BeginsToFollow(c, s, o, sid);
    FollowTheRecord(c, s1, o, refresh, sid);
    FinishReturns(c, Next(c, Next(c, s1, Attach(o, true)), Refresh(o, refresh)), o, finish, sid);
  }
}
