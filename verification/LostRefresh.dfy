/** When a call leaves effective writes of two sessions: the recorded one and the one it created. */
module LostRefresh {
  import opened Prelude
  import opened SessionItem
  import opened Stickiness
  import opened Handover
  import opened Agreement
  import LP = LeaseProtocol

  /** A refresh that was carried out while the lease owned the item, and whose reply was lost. */
  predicate Blind(s: State, step: Step, o: Owner) {
    Enabled(s, step) && step.Refresh? && step.owner == o && step.write.net.Unacked? && OwnedBy(s.leases.item, o)
  }

  ghost predicate EverBlind(c: LP.Config, clocks: seq<real>, steps: seq<Step>, o: Owner) {
    exists i :: 0 <= i < |steps| && Blind(Run(c, clocks, steps[..i]), steps[i], o)
  }

  lemma BlindPush(c: LP.Config, clocks: seq<real>, steps: seq<Step>, step: Step, o: Owner)
    ensures EverBlind(c, clocks, steps + [step], o) <==>
      EverBlind(c, clocks, steps, o) || Blind(Run(c, clocks, steps), step, o)
  {
    var all := steps + [step];
    assert forall i :: 0 <= i < |steps| ==> all[..i] == steps[..i] && all[i] == steps[i];
    assert all[..|steps|] == steps && all[|steps|] == step;
    if Blind(Run(c, clocks, steps), step, o) {
      assert Blind(Run(c, clocks, all[..|steps|]), all[|steps|], o);
    }
    if EverBlind(c, clocks, steps, o) {
      var i :| 0 <= i < |steps| && Blind(Run(c, clocks, steps[..i]), steps[i], o);
      assert Blind(Run(c, clocks, all[..i]), all[i], o);
    }
  }

  predicate IsWrite(e: LP.Effect, o: Owner, sid: Sid) {
    e.Wrote? && e.owner == o && e.stored.record.sessionId == sid
  }

  /** Some write of `o` that took effect names `sid`. */
  ghost predicate Wrote(log: seq<LP.Effect>, o: Owner, sid: Sid) {
    exists j :: 0 <= j < |log| && IsWrite(log[j], o, sid)
  }

  lemma WrotePush(log: seq<LP.Effect>, more: seq<LP.Effect>, o: Owner, sid: Sid)
    requires |more| <= 1
    ensures Wrote(log + more, o, sid) <==> Wrote(log, o, sid) || (more != [] && IsWrite(more[0], o, sid))
  {
    if Wrote(log, o, sid) {
      var j :| 0 <= j < |log| && IsWrite(log[j], o, sid);
      assert IsWrite((log + more)[j], o, sid);
    }
    if more != [] { assert (log + more)[|log|] == more[0]; }
    if Wrote(log + more, o, sid) {
      var j :| 0 <= j < |log + more| && IsWrite((log + more)[j], o, sid);
      if j < |log| { assert log[j] == (log + more)[j]; }
    }
  }

  // ---- created sessions are new ----------------------------------------------------------------

  predicate Known(s: State, v: Option<Stored>) {
    v.Some? ==> v.value.record.sessionId in s.used
  }

  /** Every session an item or a lease has ever named was created in some call. */
  ghost predicate AllKnown(s: State) {
    && Known(s, s.leases.item.record)
    && (forall o :: o in s.leases.leases ==> Known(s, s.leases.leases[o].seen.record))
    && (forall o :: o in s.calls && s.calls[o].created.Some? ==> s.calls[o].created.value in s.used)
  }

  /** The session a call was handed is another than the one it created. */
  ghost predicate AllNew(s: State) {
    forall o :: o in s.calls && o in s.leases.leases && s.calls[o].created.Some? && s.leases.leases[o].record.Some? ==>
      s.calls[o].created.value != s.leases.leases[o].record.value.sessionId
  }

  lemma UsedGrows(c: LP.Config, s: State, step: Step)
    ensures s.used <= Next(c, s, step).used
    ensures !step.Create? || !Enabled(s, step) ==> Next(c, s, step).used == s.used
  {
  }

  /** The record write of a step names the session its call works on. */
  lemma WritesItsSession(s: State, step: Step, sid: Sid)
    requires Sound(s, None) && WritesRecord(s, step, sid)
    ensures step.owner in s.calls && step.owner in s.leases.leases && sid == s.calls[step.owner].pc.sid
    ensures Carries(s.leases.leases[step.owner], s.calls[step.owner], sid)
  {
    assert CallOk(s, step.owner, None);
  }

  lemma HandedIsKnown(c: LP.Config, s: State, o: Owner)
    requires AllKnown(s) && AllHanded(c, s) && o in s.calls && s.leases.leases[o].record.Some?
    ensures s.leases.leases[o].record.value.sessionId in s.used
  {
    LP.RecordIsWhatWasStored(c, s.leases.leases[o]);
  }

  lemma WritesKnown(c: LP.Config, s: State, step: Step, sid: Sid)
    requires Sound(s, None) && AllKnown(s) && AllHanded(c, s) && WritesRecord(s, step, sid)
    ensures sid in s.used
  {
    WritesItsSession(s, step, sid);
    if s.leases.leases[step.owner].record.Some? { HandedIsKnown(c, s, step.owner); }
  }

  /** A protocol step copies the item's record, writes the one it carries, or removes it. */
  lemma RecordsMove(c: LP.Config, s: LP.State, e: LP.Step)
    ensures var s' := LP.Next(c, s, e);
      && (s'.item.record == s.item.record || s'.item.record.None?
          || (e.Put? && s'.item.record.value.record.sessionId == e.record.sessionId))
      && (forall o :: o in s'.leases ==>
            || s'.leases[o].seen.record.None? || s'.leases[o].seen.record == s.item.record
            || (o in s.leases && s'.leases[o].seen == s.leases[o].seen))
  {
  }

  lemma RecordsKnown(c: LP.Config, s: State, step: Step)
    requires Sound(s, None) && AllKnown(s) && AllHanded(c, s)
    ensures var s' := Next(c, s, step);
      && Known(s', s'.leases.item.record)
      && (forall o :: o in s'.leases.leases ==> Known(s', s'.leases.leases[o].seen.record))
  {
    UsedGrows(c, s, step);
    var beneath := StepBeneath(c, s, step);
    if beneath != [] {
      RecordsMove(c, s.leases, beneath[0]);
      if beneath[0].Put? { WritesKnown(c, s, step, beneath[0].record.sessionId); }
    }
  }

  lemma StepKnown(c: LP.Config, s: State, step: Step)
    requires Sound(s, None) && AllKnown(s) && AllHanded(c, s)
    ensures AllKnown(Next(c, s, step))
  {
    var s' := Next(c, s, step);
    UsedGrows(c, s, step);
    RecordsKnown(c, s, step);
    forall o | o in s'.calls && s'.calls[o].created.Some? ensures s'.calls[o].created.value in s'.used {
      CreatedStep(c, s, step, o);
    }
  }

  /** A call creates in a `Create` step of its own, once. */
  lemma CreatedStep(c: LP.Config, s: State, step: Step, o: Owner)
    requires o in Next(c, s, step).calls && Next(c, s, step).calls[o].created.Some?
    ensures (o in s.calls && s.calls[o].created == Next(c, s, step).calls[o].created)
         || (Enabled(s, step) && step == Create(o, Next(c, s, step).calls[o].created.value) && o in s.calls)
    ensures step.Create? && Enabled(s, step) ==> step.sid in Next(c, s, step).used
  {
    if !Acts(step, o) || !Enabled(s, step) {
      BystanderOrIdle(c, s, step, o);
    } else {
      CallAfterIs(c, s, step);
    }
  }

  lemma StepNew(c: LP.Config, s: State, step: Step)
    requires Sound(s, None) && AllKnown(s) && AllHanded(c, s) && AllNew(s)
    ensures AllNew(Next(c, s, step))
  {
    var s' := Next(c, s, step);
    forall o | o in s'.calls && o in s'.leases.leases && s'.calls[o].created.Some? && s'.leases.leases[o].record.Some?
      ensures s'.calls[o].created.value != s'.leases.leases[o].record.value.sessionId
    {
      CreatedStep(c, s, step, o);
      LeaseStays(c, s, step, o);
      HandedIsKnown(c, s, o);
    }
  }

  lemma {:induction false} RunNew(c: LP.Config, clocks: seq<real>, steps: seq<Step>)
    ensures AllKnown(Run(c, clocks, steps)) && AllNew(Run(c, clocks, steps))
  {
    if steps != [] {
      var before, step := steps[..|steps| - 1], steps[|steps| - 1];
      RunNew(c, clocks, before);
      RunSound(c, clocks, before);
      RunHanded(c, clocks, before);
      StepKnown(c, Run(c, clocks, before), step);
      StepNew(c, Run(c, clocks, before), step);
    }
  }

  // ---- writes of the recorded session ----------------------------------------------------------

  /** A write of the call of `o` that took effect names the session it was handed. */
  ghost predicate WroteRecorded(s: State, o: Owner) {
    && o in s.leases.leases && s.leases.leases[o].record.Some?
    && Wrote(s.leases.log, o, s.leases.leases[o].record.value.sessionId)
  }

  ghost predicate Tracked(s: State, o: Owner, blind: bool) {
    if o !in s.calls then !blind
    else
      && (s.calls[o].pc.Attaching? || s.calls[o].pc.Refreshing? ==> !blind && !WroteRecorded(s, o))
      && (Turned(s.calls[o]) ==> (blind <==> WroteRecorded(s, o)))
  }

  lemma NoWritesYet(s: State, o: Owner)
    requires Sound(s, None) && o !in s.calls
    ensures !WroteRecorded(s, o)
  {
    forall j | 0 <= j < |s.leases.log| ensures !(s.leases.log[j].Wrote? && s.leases.log[j].owner == o) {
      assert WriteOk(s, s.leases.log[j]);
    }
  }

  /** Whether a step adds a write of `o` for the session it was handed. */
  ghost predicate Writes(c: LP.Config, s: State, step: Step, o: Owner) {
    WroteRecorded(Next(c, s, step), o) && !WroteRecorded(s, o)
  }

  lemma WroteStays(c: LP.Config, s: State, step: Step, o: Owner)
    requires Sound(s, None) && o in Next(c, s, step).calls
    ensures WroteRecorded(s, o) ==> WroteRecorded(Next(c, s, step), o)
    ensures Writes(c, s, step, o) ==>
      && Acts(step, o) && s.leases.leases[o].record.Some?
      && WritesRecord(s, step, s.leases.leases[o].record.value.sessionId)
  {
    LeaseStays(c, s, step, o);
    var more := StepEffect(c, s, step);
    if s.leases.leases[o].record.Some? {
      WrotePush(s.leases.log, more, o, s.leases.leases[o].record.value.sessionId);
      if more != [] { assert more[0] in more; }
    }
  }

  lemma RefreshWrites(c: LP.Config, s: State, o: Owner, w: Write)
    requires Sound(s, None) && Enabled(s, Refresh(o, w)) && !WroteRecorded(s, o)
    ensures WroteRecorded(Next(c, s, Refresh(o, w)), o) <==> !w.net.Dropped? && OwnedBy(s.leases.item, o)
  {
    var s' := Next(c, s, Refresh(o, w));
    var sid := s.calls[o].pc.sid;
    assert CallOk(s, o, None);
    LeaseStays(c, s, Refresh(o, w), o);
    if w.net.Dropped? || !OwnedBy(s.leases.item, o) {
      assert s'.leases == s.leases;
    } else {
      var e := LP.Wrote(o, Seal(c.kms, c.rid, Stamp(c.rid, RecordOf(c, sid, w), w.now, w.ttl)));
      assert s'.leases.log == s.leases.log + [e];
      WrotePush(s.leases.log, [e], o, sid);
    }
  }

  lemma StepTracked(c: LP.Config, s: State, step: Step, o: Owner, blind: bool)
    requires Sound(s, None) && AllNew(s) && Tracked(s, o, blind)
    ensures Tracked(Next(c, s, step), o, blind || Blind(s, step, o))
  {
    var s' := Next(c, s, step);
    CallsStay(c, s, step, o);
    if o in s'.calls {
      LeaseStays(c, s, step, o);
      WroteStays(c, s, step, o);
      if o !in s.calls { NoWritesYet(s, o); }
      if !Acts(step, o) || !Enabled(s, step) {
        BystanderOrIdle(c, s, step, o);
      } else {
        OwnStepTracked(c, s, step, o, blind);
      }
    }
  }

  lemma OwnStepTracked(c: LP.Config, s: State, step: Step, o: Owner, blind: bool)
    requires Sound(s, None) && AllNew(s) && Tracked(s, o, blind) && Acts(step, o) && Enabled(s, step)
    requires o in Next(c, s, step).calls && (o !in s.calls ==> !WroteRecorded(s, o))
    ensures Tracked(Next(c, s, step), o, blind || Blind(s, step, o))
  {
    if step.Refresh? {
      RefreshTracked(c, s, step, o, blind);
    } else {
      CallAfterIs(c, s, step);
      WroteStays(c, s, step, o);
      if o in s.calls { assert CallOk(s, o, None); }
      if Writes(c, s, step, o) { WritesItsSession(s, step, s.leases.leases[o].record.value.sessionId); }
    }
  }

  lemma RefreshTracked(c: LP.Config, s: State, step: Step, o: Owner, blind: bool)
    requires Sound(s, None) && Tracked(s, o, blind) && Acts(step, o) && Enabled(s, step) && step.Refresh?
    requires o in Next(c, s, step).calls
    ensures Tracked(Next(c, s, step), o, blind || Blind(s, step, o))
  {
    CallAfterIs(c, s, step);
    RefreshWrites(c, s, o, step.write);
  }

  lemma {:induction false} RunTracked(c: LP.Config, clocks: seq<real>, steps: seq<Step>, o: Owner)
    ensures Tracked(Run(c, clocks, steps), o, EverBlind(c, clocks, steps, o))
  {
    if steps != [] {
      var before, step := steps[..|steps| - 1], steps[|steps| - 1];
      assert steps == before + [step];
      RunTracked(c, clocks, before, o);
      RunSound(c, clocks, before);
      RunNew(c, clocks, before);
      BlindPush(c, clocks, before, step, o);
      StepTracked(c, Run(c, clocks, before), step, o, EverBlind(c, clocks, before, o));
    }
  }

  /** In every run, a call that created a session has an effective write naming the recorded one exactly if its
      refresh was carried out while it owned the item and the reply was lost. */
  lemma BothSessionsWritten(c: LP.Config, clocks: seq<real>, steps: seq<Step>, o: Owner, s: State)
    requires s == Run(c, clocks, steps) && o in s.calls && s.calls[o].created.Some?
    ensures WroteRecorded(s, o) <==> EverBlind(c, clocks, steps, o)
    ensures o in s.leases.leases && s.leases.leases[o].record.Some? ==>
      s.calls[o].created.value != s.leases.leases[o].record.value.sessionId
  {
    RunTracked(c, clocks, steps, o);
    RunNew(c, clocks, steps);
  }
}
