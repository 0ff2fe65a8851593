/** Agreement across processes, proved from the steps that can make a call turn away from the recorded session. */
module Agreement {
  import opened Prelude
  import opened SessionItem
  import opened Stickiness
  import opened Handover
  import LP = LeaseProtocol

  // ---- turning away --------------------------------------------------------------------------

  /** The step in which a call fails to follow the record: the recorded session cannot be adopted, or the refresh of
      its record does not land. */
  predicate Hindered(s: State, step: Step, o: Owner) {
    && Enabled(s, step)
    && match step
       case Attach(q, reachable) =>
         q == o && !(ValidSid(s.calls[o].pc.sid) && (s.calls[o].pc.sid in ProcessOf(s, o).live || reachable))
       case Refresh(q, w) => q == o && !Lands(s, o, w)
       case _ => false
  }

  ghost predicate EverHindered(c: LP.Config, clocks: seq<real>, steps: seq<Step>, o: Owner) {
    exists i :: 0 <= i < |steps| && Hindered(Run(c, clocks, steps[..i]), steps[i], o)
  }

  lemma HinderedPush(c: LP.Config, clocks: seq<real>, steps: seq<Step>, step: Step, o: Owner)
    ensures EverHindered(c, clocks, steps + [step], o) <==>
      EverHindered(c, clocks, steps, o) || Hindered(Run(c, clocks, steps), step, o)
  {
    var all := steps + [step];
    assert forall i :: 0 <= i < |steps| ==> all[..i] == steps[..i] && all[i] == steps[i];
    assert all[..|steps|] == steps && all[|steps|] == step;
    if Hindered(Run(c, clocks, steps), step, o) {
      assert Hindered(Run(c, clocks, all[..|steps|]), all[|steps|], o);
    }
    if EverHindered(c, clocks, steps, o) {
      var i :| 0 <= i < |steps| && Hindered(Run(c, clocks, steps[..i]), steps[i], o);
      assert Hindered(Run(c, clocks, all[..i]), all[i], o);
    }
  }

  /** The call no longer works on the recorded session. */
  predicate Turned(k: Call) {
    k.pc.Erasing? || k.pc.Creating? || k.created.Some?
  }

  /** The step is one of the call of `o`. */
  predicate Acts(step: Step, o: Owner) {
    !step.Protocol? && !step.End? && step.owner == o
  }

  lemma Bystander(c: LP.Config, s: State, step: Step, o: Owner)
    requires !Acts(step, o)
    ensures var s' := Next(c, s, step);
      (o in s'.calls <==> o in s.calls) && (o in s.calls ==> s'.calls[o] == s.calls[o]) && !Hindered(s, step, o)
  {
  }

  /** What a step of its own makes of a call. */
  function CallAfter(s: State, step: Step): Call
    requires Enabled(s, step) && !step.Protocol? && !step.End?
  {
    match step
    case Begin(o, detaches) => FirstCall(ProcessOf(s, o), s.leases.leases[o].record, detaches)
    case Attach(o, reachable) =>
      var sid := s.calls[o].pc.sid;
      s.calls[o].(pc := if ValidSid(sid) && (sid in ProcessOf(s, o).live || reachable) then Refreshing(sid)
                        else Erasing)
    case Refresh(o, w) => s.calls[o].(pc := if Lands(s, o, w) then Chosen(s.calls[o].pc.sid) else Erasing)
    case Erase(o, _) => s.calls[o].(pc := Creating)
    case Create(o, sid) => s.calls[o].(pc := Recording(sid), created := Some(sid))
    case CreateFails(o) => s.calls[o].(pc := Failed)
    case RecordNew(o, w) => s.calls[o].(pc := if Lands(s, o, w) then Chosen(s.calls[o].pc.sid) else Failed)
    case Remember(o, w) =>
      if s.calls[o].pc.sid !in ProcessOf(s, o).live || Lands(s, o, w) then s.calls[o] else s.calls[o].(pc := Failed)
    case Raise(o) => s.calls[o].(pc := Failed)
    case Finish(o, w) =>
      var x := ProcessOf(s, o);
      var quiet := x.cached.None? || x.cached.value !in x.live;
      s.calls[o].(pc := if quiet || Lands(s, o, w) then Returned(s.calls[o].pc.sid) else Failed)
    case Close(o, closes, _) => s.calls[o].(pc := if closes then Closed else Failed)
  }

  lemma CallAfterIs(c: LP.Config, s: State, step: Step)
    requires Enabled(s, step) && !step.Protocol? && !step.End?
    ensures Perform(c, s, step).calls == s.calls[step.owner := CallAfter(s, step)]
  {
  }

  /** A call turns away only in a step that hinders it, or from the start if it was handed nothing. */
  lemma TurnStep(c: LP.Config, s: State, step: Step, o: Owner)
    requires Sound(s, None) && o in Next(c, s, step).calls && o in s.leases.leases
    ensures var k' := Next(c, s, step).calls[o];
      && (Turned(k') ==>
            || (o in s.calls && Turned(s.calls[o])) || Hindered(s, step, o) || s.leases.leases[o].record.None?)
      && (Hindered(s, step, o) ==> Turned(k'))
      && (o in s.calls && (Turned(s.calls[o]) || s.calls[o].pc.Failed?) ==> Turned(k') || k'.pc.Failed?)
  {
    if !Acts(step, o) || !Enabled(s, step) {
      BystanderOrIdle(c, s, step, o);
    } else {
      CallAfterIs(c, s, step);
      if o in s.calls { assert CallOk(s, o, None); }
    }
  }

  lemma BystanderOrIdle(c: LP.Config, s: State, step: Step, o: Owner)
    requires !Acts(step, o) || !Enabled(s, step)
    ensures var s' := Next(c, s, step);
      (o in s'.calls <==> o in s.calls) && (o in s.calls ==> s'.calls[o] == s.calls[o]) && !Hindered(s, step, o)
  {
    if Enabled(s, step) { Bystander(c, s, step, o); }
  }

  /** Nothing more happens in a call that is over. */
  lemma OverStays(c: LP.Config, s: State, step: Step, o: Owner)
    requires o in s.calls && Over(s.calls[o].pc)
    ensures o in Next(c, s, step).calls && Next(c, s, step).calls[o] == s.calls[o]
  {
    BystanderOrIdle(c, s, step, o);
  }

  lemma CallsStay(c: LP.Config, s: State, step: Step, o: Owner)
    ensures o in s.calls ==> o in Next(c, s, step).calls
    ensures o in Next(c, s, step).calls && o !in s.calls ==> Held(s, o)
    ensures Hindered(s, step, o) ==> o in s.calls
  {
  }

  /** The lease under a call, before and after a step. */
  lemma LeaseStays(c: LP.Config, s: State, step: Step, o: Owner)
    requires Sound(s, None) && o in Next(c, s, step).calls
    ensures o in s.leases.leases && o in Next(c, s, step).leases.leases
    ensures SameLease(s.leases.leases[o], Next(c, s, step).leases.leases[o])
  {
    CallsStay(c, s, step, o);
    if o in s.calls {
      assert CallOk(s, o, None);
      var beneath := StepBeneath(c, s, step);
      if beneath != [] {
        assert beneath[..0] == [];
        SettledStays(c, s.leases, beneath[0], o);
      }
    } else {
      NewCalls(c, s, step, o);
    }
  }

  /** In every run: a call has turned away only if it was handed no record or some step hindered it, and a call that
      was hindered has turned away or failed. */
  lemma {:induction false} TurnedOnlyIfHindered(c: LP.Config, clocks: seq<real>, steps: seq<Step>, o: Owner)
    ensures var s := Run(c, clocks, steps);
      && (EverHindered(c, clocks, steps, o) ==> o in s.calls && (Turned(s.calls[o]) || s.calls[o].pc.Failed?))
      && (o in s.calls ==> o in s.leases.leases)
      && (o in s.calls && Turned(s.calls[o]) ==>
            s.leases.leases[o].record.None? || EverHindered(c, clocks, steps, o))
  {
    if steps != [] {
      var before, step := steps[..|steps| - 1], steps[|steps| - 1];
      var s := Run(c, clocks, before);
      assert steps == before + [step];
      TurnedOnlyIfHindered(c, clocks, before, o);
      RunSound(c, clocks, before);
      HinderedPush(c, clocks, before, step, o);
      CallsStay(c, s, step, o);
      if o in Next(c, s, step).calls {
        LeaseStays(c, s, step, o);
        TurnStep(c, s, step, o);
      }
    }
  }

  /** In every run, a call that served a session served the recorded one exactly if it was handed a record and no
      step hindered it. */
  lemma ServesTheRecordUnlessHindered(c: LP.Config, clocks: seq<real>, steps: seq<Step>, o: Owner, s: State)
    requires s == Run(c, clocks, steps) && o in s.calls && Served(s.calls[o])
    ensures o in s.leases.leases
    ensures s.calls[o].created.None? <==> s.leases.leases[o].record.Some? && !EverHindered(c, clocks, steps, o)
    ensures s.leases.leases[o].record.Some? && !EverHindered(c, clocks, steps, o) ==>
      s.calls[o].pc.sid == s.leases.leases[o].record.value.sessionId
  {
    TurnedOnlyIfHindered(c, clocks, steps, o);
    RunSound(c, clocks, steps);
    assert CallOk(s, o, None);
  }

  /** The call of `o` closed its session, was handed no record, or was hindered. */
  ghost predicate MayErase(c: LP.Config, clocks: seq<real>, steps: seq<Step>, o: Owner) {
    var s := Run(c, clocks, steps);
    && o in s.calls && o in s.leases.leases
    && (s.calls[o].pc.Closed? || s.leases.leases[o].record.None? || EverHindered(c, clocks, steps, o))
  }

  lemma MayEraseStays(c: LP.Config, clocks: seq<real>, before: seq<Step>, step: Step, o: Owner)
    requires MayErase(c, clocks, before, o)
    ensures MayErase(c, clocks, before + [step], o)
  {
    var s := Run(c, clocks, before);
    assert (before + [step])[..|before|] == before;
    RunSound(c, clocks, before);
    HinderedPush(c, clocks, before, step, o);
    CallsStay(c, s, step, o);
    LeaseStays(c, s, step, o);
    if s.calls[o].pc.Closed? { OverStays(c, s, step, o); }
  }

  lemma EraserMayErase(c: LP.Config, clocks: seq<real>, before: seq<Step>, step: Step, o: Owner)
    requires var s := Run(c, clocks, before);
      Enabled(s, step) && Acts(step, o) && (step.Erase? || (step.Close? && step.closes))
    ensures MayErase(c, clocks, before + [step], o)
  {
    var s := Run(c, clocks, before);
    assert (before + [step])[..|before|] == before;
    RunSound(c, clocks, before);
    HinderedPush(c, clocks, before, step, o);
    ErasesInThisStep(c, s, step, o);
    LeaseStays(c, s, step, o);
    TurnedOnlyIfHindered(c, clocks, before, o);
  }

  /** Only such a call erases a record. */
  lemma {:induction false} ErasedOnlyIf(c: LP.Config, clocks: seq<real>, steps: seq<Step>, j: nat)
    requires j < |Run(c, clocks, steps).leases.log| && Run(c, clocks, steps).leases.log[j].Erased?
    ensures MayErase(c, clocks, steps, Run(c, clocks, steps).leases.log[j].owner)
  {
    var before, step := steps[..|steps| - 1], steps[|steps| - 1];
    var s := Run(c, clocks, before);
    var e := Run(c, clocks, steps).leases.log[j];
    assert steps == before + [step];
    var more := StepEffect(c, s, step);
    if j < |s.leases.log| {
      ErasedOnlyIf(c, clocks, before, j);
      MayEraseStays(c, clocks, before, step, e.owner);
    } else {
      assert e in more;
      EraserMayErase(c, clocks, before, step, e.owner);
    }
  }

  /** What a step adds to the log, and for whom. */
  lemma StepEffect(c: LP.Config, s: State, step: Step) returns (more: seq<LP.Effect>)
    ensures Next(c, s, step).leases.log == s.leases.log + more && |more| <= 1
    ensures forall e :: e in more && e.Wrote? ==>
      Acts(step, e.owner) && WritesRecord(s, step, e.stored.record.sessionId)
    ensures forall e :: e in more && e.Erased? ==>
      Acts(step, e.owner) && Enabled(s, step) && (step.Erase? || (step.Close? && step.closes))
  {
    more := [];
    var beneath := StepBeneath(c, s, step);
    if beneath == [] {
      assert s.leases.log + [] == s.leases.log;
    } else {
      more := EffectOf(c, s.leases, beneath[0]);
    }
  }

  lemma EffectOf(c: LP.Config, s: LP.State, e: LP.Step) returns (more: seq<LP.Effect>)
    ensures LP.Next(c, s, e).log == s.log + more && |more| <= 1
    ensures forall x :: x in more && x.Wrote? ==>
      e.Put? && e.owner == x.owner && e.record.sessionId == x.stored.record.sessionId
    ensures forall x :: x in more && x.Erased? ==> e == LP.Delete(x.owner)
  {
    var log' := LP.Next(c, s, e).log;
    if log' == s.log {
      more := [];
      assert s.log + [] == s.log;
    } else {
      more := [log'[|s.log|]];
    }
  }

  lemma ErasesInThisStep(c: LP.Config, s: State, step: Step, o: Owner)
    requires Sound(s, None)
    requires Enabled(s, step) && Acts(step, o) && (step.Erase? || (step.Close? && step.closes))
    ensures o in s.calls && o in Next(c, s, step).calls
    ensures Turned(s.calls[o]) || Next(c, s, step).calls[o].pc.Closed?
  {
    CallAfterIs(c, s, step);
  }

  // ---- agreement -----------------------------------------------------------------------------

  /** If a call was made under this lease, it was handed a record, no step hindered it, and it did not close the
      session. */
  ghost predicate Followed(c: LP.Config, clocks: seq<real>, steps: seq<Step>, o: Owner) {
    var s := Run(c, clocks, steps);
    o in s.calls ==>
      && o in s.leases.leases && s.leases.leases[o].record.Some? && !s.calls[o].pc.Closed?
      && !EverHindered(c, clocks, steps, o)
  }

  /** Nothing from `h` to `n` makes a process turn to another session: no TTL deletion, and no lease that did not
      follow its record. */
  ghost predicate Undisturbed(c: LP.Config, clocks: seq<real>, steps: seq<Step>, h: nat, n: nat) {
    var log := Run(c, clocks, steps).leases.log;
    n <= |log| && forall j :: h <= j < n ==>
      !log[j].Expired? && (log[j].Began? ==> Followed(c, clocks, steps, log[j].owner))
  }

  /** The map names `sid` at every position from `h` to `n`. */
  ghost predicate Named(log: seq<LP.Effect>, h: nat, n: nat, sid: Sid)
    requires n <= |log|
  {
    forall j :: h <= j <= n ==> Names(LP.Play(log[..j]).value, sid)
  }

  /** Once another lease has begun, an owner that acted before is not heard of again. */
  lemma NeverAgain(log: seq<LP.Effect>, o: Owner, j: nat, h: nat, i: nat)
    requires LP.Legal(log) && j < h <= i < |log| && log[h].Began? && LP.By(log[j], o)
    ensures !LP.By(log[i], o)
  {
    if LP.By(log[i], o) {
      LP.OwnerBlocks(log, o, j, h, i);
      LP.BeganFirst(log, o, h, j);
    }
  }

  /** Whoever acts from `h` on began from `h` on. */
  lemma NewOwner(log: seq<LP.Effect>, h: nat, i: nat) returns (g: nat)
    requires LP.Legal(log) && h <= i < |log| && log[h].Began? && !log[i].Expired?
    ensures h <= g <= i && log[g] == LP.Began(log[i].owner)
  {
    g := BeganBefore(log, i, log[i].owner);
    if g < h { NeverAgain(log, log[i].owner, g, h, i); }
  }

  /** What a lease that follows its record writes, names what the map named when it began. */
  lemma FollowerWrites(c: LP.Config, clocks: seq<real>, steps: seq<Step>, s: State, g: nat, i: nat, sid: Sid)
    requires s == Run(c, clocks, steps) && g <= i < |s.leases.log| && s.leases.log[i].Wrote?
    requires s.leases.log[g] == LP.Began(s.leases.log[i].owner) && Names(LP.Play(s.leases.log[..g]).value, sid)
    requires Followed(c, clocks, steps, s.leases.log[i].owner)
    ensures s.leases.log[i].stored.record.sessionId == sid
  {
    var e := s.leases.log[i];
    RunSound(c, clocks, steps);
    RunRefines(c, clocks, steps);
    RunHanded(c, clocks, steps);
    TurnedOnlyIfHindered(c, clocks, steps, e.owner);
    assert WriteOk(s, e);
    HandOver(c, s.leases.log, e.owner, s.leases.leases[e.owner], g, sid);
  }

  lemma NamedMore(log: seq<LP.Effect>, h: nat, i: nat, sid: Sid)
    requires h <= i < |log| && Named(log, h, i, sid)
    requires !log[i].Expired? && !log[i].Erased? && (log[i].Wrote? ==> log[i].stored.record.sessionId == sid)
    ensures Named(log, h, i + 1, sid)
  {
    assert log[..i + 1] == log[..i] + [log[i]];
    LP.PlayPush(log[..i], log[i]);
  }

  /** The effect at `i`, of a lease that follows its record, leaves the map naming `sid`. */
  lemma QuietStep(c: LP.Config, clocks: seq<real>, steps: seq<Step>, s: State, h: nat, i: nat, sid: Sid)
    requires s == Run(c, clocks, steps) && h <= i < |s.leases.log| && s.leases.log[h].Began?
    requires Undisturbed(c, clocks, steps, h, i + 1) && Named(s.leases.log, h, i, sid)
    ensures Named(s.leases.log, h, i + 1, sid)
  {
    var log, e := s.leases.log, s.leases.log[i];
    RunRefines(c, clocks, steps);
    var g := NewOwner(log, h, i);
    assert Followed(c, clocks, steps, log[g].owner);
    if e.Wrote? { FollowerWrites(c, clocks, steps, s, g, i, sid); }
    if e.Erased? { ErasedOnlyIf(c, clocks, steps, i); }
    NamedMore(log, h, i, sid);
  }

  /** From where the first lease after a serving call began, the map names the session it served. */
  lemma NamedThroughout(c: LP.Config, clocks: seq<real>, steps: seq<Step>, o: Owner, h: nat, n: nat, s: State)
    requires s == Run(c, clocks, steps) && o in s.calls && Served(s.calls[o])
    requires 0 < h <= n <= |s.leases.log| && h < |s.leases.log| && Undisturbed(c, clocks, steps, h, n)
    requires LP.By(s.leases.log[h - 1], o) && s.leases.log[h].Began?
    ensures Named(s.leases.log, h, n, s.calls[o].pc.sid)
  {
    RunSound(c, clocks, steps);
    RunRefines(c, clocks, steps);
    assert CallOk(s, o, None);
    forall j | h <= j < |s.leases.log| ensures !LP.By(s.leases.log[j], o) {
      NeverAgain(s.leases.log, o, h - 1, h, j);
    }
    LeftIsThere(s.leases.log, o, h);
    for i := h to n
      invariant Named(s.leases.log, h, i, s.calls[o].pc.sid)
    {
      QuietStep(c, clocks, steps, s, h, i, s.calls[o].pc.sid);
    }
  }

  /** Stickiness, in every run of any number of processes: after a call that served `sid`, and until TTL deletes the
      item or a lease in between does not follow its record, every later lease is handed the record naming `sid`, or
      nothing exactly if that has expired on its clock; and a later call that serves a session serves `sid` unless
      it was handed nothing or a step hindered it, whatever its process had cached. */
  lemma ProcessesAgree(c: LP.Config, clocks: seq<real>, steps: seq<Step>, o: Owner, h: nat, later: Owner, g: nat,
                       s: State)
    requires s == Run(c, clocks, steps) && o in s.calls && Served(s.calls[o]) && later in s.calls
    // `h` is where the first lease after `o` began, `g` where `later` did
    requires 0 < h <= g < |s.leases.log| && LP.By(s.leases.log[h - 1], o) && s.leases.log[h].Began?
    requires s.leases.log[g] == LP.Began(later) && Undisturbed(c, clocks, steps, h, g)
    ensures later in s.leases.leases
    ensures var sid, l, left := s.calls[o].pc.sid, s.leases.leases[later], LP.Play(s.leases.log[..g]).value;
      && Names(left, sid)
      && (l.record.None? <==> (left.value.record.expiresAt as real) < l.readAt)
      && (l.record.Some? ==> l.record.value.sessionId == sid)
      && (Served(s.calls[later]) && l.record.Some? && !EverHindered(c, clocks, steps, later) ==>
            s.calls[later].pc.sid == sid)
  {
    RunSound(c, clocks, steps);
    RunRefines(c, clocks, steps);
    RunHanded(c, clocks, steps);
    NamedThroughout(c, clocks, steps, o, h, g, s);
    assert CallOk(s, later, None);
    HandOver(c, s.leases.log, later, s.leases.leases[later], g, s.calls[o].pc.sid);
    if Served(s.calls[later]) { ServesTheRecordUnlessHindered(c, clocks, steps, later, s); }
  }

  /** And the item goes on naming it. */
  lemma ItemStaysNamed(c: LP.Config, clocks: seq<real>, steps: seq<Step>, o: Owner, h: nat, s: State)
    requires s == Run(c, clocks, steps) && o in s.calls && Served(s.calls[o])
    requires 0 < h < |s.leases.log| && LP.By(s.leases.log[h - 1], o) && s.leases.log[h].Began?
    requires Undisturbed(c, clocks, steps, h, |s.leases.log|)
    ensures Names(s.leases.item.record, s.calls[o].pc.sid)
  {
    RunRefines(c, clocks, steps);
    NamedThroughout(c, clocks, steps, o, h, |s.leases.log|, s);
    assert s.leases.log[..|s.leases.log|] == s.leases.log;
  }
}
