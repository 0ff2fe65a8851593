/** What single steps of a call do to the item and to its process. */
module CallSteps {
  import opened Prelude
  import opened SessionItem
  import opened Stickiness
  import LP = LeaseProtocol

  /** A deletion by a call that owns the item takes the record and nothing else; any other changes nothing. */
  lemma ErasesTheRecord(c: LP.Config, s: State, step: Step)
    requires Enabled(s, step) && (step.Erase? || (step.Close? && step.closes))
    ensures Next(c, s, step).leases ==
      if step.net.Dropped? || !OwnedBy(s.leases.item, step.owner) then s.leases
      else s.leases.(item := s.leases.item.(record := None), log := s.leases.log + [LP.Erased(step.owner)])
  {
  }

  /** A close that succeeds leaves its session nowhere in the process. */
  lemma ClosedIsGone(c: LP.Config, s: State, step: Step)
    requires Enabled(s, step) && step.Close? && step.closes
    ensures var o, s' := step.owner, Next(c, s, step);
      && o in s'.calls && s'.calls[o].pc.Closed? && o in s'.leases.leases
      && ProcessOf(s', o).cached.None? && s.calls[o].pc.sid !in ProcessOf(s', o).live
      && ProcessOf(s', o).serving.None?
  {
  }

  /** A session that somebody shuts down is live no more, and nothing else changes. */
  lemma EndedIsGone(c: LP.Config, s: State, p: nat, sid: Sid)
    ensures var s' := Next(c, s, End(p, sid));
      && s'.leases == s.leases && s'.calls == s.calls && s'.used == s.used
      && (forall q, x :: x in ProcessAt(s'.procs, q).live <==> x in ProcessAt(s.procs, q).live && !(q == p && x == sid))
  {
  }

  /** A call that begins lets go of the session its process has cached, unless the record names it. */
  lemma BeginLetsGo(c: LP.Config, s: State, o: Owner, detaches: bool)
    requires Enabled(s, Begin(o, detaches)) && ProcessOf(s, o).cached.Some?
    ensures var s', record := Next(c, s, Begin(o, detaches)), s.leases.leases[o].record;
      var cached := ProcessOf(s, o).cached.value;
      && o in s'.leases.leases
      && (!(record.Some? && record.value.sessionId == cached) ==>
            && ProcessOf(s', o).cached.None?
            && forall x :: x in ProcessOf(s', o).live <==> x in ProcessOf(s, o).live && x != cached)
  {
  }
}
