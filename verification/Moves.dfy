/** Where a thread goes from what it finds: the branches of the gateway's code, each said of the ticket
    itself. */
module Moves {
  import opened Domain
  import opened TicketMachine
  import opened Protocol

  predicate Known(s: Sys, id: string) {
    id in s.store.entries
  }

  /** Any verdict of an operator on a known ticket goes on to the decide; it is recorded exactly when the ticket
      is pending, and then signalled. */
  lemma OperatorsVerdictIsTried(cfg: Config, s: Sys, t: string, o: Input)
    requires Ready(s, t, o) && (s.threads[t].pc.OpReading? || s.threads[t].pc.OpDeciding?)
    ensures var n, id, d := Advance(cfg, s, t, o), s.threads[t].id, s.threads[t].pc.verdict;
            if s.threads[t].pc.OpReading? then
              && n.store == s.store
              && n.threads[t].pc == if Known(s, id) then OpDeciding(d) else Done(UnknownTicket)
            else if Known(s, id) && s.store.entries[id].ticket.decision.status == Pending then
              && n.threads[t].pc == OpSignalling && n.verdicts == s.verdicts + [(id, d)]
              && Known(n, id) && n.store.entries[id].ticket == s.store.entries[id].ticket.(decision := d)
            else n.threads[t].pc == Done(TicketAlreadyDecided) && n.store == s.store && n.verdicts == s.verdicts
  {
  }

  /** A check goes on to resume exactly an own ticket that is decided, executed or not; a resume hands out the
      result of an executed ticket and goes on with the call and the verdict of any other decided one. */
  lemma CallersReadTheTicket(cfg: Config, s: Sys, t: string, o: Input)
    requires Ready(s, t, o) && (s.threads[t].pc.CheckReading? || s.threads[t].pc.ResumeReading?)
    requires Known(s, s.threads[t].id)
    ensures Advance(cfg, s, t, o).store == s.store
    ensures var ticket, pc := s.store.entries[s.threads[t].id].ticket, Advance(cfg, s, t, o).threads[t].pc;
            if s.threads[t].pc.CheckReading? then
              && (ticket.call.agentId != s.threads[t].pc.agent <==> pc == Done(NoTicket))
              && (ticket.call.agentId == s.threads[t].pc.agent && ticket.decision.status != Pending
                  <==> pc == ResumeReading)
            else
              && (ticket.result.Some? ==> pc == Done(Returned(ticket.result.value)))
              && (ticket.result.None? && ticket.decision.status != Pending
                  <==> pc == Granting(ticket.call, ticket.decision))
  {
  }

  /** Exactly one claim of a ticket wins, stamped with the clock it was built with, and only while there is no
      result. */
  lemma ClaimIsStamped(cfg: Config, s: Sys, t: string, o: Input)
    requires Ready(s, t, o) && s.threads[t].pc.Claiming? && Known(s, s.threads[t].id)
    ensures var n, id := Advance(cfg, s, t, o), s.threads[t].id;
            var e := s.store.entries[id];
            if e.claimedAt.None? && e.ticket.result.None? then
              && n.threads[t].pc == Running(s.threads[t].pc.args) && n.owner == s.owner[id := t]
              && n.store.entries == s.store.entries[id := Entry(e.ticket, Some(o.asOf))]
            else n.threads[t].pc == LostReading && n.store == s.store && n.owner == s.owner
  {
  }

  /** A timeout is recorded on a pending ticket and there stands; a ticket decided before is read again. */
  lemma TimeoutIsRecorded(cfg: Config, s: Sys, t: string, o: Input)
    requires Ready(s, t, o) && s.threads[t].pc.TimingOut? && Known(s, s.threads[t].id)
    ensures var n, id, args, d := Advance(cfg, s, t, o), s.threads[t].id, s.threads[t].pc.args, s.threads[t].pc.verdict;
            if s.store.entries[id].ticket.decision.status == Pending then
              && n.threads[t].pc == Adopting(args, d) && n.verdicts == s.verdicts + [(id, d)]
              && Known(n, id) && n.store.entries[id].ticket == s.store.entries[id].ticket.(decision := d)
            else n.threads[t].pc == Rereading(args) && n.store == s.store
  {
  }

  /** An operator's edit replaces the arguments as a whole; a verdict other than an approval ends the call. */
  lemma EditReplacesTheArguments(cfg: Config, s: Sys, t: string, o: Input)
    requires Ready(s, t, o) && s.threads[t].pc.Adopting?
    ensures var args, d := s.threads[t].pc.args, s.threads[t].pc.verdict;
            Advance(cfg, s, t, o).threads[t].pc
            == if d.status == Approved then Claiming(if d.edited.Some? then d.edited.value else args)
               else Done(Raised(ApprovalDenied(d)))
  {
  }

  /** What a stale close stores is an error, so no agent takes it for a result of the call. */
  lemma InterruptionIsAnError(cfg: Config, s: Sys, t: string, o: Input)
    requires Ready(s, t, o) && s.threads[t].pc.Closing? && Known(s, s.threads[t].id)
    ensures var n, id := Advance(cfg, s, t, o), s.threads[t].id;
            var e := s.store.entries[id];
            if e.ticket.result.None? && e.claimedAt.Some? && o.asOf >= e.claimedAt.value + cfg.lease then
              && Known(n, id) && n.store.entries[id].ticket.result.Some?
              && var r := n.store.entries[id].ticket.result.value;
                 r.isError && r.content.Str? && n.threads[t].pc == Done(Returned(r))
            else n.threads[t].pc == Done(Raised(PendingApproval(id))) && n.store == s.store
  {
  }
}
