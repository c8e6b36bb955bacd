/** The gateway's own code, statement by statement, against the protocol: whatever the other threads do
    between two of its awaits, every call it makes on a port is one step of the transition system. */
module Gateway {
  import opened Domain
  import opened TicketMachine
  import opened Protocol
  import opened Lifecycle
  import opened History
  import opened Safety
  import opened Waiting
  import opened Deadline
  import opened Ownership
  import Secrets

  const IDLE := Input(false, None, map[], Refused(OtherError("")), 0.0, false)

  /** What running the steps after the gate comes to, as far as the environment decides it: a refusal
      before dispatch, or the secrets the resolver holds and the upstream's reply. */
  datatype Execution = Execution(failure: Option<Error>, secrets: map<string, string>, reply: Reply)

  /** How the gate disposed of a call: handed it on, came to an end, or is still waiting for its verdict. */
  datatype Handled = HandsOn | Waits | Ended(outcome: Outcome)

  predicate Steady(s: Sys, t: string, o: Input)
    requires t in s.threads
  {
    match s.threads[t].pc
    case Sleeping(w, wakeAt) => false
    case Claiming(args) => o.asOf <= s.now
    case Closing => o.asOf <= s.now
    case Running(args) => o.failure.Some? || Secrets.Resolvable(o.secrets, args)
    case Done(outcome) => false
    case _ => true
  }

  class ToolGateway {
    const cfg: Config
    var sys: Sys             // everything the threads share, and where each of them stands
    ghost var run: seq<Action>

    ghost predicate Valid()
      reads this
    {
      Reaches(cfg, INIT, run, sys)
    }

    ghost predicate Stands(t: string, id: string, pc: PC)
      reads this
    {
      Valid() && t in sys.threads && sys.threads[t] == Thread(id, pc)
    }

    constructor (cfg: Config)
      ensures Valid() && this.cfg == cfg && sys == INIT
    {
      this.cfg, sys, run := cfg, INIT, [];
    }

    // ---- steps ---------------------------------------------------------------------------------

    method Act(a: Action)
      requires Valid() && Enabled(sys, a)
      modifies this
      ensures Valid() && run == old(run) + [a] && sys == Apply(cfg, old(sys), a)
    {
      RunAppend(cfg, INIT, run, sys, a);
      sys, run := Apply(cfg, sys, a), run + [a];
    }

    /** Anything the other threads, the operators and the clock may do while `t` awaits. Its callers are
        verified against this contract, so against every such interference. */
    method Interfere(t: string)
      requires Valid() && t in sys.threads
      modifies this
      ensures Valid() && old(run) <= run && old(sys.now) <= sys.now
      ensures t in sys.threads && sys.threads[t] == old(sys.threads[t])
    {
    }

    /** One await of `t`: interference, then its step, on the shared state `at`. */
    method Take(t: string, o: Input) returns (at: Sys)
      requires Valid() && t in sys.threads && Steady(sys, t, o)
      modifies this
      ensures Valid() && old(run) < run && old(sys.now) <= sys.now
      ensures t in at.threads && at.threads[t] == old(sys.threads[t]) && Reachable(cfg, at)
      ensures Ready(at, t, o) && sys == Advance(cfg, at, t, o)
      ensures EntriesEvolve(old(sys.store), at.store)
      ensures old(run) <= run[..|run| - 1] && Reaches(cfg, INIT, run[..|run| - 1], at)
    {
      ghost var past, seen := run, sys;
      Interfere(t);
      at := sys;
      Later(cfg, past, seen, run, sys);
      assert Reachable(cfg, at);
      Act(Go(t, o));
    }

    /** DecisionSignal.wait_for_decision: returns when the ticket's signal is heard, and then there is a
        verdict to read, or else not before the time is up. */
    method WaitForDecision(t: string, id: string, timeout: real, ghost w: Wait) returns (heard: bool)
      requires Stands(t, id, Sleeping(w, sys.now + timeout))
      modifies this
      ensures Stands(t, id, Reading(w)) && old(run) < run
      ensures if heard then Decided(sys.store, id) && id !in sys.events else sys.now >= old(sys.now) + timeout
    {
      var wakeAt := sys.now + timeout;
      Interfere(t);
      heard := id in sys.events;
      if heard {
        SignalledIsDecided(cfg, sys, id);
        Act(Go(t, IDLE.(heard := true)));
      } else {
        if sys.now < wakeAt {
          Act(Tick(wakeAt - sys.now));
        }
        Act(Go(t, IDLE));
      }
    }

    // ---- approval.py ---------------------------------------------------------------------------

    ghost function MostReads(): int {
      (if cfg.recheck > 0.0 && cfg.timeout > 0.0 then (cfg.timeout / cfg.recheck).Floor else 0) + 3
    }

    /** The waiter has read the ticket this often and has no verdict yet. */
    ghost predicate StillWaits(t: string, id: string, passes: nat)
      reads this
    {
      && Valid() && t in sys.threads && sys.threads[t].id == id
      && sys.threads[t].pc.Reading? && sys.threads[t].pc.w.looks == passes
    }

    /** The decision loop, followed for `passes` reads: it ends on the verdict it read or on a timeout of its
        own. With a positive recheck interval it never takes as many as MostReads(); with none it spins on the
        store until the clock moves, and for any number of passes this is what it does. */
    method AwaitDecision(t: string, id: string, args: Args, passes: nat) returns (decision: Option<Decision>)
      requires Stands(t, id, Arming(args))
      modifies this
      ensures old(run) < run
      ensures decision.Some? ==>
                && decision.value.status != Pending
                && Stands(t, id, if decision.value.status == Timeout then TimingOut(args, decision.value)
                                 else Adopting(args, decision.value))
      ensures decision.Some? ==>
                if decision.value.status == Timeout then sys.now >= old(sys.now) + cfg.timeout
                else Verdict(sys, id, decision.value)
      ensures decision.None? ==> StillWaits(t, id, passes) && (cfg.recheck > 0.0 ==> passes < MostReads())
    {
      var at := Take(t, IDLE);
      var deadline := at.now + cfg.timeout;
      ghost var start := at.now;
      for looks := 0 to passes
        invariant old(run) < run
        invariant Stands(t, id, Reading(Wait(args, start, deadline, looks)))
      {
        decision := LookOnce(t, id, args, deadline, Wait(args, start, deadline, looks));
        if decision.Some? {
          return;
        }
      }
      if cfg.recheck > 0.0 {
        FewReads(cfg, sys, t);
      }
      return None;
    }

    /** One pass of it: read the ticket, look at the clock, sleep. */
    method LookOnce(t: string, id: string, args: Args, deadline: real, ghost w: Wait) returns (decision: Option<Decision>)
      requires Stands(t, id, Reading(w)) && w.args == args && w.deadline == deadline
      modifies this
      ensures old(run) < run
      ensures decision.Some? ==>
                && decision.value.status != Pending
                && Stands(t, id, if decision.value.status == Timeout then TimingOut(args, decision.value)
                                 else Adopting(args, decision.value))
      ensures decision.Some? ==>
                if decision.value.status == Timeout then sys.now >= deadline else Verdict(sys, id, decision.value)
      ensures decision.None? ==> Stands(t, id, Reading(w.(looks := w.looks + 1)))
    {
      var at := Take(t, IDLE);
      FilesItsTicket(cfg, at, t);
      WaiterSeesNoTimeout(cfg, at, t);
      var read := Get(at.store, id).value.decision;
      if read.status != Pending {
        return Some(read);
      }
      at := Take(t, IDLE);
      var remaining := deadline - at.now;
      if remaining <= 0.0 {
        return Some(TIMED_OUT);
      }
      var heard := WaitForDecision(t, id, Min(remaining, cfg.recheck), w.(looks := w.looks + 1));
      return None;
    }

    /** However the timeout and the operators race, the waiter ends up with the verdict the ticket holds. */
    method Settle(t: string, id: string, args: Args, passes: nat) returns (decision: Option<Decision>)
      requires Stands(t, id, Arming(args))
      modifies this
      ensures old(run) < run && Valid()
      ensures decision.Some? ==> Stands(t, id, Adopting(args, decision.value)) && Verdict(sys, id, decision.value)
      ensures decision.Some? && decision.value.status == Timeout ==> sys.now >= old(sys.now) + cfg.timeout
      ensures decision.None? ==> StillWaits(t, id, passes) && (cfg.recheck > 0.0 ==> passes < MostReads())
    {
      decision := AwaitDecision(t, id, args, passes);
      if decision.None? {
        return;
      }
      if decision.value.status == Timeout {
        var at := Take(t, IDLE);
        var won := Decidable(at.store, id);
        if !won {
          at := Take(t, IDLE);
          FilesItsTicket(cfg, at, t);
          decision := Some(Get(at.store, id).value.decision);
        }
      }
      AdoptsTheVerdict(cfg, sys, t);
    }

    /** run_once around the steps after the gate. It leaves the ticket claimed; the caller that won the claim
        ends as the execution does, any other with a stored result or waiting. Whatever is returned is stored
        on the ticket, and so is a failure that is raised. A ticket whose claim was older than the lease is
        never left to wait: either a result comes back, or another caller wrote one after this one's reread
        saw none. */
    method RunOnce(t: string, id: string, args: Args, x: Execution) returns (o: Outcome, ghost reread: Sys)
      requires Stands(t, id, Claiming(args))
      modifies this
      ensures old(run) < run && Stands(t, id, Done(o))
      ensures HandsOutWhatIsStored(sys, id, o)
      ensures id in sys.owner
      ensures if sys.owner[id] == t
              then RanAs(sys, t, id, args, x, o) && Keeps(sys, id, o)
                   && sys.store.entries[id].claimedAt == Some(old(sys).now)
              else o.Returned? || o == Raised(PendingApproval(id))
      ensures Expired(cfg, old(sys), id) ==> NotStuck(old(sys), reread, sys, id, o)
    {
      ghost var past, start := run, sys;
      var asOf := sys.now;
      var at := Take(t, IDLE.(asOf := asOf));
      ghost var before, mid := run, sys;
      if Claimable(at.store, id) {
        o := Execute(t, id, args, x);
        reread := sys;
      } else {
        LosersOwnNothing(cfg, sys, t);
        LaterIsForward(cfg, past, start, run, sys);
        o, reread := LoseTheClaim(t, id);
      }
      OwnerStays(cfg, before, mid, run, sys, id);
      ReturnedIsStored(cfg, sys, t);
    }

    /** The loser returns the result its reread found; else it closes a claim older than the lease and returns
        the interruption it stored, or reports the ticket pending. */
    method LoseTheClaim(t: string, id: string) returns (o: Outcome, ghost reread: Sys)
      requires Stands(t, id, LostReading)
      modifies this
      ensures old(run) < run && Stands(t, id, Done(o)) && old(sys).writes <= reread.writes
      ensures Executed(reread, id) ==> o == Returned(reread.store.entries[id].ticket.result.value)
      ensures !Executed(reread, id) ==>
                || (o == Returned(INTERRUPTED) && Keeps(sys, id, o) && Expired(cfg, sys, id))
                || (o == Raised(PendingApproval(id))
                    && (Expired(cfg, old(sys), id) ==> NotStuck(old(sys), reread, sys, id, o)))
    {
      ghost var past, start := run, sys;
      var at := Take(t, IDLE);
      LaterIsForward(cfg, past, start, run, sys);
      reread := sys;
      var ticket := Get(at.store, id);
      if ticket.Some? && ticket.value.result.Some? {
        return Returned(ticket.value.result.value), reread;
      }
      past := run;
      var asOf := sys.now;
      at := Take(t, IDLE.(asOf := asOf));
      if Stale(at.store, id, cfg.lease, asOf) {
        return Returned(INTERRUPTED), reread;
      }
      if Expired(cfg, start, id) {
        WrittenWhileWaiting(cfg, past, reread, run, sys, id);
      }
      return Raised(PendingApproval(id)), reread;
    }

    /** The winner runs the steps and stores what they come to, a failure included: the refusal of a step, a
        secret that is missing, or the upstream's reply to the call it then dispatched. */
    method Execute(t: string, id: string, args: Args, x: Execution) returns (o: Outcome)
      requires Stands(t, id, Running(args))
      modifies this
      ensures old(run) < run && Stands(t, id, Done(o)) && Keeps(sys, id, o)
      ensures RanAs(sys, t, id, args, x, o)
    {
      var failure := x.failure;
      if failure.None? && !Secrets.Resolvable(x.secrets, args) {
        var key :| key in args && Secrets.IsRef(args[key]) && Secrets.RefOf(args[key]) !in x.secrets;
        failure := Some(SecretRefMissing(Secrets.RefOf(args[key])));
      }
      if failure.Some? {
        Fail(t, id, args, failure.value);
        return Raised(failure.value);
      }
      o := SendAndStore(t, id, args, x.secrets, x.reply);
    }

    method SendAndStore(t: string, id: string, args: Args, secrets: map<string, string>, reply: Reply) returns (o: Outcome)
      requires Stands(t, id, Running(args)) && Secrets.Resolvable(secrets, args)
      modifies this
      ensures old(run) < run && Stands(t, id, Done(o)) && Keeps(sys, id, o)
      ensures o == if reply.Answer? then Returned(reply.result) else Raised(reply.error)
      ensures WasSent(sys, t, id, Secrets.Resolve(secrets, args))
    {
      var at := Take(t, IDLE.(secrets := secrets));
      ghost var past, sent := run, sys;
      assert WasSent(sys, t, id, Secrets.Resolve(secrets, args)) by {
        assert sys.trace[|at.trace|].args == Secrets.Resolve(secrets, args);
      }
      o := Complete(t, id, args, reply);
      LaterIsForward(cfg, past, sent, run, sys);
      SentStays(sent, sys, t, id, Secrets.Resolve(secrets, args));
    }

    /** A refused call is not dispatched. */
    method Fail(t: string, id: string, args: Args, e: Error)
      requires Stands(t, id, Running(args))
      modifies this
      ensures old(run) < run && Stands(t, id, Done(Raised(e))) && Keeps(sys, id, Raised(e)) && Unsent(sys, id)
    {
      var at := Take(t, IDLE.(failure := Some(e)));
      NothingSentYet(cfg, at, t);
      ghost var past, refused := run, sys;
      at := Take(t, IDLE);
      CompletesItsTicket(cfg, at, t);
      StillUnsent(cfg, past, refused, run[..|run| - 1], at, t);
    }

    method Complete(t: string, id: string, args: Args, reply: Reply) returns (o: Outcome)
      requires Stands(t, id, Awaiting(args))
      modifies this
      ensures old(run) < run && Stands(t, id, Done(o)) && Keeps(sys, id, o)
      ensures o == if reply.Answer? then Returned(reply.result) else Raised(reply.error)
    {
      var at := Take(t, IDLE.(reply := reply));
      at := Take(t, IDLE);
      CompletesItsTicket(cfg, at, t);
      return if reply.Answer? then Returned(reply.result) else Raised(reply.error);
    }

    /** The approval gate. In auto mode it only hands the call on; otherwise it files a ticket. A caller that
        waits may still be waiting after `passes` reads only when that is less than the wait can take. */
    method HandleCall(t: string, id: string, call: ToolCall, mode: Mode, canBlock: bool, passes: nat, x: Execution)
      returns (h: Handled)
      requires Valid() && t !in sys.threads && id !in sys.store.entries
      modifies this
      ensures Valid() && old(run) <= run
      ensures mode == Auto <==> h == HandsOn
      ensures h == HandsOn ==> sys == old(sys)
      ensures h == Waits ==> mode == Interactive && canBlock && StillWaits(t, id, passes)
                             && (cfg.recheck > 0.0 ==> passes < MostReads())
      ensures h.Ended? ==> Stands(t, id, Done(h.outcome)) && HandsOutWhatIsStored(sys, id, h.outcome)
      ensures mode == Async || (mode == Interactive && !canBlock) ==>
                && h == Ended(Raised(PendingApproval(id))) && sys.trace == old(sys).trace
                && sys.store.order == old(sys).store.order + [id]
                && sys.store.entries
                   == old(sys).store.entries[id := Entry(Ticket(call, Decision(Pending, "", "", None), None), None)]
      ensures h.Ended? && mode == Interactive && canBlock ==>
                && Decided(sys.store, id) && sys.store.entries[id].ticket.call == call
                && var verdict := sys.store.entries[id].ticket.decision;
                   && (verdict.status == Timeout ==> sys.now >= old(sys.now) + cfg.timeout)
                   && if verdict.status != Approved then h.outcome == Raised(ApprovalDenied(verdict))
                      else id in sys.owner
                           && if sys.owner[id] == t then TicketRan(sys, t, id, x, h.outcome)
                              else h.outcome.Returned? || h.outcome == Raised(PendingApproval(id))
    {
      if mode == Auto {
        return HandsOn;
      }
      var blocks := mode != Async && canBlock;
      Act(File(t, id, call, blocks));
      if !blocks {
        return Ended(Raised(PendingApproval(id)));
      }
      ghost var past, filed := run, sys;
      var decision := Settle(t, id, call.arguments, passes);
      if decision.None? {
        return Waits;
      }
      ghost var settled, seen := run, sys;
      var outcome := ApplyDecision(t, id, call.arguments, decision.value, x);
      TicketFollows(cfg, past, filed, run, sys, id);
      TicketFollows(cfg, settled, seen, run, sys, id);
      return Ended(outcome);
    }

    /** apply_decision, then run_once for an approved verdict. */
    method ApplyDecision(t: string, id: string, args: Args, decision: Decision, x: Execution) returns (o: Outcome)
      requires Stands(t, id, Adopting(args, decision))
      modifies this
      ensures old(run) < run && Stands(t, id, Done(o)) && HandsOutWhatIsStored(sys, id, o)
      ensures decision.status != Approved ==> o == Raised(ApprovalDenied(decision))
      ensures decision.status == Approved ==>
                && id in sys.owner
                && if sys.owner[id] == t
                   then RanAs(sys, t, id, if decision.edited.Some? then decision.edited.value else args, x, o)
                   else o.Returned? || o == Raised(PendingApproval(id))
    {
      var at := Take(t, IDLE);
      if decision.status != Approved {
        return Raised(ApprovalDenied(decision));
      }
      ghost var reread;
      o, reread := RunOnce(t, id, Effective(args, decision), x);
    }

    // ---- gateway.py and mcp.py -----------------------------------------------------------------

    /** A ticket that has a result is never run again, one that was turned down never runs, and one whose
        claim is older than the lease is never left to wait while it is still granted. */
    method Resume(t: string, id: string, granted: bool, x: Execution) returns (o: Outcome, ghost reread: Sys)
      requires Valid() && t !in sys.threads
      modifies this
      ensures old(run) < run && Stands(t, id, Done(o)) && HandsOutWhatIsStored(sys, id, o)
      ensures Answers(old(sys), sys, t, id, granted, x, o)
      ensures HasClaim(sys, t, id) ==> granted && TicketRan(sys, t, id, x, o)
      ensures id in old(sys).store.entries ==> o != UnknownTicket
      ensures id !in sys.store.entries ==> o == UnknownTicket
      ensures Expired(cfg, old(sys), id) && granted ==> NotStuck(old(sys), reread, sys, id, o)
    {
      Act(StartResume(t, id));
      o, reread := ResumeTicket(t, id, granted, x);
    }

    method ResumeTicket(t: string, id: string, granted: bool, x: Execution) returns (o: Outcome, ghost reread: Sys)
      requires Stands(t, id, ResumeReading)
      modifies this
      ensures old(run) < run && Stands(t, id, Done(o)) && HandsOutWhatIsStored(sys, id, o)
      ensures Answers(old(sys), sys, t, id, granted, x, o)
      ensures HasClaim(sys, t, id) ==> granted && TicketRan(sys, t, id, x, o)
      ensures id in old(sys).store.entries ==> o != UnknownTicket
      ensures id !in sys.store.entries ==> o == UnknownTicket
      ensures Expired(cfg, old(sys), id) && granted ==> NotStuck(old(sys), reread, sys, id, o)
    {
      ghost var past, seen := run, sys;
      var at := Take(t, IDLE);
      StaysSo(cfg, past, seen, run, sys, id, granted);
      StaysExpired(cfg, past, seen, run, sys, id);
      StaysCleared(cfg, past, seen, run, sys, id);
      LosersOwnNothing(cfg, at, t);
      reread := sys;
      var ticket := Get(at.store, id);
      if ticket.None? {
        return UnknownTicket, reread;
      }
      if ticket.value.result.Some? {
        ReturnedIsStored(cfg, sys, t);
        return Returned(ticket.value.result.value), reread;
      }
      var call, decision := ticket.value.call, ticket.value.decision;
      if decision.status == Pending {
        return Raised(PendingApproval(id)), reread;
      }
      past, seen := run, sys;
      o, reread := ResumeDecided(t, id, call, decision, granted, x);
      Later(cfg, past, seen, run, sys);
    }

    /** From the grant on; the verdict is the one read. */
    method ResumeDecided(t: string, id: string, call: ToolCall, decision: Decision, granted: bool, x: Execution)
      returns (o: Outcome, ghost reread: Sys)
      requires Stands(t, id, Granting(call, decision))
      modifies this
      ensures old(run) < run && Stands(t, id, Done(o)) && HandsOutWhatIsStored(sys, id, o)
      ensures !granted ==> o == Raised(ToolNotAllowed("no longer allowed: " + call.FullName()))
      ensures granted && decision.status != Approved ==> o == Raised(ApprovalDenied(decision))
      ensures granted && decision.status == Approved ==> RunsOrWaits(sys, t, id, x, o)
      ensures !granted || decision.status != Approved ==> !HasClaim(sys, t, id)
      ensures Expired(cfg, old(sys), id) && granted && decision.status == Approved ==>
                NotStuck(old(sys), reread, sys, id, o)
    {
      ghost var past, seen := run, sys;
      var at := Take(t, IDLE.(granted := granted));
      LosersOwnNothing(cfg, at, t);
      reread := sys;
      if !granted {
        return Raised(ToolNotAllowed("no longer allowed: " + call.FullName())), reread;
      }
      if decision.status != Approved {
        return Raised(ApprovalDenied(decision)), reread;
      }
      StaysExpired(cfg, past, seen, run, sys, id);
      o, reread := RunOnce(t, id, Effective(call.arguments, decision), x);
      StillItsTicket(cfg, past, seen, run, sys, t);
    }

    /** `gateway.check`: an agent sees only its own tickets, and of each of them what a resume comes to. */
    method Check(t: string, id: string, agent: string, granted: bool, x: Execution)
      returns (o: Outcome, ghost reread: Sys)
      requires Valid() && t !in sys.threads
      modifies this
      ensures old(run) < run && Stands(t, id, Done(o)) && HandsOutWhatIsStored(sys, id, o)
      ensures o != NoTicket ==> IsOwn(sys, id, agent) && o != UnknownTicket
      ensures IsOwn(old(sys), id, agent) ==> o != NoTicket && Answers(old(sys), sys, t, id, granted, x, o)
      ensures HasClaim(sys, t, id) ==> granted && TicketRan(sys, t, id, x, o)
      ensures Expired(cfg, old(sys), id) && granted && o != NoTicket ==> NotStuck(old(sys), reread, sys, id, o)
    {
      Act(StartCheck(t, id, agent));
      ghost var seen := sys;
      var ticket := ReadOwn(t, id, agent);
      reread := sys;
      if ticket.None? {
        return NoTicket, reread;
      }
      if ticket.value.decision.status == Pending {
        ToldToWait(seen, sys, t, id, granted, x);
        return Raised(PendingApproval(id)), reread;
      }
      ghost var past, mid := run, sys;
      o, reread := ResumeTicket(t, id, granted, x);
      TicketFollows(cfg, past, mid, run, sys, id);
      AnswersEarlier(seen, mid, sys, t, id, granted, x, o);
    }

    /** The ticket, if it is this agent's. */
    method ReadOwn(t: string, id: string, agent: string) returns (ticket: Option<Ticket>)
      requires Stands(t, id, CheckReading(agent))
      modifies this
      ensures old(run) < run && Valid() && Follows(old(sys), sys, id) && !HasClaim(sys, t, id)
      ensures ticket.None? ==> Stands(t, id, Done(NoTicket)) && !IsOwn(old(sys), id, agent)
      ensures ticket.Some? ==>
                && IsOwn(sys, id, agent) && ticket == Get(sys.store, id)
                && Stands(t, id, if ticket.value.decision.status == Pending then Done(Raised(PendingApproval(id)))
                                 else ResumeReading)
    {
      ghost var past, seen := run, sys;
      var at := Take(t, IDLE);
      TicketFollows(cfg, past, seen, run, sys, id);
      HasNoClaim(cfg, at, t, id);
      ticket := Get(at.store, id);
      if ticket.None? || ticket.value.call.agentId != agent {
        return None;
      }
    }

    /** Records an operator's verdict once; anything but an approval or a rejection is refused (a
        ValueError) before the ticket is read. A known ticket is decided afterwards: by this decide if none
        before it recorded a verdict, and else by that one. */
    method Decide(t: string, id: string, d: Decision, heard: bool) returns (o: Option<Outcome>, ghost tried: Sys)
      requires Valid() && t !in sys.threads
      modifies this
      ensures Valid() && old(run) <= run
      ensures o.None? <==> d.status !in {Status.Approved, Rejected}
      ensures o.None? ==> sys == old(sys)
      ensures o.Some? ==> Stands(t, id, Done(o.value)) && o.value in {UnknownTicket, TicketAlreadyDecided, Recorded}
      ensures id in old(sys).store.entries && o.Some? ==> o != Some(UnknownTicket) && Decided(sys.store, id)
      ensures id !in sys.store.entries && o.Some? ==> o == Some(UnknownTicket)
      ensures o == Some(Recorded) ==> Verdict(sys, id, d) && RecordedAfter(tried, sys, id, d) && (heard ==> id in sys.events)
      ensures o == Some(TicketAlreadyDecided) ==> Decided(sys.store, id) && HasVerdict(tried, id)
      ensures o.Some? ==> old(sys).verdicts <= tried.verdicts <= sys.verdicts
    {
      tried := sys;
      if d.status != Approved && d.status != Rejected {
        return None, tried;
      }
      Act(StartDecide(t, id, d));
      ghost var past, seen := run, sys;
      var at := Take(t, IDLE);
      LaterIsForward(cfg, past, seen, run, sys);
      tried := sys;
      if Get(at.store, id).None? {
        return Some(UnknownTicket), tried;
      }
      var outcome;
      outcome, tried := RecordVerdict(t, id, d, heard);
      return Some(outcome), tried;
    }

    /** The decide and, if it won, the signal. */
    method RecordVerdict(t: string, id: string, d: Decision, heard: bool) returns (o: Outcome, ghost tried: Sys)
      requires Stands(t, id, OpDeciding(d)) && id in sys.store.entries
      modifies this
      ensures old(run) < run && Stands(t, id, Done(o)) && old(sys).verdicts <= tried.verdicts <= sys.verdicts
      ensures if o == Recorded then Verdict(sys, id, d) && RecordedAfter(tried, sys, id, d)
              else o == TicketAlreadyDecided && Decided(sys.store, id) && HasVerdict(tried, id)
      ensures o == Recorded && heard ==> id in sys.events
    {
      ghost var past, seen := run, sys;
      var at := Take(t, IDLE);
      tried := at;
      Deciding(cfg, past, seen, run[..|run| - 1], at, t);
      if !Decidable(at.store, id) {
        return TicketAlreadyDecided, tried;
      }
      SignalDecision(t, id, d, heard);
      return Recorded, tried;
    }

    method SignalDecision(t: string, id: string, ghost d: Decision, heard: bool)
      requires Stands(t, id, OpSignalling) && Verdict(sys, id, d)
      modifies this
      ensures old(run) < run && Stands(t, id, Done(Recorded))
      ensures Verdict(sys, id, d) && old(sys).verdicts <= sys.verdicts && (heard ==> id in sys.events)
    {
      ghost var past, seen := run, sys;
      var at := Take(t, IDLE.(heard := heard));
      LaterIsForward(cfg, past, seen, run, sys);
    }
  }

  /** The first verdict recorded for the ticket, right after those of `tried`, is this one. */
  ghost predicate RecordedAfter(tried: Sys, s: Sys, id: string, d: Decision) {
    && !HasVerdict(tried, id)
    && |tried.verdicts| < |s.verdicts| && s.verdicts[|tried.verdicts|] == (id, d)
  }

  lemma Deciding(cfg: Config, run: seq<Action>, s: Sys, longer: seq<Action>, end: Sys, t: string)
    requires Reaches(cfg, INIT, run, s) && Reaches(cfg, INIT, longer, end) && run <= longer
    requires t in end.threads && end.threads[t].pc.OpDeciding? && end.threads[t].id in s.store.entries
    ensures s.verdicts <= end.verdicts && end.threads[t].id in end.store.entries
    ensures end.threads[t].pc.verdict.status in {Status.Approved, Rejected}
    ensures HasVerdict(end, end.threads[t].id) <==> Decided(end.store, end.threads[t].id)
  {
    LaterIsForward(cfg, run, s, longer, end);
    assert Reachable(cfg, end);
    IsOperators(cfg, end, t);
    DecidedMeansRecorded(cfg, end, end.threads[t].id);
  }

  lemma IsOperators(cfg: Config, s: Sys, t: string)
    requires Reachable(cfg, s) && t in s.threads && s.threads[t].pc.OpDeciding?
    ensures s.threads[t].pc.verdict.status in {Status.Approved, Rejected}
  {
    ReachableIsGood(cfg, s);
    assert ThreadInv(s, t);
  }

  lemma DecidedMeansRecorded(cfg: Config, s: Sys, id: string)
    requires Reachable(cfg, s)
    ensures HasVerdict(s, id) <==> Decided(s.store, id)
  {
    ExactlyOneDecideWins(cfg, s, id);
  }

  lemma {:induction false} RunsOn(cfg: Config, s: Sys, run: seq<Action>, mid: Sys, longer: seq<Action>, end: Sys)
    requires Reaches(cfg, s, run, mid) && Reaches(cfg, s, longer, end) && run <= longer
    ensures Reaches(cfg, mid, longer[|run|..], end)
    decreases |run|
  {
    if run == [] {
      assert longer[0..] == longer;
    } else {
      RunsOn(cfg, Apply(cfg, s, run[0]), run[1..], mid, longer[1..], end);
      assert longer[1..][|run| - 1..] == longer[|run|..];
    }
  }

  /** Nothing a later state of the same run says of a ticket takes back what an earlier one said. */
  lemma Later(cfg: Config, run: seq<Action>, s: Sys, longer: seq<Action>, end: Sys)
    requires Reaches(cfg, INIT, run, s) && Reaches(cfg, INIT, longer, end) && run <= longer
    ensures EntriesEvolve(s.store, end.store)
  {
    RunsOn(cfg, INIT, run, s, longer, end);
    assert Reachable(cfg, s);
    forall id | id in s.store.entries
      ensures id in end.store.entries && EntryEvolves(s.store.entries[id], end.store.entries[id])
    {
      NothingIsUndone(cfg, s, longer[|run|..], end, id);
    }
  }

  lemma LaterIsForward(cfg: Config, run: seq<Action>, s: Sys, longer: seq<Action>, end: Sys)
    requires Reaches(cfg, INIT, run, s) && Reaches(cfg, INIT, longer, end) && run <= longer
    ensures Forward(s, end)
  {
    RunsOn(cfg, INIT, run, s, longer, end);
    assert Reachable(cfg, s);
    LaterHistory(cfg, s, longer[|run|..], end);
  }

  // ---- tickets whose executor died -------------------------------------------------------------

  /** The claim is at least as old as the lease. */
  predicate Expired(cfg: Config, s: Sys, id: string) {
    id in s.store.entries && s.store.entries[id].claimedAt.Some?
    && s.now - s.store.entries[id].claimedAt.value >= cfg.lease
  }

  /** The caller got a result, or was told to wait only because another one wrote a result after its reread,
      made since it came, saw none. */
  ghost predicate NotStuck(start: Sys, reread: Sys, s: Sys, id: string, o: Outcome) {
    || o.Returned?
    || (o == Raised(PendingApproval(id)) && start.writes <= reread.writes && !Executed(reread, id)
        && WrittenSince(reread, s, id))
  }

  lemma StaysExpired(cfg: Config, run: seq<Action>, s: Sys, longer: seq<Action>, end: Sys, id: string)
    requires Reaches(cfg, INIT, run, s) && Reaches(cfg, INIT, longer, end) && run <= longer
    ensures Expired(cfg, s, id) ==> Expired(cfg, end, id) && end.store.entries[id].ticket.decision.status == Status.Approved
    ensures s.writes <= end.writes
  {
    LaterIsForward(cfg, run, s, longer, end);
    if Expired(cfg, s, id) {
      assert EntryEvolves(s.store.entries[id], end.store.entries[id]);
      assert Reachable(cfg, end);
      ReachableIsGood(cfg, end);
      assert TicketInv(end, id);
    }
  }

  lemma WrittenWhileWaiting(cfg: Config, run: seq<Action>, s: Sys, longer: seq<Action>, end: Sys, id: string)
    requires Reaches(cfg, INIT, run, s) && Reaches(cfg, INIT, longer, end) && run <= longer
    requires id in s.store.entries && !Executed(s, id) && Executed(end, id)
    ensures WrittenSince(s, end, id)
  {
    RunsOn(cfg, INIT, run, s, longer, end);
    assert Reachable(cfg, s);
    LaterHistory(cfg, s, longer[|run|..], end);
    AppearedIsWritten(s, end, id);
  }

  // ---- what an execution leaves ----------------------------------------------------------------

  /** What is stored of an outcome. */
  function ResultOf(o: Outcome): Option<ToolResult> {
    match o
    case Returned(result) => Some(result)
    case Raised(e) => Some(ErrorResult(e))
    case _ => None
  }

  predicate Keeps(s: Sys, id: string, o: Outcome) {
    id in s.store.entries && s.store.entries[id].ticket.result.Some? && s.store.entries[id].ticket.result == ResultOf(o)
  }

  ghost predicate WasSent(s: Sys, t: string, id: string, args: Args) {
    exists i :: 0 <= i < |s.trace| && s.trace[i].id == id && s.trace[i].executor == t && s.trace[i].args == args
  }

  lemma SentStays(s: Sys, n: Sys, t: string, id: string, args: Args)
    requires WasSent(s, t, id, args) && s.trace <= n.trace
    ensures WasSent(n, t, id, args)
  {
    var i :| 0 <= i < |s.trace| && s.trace[i].id == id && s.trace[i].executor == t && s.trace[i].args == args;
    assert n.trace[i] == s.trace[i];
  }

  /** How an execution of these arguments ends: as the step that refused them, for want of a secret, or as the
      upstream replied to the call, which was then sent with its secrets; and sent only then. */
  ghost predicate RanAs(s: Sys, t: string, id: string, args: Args, x: Execution, o: Outcome) {
    if x.failure.Some? then o == Raised(x.failure.value) && Unsent(s, id)
    else if !Secrets.Resolvable(x.secrets, args) then
      && Unsent(s, id)
      && exists key :: key in args && Secrets.IsRef(args[key]) && Secrets.RefOf(args[key]) !in x.secrets
                       && o == Raised(SecretRefMissing(Secrets.RefOf(args[key])))
    else
      && o == (if x.reply.Answer? then Returned(x.reply.result) else Raised(x.reply.error))
      && WasSent(s, t, id, Secrets.Resolve(x.secrets, args))
  }

  /** The execution was of the ticket's call, with the operator's edit if there is one. */
  ghost predicate TicketRan(s: Sys, t: string, id: string, x: Execution, o: Outcome) {
    && id in s.store.entries
    && var ticket := s.store.entries[id].ticket;
       RanAs(s, t, id, if ticket.decision.edited.Some? then ticket.decision.edited.value else ticket.call.arguments, x, o)
  }

  ghost predicate Unsent(s: Sys, id: string) {
    forall i :: 0 <= i < |s.trace| ==> s.trace[i].id != id
  }

  lemma NothingSentYet(cfg: Config, s: Sys, t: string)
    requires Reachable(cfg, s) && t in s.threads && s.threads[t].pc.Running?
    ensures Unsent(s, s.threads[t].id)
  {
    ReachableIsGood(cfg, s);
    assert ThreadInv(s, t);
    forall i | 0 <= i < |s.trace| ensures s.trace[i].id != s.threads[t].id {
      assert DispatchInv(s, s.trace[i]);
    }
  }

  /** Only the owner of a ticket dispatches it. */
  lemma OthersSendOther(cfg: Config, s: Sys, a: Action, t: string)
    requires Reachable(cfg, s) && Enabled(s, a) && Owns(s, t) && s.threads[t].pc.Completing?
    requires Unsent(s, s.threads[t].id)
    ensures Unsent(Apply(cfg, s, a), s.threads[t].id)
  {
    var n := Apply(cfg, s, a);
    if n.trace != s.trace {
      ApprovedAtTheInstantOfDispatch(cfg, s, a);
      ReachableIsGood(cfg, s);
      assert ThreadInv(s, a.t);
      RunsItsOwn(cfg, s, a);
      assert forall i :: 0 <= i < |s.trace| ==> n.trace[i] == n.trace[..|s.trace|][i];
    }
  }

  lemma RunsItsOwn(cfg: Config, s: Sys, a: Action)
    requires Enabled(s, a) && a.Go? && Apply(cfg, s, a).trace != s.trace
    ensures s.threads[a.t].pc.Running?
  {
    if InGate(s.threads[a.t].pc) {
      GateDispatchesNothing(cfg, s, a.t, a.input);
    } else if InRunOnce(s.threads[a.t].pc) {
      OnlyRunningDispatches(cfg, s, a.t, a.input);
    } else {
      CallersDispatchNothing(cfg, s, a.t, a.input);
    }
  }

  lemma OwnsWhatItCompletes(cfg: Config, s: Sys, t: string)
    requires Reachable(cfg, s) && t in s.threads && s.threads[t].pc.Completing?
    ensures Owns(s, t)
  {
    ReachableIsGood(cfg, s);
    assert ThreadInv(s, t);
  }

  lemma {:induction false} UnsentWhileCompleting(cfg: Config, s: Sys, run: seq<Action>, end: Sys, t: string)
    requires Reachable(cfg, s) && Reaches(cfg, s, run, end) && t in s.threads && s.threads[t].pc.Completing?
    requires Unsent(s, s.threads[t].id) && t in end.threads && end.threads[t] == s.threads[t]
    ensures Unsent(end, s.threads[t].id)
    decreases |run|
  {
    if run != [] {
      var a, n := run[0], Apply(cfg, s, run[0]);
      StepIsReachable(cfg, s, a);
      if (a.Go? && a.t == t) || a == Crash(t) {
        assert n.threads[t].pc.Done?;
        DoneForGood(cfg, n, run[1..], end, t);
      } else {
        StepMovesOne(cfg, s, a, t);
        OwnsWhatItCompletes(cfg, s, t);
        OthersSendOther(cfg, s, a, t);
        UnsentWhileCompleting(cfg, n, run[1..], end, t);
      }
    }
  }

  lemma {:induction false} DoneForGood(cfg: Config, s: Sys, run: seq<Action>, end: Sys, t: string)
    requires Reaches(cfg, s, run, end) && t in s.threads && s.threads[t].pc.Done?
    ensures t in end.threads && end.threads[t].pc.Done?
    decreases |run|
  {
    if run != [] {
      DoneStays(cfg, s, run[0], t);
      DoneForGood(cfg, Apply(cfg, s, run[0]), run[1..], end, t);
    }
  }

  lemma StillUnsent(cfg: Config, run: seq<Action>, s: Sys, longer: seq<Action>, end: Sys, t: string)
    requires Reaches(cfg, INIT, run, s) && Reaches(cfg, INIT, longer, end) && run <= longer
    requires t in s.threads && s.threads[t].pc.Completing? && Unsent(s, s.threads[t].id)
    requires t in end.threads && end.threads[t] == s.threads[t]
    ensures Unsent(end, s.threads[t].id)
  {
    RunsOn(cfg, INIT, run, s, longer, end);
    assert Reachable(cfg, s);
    UnsentWhileCompleting(cfg, s, longer[|run|..], end, t);
  }

  lemma OwnerStays(cfg: Config, run: seq<Action>, s: Sys, longer: seq<Action>, end: Sys, id: string)
    requires Reaches(cfg, INIT, run, s) && Reaches(cfg, INIT, longer, end) && run <= longer
    ensures id in s.owner ==> id in end.owner && end.owner[id] == s.owner[id]
    ensures Claimed(s, id) ==> Claimed(end, id) && end.store.entries[id].claimedAt == s.store.entries[id].claimedAt
  {
    LaterIsForward(cfg, run, s, longer, end);
  }

  lemma CompletesItsTicket(cfg: Config, s: Sys, t: string)
    requires Reachable(cfg, s) && t in s.threads && s.threads[t].pc.Completing?
    ensures s.threads[t].id in s.store.entries
  {
    ReachableIsGood(cfg, s);
    assert ThreadInv(s, t);
  }

  lemma SignalledIsDecided(cfg: Config, s: Sys, id: string)
    requires Reachable(cfg, s) && id in s.events
    ensures Decided(s.store, id)
  {
    ReachableIsGood(cfg, s);
  }

  predicate IsOwn(s: Sys, id: string, agent: string) {
    id in s.store.entries && s.store.entries[id].ticket.call.agentId == agent
  }

  ghost predicate Executed(s: Sys, id: string) {
    id in s.store.entries && s.store.entries[id].ticket.result.Some?
  }

  ghost predicate TurnedDown(s: Sys, id: string) {
    Decided(s.store, id) && s.store.entries[id].ticket.decision.status != Status.Approved
  }

  /** How a resume of such a ticket ends. */
  function TurnsDown(s: Sys, id: string, granted: bool): Outcome
    requires id in s.store.entries
  {
    var ticket := s.store.entries[id].ticket;
    Raised(if granted then ApprovalDenied(ticket.decision)
           else ToolNotAllowed("no longer allowed: " + ticket.call.FullName()))
  }

  lemma StaysSo(cfg: Config, run: seq<Action>, s: Sys, longer: seq<Action>, end: Sys, id: string, granted: bool)
    requires Reaches(cfg, INIT, run, s) && Reaches(cfg, INIT, longer, end) && run <= longer
    ensures Executed(s, id) ==> Executed(end, id)
    ensures TurnedDown(s, id) ==>
              TurnedDown(end, id) && !Executed(end, id) && TurnsDown(end, id, granted) == TurnsDown(s, id, granted)
  {
    Later(cfg, run, s, longer, end);
    if TurnedDown(s, id) {
      assert Reachable(cfg, end);
      ReachableIsGood(cfg, end);
      assert TicketInv(end, id);
    }
  }

  // ---- resumes of an approved ticket -----------------------------------------------------------

  ghost predicate Cleared(s: Sys, id: string) {
    Decided(s.store, id) && s.store.entries[id].ticket.decision.status == Status.Approved
  }

  /** This thread won the ticket's claim. */
  predicate HasClaim(s: Sys, t: string, id: string) {
    id in s.owner && s.owner[id] == t
  }

  /** The ticket is claimed: the caller that won the claim ends as the execution does, which is stored, any
      other with a result or told to wait. */
  ghost predicate RunsOrWaits(s: Sys, t: string, id: string, x: Execution, o: Outcome) {
    && id in s.owner
    && if s.owner[id] == t then TicketRan(s, t, id, x, o) && Keeps(s, id, o)
       else o.Returned? || o == Raised(PendingApproval(id))
  }

  /** Without a grant a caller gets a result that is already there, or nothing. */
  predicate SentAway(s: Sys, id: string, o: Outcome)
    requires id in s.store.entries
  {
    o.Returned? || o == Raised(ToolNotAllowed("no longer allowed: " + s.store.entries[id].ticket.call.FullName()))
  }

  /** What a caller that found the ticket as it was in `start`, or later, is told of it: a result that is there,
      the verdict that turned it down, what the execution of the approved call comes to, or to wait. */
  ghost predicate Answers(start: Sys, s: Sys, t: string, id: string, granted: bool, x: Execution, o: Outcome) {
    && (Executed(start, id) ==> o.Returned?)
    && (TurnedDown(start, id) ==> o == TurnsDown(start, id, granted))
    && (Cleared(start, id) ==> if granted then RunsOrWaits(s, t, id, x, o) else SentAway(start, id, o))
    && (id in start.store.entries && !Decided(s.store, id) ==> o == Raised(PendingApproval(id)))
  }

  predicate Claimed(s: Sys, id: string) {
    id in s.store.entries && s.store.entries[id].claimedAt.Some?
  }

  /** How a ticket stands later. */
  ghost predicate Follows(s: Sys, n: Sys, id: string) {
    && (id in s.store.entries ==> id in n.store.entries && EntryEvolves(s.store.entries[id], n.store.entries[id]))
    && (Executed(n, id) || Claimed(n, id) ==> Cleared(n, id))
    && s.now <= n.now && s.writes <= n.writes
  }

  lemma TicketFollows(cfg: Config, run: seq<Action>, s: Sys, longer: seq<Action>, end: Sys, id: string)
    requires Reaches(cfg, INIT, run, s) && Reaches(cfg, INIT, longer, end) && run <= longer
    ensures Follows(s, end, id)
  {
    LaterIsForward(cfg, run, s, longer, end);
    if id in end.store.entries {
      assert Reachable(cfg, end);
      ReachableIsGood(cfg, end);
      assert TicketInv(end, id);
    }
  }

  lemma AnswersEarlier(start: Sys, mid: Sys, s: Sys, t: string, id: string, granted: bool, x: Execution, o: Outcome)
    requires Follows(start, mid, id) && Answers(mid, s, t, id, granted, x, o)
    ensures Answers(start, s, t, id, granted, x, o)
  {
  }

  lemma ToldToWait(start: Sys, s: Sys, t: string, id: string, granted: bool, x: Execution)
    requires Follows(start, s, id) && id in s.store.entries && !Decided(s.store, id)
    ensures Answers(start, s, t, id, granted, x, Raised(PendingApproval(id)))
  {
  }

  lemma HasNoClaim(cfg: Config, s: Sys, t: string, id: string)
    requires Reachable(cfg, s) && t in s.threads && !PastClaim(s.threads[t].pc)
    ensures !HasClaim(s, t, id)
  {
    LosersOwnNothing(cfg, s, t);
  }

  lemma StaysCleared(cfg: Config, run: seq<Action>, s: Sys, longer: seq<Action>, end: Sys, id: string)
    requires Reaches(cfg, INIT, run, s) && Reaches(cfg, INIT, longer, end) && run <= longer
    ensures Cleared(s, id) ==> Cleared(end, id) && end.store.entries[id].ticket.call == s.store.entries[id].ticket.call
    ensures Executed(end, id) ==> id in end.owner
  {
    Later(cfg, run, s, longer, end);
    if Executed(end, id) {
      assert Reachable(cfg, end);
      ReachableIsGood(cfg, end);
      assert TicketInv(end, id);
    }
  }

  /** What a caller was granted for is still what the ticket holds at the end. */
  lemma StillItsTicket(cfg: Config, run: seq<Action>, s: Sys, longer: seq<Action>, end: Sys, t: string)
    requires Reaches(cfg, INIT, run, s) && Reaches(cfg, INIT, longer, end) && run <= longer
    requires t in s.threads && s.threads[t].pc.Granting?
    ensures var id := s.threads[t].id;
            && id in end.store.entries && end.store.entries[id].ticket.call == s.threads[t].pc.call
            && end.store.entries[id].ticket.decision == s.threads[t].pc.verdict
  {
    Later(cfg, run, s, longer, end);
    assert Reachable(cfg, s);
    GrantingIsStored(cfg, s, t);
  }

  lemma GrantingIsStored(cfg: Config, s: Sys, t: string)
    requires Reachable(cfg, s) && t in s.threads && s.threads[t].pc.Granting?
    ensures var id := s.threads[t].id;
            && Decided(s.store, id) && s.store.entries[id].ticket.call == s.threads[t].pc.call
            && s.store.entries[id].ticket.decision == s.threads[t].pc.verdict
  {
    ReachableIsGood(cfg, s);
    assert ThreadInv(s, t);
  }

  /** A result handed out is one that was stored on the ticket, and the ticket is approved. */
  ghost predicate HandsOutWhatIsStored(s: Sys, id: string, o: Outcome) {
    o.Returned? ==> Stored(s, id, o.result) && id in s.store.entries
                    && s.store.entries[id].ticket.decision.status == Status.Approved
  }

  lemma ReturnedIsStored(cfg: Config, s: Sys, t: string)
    requires Reachable(cfg, s) && t in s.threads && s.threads[t].pc.Done?
    ensures HandsOutWhatIsStored(s, s.threads[t].id, s.threads[t].pc.outcome)
  {
    ReachableIsGood(cfg, s);
    var id, o := s.threads[t].id, s.threads[t].pc.outcome;
    if o.Returned? {
      assert HandedStored(s, t);
      var i :| 0 <= i < |s.writes| && s.writes[i].id == id && s.writes[i].result == o.result;
      assert WriteOk(s, s.writes[i]);
      assert TicketInv(s, id);
    }
  }

  lemma FewReads(cfg: Config, s: Sys, t: string)
    requires cfg.recheck > 0.0 && Reachable(cfg, s) && t in s.threads && s.threads[t].pc.Reading?
    ensures s.threads[t].pc.w.looks
            <= (if cfg.timeout > 0.0 then (cfg.timeout / cfg.recheck).Floor else 0) + 2
  {
    ReadsAreBounded(cfg, s, t);
  }

  lemma FilesItsTicket(cfg: Config, s: Sys, t: string)
    requires Reachable(cfg, s) && t in s.threads && (s.threads[t].pc.Reading? || s.threads[t].pc.Rereading?)
    ensures Get(s.store, s.threads[t].id).Some?
  {
    ReachableIsGood(cfg, s);
    assert ThreadInv(s, t);
  }

  lemma AdoptsTheVerdict(cfg: Config, s: Sys, t: string)
    requires Reachable(cfg, s) && t in s.threads && s.threads[t].pc.Adopting?
    ensures Verdict(s, s.threads[t].id, s.threads[t].pc.verdict)
  {
    WaiterActsOnTheStoredVerdict(cfg, s, t);
  }
}
