/** The invariant of the ticket lifecycle and its preservation by every step. */
module Lifecycle {
  import opened Domain
  import opened TicketMachine
  import opened Protocol
  import Secrets

  // ---- the invariant, thread by thread ---------------------------------------------------------

  ghost predicate Approved(s: Sys, id: string, args: Args) {
    && id in s.store.entries
    && var t := s.store.entries[id].ticket;
       t.decision.status == Status.Approved && args == Effective(t.call.arguments, t.decision)
  }

  ghost predicate Files(s: Sys, t: string, args: Args) {
    && t in s.threads
    && var id := s.threads[t].id;
       && id in s.store.entries && s.store.entries[id].ticket.call.arguments == args
       && id in s.filer && s.filer[id] == t
  }

  ghost predicate Owns(s: Sys, t: string) {
    && t in s.threads && s.threads[t].id in s.owner && s.owner[s.threads[t].id] == t
    && s.threads[t].id in s.store.entries
  }

  ghost predicate Verdict(s: Sys, id: string, d: Decision) {
    Decided(s.store, id) && s.store.entries[id].ticket.decision == d
  }

  ghost predicate ThreadInv(s: Sys, t: string)
    requires t in s.threads
  {
    var id := s.threads[t].id;
    match s.threads[t].pc
    case Arming(args) => Files(s, t, args)
    case Reading(w) => Files(s, t, w.args)
    case Checking(w) => Files(s, t, w.args)
    case Sleeping(w, wakeAt) => Files(s, t, w.args)
    case TimingOut(args, d) => Files(s, t, args) && d.status == Timeout
    case Rereading(args) => Files(s, t, args) && Decided(s.store, id)
    case Adopting(args, d) => Files(s, t, args) && Verdict(s, id, d)
    case CheckReading(agent) => true
    case ResumeReading => true
    case Granting(call, d) => Verdict(s, id, d) && s.store.entries[id].ticket.call == call
    case Claiming(args) => Approved(s, id, args)
    case Running(args) => Owns(s, t) && Approved(s, id, args)
    case Awaiting(args) => Owns(s, t) && Approved(s, id, args)
    case Completing(r, e) => Owns(s, t) && Decided(s.store, id)
    case LostReading => id in s.owner
    case Closing => id in s.owner
    case OpReading(d) => d.status in {Status.Approved, Rejected}
    case OpDeciding(d) => d.status in {Status.Approved, Rejected}
    case OpSignalling => Decided(s.store, id)
    case Done(_) => true
  }

  ghost predicate TicketInv(s: Sys, id: string)
    requires id in s.store.entries
  {
    var e := s.store.entries[id];
    && (e.claimedAt.Some? <==> id in s.owner)
    && (e.claimedAt.Some? ==> e.claimedAt.value <= s.now && e.ticket.decision.status == Status.Approved)
    && (e.ticket.result.Some? ==> e.claimedAt.Some?)
  }

  /** The executor of a dispatched call is past the dispatch. */
  ghost predicate Past(s: Sys, t: string) {
    t in s.threads && (s.threads[t].pc.Awaiting? || s.threads[t].pc.Completing? || s.threads[t].pc.Done?)
  }

  ghost predicate DispatchInv(s: Sys, d: Dispatched) {
    && d.id in s.store.entries
    && s.store.entries[d.id].ticket.decision == d.verdict
    && d.verdict.status == Status.Approved
    && (var args := Effective(s.store.entries[d.id].ticket.call.arguments, d.verdict);
        Secrets.Resolvable(d.secrets, args) && d.args == Secrets.Resolve(d.secrets, args))
    && d.id in s.owner && s.owner[d.id] == d.executor && Past(s, d.executor)
  }

  ghost predicate Inv(s: Sys) {
    StoreInv(s) && HoldersInv(s) && ThreadsInv(s) && TraceInv(s)
  }

  ghost predicate StoreInv(s: Sys) {
    && (forall id :: id in s.store.entries ==> TicketInv(s, id))
    && (forall id :: id in s.events ==> Decided(s.store, id))
  }

  ghost predicate HoldersInv(s: Sys) {
    && (forall id :: id in s.owner ==> id in s.store.entries)
    && (forall id :: id in s.filer ==> id in s.store.entries)
  }

  ghost predicate ThreadsInv(s: Sys) {
    forall t :: t in s.threads ==> ThreadInv(s, t)
  }

  ghost predicate TraceInv(s: Sys) {
    && (forall i :: 0 <= i < |s.trace| ==> DispatchInv(s, s.trace[i]))
    && (forall i, j :: 0 <= i < j < |s.trace| ==> s.trace[i].id != s.trace[j].id)
  }

  // ---- moving forward --------------------------------------------------------------------------

  ghost predicate Forward(s: Sys, n: Sys) {
    && EntriesEvolve(s.store, n.store)
    && s.now <= n.now
    && (forall t :: t in s.threads ==> t in n.threads && n.threads[t].id == s.threads[t].id)
    && (forall id :: id in s.owner ==> id in n.owner && n.owner[id] == s.owner[id])
    && (forall id :: id in s.filer ==> id in n.filer && n.filer[id] == s.filer[id])
    && s.trace <= n.trace && s.verdicts <= n.verdicts && s.writes <= n.writes
  }

  /** What the invariant says of a thread survives the other threads' steps. */
  lemma ThreadInvStable(s: Sys, n: Sys, t: string)
    requires t in s.threads && ThreadInv(s, t) && Forward(s, n) && n.threads[t] == s.threads[t]
    ensures ThreadInv(n, t)
  {
  }

  lemma ThreadsFrame(s: Sys, n: Sys, t: string)
    requires ThreadsInv(s) && Forward(s, n) && t in n.threads && ThreadInv(n, t)
    requires forall u :: u in n.threads && u != t ==> u in s.threads && n.threads[u] == s.threads[u]
    ensures ThreadsInv(n)
  {
    forall u | u in n.threads ensures ThreadInv(n, u) {
      if u != t {
        ThreadInvStable(s, n, u);
      }
    }
  }

  lemma TraceFrame(s: Sys, n: Sys)
    requires TraceInv(s) && Forward(s, n) && n.trace == s.trace
    requires forall t :: Past(s, t) ==> Past(n, t)
    ensures TraceInv(n)
  {
    forall i | 0 <= i < |n.trace| ensures DispatchInv(n, n.trace[i]) {
      assert DispatchInv(s, s.trace[i]);
    }
  }

  lemma StoreFrame(s: Sys, n: Sys)
    requires StoreInv(s) && n.store == s.store && n.owner == s.owner && s.now <= n.now
    requires forall id :: id in n.events ==> Decided(s.store, id)
    ensures StoreInv(n)
  {
    forall id | id in n.store.entries ensures TicketInv(n, id) {
      assert TicketInv(s, id);
    }
  }

  lemma HoldersFrame(s: Sys, n: Sys)
    requires HoldersInv(s) && Forward(s, n) && n.owner == s.owner && n.filer == s.filer
    ensures HoldersInv(n)
  {
  }

  lemma EntriesStay(m: Tickets)
    ensures EntriesEvolve(m, m)
  {
  }

  // ---- preservation, one kind of step at a time ------------------------------------------------

  /** A step that changes nothing but the clock, the events and one thread. */
  lemma LocalStep(s: Sys, n: Sys, t: string)
    requires Inv(s) && t in n.threads && ThreadInv(n, t) && s.now <= n.now
    requires n == s.(now := n.now, events := n.events, threads := s.threads[t := n.threads[t]])
    requires t in s.threads ==> s.threads[t].id == n.threads[t].id
    requires forall id :: id in n.events ==> Decided(s.store, id)
    requires Past(s, t) ==> Past(n, t)
    ensures Inv(n) && Forward(s, n)
  {
    assert Forward(s, n) by { EntriesStay(s.store); }
    assert ThreadsInv(n) by { ThreadsFrame(s, n, t); }
    assert TraceInv(n) by { TraceFrame(s, n); }
    assert StoreInv(n) by { StoreFrame(s, n); }
    assert HoldersInv(n) by { HoldersFrame(s, n); }
  }

  lemma TickStep(s: Sys, n: Sys)
    requires Inv(s) && s.now <= n.now && n == s.(now := n.now)
    ensures Inv(n) && Forward(s, n)
  {
    assert Forward(s, n) by { EntriesStay(s.store); }
    assert ThreadsInv(n) by {
      forall t | t in n.threads ensures ThreadInv(n, t) {
        ThreadInvStable(s, n, t);
      }
    }
    assert TraceInv(n) by { TraceFrame(s, n); }
    assert StoreInv(n) by { StoreFrame(s, n); }
    assert HoldersInv(n) by { HoldersFrame(s, n); }
  }

  /** A step that changes one ticket. */
  lemma TicketFrame(s: Sys, n: Sys, id: string)
    requires StoreInv(s) && EntriesEvolve(s.store, n.store) && n.events == s.events && n.now == s.now
    requires id in n.store.entries && TicketInv(n, id)
    requires forall x :: x != id ==> (x in n.store.entries <==> x in s.store.entries)
    requires forall x :: x != id && x in s.store.entries ==> n.store.entries[x] == s.store.entries[x]
    requires forall x :: x != id ==> (x in n.owner <==> x in s.owner)
    ensures StoreInv(n)
  {
    forall x | x in n.store.entries ensures TicketInv(n, x) {
      if x != id {
        assert TicketInv(s, x);
      }
    }
  }

  /** A step of a thread that exists, whatever else it changed in the store. */
  lemma MovedThread(s: Sys, n: Sys, t: string)
    requires HoldersInv(s) && ThreadsInv(s) && TraceInv(s)
    requires OnlyMoves(s, n, t) && ThreadInv(n, t) && (Past(s, t) ==> Past(n, t))
    requires EntriesEvolve(s.store, n.store) && n.now == s.now && n.trace == s.trace
    requires n.filer == s.filer && s.verdicts <= n.verdicts && s.writes <= n.writes
    requires n.owner == s.owner || (s.threads[t].id !in s.owner && s.threads[t].id in n.store.entries
                                    && n.owner == s.owner[s.threads[t].id := t])
    ensures HoldersInv(n) && ThreadsInv(n) && TraceInv(n) && Forward(s, n)
  {
    assert Forward(s, n);
    assert ThreadsInv(n) by { ThreadsFrame(s, n, t); }
    assert TraceInv(n) by { TraceFrame(s, n); }
    assert HoldersInv(n);
  }

  // Filing a ticket.

  lemma FiledTicket(s: Sys, n: Sys, id: string, call: ToolCall)
    requires StoreInv(s) && HoldersInv(s) && id !in s.store.entries
    requires n.store == Create(s.store, id, call) && n.owner == s.owner && n.events == s.events && n.now == s.now
    ensures StoreInv(n) && EntriesEvolve(s.store, n.store)
  {
    TicketFrame(s, n, id);
  }

  lemma FileStep(s: Sys, n: Sys, t: string, id: string, call: ToolCall)
    requires Inv(s) && t !in s.threads && id !in s.store.entries
    requires t in n.threads && n.threads[t].id == id && (n.threads[t].pc == Arming(call.arguments)
             || n.threads[t].pc == Done(Raised(PendingApproval(id))))
    requires n == s.(store := Create(s.store, id, call), filer := s.filer[id := t],
                     threads := s.threads[t := n.threads[t]])
    ensures Inv(n) && Forward(s, n)
  {
    FiledTicket(s, n, id, call);
    assert id !in s.filer;
    assert Forward(s, n);
    assert TraceInv(n) by { TraceFrame(s, n); }
    assert ThreadsInv(n) by { ThreadsFrame(s, n, t); }
    assert HoldersInv(n);
  }

  // Recording a verdict: a decide that returns True.

  lemma RecordedTicket(s: Sys, n: Sys, id: string, d: Decision)
    requires StoreInv(s) && Decidable(s.store, id) && d.status != Pending
    requires n.store == Decide(s.store, id, d) && n.owner == s.owner && n.events == s.events && n.now == s.now
    ensures StoreInv(n) && EntriesEvolve(s.store, n.store) && Verdict(n, id, d)
  {
    assert TicketInv(s, id);
    TicketFrame(s, n, id);
  }

  lemma RecordStep(s: Sys, n: Sys, t: string, d: Decision)
    requires Inv(s) && Live(s, t) && Decidable(s.store, s.threads[t].id) && d.status != Pending && !Past(s, t)
    requires t in n.threads && n.threads[t].id == s.threads[t].id
    requires n == Record(s, s.threads[t].id, d).(threads := s.threads[t := n.threads[t]])
    requires Verdict(n, s.threads[t].id, d) && EntriesEvolve(s.store, n.store) ==> ThreadInv(n, t)
    ensures Inv(n) && Forward(s, n)
  {
    RecordedTicket(s, n, s.threads[t].id, d);
    MovedThread(s, n, t);
  }

  // Winning the claim.

  lemma ClaimedTicket(s: Sys, n: Sys, t: string, id: string, args: Args, asOf: real)
    requires StoreInv(s) && Claimable(s.store, id) && Approved(s, id, args) && asOf <= s.now
    requires n.store == Claim(s.store, id, asOf) && n.owner == s.owner[id := t]
    requires n.events == s.events && n.now == s.now
    ensures StoreInv(n) && EntriesEvolve(s.store, n.store) && Approved(n, id, args) && id !in s.owner
  {
    assert TicketInv(s, id);
    TicketFrame(s, n, id);
  }

  lemma ClaimStep(s: Sys, n: Sys, t: string, asOf: real)
    requires Inv(s) && Live(s, t) && s.threads[t].pc.Claiming? && asOf <= s.now
    requires Claimable(s.store, s.threads[t].id) && ThreadInv(s, t)
    requires n == At(s.(store := Claim(s.store, s.threads[t].id, asOf), owner := s.owner[s.threads[t].id := t]),
                     t, Running(s.threads[t].pc.args))
    ensures Inv(n) && Forward(s, n)
  {
    ClaimedTicket(s, n, t, s.threads[t].id, s.threads[t].pc.args, asOf);
    MovedThread(s, n, t);
  }

  // Dispatching upstream.

  ghost predicate Dispatches(s: Sys, n: Sys, t: string, secrets: map<string, string>) {
    && t in s.threads && s.threads[t].pc.Running? && s.threads[t].id in s.store.entries
    && Secrets.Resolvable(secrets, s.threads[t].pc.args)
    && n == At(s.(trace := s.trace + [Dispatched(s.threads[t].id, t,
                                                 Secrets.Resolve(secrets, s.threads[t].pc.args), secrets,
                                                 s.store.entries[s.threads[t].id].ticket.decision)]),
               t, Awaiting(s.threads[t].pc.args))
  }

  lemma NewDispatch(s: Sys, n: Sys, t: string, secrets: map<string, string>)
    requires TraceInv(s) && Dispatches(s, n, t, secrets) && ThreadInv(s, t)
    ensures TraceInv(n)
  {
    var d := n.trace[|s.trace|];
    forall i | 0 <= i < |s.trace| ensures DispatchInv(n, s.trace[i]) && s.trace[i].id != d.id {
      assert DispatchInv(s, s.trace[i]);
    }
    assert DispatchInv(n, d);
  }

  lemma DispatchStep(s: Sys, n: Sys, t: string, secrets: map<string, string>)
    requires Inv(s) && Dispatches(s, n, t, secrets) && ThreadInv(s, t)
    ensures Inv(n) && Forward(s, n)
  {
    EntriesStay(s.store);
    MovedThread(s, n.(trace := s.trace), t);
    StoreFrame(s, n);
    NewDispatch(s, n, t, secrets);
    SameThreads(n.(trace := s.trace), n);
  }

  lemma SameThreads(s: Sys, n: Sys)
    requires HoldersInv(s) && ThreadsInv(s) && n == s.(trace := n.trace)
    ensures HoldersInv(n) && ThreadsInv(n)
  {
    forall t | t in n.threads ensures ThreadInv(n, t) {
      assert ThreadInv(s, t);
    }
  }

  // Storing a result: by the executor, or by a stale close.

  lemma WrittenTicket(s: Sys, n: Sys, w: Write)
    requires StoreInv(s) && w.id in s.store.entries && w.id in s.owner
    requires n.store == Complete(s.store, w.id, w.result) && n.owner == s.owner
    requires n.events == s.events && n.now == s.now
    ensures StoreInv(n) && EntriesEvolve(s.store, n.store)
  {
    assert TicketInv(s, w.id);
    TicketFrame(s, n, w.id);
  }

  // ---- every step ------------------------------------------------------------------------------

  lemma ReadVerdictStep(s: Sys, t: string, w: Wait)
    requires Inv(s) && Live(s, t) && s.threads[t].pc == Reading(w)
    ensures Inv(ReadVerdict(s, t, w)) && Forward(s, ReadVerdict(s, t, w))
  {
    assert ThreadInv(s, t);
    LocalStep(s, ReadVerdict(s, t, w), t);
  }

  lemma RecordTimeoutStep(s: Sys, t: string, args: Args, d: Decision)
    requires Inv(s) && Live(s, t) && s.threads[t].pc == TimingOut(args, d)
    ensures Inv(RecordTimeout(s, t, args, d)) && Forward(s, RecordTimeout(s, t, args, d))
  {
    assert ThreadInv(s, t);
    if Decidable(s.store, s.threads[t].id) {
      RecordStep(s, RecordTimeout(s, t, args, d), t, d);
    } else {
      LocalStep(s, RecordTimeout(s, t, args, d), t);
    }
  }

  lemma RereadStep(s: Sys, t: string, args: Args)
    requires Inv(s) && Live(s, t) && s.threads[t].pc == Rereading(args)
    ensures Inv(Reread(s, t, args)) && Forward(s, Reread(s, t, args))
  {
    assert ThreadInv(s, t);
    LocalStep(s, Reread(s, t, args), t);
  }

  lemma CheckClockStep(cfg: Config, s: Sys, t: string, w: Wait)
    requires Inv(s) && Live(s, t) && s.threads[t].pc == Checking(w)
    ensures Inv(CheckClock(cfg, s, t, w)) && Forward(s, CheckClock(cfg, s, t, w))
  {
    assert ThreadInv(s, t);
    LocalStep(s, CheckClock(cfg, s, t, w), t);
  }

  lemma WakeUpStep(s: Sys, t: string, w: Wait, heard: bool)
    requires Inv(s) && Live(s, t) && s.threads[t].pc.Sleeping? && s.threads[t].pc.w == w
    ensures Inv(WakeUp(s, t, w, heard)) && Forward(s, WakeUp(s, t, w, heard))
  {
    assert ThreadInv(s, t);
    LocalStep(s, WakeUp(s, t, w, heard), t);
  }

  lemma ArmStep(cfg: Config, s: Sys, t: string, args: Args)
    requires Inv(s) && Live(s, t) && s.threads[t].pc == Arming(args)
    ensures Inv(Arm(cfg, s, t, args)) && Forward(s, Arm(cfg, s, t, args))
  {
    assert ThreadInv(s, t);
    LocalStep(s, Arm(cfg, s, t, args), t);
  }

  lemma AdoptStep(s: Sys, t: string, args: Args, d: Decision)
    requires Inv(s) && Live(s, t) && s.threads[t].pc == Adopting(args, d)
    ensures Inv(At(s, t, Adopt(args, d))) && Forward(s, At(s, t, Adopt(args, d)))
  {
    assert ThreadInv(s, t);
    LocalStep(s, At(s, t, Adopt(args, d)), t);
  }

  lemma ReadOwnTicketStep(s: Sys, t: string, agent: string)
    requires Inv(s) && Live(s, t) && s.threads[t].pc == CheckReading(agent)
    ensures Inv(ReadOwnTicket(s, t, agent)) && Forward(s, ReadOwnTicket(s, t, agent))
  {
    LocalStep(s, ReadOwnTicket(s, t, agent), t);
  }

  lemma ReadForResumeStep(s: Sys, t: string)
    requires Inv(s) && Live(s, t) && s.threads[t].pc == ResumeReading
    ensures Inv(ReadForResume(s, t)) && Forward(s, ReadForResume(s, t))
  {
    LocalStep(s, ReadForResume(s, t), t);
  }

  lemma ResolveGrantStep(s: Sys, t: string, call: ToolCall, d: Decision, granted: bool)
    requires Inv(s) && Live(s, t) && s.threads[t].pc == Granting(call, d)
    ensures Inv(ResolveGrant(s, t, call, d, granted)) && Forward(s, ResolveGrant(s, t, call, d, granted))
  {
    assert ThreadInv(s, t);
    LocalStep(s, ResolveGrant(s, t, call, d, granted), t);
  }

  lemma TryClaimStep(s: Sys, t: string, args: Args, asOf: real)
    requires Inv(s) && Live(s, t) && s.threads[t].pc == Claiming(args) && asOf <= s.now
    ensures Inv(TryClaim(s, t, args, asOf)) && Forward(s, TryClaim(s, t, args, asOf))
  {
    var id := s.threads[t].id;
    assert ThreadInv(s, t);
    assert TicketInv(s, id);
    if Claimable(s.store, id) {
      ClaimStep(s, TryClaim(s, t, args, asOf), t, asOf);
    } else {
      LocalStep(s, TryClaim(s, t, args, asOf), t);
    }
  }

  lemma RunStepsStep(s: Sys, t: string, args: Args, failure: Option<Error>, secrets: map<string, string>)
    requires Inv(s) && Live(s, t) && s.threads[t].pc == Running(args)
    requires failure.Some? || Secrets.Resolvable(secrets, args)
    ensures Inv(RunSteps(s, t, args, failure, secrets)) && Forward(s, RunSteps(s, t, args, failure, secrets))
  {
    assert ThreadInv(s, t);
    if failure.Some? {
      LocalStep(s, RunSteps(s, t, args, failure, secrets), t);
    } else {
      DispatchStep(s, RunSteps(s, t, args, failure, secrets), t, secrets);
    }
  }

  lemma AnsweredStep(s: Sys, t: string, args: Args, reply: Reply)
    requires Inv(s) && Live(s, t) && s.threads[t].pc == Awaiting(args)
    ensures Inv(At(s, t, Answered(reply))) && Forward(s, At(s, t, Answered(reply)))
  {
    assert ThreadInv(s, t);
    LocalStep(s, At(s, t, Answered(reply)), t);
  }

  lemma StoreResultStep(s: Sys, t: string, r: ToolResult, e: Option<Error>)
    requires Inv(s) && Live(s, t) && s.threads[t].pc == Completing(r, e)
    ensures Inv(StoreResult(s, t, r, e)) && Forward(s, StoreResult(s, t, r, e))
  {
    var n := StoreResult(s, t, r, e);
    assert ThreadInv(s, t);
    assert n.threads[t].pc.Done? && ThreadInv(n, t) && Past(n, t);
    WrittenTicket(s, n, Write(s.threads[t].id, Executor, r));
    MovedThread(s, n, t);
  }

  lemma ReadAsLoserStep(s: Sys, t: string)
    requires Inv(s) && Live(s, t) && s.threads[t].pc == LostReading
    ensures Inv(ReadAsLoser(s, t)) && Forward(s, ReadAsLoser(s, t))
  {
    assert ThreadInv(s, t);
    LocalStep(s, ReadAsLoser(s, t), t);
  }

  lemma TryCloseStep(cfg: Config, s: Sys, t: string, asOf: real)
    requires Inv(s) && Live(s, t) && s.threads[t].pc == Closing
    ensures Inv(TryClose(cfg, s, t, asOf)) && Forward(s, TryClose(cfg, s, t, asOf))
  {
    var id := s.threads[t].id;
    assert ThreadInv(s, t);
    assert id in s.store.entries;
    if Stale(s.store, id, cfg.lease, asOf) {
      WrittenTicket(s, TryClose(cfg, s, t, asOf), Write(id, StaleClose, INTERRUPTED));
      MovedThread(s, TryClose(cfg, s, t, asOf), t);
    } else {
      LocalStep(s, TryClose(cfg, s, t, asOf), t);
    }
  }

  lemma ReadForVerdictStep(s: Sys, t: string, d: Decision)
    requires Inv(s) && Live(s, t) && s.threads[t].pc == OpReading(d)
    ensures Inv(ReadForVerdict(s, t, d)) && Forward(s, ReadForVerdict(s, t, d))
  {
    assert ThreadInv(s, t);
    LocalStep(s, ReadForVerdict(s, t, d), t);
  }

  lemma RecordVerdictStep(s: Sys, t: string, d: Decision)
    requires Inv(s) && Live(s, t) && s.threads[t].pc == OpDeciding(d)
    ensures Inv(RecordVerdict(s, t, d)) && Forward(s, RecordVerdict(s, t, d))
  {
    assert ThreadInv(s, t);
    if Decidable(s.store, s.threads[t].id) {
      RecordStep(s, RecordVerdict(s, t, d), t, d);
    } else {
      LocalStep(s, RecordVerdict(s, t, d), t);
    }
  }

  lemma SendSignalStep(s: Sys, t: string, heard: bool)
    requires Inv(s) && Live(s, t) && s.threads[t].pc == OpSignalling
    ensures Inv(SendSignal(s, t, heard)) && Forward(s, SendSignal(s, t, heard))
  {
    assert ThreadInv(s, t);
    LocalStep(s, SendSignal(s, t, heard), t);
  }

  predicate InGate(pc: PC) {
    || pc.Arming? || pc.Reading? || pc.Checking? || pc.Sleeping? || pc.TimingOut? || pc.Rereading? || pc.Adopting?
  }

  predicate InRunOnce(pc: PC) {
    || pc.Claiming? || pc.Running? || pc.Awaiting? || pc.Completing? || pc.LostReading? || pc.Closing?
  }

  lemma GateKeepsInv(cfg: Config, s: Sys, t: string, o: Input)
    requires Inv(s) && Ready(s, t, o) && InGate(s.threads[t].pc)
    ensures Inv(Advance(cfg, s, t, o)) && Forward(s, Advance(cfg, s, t, o))
  {
    match s.threads[t].pc
    case Arming(args) => ArmStep(cfg, s, t, args);
    case Reading(w) => ReadVerdictStep(s, t, w);
    case Checking(w) => CheckClockStep(cfg, s, t, w);
    case Sleeping(w, _) => WakeUpStep(s, t, w, o.heard);
    case TimingOut(args, d) => RecordTimeoutStep(s, t, args, d);
    case Rereading(args) => RereadStep(s, t, args);
    case Adopting(args, d) => AdoptStep(s, t, args, d);
  }

  lemma RunOnceKeepsInv(cfg: Config, s: Sys, t: string, o: Input)
    requires Inv(s) && Ready(s, t, o) && InRunOnce(s.threads[t].pc)
    ensures Inv(Advance(cfg, s, t, o)) && Forward(s, Advance(cfg, s, t, o))
  {
    match s.threads[t].pc
    case Claiming(args) => TryClaimStep(s, t, args, o.asOf);
    case Running(args) => RunStepsStep(s, t, args, o.failure, o.secrets);
    case Awaiting(args) => AnsweredStep(s, t, args, o.reply);
    case Completing(r, e) => StoreResultStep(s, t, r, e);
    case LostReading => ReadAsLoserStep(s, t);
    case Closing => TryCloseStep(cfg, s, t, o.asOf);
  }

  lemma CallerKeepsInv(cfg: Config, s: Sys, t: string, o: Input)
    requires Inv(s) && Ready(s, t, o) && !InGate(s.threads[t].pc) && !InRunOnce(s.threads[t].pc)
    ensures Inv(Advance(cfg, s, t, o)) && Forward(s, Advance(cfg, s, t, o))
  {
    match s.threads[t].pc
    case CheckReading(agent) => ReadOwnTicketStep(s, t, agent);
    case ResumeReading => ReadForResumeStep(s, t);
    case Granting(call, d) => ResolveGrantStep(s, t, call, d, o.granted);
    case OpReading(d) => ReadForVerdictStep(s, t, d);
    case OpDeciding(d) => RecordVerdictStep(s, t, d);
    case OpSignalling => SendSignalStep(s, t, o.heard);
  }

  lemma StartKeepsInv(s: Sys, t: string, thread: Thread)
    requires Inv(s) && t !in s.threads
    requires thread.pc.CheckReading? || thread.pc.ResumeReading?
             || (thread.pc.OpReading? && thread.pc.verdict.status in {Status.Approved, Rejected})
    ensures Inv(s.(threads := s.threads[t := thread])) && Forward(s, s.(threads := s.threads[t := thread]))
  {
    LocalStep(s, s.(threads := s.threads[t := thread]), t);
  }

  /** The invariant survives every step, and every step moves forward. */
  lemma StepKeepsInv(cfg: Config, s: Sys, a: Action)
    requires Inv(s) && Enabled(s, a)
    ensures Inv(Apply(cfg, s, a)) && Forward(s, Apply(cfg, s, a))
  {
    match a
    case Tick(dt) => TickStep(s, Apply(cfg, s, a));
    case Crash(t) => LocalStep(s, Apply(cfg, s, a), t);
    case File(t, id, call, blocks) => FileStep(s, Apply(cfg, s, a), t, id, call);
    case StartCheck(t, id, agent) => StartKeepsInv(s, t, Thread(id, CheckReading(agent)));
    case StartResume(t, id) => StartKeepsInv(s, t, Thread(id, ResumeReading));
    case StartDecide(t, id, d) => StartKeepsInv(s, t, Thread(id, OpReading(d)));
    case Go(t, o) =>
      if InGate(s.threads[t].pc) {
        GateKeepsInv(cfg, s, t, o);
      } else if InRunOnce(s.threads[t].pc) {
        RunOnceKeepsInv(cfg, s, t, o);
      } else {
        CallerKeepsInv(cfg, s, t, o);
      }
  }

  lemma ForwardTransitive(a: Sys, b: Sys, c: Sys)
    requires Forward(a, b) && Forward(b, c)
    ensures Forward(a, c)
  {
  }

  /** Every state a run from a good state reaches is good, and later. */
  lemma {:induction false} RunKeepsInv(cfg: Config, s: Sys, run: seq<Action>, end: Sys)
    requires Inv(s) && Reaches(cfg, s, run, end)
    ensures Inv(end) && Forward(s, end)
    decreases |run|
  {
    if run == [] {
      EntriesStay(s.store);
    } else {
      var n := Apply(cfg, s, run[0]);
      StepKeepsInv(cfg, s, run[0]);
      RunKeepsInv(cfg, n, run[1..], end);
      ForwardTransitive(s, n, end);
    }
  }

  lemma InitInv()
    ensures Inv(INIT)
  {
  }
}
