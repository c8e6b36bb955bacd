/** The ticket lifecycle as a transition system.

    Any number of threads run the gateway's code against one shared store: waiters inside the
    approval gate, `resume` and `gateway.check` callers, operators recording verdicts. Each step of
    a thread is what it does between two awaits; between them every other thread may step, time may
    pass, and any thread may die. `owner`, `filer`, `trace`, `verdicts` and `writes` only record what
    happened; no step looks at them. */
module Protocol {
  import opened Domain
  import opened TicketMachine
  import Secrets

  datatype Config = Config(timeout: real, recheck: real, lease: real)

  /** A pass of the decision loop: what the gate holds while it waits. */
  datatype Wait = Wait(args: Args, start: real, deadline: real, looks: nat)

  datatype PC =
    // ApprovalGate.handle_call, after the ticket was filed
    | Arming(args: Args)                        // about to compute the deadline
    | Reading(w: Wait)                          // about to read the ticket
    | Checking(w: Wait)                         // read it pending; about to look at the clock
    | Sleeping(w: Wait, wakeAt: real)           // inside wait_for_decision
    | TimingOut(args: Args, verdict: Decision)  // about to record the timeout
    | Rereading(args: Args)                     // somebody else decided first
    | Adopting(args: Args, verdict: Decision)   // about to apply the verdict
    // McpEdge._check and ToolGateway.resume
    | CheckReading(agent: string)
    | ResumeReading
    | Granting(call: ToolCall, verdict: Decision)  // holds what it read; about to resolve the grant
    // run_once
    | Claiming(args: Args)
    | Running(args: Args)                       // won the claim; nothing dispatched yet
    | Awaiting(args: Args)                      // dispatched upstream
    | Completing(result: ToolResult, raises: Option<Error>)
    | LostReading                               // lost the claim; about to reread
    | Closing                                   // saw no result; about to try the stale close
    // ToolGateway.decide
    | OpReading(verdict: Decision)
    | OpDeciding(verdict: Decision)
    | OpSignalling
    | Done(outcome: Outcome)

  datatype Outcome =
    | Returned(result: ToolResult)
    | Raised(error: Error)
    | UnknownTicket
    | NoTicket             // gateway.check: not a ticket of this agent
    | TicketAlreadyDecided
    | Recorded
    | Crashed              // the process died, or an exception run_once does not catch

  datatype Thread = Thread(id: string, pc: PC)

  datatype Dispatched = Dispatched(id: string, executor: string, args: Args, secrets: map<string, string>, verdict: Decision)

  datatype Source = Executor | StaleClose
  datatype Write = Write(id: string, source: Source, result: ToolResult)

  datatype Sys = Sys(
    store: Tickets,
    now: real,
    threads: map<string, Thread>,
    events: set<string>,           // tickets whose wake-up event is set
    owner: map<string, string>,    // ticket -> the thread that won its claim
    filer: map<string, string>,    // ticket -> the thread that filed it
    trace: seq<Dispatched>,
    verdicts: seq<(string, Decision)>,
    writes: seq<Write>)

  const INIT := Sys(NO_TICKETS, 0.0, map[], {}, map[], map[], [], [], [])

  const INTERRUPTED := ToolResult(
    Str("The approved call started but its executor stopped before reporting back (a gateway restart or crash), "
        + "so its outcome is unknown. It was not retried: check the upstream before submitting it again."),
    true, 0, [])

  /** What the environment decides for a step. */
  datatype Input = Input(
    granted: bool,                  // grant_for returned a grant
    failure: Option<Error>,         // a step after the gate refused the call
    secrets: map<string, string>,   // what the secret resolver holds
    reply: Reply,                   // the upstream's answer, after redaction
    asOf: real,                     // the clock reading an UPDATE was built with
    heard: bool)                    // the signal reached (or woke) the waiter

  datatype Reply = Answer(result: ToolResult) | Refused(error: Error)

  datatype Action =
    | Tick(dt: real)
    | Crash(t: string)
    | File(t: string, id: string, call: ToolCall, blocks: bool)
    | StartCheck(t: string, id: string, agent: string)
    | StartResume(t: string, id: string)
    | StartDecide(t: string, id: string, verdict: Decision)
    | Go(t: string, input: Input)

  // ---- steps -----------------------------------------------------------------------------------

  predicate Live(s: Sys, t: string) {
    t in s.threads && !s.threads[t].pc.Done?
  }

  predicate Enabled(s: Sys, a: Action) {
    match a
    case Tick(dt) => dt >= 0.0
    case Crash(t) => Live(s, t)
    case File(t, id, call, blocks) => t !in s.threads && id !in s.store.entries  // ids are random
    case StartCheck(t, id, agent) => t !in s.threads
    case StartResume(t, id) => t !in s.threads
    case StartDecide(t, id, d) => t !in s.threads && d.status in {Approved, Rejected}
    case Go(t, o) => Ready(s, t, o)
  }

  /** A sleeper wakes on its signal or when its time is up; a clock reading is never from the future. */
  predicate Ready(s: Sys, t: string, o: Input) {
    && Live(s, t)
    && match s.threads[t].pc
       case Sleeping(w, wakeAt) => if o.heard then s.threads[t].id in s.events else s.now >= wakeAt
       case Claiming(args) => o.asOf <= s.now
       case Closing => o.asOf <= s.now
       case Running(args) => o.failure.Some? || Secrets.Resolvable(o.secrets, args)
       case _ => true
  }

  function Apply(cfg: Config, s: Sys, a: Action): Sys
    requires Enabled(s, a)
  {
    match a
    case Tick(dt) => s.(now := s.now + dt)
    case Crash(t) => At(s, t, Done(Crashed))
    case File(t, id, call, blocks) =>
      s.(store := Create(s.store, id, call),
         filer := s.filer[id := t],
         threads := s.threads[t := Thread(id, if blocks then Arming(call.arguments)
                                              else Done(Raised(PendingApproval(id))))])
    case StartCheck(t, id, agent) => s.(threads := s.threads[t := Thread(id, CheckReading(agent))])
    case StartResume(t, id) => s.(threads := s.threads[t := Thread(id, ResumeReading)])
    case StartDecide(t, id, d) => s.(threads := s.threads[t := Thread(id, OpReading(d))])
    case Go(t, o) => Advance(cfg, s, t, o)
  }

  function Advance(cfg: Config, s: Sys, t: string, o: Input): (n: Sys)
    requires Ready(s, t, o)
    ensures OnlyMoves(s, n, t)
  {
    match s.threads[t].pc
    case Arming(args) => Arm(cfg, s, t, args)
    case Reading(w) => ReadVerdict(s, t, w)
    case Checking(w) => CheckClock(cfg, s, t, w)
    case Sleeping(w, wakeAt) => WakeUp(s, t, w, o.heard)
    case TimingOut(args, d) => RecordTimeout(s, t, args, d)
    case Rereading(args) => Reread(s, t, args)
    case Adopting(args, d) => At(s, t, Adopt(args, d))
    case CheckReading(agent) => ReadOwnTicket(s, t, agent)
    case ResumeReading => ReadForResume(s, t)
    case Granting(call, d) => ResolveGrant(s, t, call, d, o.granted)
    case Claiming(args) => TryClaim(s, t, args, o.asOf)
    case Running(args) => RunSteps(s, t, args, o.failure, o.secrets)
    case Awaiting(args) => At(s, t, Answered(o.reply))
    case Completing(r, e) => StoreResult(s, t, r, e)
    case LostReading => ReadAsLoser(s, t)
    case Closing => TryClose(cfg, s, t, o.asOf)
    case OpReading(d) => ReadForVerdict(s, t, d)
    case OpDeciding(d) => RecordVerdict(s, t, d)
    case OpSignalling => SendSignal(s, t, o.heard)
  }

  /** No step of a thread touches another thread. */
  predicate OnlyMoves(s: Sys, n: Sys, t: string) {
    && t in s.threads && t in n.threads
    && n.threads == s.threads[t := Thread(s.threads[t].id, n.threads[t].pc)]
  }

  function At(s: Sys, t: string, pc: PC): (n: Sys)
    requires t in s.threads
    ensures OnlyMoves(s, n, t)
  {
    s.(threads := s.threads[t := s.threads[t].(pc := pc)])
  }

  /** apply_decision: only an approved verdict goes on, with the operator's edit if there is one. */
  function Adopt(args: Args, d: Decision): PC {
    if d.status == Approved then Claiming(Effective(args, d)) else Done(Raised(ApprovalDenied(d)))
  }

  function Min(a: real, b: real): real {
    if a <= b then a else b
  }

  /** A decide that returned True. */
  function Record(s: Sys, id: string, d: Decision): Sys {
    s.(store := Decide(s.store, id, d), verdicts := s.verdicts + [(id, d)])
  }

  // ApprovalGate._await_decision and handle_call

  function Arm(cfg: Config, s: Sys, t: string, args: Args): (n: Sys)
    requires t in s.threads
    ensures OnlyMoves(s, n, t)
  {
    At(s, t, Reading(Wait(args, s.now, s.now + cfg.timeout, 0)))
  }

  function ReadVerdict(s: Sys, t: string, w: Wait): (n: Sys)
    requires t in s.threads
    ensures OnlyMoves(s, n, t)
  {
    var ticket := Get(s.store, s.threads[t].id);
    if ticket.None? then At(s, t, Done(Crashed))
    else
      var d := ticket.value.decision;
      At(s, t, if d.status == Pending then Checking(w.(looks := w.looks + 1))
               else if d.status == Timeout then TimingOut(w.args, d)
               else Adopting(w.args, d))
  }

  function CheckClock(cfg: Config, s: Sys, t: string, w: Wait): (n: Sys)
    requires t in s.threads
    ensures OnlyMoves(s, n, t)
  {
    var remaining := w.deadline - s.now;
    At(s, t, if remaining <= 0.0 then TimingOut(w.args, TIMED_OUT)
             else Sleeping(w, s.now + Min(remaining, cfg.recheck)))
  }

  function WakeUp(s: Sys, t: string, w: Wait, heard: bool): (n: Sys)
    requires t in s.threads
    ensures OnlyMoves(s, n, t)
  {
    At(s.(events := if heard then s.events - {s.threads[t].id} else s.events), t, Reading(w))
  }

  function RecordTimeout(s: Sys, t: string, args: Args, d: Decision): (n: Sys)
    requires t in s.threads
    ensures OnlyMoves(s, n, t)
  {
    if Decidable(s.store, s.threads[t].id)
    then At(Record(s, s.threads[t].id, d), t, Adopting(args, d))
    else At(s, t, Rereading(args))
  }

  function Reread(s: Sys, t: string, args: Args): (n: Sys)
    requires t in s.threads
    ensures OnlyMoves(s, n, t)
  {
    var ticket := Get(s.store, s.threads[t].id);
    At(s, t, if ticket.None? then Done(Crashed) else Adopting(args, ticket.value.decision))
  }

  // McpEdge._check and ToolGateway.resume

  function ReadOwnTicket(s: Sys, t: string, agent: string): (n: Sys)
    requires t in s.threads
    ensures OnlyMoves(s, n, t)
  {
    var id := s.threads[t].id;
    var ticket := Get(s.store, id);
    At(s, t, if ticket.None? || ticket.value.call.agentId != agent then Done(NoTicket)
             else if ticket.value.decision.status == Pending then Done(Raised(PendingApproval(id)))
             else ResumeReading)
  }

  function ReadForResume(s: Sys, t: string): (n: Sys)
    requires t in s.threads
    ensures OnlyMoves(s, n, t)
  {
    var id := s.threads[t].id;
    var ticket := Get(s.store, id);
    At(s, t, if ticket.None? then Done(UnknownTicket)
             else if ticket.value.result.Some? then Done(Returned(ticket.value.result.value))
             else if ticket.value.decision.status == Pending then Done(Raised(PendingApproval(id)))
             else Granting(ticket.value.call, ticket.value.decision))
  }

  function ResolveGrant(s: Sys, t: string, call: ToolCall, d: Decision, granted: bool): (n: Sys)
    requires t in s.threads
    ensures OnlyMoves(s, n, t)
  {
    At(s, t, if granted then Adopt(call.arguments, d)
             else Done(Raised(ToolNotAllowed("no longer allowed: " + call.FullName()))))
  }

  // run_once

  function TryClaim(s: Sys, t: string, args: Args, asOf: real): (n: Sys)
    requires t in s.threads
    ensures OnlyMoves(s, n, t)
  {
    var id := s.threads[t].id;
    if Claimable(s.store, id)
    then At(s.(store := Claim(s.store, id, asOf), owner := s.owner[id := t]), t, Running(args))
    else At(s, t, LostReading)
  }

  function RunSteps(s: Sys, t: string, args: Args, failure: Option<Error>, secrets: map<string, string>): (n: Sys)
    requires t in s.threads
    requires failure.Some? || Secrets.Resolvable(secrets, args)
    ensures OnlyMoves(s, n, t)
  {
    var id := s.threads[t].id;
    var verdict := if id in s.store.entries then s.store.entries[id].ticket.decision else PENDING;
    if failure.Some? then At(s, t, Completing(ErrorResult(failure.value), failure))
    else At(s.(trace := s.trace + [Dispatched(id, t, Secrets.Resolve(secrets, args), secrets, verdict)]),
            t, Awaiting(args))
  }

  function Answered(reply: Reply): PC {
    match reply
    case Answer(r) => Completing(r, None)
    case Refused(e) => Completing(ErrorResult(e), Some(e))
  }

  function StoreResult(s: Sys, t: string, r: ToolResult, e: Option<Error>): (n: Sys)
    requires t in s.threads
    ensures OnlyMoves(s, n, t)
  {
    var id := s.threads[t].id;
    At(s.(store := Complete(s.store, id, r), writes := s.writes + [Write(id, Executor, r)]),
       t, Done(if e.Some? then Raised(e.value) else Returned(r)))
  }

  function ReadAsLoser(s: Sys, t: string): (n: Sys)
    requires t in s.threads
    ensures OnlyMoves(s, n, t)
  {
    var ticket := Get(s.store, s.threads[t].id);
    At(s, t, if ticket.Some? && ticket.value.result.Some? then Done(Returned(ticket.value.result.value))
             else Closing)
  }

  function TryClose(cfg: Config, s: Sys, t: string, asOf: real): (n: Sys)
    requires t in s.threads
    ensures OnlyMoves(s, n, t)
  {
    var id := s.threads[t].id;
    if Stale(s.store, id, cfg.lease, asOf)
    then At(s.(store := CloseStale(s.store, id, cfg.lease, INTERRUPTED, asOf),
               writes := s.writes + [Write(id, StaleClose, INTERRUPTED)]),
            t, Done(Returned(INTERRUPTED)))
    else At(s, t, Done(Raised(PendingApproval(id))))
  }

  // ToolGateway.decide

  function ReadForVerdict(s: Sys, t: string, d: Decision): (n: Sys)
    requires t in s.threads
    ensures OnlyMoves(s, n, t)
  {
    At(s, t, if Get(s.store, s.threads[t].id).None? then Done(UnknownTicket) else OpDeciding(d))
  }

  function RecordVerdict(s: Sys, t: string, d: Decision): (n: Sys)
    requires t in s.threads
    ensures OnlyMoves(s, n, t)
  {
    if Decidable(s.store, s.threads[t].id)
    then At(Record(s, s.threads[t].id, d), t, OpSignalling)
    else At(s, t, Done(TicketAlreadyDecided))
  }

  function SendSignal(s: Sys, t: string, heard: bool): (n: Sys)
    requires t in s.threads
    ensures OnlyMoves(s, n, t)
  {
    At(s.(events := if heard then s.events + {s.threads[t].id} else s.events), t, Done(Recorded))
  }

  // ---- runs ------------------------------------------------------------------------------------

  predicate Reaches(cfg: Config, s: Sys, run: seq<Action>, end: Sys)
    decreases |run|
  {
    if run == [] then s == end
    else Enabled(s, run[0]) && Reaches(cfg, Apply(cfg, s, run[0]), run[1..], end)
  }

  lemma {:induction false} RunAppend(cfg: Config, s: Sys, run: seq<Action>, mid: Sys, a: Action)
    requires Reaches(cfg, s, run, mid) && Enabled(mid, a)
    ensures Reaches(cfg, s, run + [a], Apply(cfg, mid, a))
    decreases |run|
  {
    if run == [] {
      assert (run + [a])[1..] == [];
    } else {
      assert (run + [a])[1..] == run[1..] + [a];
      RunAppend(cfg, Apply(cfg, s, run[0]), run[1..], mid, a);
    }
  }
}
