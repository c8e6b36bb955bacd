/** The waiter gives up at its deadline and not before. */
module Deadline {
  import opened Domain
  import opened TicketMachine
  import opened Protocol
  import opened Lifecycle
  import opened History
  import opened Safety

  predicate Undecided(pc: PC) {
    pc.Arming? || pc.Reading? || pc.Checking? || pc.Sleeping? || pc.TimingOut?
  }

  predicate TimedOut(s: Sys, id: string) {
    id in s.store.entries && s.store.entries[id].ticket.decision.status == Timeout
  }

  // ---- who records a timeout -------------------------------------------------------------------

  lemma OperatorsNeverTimeOut(s: Sys, t: string, d: Decision, id: string)
    requires t in s.threads && d.status != Timeout && TimedOut(RecordVerdict(s, t, d), id)
    ensures TimedOut(s, id)
  {
  }

  lemma OnlyOwnTicket(s: Sys, t: string, args: Args, d: Decision, id: string)
    requires t in s.threads && s.threads[t].id != id && TimedOut(RecordTimeout(s, t, args, d), id)
    ensures TimedOut(s, id)
  {
  }

  lemma OthersTimeOutNothing(cfg: Config, s: Sys, t: string, o: Input, id: string)
    requires Inv(s) && Ready(s, t, o) && !s.threads[t].pc.TimingOut? && TimedOut(Advance(cfg, s, t, o), id)
    ensures TimedOut(s, id)
  {
    if s.threads[t].pc.OpDeciding? {
      assert ThreadInv(s, t);
      OperatorsNeverTimeOut(s, t, s.threads[t].pc.verdict, id);
    } else {
      GoKeepsVerdicts(cfg, s, t, o);
      assert EntriesEvolve(s.store, Advance(cfg, s, t, o).store) by { StepKeepsInv(cfg, s, Go(t, o)); }
      assert Decided(Advance(cfg, s, t, o).store, id);
    }
  }

  /** A ticket times out only in a step of the waiter that filed it. */
  lemma TimeoutWriter(cfg: Config, s: Sys, a: Action, id: string)
    requires Inv(s) && Enabled(s, a) && TimedOut(Apply(cfg, s, a), id) && !TimedOut(s, id)
    ensures a.Go? && s.threads[a.t].id == id && s.threads[a.t].pc.TimingOut? && id in s.filer && s.filer[id] == a.t
  {
    if a.Go? {
      if s.threads[a.t].pc.TimingOut? {
        assert ThreadInv(s, a.t);
        if s.threads[a.t].id != id {
          OnlyOwnTicket(s, a.t, s.threads[a.t].pc.args, s.threads[a.t].pc.verdict, id);
        }
      } else {
        OthersTimeOutNothing(cfg, s, a.t, a.input, id);
      }
    }
  }

  // ---- a waiter's ticket has not timed out -----------------------------------------------------

  ghost predicate WaitsInTime(s: Sys, t: string)
    requires t in s.threads
  {
    Undecided(s.threads[t].pc) ==> !TimedOut(s, s.threads[t].id)
  }

  ghost predicate AllWaitInTime(s: Sys) {
    forall t :: t in s.threads ==> WaitsInTime(s, t)
  }

  lemma FiledBy(s: Sys, t: string)
    requires Inv(s) && t in s.threads && Undecided(s.threads[t].pc)
    ensures s.threads[t].id in s.filer && s.filer[s.threads[t].id] == t && s.threads[t].id in s.store.entries
  {
    assert ThreadInv(s, t);
  }

  lemma ClaimersAreDecided(cfg: Config, s: Sys, t: string, o: Input)
    requires Ready(s, t, o) && (s.threads[t].pc.Claiming? || s.threads[t].pc.LostReading? || s.threads[t].pc.Closing?)
    ensures !Undecided(Advance(cfg, s, t, o).threads[t].pc)
  {
  }

  lemma ExecutorsAreDecided(cfg: Config, s: Sys, t: string, o: Input)
    requires Ready(s, t, o) && (s.threads[t].pc.Running? || s.threads[t].pc.Awaiting? || s.threads[t].pc.Completing?)
    ensures !Undecided(Advance(cfg, s, t, o).threads[t].pc)
  {
  }

  lemma RunOnceIsDecided(cfg: Config, s: Sys, t: string, o: Input)
    requires Ready(s, t, o) && InRunOnce(s.threads[t].pc)
    ensures !Undecided(Advance(cfg, s, t, o).threads[t].pc)
  {
    if s.threads[t].pc.Claiming? || s.threads[t].pc.LostReading? || s.threads[t].pc.Closing? {
      ClaimersAreDecided(cfg, s, t, o);
    } else {
      ExecutorsAreDecided(cfg, s, t, o);
    }
  }

  lemma OperatorsDoNotWait(cfg: Config, s: Sys, t: string, o: Input)
    requires Ready(s, t, o) && (s.threads[t].pc.OpReading? || s.threads[t].pc.OpDeciding? || s.threads[t].pc.OpSignalling?)
    ensures !Undecided(Advance(cfg, s, t, o).threads[t].pc)
  {
  }

  lemma ReadersDoNotWait(cfg: Config, s: Sys, t: string, o: Input)
    requires Ready(s, t, o)
    requires s.threads[t].pc.CheckReading? || s.threads[t].pc.ResumeReading? || s.threads[t].pc.Granting?
    ensures !Undecided(Advance(cfg, s, t, o).threads[t].pc)
  {
  }

  lemma CallersDoNotWait(cfg: Config, s: Sys, t: string, o: Input)
    requires Ready(s, t, o) && !InGate(s.threads[t].pc) && !InRunOnce(s.threads[t].pc)
    ensures !Undecided(Advance(cfg, s, t, o).threads[t].pc)
  {
    if s.threads[t].pc.CheckReading? || s.threads[t].pc.ResumeReading? || s.threads[t].pc.Granting? {
      ReadersDoNotWait(cfg, s, t, o);
    } else {
      OperatorsDoNotWait(cfg, s, t, o);
    }
  }

  lemma WaitingWritesNothing(cfg: Config, s: Sys, t: string, o: Input)
    requires Ready(s, t, o) && InGate(s.threads[t].pc) && Undecided(Advance(cfg, s, t, o).threads[t].pc)
    ensures Undecided(s.threads[t].pc) && Advance(cfg, s, t, o).store == s.store
  {
  }

  lemma OwnStepInTime(cfg: Config, s: Sys, t: string, o: Input)
    requires Inv(s) && Ready(s, t, o) && WaitsInTime(s, t)
    ensures WaitsInTime(Advance(cfg, s, t, o), t)
  {
    if InGate(s.threads[t].pc) {
      if Undecided(Advance(cfg, s, t, o).threads[t].pc) {
        WaitingWritesNothing(cfg, s, t, o);
      }
    } else if InRunOnce(s.threads[t].pc) {
      RunOnceIsDecided(cfg, s, t, o);
    } else {
      CallersDoNotWait(cfg, s, t, o);
    }
  }

  lemma OthersStepInTime(cfg: Config, s: Sys, a: Action, t: string)
    requires Inv(s) && Enabled(s, a) && t in s.threads && WaitsInTime(s, t) && !(a.Go? && a.t == t)
    ensures t in Apply(cfg, s, a).threads && WaitsInTime(Apply(cfg, s, a), t)
  {
    if a != Crash(t) {
      StepMovesOne(cfg, s, a, t);
      if Undecided(s.threads[t].pc) && TimedOut(Apply(cfg, s, a), s.threads[t].id) {
        FiledBy(s, t);
        TimeoutWriter(cfg, s, a, s.threads[t].id);
      }
    }
  }

  lemma FiledInTime(cfg: Config, s: Sys, a: Action, t: string)
    requires Enabled(s, a) && t !in s.threads && t in Apply(cfg, s, a).threads
    ensures WaitsInTime(Apply(cfg, s, a), t)
  {
  }

  lemma StepKeepsTime(cfg: Config, s: Sys, a: Action)
    requires Inv(s) && AllWaitInTime(s) && Enabled(s, a)
    ensures AllWaitInTime(Apply(cfg, s, a))
  {
    forall t | t in Apply(cfg, s, a).threads ensures WaitsInTime(Apply(cfg, s, a), t) {
      if t !in s.threads {
        FiledInTime(cfg, s, a, t);
      } else if a.Go? && a.t == t {
        OwnStepInTime(cfg, s, t, a.input);
      } else {
        OthersStepInTime(cfg, s, a, t);
      }
    }
  }

  lemma {:induction false} RunKeepsTime(cfg: Config, s: Sys, run: seq<Action>, end: Sys)
    requires Inv(s) && AllWaitInTime(s) && Reaches(cfg, s, run, end)
    ensures AllWaitInTime(end)
    decreases |run|
  {
    if run != [] {
      StepKeepsInv(cfg, s, run[0]);
      StepKeepsTime(cfg, s, run[0]);
      RunKeepsTime(cfg, Apply(cfg, s, run[0]), run[1..], end);
    }
  }

  lemma ReachableInTime(cfg: Config, s: Sys)
    requires Reachable(cfg, s)
    ensures Inv(s) && AllWaitInTime(s)
  {
    var run :| Reaches(cfg, INIT, run, s);
    InitInv();
    RunKeepsInv(cfg, INIT, run, s);
    RunKeepsTime(cfg, INIT, run, s);
  }

  /** While its waiter waits, a ticket is never found timed out. */
  lemma WaiterSeesNoTimeout(cfg: Config, s: Sys, t: string)
    requires Reachable(cfg, s) && t in s.threads && Undecided(s.threads[t].pc)
    ensures s.threads[t].id in s.store.entries
    ensures s.store.entries[s.threads[t].id].ticket.decision.status != Timeout
  {
    ReachableInTime(cfg, s);
    assert WaitsInTime(s, t);
    FiledBy(s, t);
  }

  // ---- no timeout before the deadline ----------------------------------------------------------

  /** Since `since` the waiter has not given up before `timeout` was over. */
  predicate Patient(cfg: Config, since: real, s: Sys, t: string)
    requires t in s.threads
  {
    match s.threads[t].pc
    case Arming(args) => s.now >= since
    case Reading(w) => w.start >= since && w.deadline == w.start + cfg.timeout
    case Checking(w) => w.start >= since && w.deadline == w.start + cfg.timeout
    case Sleeping(w, wakeAt) => w.start >= since && w.deadline == w.start + cfg.timeout
    case TimingOut(args, d) => s.now >= since + cfg.timeout
    case _ => true
  }

  lemma GateStaysPatient(cfg: Config, since: real, s: Sys, t: string, o: Input)
    requires Ready(s, t, o) && InGate(s.threads[t].pc) && Patient(cfg, since, s, t)
    requires Undecided(s.threads[t].pc) ==> !TimedOut(s, s.threads[t].id)
    ensures Patient(cfg, since, Advance(cfg, s, t, o), t)
  {
  }

  lemma StepStaysPatient(cfg: Config, since: real, s: Sys, t: string, a: Action)
    requires Inv(s) && AllWaitInTime(s) && Enabled(s, a) && t in s.threads && Patient(cfg, since, s, t)
    ensures t in Apply(cfg, s, a).threads && Patient(cfg, since, Apply(cfg, s, a), t)
  {
    assert s.now <= Apply(cfg, s, a).now by { StepKeepsInv(cfg, s, a); }
    if a.Go? && a.t == t {
      assert WaitsInTime(s, t);
      if InGate(s.threads[t].pc) {
        GateStaysPatient(cfg, since, s, t, a.input);
      } else if InRunOnce(s.threads[t].pc) {
        RunOnceIsDecided(cfg, s, t, a.input);
      } else {
        CallersDoNotWait(cfg, s, t, a.input);
      }
    } else if a != Crash(t) {
      StepMovesOne(cfg, s, a, t);
    }
  }

  lemma {:induction false} RunStaysPatient(cfg: Config, since: real, s: Sys, t: string, run: seq<Action>, end: Sys)
    requires Inv(s) && AllWaitInTime(s) && Reaches(cfg, s, run, end) && t in s.threads && Patient(cfg, since, s, t)
    ensures Inv(end) && AllWaitInTime(end) && t in end.threads && Patient(cfg, since, end, t)
    decreases |run|
  {
    if run != [] {
      StepKeepsInv(cfg, s, run[0]);
      StepKeepsTime(cfg, s, run[0]);
      StepStaysPatient(cfg, since, s, t, run[0]);
      RunStaysPatient(cfg, since, Apply(cfg, s, run[0]), t, run[1..], end);
    }
  }

  lemma StillFiledBy(cfg: Config, s: Sys, t: string, run: seq<Action>, end: Sys)
    requires Inv(s) && Reaches(cfg, s, run, end) && t in s.threads && s.threads[t].pc.Arming?
    ensures var id := s.threads[t].id; id in end.filer && end.filer[id] == t
  {
    FiledBy(s, t);
    RunKeepsInv(cfg, s, run, end);
  }

  /** However a run goes on, a ticket times out no earlier than `timeout` after its waiter armed. */
  lemma NoEarlyTimeout(cfg: Config, s: Sys, t: string, run: seq<Action>, m: Sys, a: Action)
    requires Reachable(cfg, s) && t in s.threads && s.threads[t].pc.Arming? && Reaches(cfg, s, run, m) && Enabled(m, a)
    requires TimedOut(Apply(cfg, m, a), s.threads[t].id) && !TimedOut(m, s.threads[t].id)
    ensures m.now >= s.now + cfg.timeout
  {
    ReachableInTime(cfg, s);
    RunStaysPatient(cfg, s.now, s, t, run, m);
    StillFiledBy(cfg, s, t, run, m);
    TimeoutWriter(cfg, m, a, s.threads[t].id);
  }

  /** A waiter that finds its ticket pending looks at the clock, and before its deadline it sleeps next: a
      recheck interval, or what is left. At the deadline it times out. */
  lemma WaiterSleepsUntilItsDeadline(cfg: Config, s: Sys, t: string, o: Input)
    requires Ready(s, t, o)
    ensures s.threads[t].pc.Reading? && s.threads[t].id in s.store.entries
            && s.store.entries[s.threads[t].id].ticket.decision.status == Pending ==>
              Advance(cfg, s, t, o).threads[t].pc.Checking?
    ensures s.threads[t].pc.Checking? ==>
              var w := s.threads[t].pc.w;
              Advance(cfg, s, t, o).threads[t].pc
              == if s.now >= w.deadline then TimingOut(w.args, Decision(Timeout, "", "", None))
                 else Sleeping(w, if w.deadline <= s.now + cfg.recheck then w.deadline else s.now + cfg.recheck)
  {
  }
}
