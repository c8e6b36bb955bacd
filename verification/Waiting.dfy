/** How long the approval gate waits, and what its signal is good for. */
module Waiting {
  import opened Domain
  import opened TicketMachine
  import opened Protocol
  import opened Lifecycle
  import opened History
  import opened Safety

  /** Time asleep after `n` full naps. */
  function Naps(cfg: Config, n: int): real {
    n as real * cfg.recheck
  }

  lemma OneMoreNap(cfg: Config, n: int)
    ensures Naps(cfg, n + 1) == Naps(cfg, n) + cfg.recheck
  {
    assert (n + 1) as real == n as real + 1.0;
  }

  /** The clock has passed `n` naps since the wait began, or the deadline. */
  predicate Paced(cfg: Config, now: real, w: Wait, n: int) {
    now >= Min(w.deadline, w.start + Naps(cfg, n))
  }

  /** Before each reread the waiter has slept a full nap for each pending read, unless the ticket is
      decided; and it went on sleeping only while the naps so far fell short of the timeout. */
  ghost predicate PaceInv(cfg: Config, s: Sys, t: string)
    requires t in s.threads
  {
    match s.threads[t].pc
    case Reading(w) =>
      && w.deadline == w.start + cfg.timeout
      && (w.looks >= 1 ==> Naps(cfg, w.looks - 1) < cfg.timeout)
      && (Paced(cfg, s.now, w, w.looks) || Decided(s.store, s.threads[t].id))
    case Checking(w) =>
      && w.deadline == w.start + cfg.timeout && w.looks >= 1
      && (w.looks >= 2 ==> Naps(cfg, w.looks - 2) < cfg.timeout)
      && Paced(cfg, s.now, w, w.looks - 1)
    case Sleeping(w, wakeAt) =>
      && w.deadline == w.start + cfg.timeout && w.looks >= 1
      && Naps(cfg, w.looks - 1) < cfg.timeout
      && Paced(cfg, wakeAt, w, w.looks)
      && wakeAt <= w.deadline && wakeAt <= s.now + cfg.recheck
    case _ => true
  }

  ghost predicate AllPaced(cfg: Config, s: Sys) {
    forall t :: t in s.threads ==> PaceInv(cfg, s, t)
  }

  lemma CheckClockPace(cfg: Config, s: Sys, t: string, w: Wait)
    requires cfg.recheck > 0.0 && t in s.threads && s.threads[t].pc == Checking(w) && PaceInv(cfg, s, t)
    ensures PaceInv(cfg, CheckClock(cfg, s, t, w), t)
  {
    OneMoreNap(cfg, w.looks - 1);
  }

  lemma WakePace(cfg: Config, s: Sys, t: string, o: Input)
    requires Inv(s) && Ready(s, t, o) && s.threads[t].pc.Sleeping? && PaceInv(cfg, s, t)
    ensures PaceInv(cfg, WakeUp(s, t, s.threads[t].pc.w, o.heard), t)
  {
  }

  lemma ArmPace(cfg: Config, s: Sys, t: string, args: Args)
    requires t in s.threads
    ensures PaceInv(cfg, Arm(cfg, s, t, args), t)
  {
    assert Naps(cfg, 0) == 0.0;
  }

  lemma ReadPace(cfg: Config, s: Sys, t: string, w: Wait)
    requires t in s.threads && s.threads[t].pc == Reading(w) && PaceInv(cfg, s, t)
    ensures PaceInv(cfg, ReadVerdict(s, t, w), t)
  {
  }

  predicate Waits(pc: PC) {
    pc.Reading? || pc.Checking? || pc.Sleeping?
  }

  lemma GateStopsWaiting(cfg: Config, s: Sys, t: string, o: Input)
    requires Ready(s, t, o)
    requires s.threads[t].pc.TimingOut? || s.threads[t].pc.Rereading? || s.threads[t].pc.Adopting?
    ensures !Waits(Advance(cfg, s, t, o).threads[t].pc)
  {
  }

  lemma RunOnceDoesNotWait(cfg: Config, s: Sys, t: string, o: Input)
    requires Ready(s, t, o) && InRunOnce(s.threads[t].pc)
    ensures !Waits(Advance(cfg, s, t, o).threads[t].pc)
  {
  }

  lemma CallersDoNotWait(cfg: Config, s: Sys, t: string, o: Input)
    requires Ready(s, t, o) && !InGate(s.threads[t].pc) && !InRunOnce(s.threads[t].pc)
    ensures !Waits(Advance(cfg, s, t, o).threads[t].pc)
  {
  }

  lemma GoPace(cfg: Config, s: Sys, t: string, o: Input)
    requires cfg.recheck > 0.0 && Inv(s) && Ready(s, t, o) && PaceInv(cfg, s, t)
    ensures PaceInv(cfg, Advance(cfg, s, t, o), t)
  {
    var pc := s.threads[t].pc;
    if pc.Arming? {
      ArmPace(cfg, s, t, pc.args);
    } else if pc.Reading? {
      ReadPace(cfg, s, t, pc.w);
    } else if pc.Checking? {
      CheckClockPace(cfg, s, t, pc.w);
    } else if pc.Sleeping? {
      WakePace(cfg, s, t, o);
    } else if InGate(pc) {
      GateStopsWaiting(cfg, s, t, o);
    } else if InRunOnce(pc) {
      RunOnceDoesNotWait(cfg, s, t, o);
    } else {
      CallersDoNotWait(cfg, s, t, o);
    }
  }

  lemma PaceStable(cfg: Config, s: Sys, n: Sys, t: string)
    requires t in s.threads && t in n.threads && n.threads[t] == s.threads[t] && PaceInv(cfg, s, t) && Forward(s, n)
    ensures PaceInv(cfg, n, t)
  {
  }

  lemma StepKeepsPace(cfg: Config, s: Sys, a: Action)
    requires cfg.recheck > 0.0 && Inv(s) && AllPaced(cfg, s) && Enabled(s, a)
    ensures AllPaced(cfg, Apply(cfg, s, a))
  {
    var n := Apply(cfg, s, a);
    StepKeepsInv(cfg, s, a);
    forall t | t in n.threads ensures PaceInv(cfg, n, t) {
      if t in s.threads {
        assert PaceInv(cfg, s, t);
        if a.Go? && a.t == t {
          GoPace(cfg, s, t, a.input);
        } else if !(a.Crash? && a.t == t) {
          StepMovesOne(cfg, s, a, t);
          PaceStable(cfg, s, n, t);
        }
      }
    }
  }

  lemma {:induction false} RunKeepsPace(cfg: Config, s: Sys, run: seq<Action>, end: Sys)
    requires cfg.recheck > 0.0 && Inv(s) && AllPaced(cfg, s) && Reaches(cfg, s, run, end)
    ensures AllPaced(cfg, end)
    decreases |run|
  {
    if run != [] {
      StepKeepsInv(cfg, s, run[0]);
      StepKeepsPace(cfg, s, run[0]);
      RunKeepsPace(cfg, Apply(cfg, s, run[0]), run[1..], end);
    }
  }

  // ---- the wait is bounded ---------------------------------------------------------------------

  /** The read a waiter is about to make is its first, or fewer than `timeout / recheck + 2` reads in:
      at most ceil(timeout / recheck) + 1 reads in all, whatever the signals do. */
  lemma ReadsAreBounded(cfg: Config, s: Sys, t: string)
    requires cfg.recheck > 0.0 && Reachable(cfg, s) && t in s.threads && s.threads[t].pc.Reading?
    ensures var read := s.threads[t].pc.w.looks + 1;
            read <= 1 || (read - 2) as real < cfg.timeout / cfg.recheck
  {
    var run :| Reaches(cfg, INIT, run, s);
    InitInv();
    RunKeepsPace(cfg, INIT, run, s);
    assert PaceInv(cfg, s, t);
    var naps := s.threads[t].pc.w.looks - 1;
    if naps >= 0 {
      Quotient(naps as real, cfg.recheck, cfg.timeout);
    }
  }

  lemma Quotient(n: real, d: real, x: real)
    requires d > 0.0 && n * d < x
    ensures n < x / d
  {
    assert x == (x / d) * d;
  }

  /** A sleeper wakes within one recheck interval and by the deadline even if every signal is lost. */
  lemma NapsAreShort(cfg: Config, s: Sys, t: string)
    requires cfg.recheck > 0.0 && Reachable(cfg, s) && t in s.threads && s.threads[t].pc.Sleeping?
    ensures s.threads[t].pc.wakeAt <= s.now + cfg.recheck
    ensures s.threads[t].pc.wakeAt <= s.threads[t].pc.w.start + cfg.timeout
  {
    var run :| Reaches(cfg, INIT, run, s);
    InitInv();
    RunKeepsPace(cfg, INIT, run, s);
    assert PaceInv(cfg, s, t);
  }

  // ---- a signal is never slept through ---------------------------------------------------------

  /** Once the event of a ticket is set, only the waiter of that ticket consumes it. */
  lemma SignalIsKept(cfg: Config, s: Sys, a: Action, t: string)
    requires Reachable(cfg, s) && Enabled(s, a) && t in s.threads && Waits(s.threads[t].pc)
    requires s.threads[t].id in s.events && !(a.Go? && a.t == t)
    ensures s.threads[t].id in Apply(cfg, s, a).events
  {
    ReachableIsGood(cfg, s);
    assert ThreadInv(s, t);
    if a.Go? {
      assert ThreadInv(s, a.t);
      KeepsEvents(cfg, s, a.t, a.input);
    }
  }

  lemma KeepsEvents(cfg: Config, s: Sys, t: string, o: Input)
    requires Ready(s, t, o)
    ensures s.events - {s.threads[t].id} <= Advance(cfg, s, t, o).events
    ensures !s.threads[t].pc.Sleeping? ==> s.events <= Advance(cfg, s, t, o).events
  {
  }

  /** However it wakes, a sleeper whose ticket has been decided goes on with the stored verdict: with every
      signal lost, that is within one recheck interval of the verdict. */
  lemma SleeperFindsTheVerdict(cfg: Config, s: Sys, t: string, o: Input)
    requires Reachable(cfg, s) && t in s.threads && s.threads[t].pc.Sleeping? && Ready(s, t, o)
    requires Decided(s.store, s.threads[t].id)
    ensures var n := Advance(cfg, s, t, o);
            && Ready(n, t, o)
            && var pc := Advance(cfg, n, t, o).threads[t].pc;
               (pc.Adopting? || pc.TimingOut?) && pc.verdict == s.store.entries[s.threads[t].id].ticket.decision
  {
    var n := WakeUp(s, t, s.threads[t].pc.w, o.heard);
    assert n == Advance(cfg, s, t, o);
    assert ReadVerdict(n, t, s.threads[t].pc.w) == Advance(cfg, n, t, o);
  }

  /** With the event set a sleeper can wake at once, and its next read finds the verdict. */
  lemma SignalWakes(cfg: Config, s: Sys, t: string, o: Input)
    requires Reachable(cfg, s) && t in s.threads && s.threads[t].pc.Sleeping?
    requires s.threads[t].id in s.events && o.heard
    ensures Ready(s, t, o)
    ensures var n := Advance(cfg, s, t, o);
            && Ready(n, t, o) && Decided(s.store, s.threads[t].id)
            && var pc := Advance(cfg, n, t, o).threads[t].pc;
               (pc.Adopting? || pc.TimingOut?) && pc.verdict == s.store.entries[s.threads[t].id].ticket.decision
  {
    ReachableIsGood(cfg, s);
    SleeperFindsTheVerdict(cfg, s, t, o);
  }
}
