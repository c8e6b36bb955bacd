/** What the execution lease buys: a dead executor never leaves a ticket stuck, and while every live
    executor reports within the lease, a result is written once. */
module Lease {
  import opened Domain
  import opened TicketMachine
  import opened Protocol
  import opened Lifecycle
  import opened History
  import opened Safety

  // ---- results are write-once when executors are timely ----------------------------------------

  /** A step that, if it stores an executor's result, does so before the lease of its claim is over. */
  predicate Timely(cfg: Config, s: Sys, a: Action) {
    a.Go? && a.t in s.threads && s.threads[a.t].pc.Completing? ==>
      var id := s.threads[a.t].id;
      id in s.store.entries && s.store.entries[id].claimedAt.Some?
      && s.now - s.store.entries[id].claimedAt.value < cfg.lease
  }

  predicate TimelyRun(cfg: Config, s: Sys, run: seq<Action>)
    decreases |run|
  {
    run == [] || (Timely(cfg, s, run[0]) && Enabled(s, run[0]) && TimelyRun(cfg, Apply(cfg, s, run[0]), run[1..]))
  }

  predicate Executes(pc: PC) {
    pc.Running? || pc.Awaiting? || pc.Completing?
  }

  /** While its executor is alive, a ticket has a result only once the lease is over. */
  ghost predicate LeaseOver(cfg: Config, s: Sys, t: string)
    requires t in s.threads
  {
    var id := s.threads[t].id;
    Executes(s.threads[t].pc) && id in s.store.entries && s.store.entries[id].ticket.result.Some? ==>
      s.store.entries[id].claimedAt.Some? && s.now - s.store.entries[id].claimedAt.value >= cfg.lease
  }

  /** Whatever a caller was handed is what the ticket holds. */
  ghost predicate HandedCurrent(s: Sys, t: string)
    requires t in s.threads
  {
    s.threads[t].pc.Done? && s.threads[t].pc.outcome.Returned? ==>
      && s.threads[t].id in s.store.entries
      && s.store.entries[s.threads[t].id].ticket.result == Some(s.threads[t].pc.outcome.result)
  }

  ghost predicate LeaseInv(cfg: Config, s: Sys) {
    forall t :: t in s.threads ==> LeaseOver(cfg, s, t) && HandedCurrent(s, t)
  }

  ghost predicate ResultsStay(s: Sys, n: Sys) {
    forall id :: id in s.store.entries && s.store.entries[id].ticket.result.Some? ==>
      id in n.store.entries && n.store.entries[id].ticket.result == s.store.entries[id].ticket.result
  }

  lemma SameResultsStay(s: Sys, n: Sys)
    requires EntriesEvolve(s.store, n.store) && SameResults(s, n)
    ensures ResultsStay(s, n)
  {
    forall id | id in s.store.entries && s.store.entries[id].ticket.result.Some?
      ensures n.store.entries[id].ticket.result == s.store.entries[id].ticket.result
    {
      assert EntryEvolves(s.store.entries[id], n.store.entries[id]);
    }
  }

  lemma NewResultStays(cfg: Config, s: Sys, n: Sys, t: string, w: Write)
    requires NewResult(cfg, s, n, t, w) && s.store.entries[w.id].ticket.result.None?
    ensures ResultsStay(s, n)
  {
  }

  /** A timely step never overwrites a result. */
  lemma TimelyStepKeepsResults(cfg: Config, s: Sys, a: Action)
    requires Inv(s) && LeaseInv(cfg, s) && Enabled(s, a) && Timely(cfg, s, a)
    ensures ResultsStay(s, Apply(cfg, s, a))
  {
    var n := Apply(cfg, s, a);
    assert EntriesEvolve(s.store, n.store) by { StepKeepsInv(cfg, s, a); }
    assert ResultEffect(cfg, s, n) by { StepResults(cfg, s, a); }
    if SameResults(s, n) {
      SameResultsStay(s, n);
    } else {
      var t, w :| NewResult(cfg, s, n, t, w);
      WriterMoved(cfg, s, a, t, w);
      assert LeaseOver(cfg, s, t);
      NewResultStays(cfg, s, n, t, w);
    }
  }

  lemma GateNeverExecutes(cfg: Config, s: Sys, t: string, o: Input)
    requires Ready(s, t, o) && InGate(s.threads[t].pc)
    ensures !Executes(Advance(cfg, s, t, o).threads[t].pc)
  {
  }

  lemma CallersNeverExecute(cfg: Config, s: Sys, t: string, o: Input)
    requires Ready(s, t, o) && !InGate(s.threads[t].pc) && !InRunOnce(s.threads[t].pc)
    ensures !Executes(Advance(cfg, s, t, o).threads[t].pc)
  {
  }

  /** A thread starts executing only by winning the claim of a ticket without a result. */
  lemma ExecutorsStart(cfg: Config, s: Sys, t: string, o: Input)
    requires Ready(s, t, o) && InRunOnce(s.threads[t].pc) && Executes(Advance(cfg, s, t, o).threads[t].pc)
    ensures Executes(s.threads[t].pc)
            || (var n, id := Advance(cfg, s, t, o), s.threads[t].id;
                id in n.store.entries && n.store.entries[id].ticket.result.None?)
  {
  }

  /** An executor that stays one has a result only through a stale close. */
  lemma ExecutorsLease(cfg: Config, s: Sys, n: Sys, t: string)
    requires Forward(s, n) && ResultEffect(cfg, s, n)
    requires t in s.threads && Executes(s.threads[t].pc) && Owns(s, t) && LeaseOver(cfg, s, t)
    ensures LeaseOver(cfg, n, t)
  {
    var id := s.threads[t].id;
    assert EntryEvolves(s.store.entries[id], n.store.entries[id]);
    if !SameResults(s, n) {
      var u, w :| NewResult(cfg, s, n, u, w);
      if w.id == id && w.source.Executor? {
        assert u == t;
      }
    }
  }

  lemma NewExecutorsLease(cfg: Config, s: Sys, t: string, o: Input)
    requires Ready(s, t, o) && !Executes(s.threads[t].pc)
    ensures LeaseOver(cfg, Advance(cfg, s, t, o), t)
  {
    if InGate(s.threads[t].pc) {
      GateNeverExecutes(cfg, s, t, o);
    } else if !InRunOnce(s.threads[t].pc) {
      CallersNeverExecute(cfg, s, t, o);
    } else if Executes(Advance(cfg, s, t, o).threads[t].pc) {
      ExecutorsStart(cfg, s, t, o);
    }
  }

  lemma IdleLease(cfg: Config, s: Sys, a: Action, t: string)
    requires Enabled(s, a) && t in Apply(cfg, s, a).threads && !(t in s.threads && Executes(s.threads[t].pc))
    ensures LeaseOver(cfg, Apply(cfg, s, a), t)
  {
    if a.Go? && a.t == t {
      NewExecutorsLease(cfg, s, t, a.input);
    } else if t in s.threads && !(a.Crash? && a.t == t) {
      StepMovesOne(cfg, s, a, t);
    }
  }

  lemma BusyLease(cfg: Config, s: Sys, a: Action, t: string)
    requires Inv(s) && Enabled(s, a) && t in s.threads && Executes(s.threads[t].pc) && LeaseOver(cfg, s, t)
    ensures t in Apply(cfg, s, a).threads && LeaseOver(cfg, Apply(cfg, s, a), t)
  {
    var n := Apply(cfg, s, a);
    assert Owns(s, t) by { assert ThreadInv(s, t); }
    assert Forward(s, n) by { StepKeepsInv(cfg, s, a); }
    assert ResultEffect(cfg, s, n) by { StepResults(cfg, s, a); }
    ExecutorsLease(cfg, s, n, t);
  }

  lemma StepKeepsLease(cfg: Config, s: Sys, a: Action)
    requires Inv(s) && LeaseInv(cfg, s) && Enabled(s, a) && Timely(cfg, s, a)
    ensures LeaseInv(cfg, Apply(cfg, s, a))
  {
    var n := Apply(cfg, s, a);
    TimelyStepKeepsResults(cfg, s, a);
    forall t | t in n.threads ensures LeaseOver(cfg, n, t) && HandedCurrent(n, t) {
      if t in s.threads && Executes(s.threads[t].pc) {
        BusyLease(cfg, s, a, t);
      } else {
        IdleLease(cfg, s, a, t);
      }
      StepHands(cfg, s, a, t);
      if t in s.threads {
        assert HandedCurrent(s, t);
      }
    }
  }

  lemma {:induction false} TimelyRunKeepsResults(cfg: Config, s: Sys, run: seq<Action>, end: Sys)
    requires Inv(s) && LeaseInv(cfg, s) && TimelyRun(cfg, s, run) && Reaches(cfg, s, run, end)
    ensures Inv(end) && LeaseInv(cfg, end) && ResultsStay(s, end)
    decreases |run|
  {
    if run != [] {
      var n := Apply(cfg, s, run[0]);
      StepKeepsInv(cfg, s, run[0]);
      StepKeepsLease(cfg, s, run[0]);
      TimelyStepKeepsResults(cfg, s, run[0]);
      TimelyRunKeepsResults(cfg, n, run[1..], end);
    }
  }

  /** When every executor reports within the lease, a result is final from the moment it is stored,
      and every caller that was handed a result was handed that one. */
  lemma ResultsAreWriteOnce(cfg: Config, run: seq<Action>, s: Sys, more: seq<Action>, end: Sys)
    requires TimelyRun(cfg, INIT, run) && Reaches(cfg, INIT, run, s)
    requires TimelyRun(cfg, s, more) && Reaches(cfg, s, more, end)
    ensures ResultsStay(s, end)
    ensures forall t :: t in end.threads && end.threads[t].pc.Done? && end.threads[t].pc.outcome.Returned? ==>
              end.threads[t].id in end.store.entries
              && end.store.entries[end.threads[t].id].ticket.result == Some(end.threads[t].pc.outcome.result)
  {
    InitInv();
    TimelyRunKeepsResults(cfg, INIT, run, s);
    TimelyRunKeepsResults(cfg, s, more, end);
    forall t | t in end.threads ensures HandedCurrent(end, t) {}
  }

  // ---- nothing gets stuck ----------------------------------------------------------------------

  predicate LeavesAlone(run: seq<Action>, t: string) {
    forall i :: 0 <= i < |run| ==> !(run[i].Go? && run[i].t == t) && run[i] != Crash(t)
  }

  lemma {:induction false} StaysThere(cfg: Config, s: Sys, run: seq<Action>, end: Sys, t: string)
    requires Reaches(cfg, s, run, end) && LeavesAlone(run, t) && t in s.threads
    ensures t in end.threads && end.threads[t] == s.threads[t]
    decreases |run|
  {
    if run != [] {
      assert !(run[0].Go? && run[0].t == t) && run[0] != Crash(t);
      StepMovesOne(cfg, s, run[0], t);
      StaysThere(cfg, Apply(cfg, s, run[0]), run[1..], end, t);
    }
  }

  lemma RereadIs(cfg: Config, s: Sys, t: string, o: Input)
    requires Reachable(cfg, s) && Ready(s, t, o) && s.threads[t].pc.LostReading?
    requires Advance(cfg, s, t, o).threads[t].pc.Closing?
    ensures var n, id := Advance(cfg, s, t, o), s.threads[t].id;
            n.threads[t] == Thread(id, Closing) && id in n.store.entries && n.store.entries[id].ticket.result.None?
  {
    ReachableIsGood(cfg, s);
    assert ThreadInv(s, t);
  }

  lemma ClaimedAtClose(s: Sys, t: string)
    requires Inv(s) && t in s.threads && s.threads[t].pc.Closing?
    ensures s.threads[t].id in s.store.entries && s.store.entries[s.threads[t].id].claimedAt.Some?
  {
    assert ThreadInv(s, t);
    assert TicketInv(s, s.threads[t].id);
  }

  lemma WrittenIffAppeared(s: Sys, end: Sys, id: string)
    requires HistoryInv(s) && HistoryInv(end) && s.writes <= end.writes
    requires id in s.store.entries && s.store.entries[id].ticket.result.None? && id in end.store.entries
    ensures WrittenSince(s, end, id) <==> end.store.entries[id].ticket.result.Some?
  {
    if end.store.entries[id].ticket.result.Some? {
      AppearedIsWritten(s, end, id);
    } else {
      NotWritten(s, end, id);
    }
  }

  lemma TryCloseIs(cfg: Config, s: Sys, t: string, asOf: real)
    requires t in s.threads && s.threads[t].id in s.store.entries && s.store.entries[s.threads[t].id].claimedAt.Some?
    ensures var id, end := s.threads[t].id, TryClose(cfg, s, t, asOf);
            var e := s.store.entries[id];
            if asOf - e.claimedAt.value < cfg.lease then end.store == s.store
            else if e.ticket.result.Some?
            then end.threads[t].pc == Done(Raised(PendingApproval(id))) && end.store == s.store
            else end.threads[t].pc == Done(Returned(INTERRUPTED)) && end.store == Complete(s.store, id, INTERRUPTED)
  {
  }

  /** Between a loser's reread, which saw no result, and its close anything may happen. A close at or after
      claim time plus lease returns the interruption and stores it, unless a result was written since the
      reread, and only then it gives up; an earlier one changes nothing. */
  lemma CloseAfterTheLease(cfg: Config, s: Sys, t: string, reread: Input, run: seq<Action>, m: Sys, o: Input)
    requires Reachable(cfg, s) && Ready(s, t, reread) && s.threads[t].pc.LostReading?
    requires var n := Advance(cfg, s, t, reread); n.threads[t].pc.Closing? && Reaches(cfg, n, run, m)
    requires LeavesAlone(run, t) && Ready(m, t, o)
    ensures var id := s.threads[t].id;
            var n, end := Advance(cfg, s, t, reread), Advance(cfg, m, t, o);
            && id in m.store.entries && m.store.entries[id].claimedAt.Some?
            && (if o.asOf - m.store.entries[id].claimedAt.value < cfg.lease then end.store == m.store
                else if WrittenSince(n, m, id)
                then end.threads[t].pc == Done(Raised(PendingApproval(id))) && end.store == m.store
                else end.threads[t].pc == Done(Returned(INTERRUPTED)) && end.store == Complete(m.store, id, INTERRUPTED))
  {
    var id, n := s.threads[t].id, Advance(cfg, s, t, reread);
    RereadIs(cfg, s, t, reread);
    StepIsReachable(cfg, s, Go(t, reread));
    StaysThere(cfg, n, run, m, t);
    LaterHistory(cfg, n, run, m);
    ClaimedAtClose(m, t);
    WrittenIffAppeared(n, m, id);
    TryCloseIs(cfg, m, t, o.asOf);
    assert Advance(cfg, m, t, o) == TryClose(cfg, m, t, o.asOf);
  }

  /** A lone thread's step that changes nothing but where it is. */
  lemma LoneStep(cfg: Config, s: Sys, t: string, o: Input, pc: PC, run: seq<Action>, end: Sys)
    requires Ready(s, t, o) && Advance(cfg, s, t, o) == At(s, t, pc) && Reaches(cfg, At(s, t, pc), run, end)
    ensures Reaches(cfg, s, [Go(t, o)] + run, end)
  {
    assert ([Go(t, o)] + run)[1..] == run;
  }

  ghost predicate EndsInterrupted(cfg: Config, s: Sys, t: string, id: string, run: seq<Action>, end: Sys) {
    && Reaches(cfg, s, run, end) && t in end.threads
    && end.threads[t] == Thread(id, Done(Returned(INTERRUPTED)))
    && end.store == Complete(s.store, id, INTERRUPTED)
    && forall u :: u in s.threads && u != t ==> u in end.threads && end.threads[u] == s.threads[u]
  }

  lemma CloserEnds(cfg: Config, s: Sys, t: string, id: string, o: Input)
    requires t in s.threads && s.threads[t] == Thread(id, Closing) && o.asOf == s.now
    requires Stale(s.store, id, cfg.lease, s.now)
    ensures EndsInterrupted(cfg, s, t, id, [Go(t, o)], Advance(cfg, s, t, o))
  {
    assert [Go(t, o)][1..] == [];
  }

  lemma LoserEnds(cfg: Config, s: Sys, t: string, id: string, o: Input)
    requires t in s.threads && s.threads[t] == Thread(id, LostReading) && o.asOf == s.now
    requires Stale(s.store, id, cfg.lease, s.now)
    ensures exists run, end :: EndsInterrupted(cfg, s, t, id, run, end) && |run| == 2
  {
    var n := At(s, t, Closing);
    CloserEnds(cfg, n, t, id, o);
    LoneStep(cfg, s, t, o, Closing, [Go(t, o)], Advance(cfg, n, t, o));
    assert EndsInterrupted(cfg, s, t, id, [Go(t, o)] + [Go(t, o)], Advance(cfg, n, t, o));
  }

  lemma ClaimerEnds(cfg: Config, s: Sys, t: string, id: string, args: Args, o: Input)
    requires t in s.threads && s.threads[t] == Thread(id, Claiming(args)) && o.asOf == s.now
    requires Stale(s.store, id, cfg.lease, s.now)
    ensures exists run, end :: EndsInterrupted(cfg, s, t, id, run, end) && |run| == 3
  {
    var n := At(s, t, LostReading);
    LoserEnds(cfg, n, t, id, o);
    var run, end :| EndsInterrupted(cfg, n, t, id, run, end) && |run| == 2;
    LoneStep(cfg, s, t, o, LostReading, run, end);
    assert EndsInterrupted(cfg, s, t, id, [Go(t, o)] + run, end);
  }

  lemma GrantedEnds(cfg: Config, s: Sys, t: string, id: string, call: ToolCall, d: Decision, o: Input)
    requires t in s.threads && s.threads[t] == Thread(id, Granting(call, d)) && o.asOf == s.now && o.granted
    requires d.status == Status.Approved && Stale(s.store, id, cfg.lease, s.now)
    ensures exists run, end :: EndsInterrupted(cfg, s, t, id, run, end) && |run| == 4
  {
    var pc := Claiming(Effective(call.arguments, d));
    var n := At(s, t, pc);
    ClaimerEnds(cfg, n, t, id, pc.args, o);
    var run, end :| EndsInterrupted(cfg, n, t, id, run, end) && |run| == 3;
    LoneStep(cfg, s, t, o, pc, run, end);
    assert EndsInterrupted(cfg, s, t, id, [Go(t, o)] + run, end);
  }

  lemma ResumerEnds(cfg: Config, s: Sys, t: string, id: string, o: Input)
    requires t in s.threads && s.threads[t] == Thread(id, ResumeReading) && o.asOf == s.now && o.granted
    requires Stale(s.store, id, cfg.lease, s.now)
    requires s.store.entries[id].ticket.decision.status == Status.Approved
    ensures exists run, end :: EndsInterrupted(cfg, s, t, id, run, end) && |run| == 5
  {
    var ticket := s.store.entries[id].ticket;
    var pc := Granting(ticket.call, ticket.decision);
    var n := At(s, t, pc);
    GrantedEnds(cfg, n, t, id, ticket.call, ticket.decision, o);
    var run, end :| EndsInterrupted(cfg, n, t, id, run, end) && |run| == 4;
    LoneStep(cfg, s, t, o, pc, run, end);
    assert EndsInterrupted(cfg, s, t, id, [Go(t, o)] + run, end);
  }

  /** From any reachable state, for any ticket whose claim is older than the lease and has no result,
      one more resume that is still granted ends with the interruption stored and returned. */
  lemma ResumeUnsticks(cfg: Config, s: Sys, t: string, id: string)
    requires Reachable(cfg, s) && t !in s.threads && Stale(s.store, id, cfg.lease, s.now)
    ensures exists run, end :: EndsInterrupted(cfg, s, t, id, run, end) && |run| == 6
  {
    ReachableIsGood(cfg, s);
    assert TicketInv(s, id);
    var n := Apply(cfg, s, StartResume(t, id));
    ResumerEnds(cfg, n, t, id, Input(true, None, map[], Answer(INTERRUPTED), s.now, false));
    var run, end :| EndsInterrupted(cfg, n, t, id, run, end) && |run| == 5;
    var all := [StartResume(t, id)] + run;
    assert all[1..] == run;
    assert EndsInterrupted(cfg, s, t, id, all, end);
  }
}
