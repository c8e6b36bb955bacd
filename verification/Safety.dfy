/** What holds in every reachable state and over every run of the ticket lifecycle. */
module Safety {
  import opened Domain
  import opened TicketMachine
  import opened Protocol
  import opened Lifecycle
  import opened History
  import Secrets

  ghost predicate Reachable(cfg: Config, s: Sys) {
    exists run :: Reaches(cfg, INIT, run, s)
  }

  lemma ReachableIsGood(cfg: Config, s: Sys)
    requires Reachable(cfg, s)
    ensures HistoryInv(s)
  {
    var run :| Reaches(cfg, INIT, run, s);
    InitHistory();
    RunKeepsHistory(cfg, INIT, run, s);
  }

  // ---- dispatches ------------------------------------------------------------------------------

  /** No ticket's call is dispatched twice, whatever resumes, checks, waits, crashes and closes. */
  lemma DispatchedAtMostOnce(cfg: Config, s: Sys)
    requires Reachable(cfg, s)
    ensures forall i, j :: 0 <= i < j < |s.trace| ==> s.trace[i].id != s.trace[j].id
  {
    ReachableIsGood(cfg, s);
  }

  /** What was dispatched was approved when it was dispatched, still is, and ran with the operator's
      edit (or the filed arguments), secrets resolved. */
  lemma OnlyApprovedCallsAreDispatched(cfg: Config, s: Sys, i: nat)
    requires Reachable(cfg, s) && i < |s.trace|
    ensures var d := s.trace[i];
            && d.id in s.store.entries
            && s.store.entries[d.id].ticket.decision == d.verdict && d.verdict.status == Status.Approved
    ensures var d := s.trace[i];
            var args := if d.verdict.edited.Some? then d.verdict.edited.value
                        else s.store.entries[d.id].ticket.call.arguments;
            Secrets.Resolvable(d.secrets, args) && d.args == Secrets.Resolve(d.secrets, args)
  {
    ReachableIsGood(cfg, s);
    assert DispatchInv(s, s.trace[i]);
  }

  lemma GateDispatchesNothing(cfg: Config, s: Sys, t: string, o: Input)
    requires Ready(s, t, o) && InGate(s.threads[t].pc)
    ensures Advance(cfg, s, t, o).trace == s.trace
  {
  }

  lemma CallersDispatchNothing(cfg: Config, s: Sys, t: string, o: Input)
    requires Ready(s, t, o) && !InGate(s.threads[t].pc) && !InRunOnce(s.threads[t].pc)
    ensures Advance(cfg, s, t, o).trace == s.trace
  {
  }

  lemma OnlyRunningDispatches(cfg: Config, s: Sys, t: string, o: Input)
    requires Ready(s, t, o) && InRunOnce(s.threads[t].pc) && Advance(cfg, s, t, o).trace != s.trace
    ensures s.threads[t].pc.Running? && Advance(cfg, s, t, o).trace[..|s.trace|] == s.trace
    ensures |Advance(cfg, s, t, o).trace| == |s.trace| + 1 && Advance(cfg, s, t, o).trace[|s.trace|].id == s.threads[t].id
  {
  }

  /** The step that dispatches reads nothing of the verdict, yet the ticket is approved at that instant. */
  lemma ApprovedAtTheInstantOfDispatch(cfg: Config, s: Sys, a: Action)
    requires Reachable(cfg, s) && Enabled(s, a) && Apply(cfg, s, a).trace != s.trace
    ensures a.Go? && s.threads[a.t].id in s.store.entries
    ensures s.store.entries[s.threads[a.t].id].ticket.decision.status == Status.Approved
    ensures var n := Apply(cfg, s, a);
            |n.trace| == |s.trace| + 1 && n.trace[..|s.trace|] == s.trace && n.trace[|s.trace|].id == s.threads[a.t].id
  {
    if a.Go? {
      if InGate(s.threads[a.t].pc) {
        GateDispatchesNothing(cfg, s, a.t, a.input);
      } else if InRunOnce(s.threads[a.t].pc) {
        OnlyRunningDispatches(cfg, s, a.t, a.input);
        RunningIsApproved(cfg, s, a.t);
      } else {
        CallersDispatchNothing(cfg, s, a.t, a.input);
      }
    }
  }

  lemma RunningIsApproved(cfg: Config, s: Sys, t: string)
    requires Reachable(cfg, s) && t in s.threads && s.threads[t].pc.Running?
    ensures s.threads[t].id in s.store.entries
    ensures s.store.entries[s.threads[t].id].ticket.decision.status == Status.Approved
  {
    ReachableIsGood(cfg, s);
    assert ThreadInv(s, t);
  }

  // ---- verdicts --------------------------------------------------------------------------------

  /** A verdict never changes, the call stays as filed, a claim is never freed, a result never goes away. */
  lemma NothingIsUndone(cfg: Config, s: Sys, run: seq<Action>, end: Sys, id: string)
    requires Reachable(cfg, s) && Reaches(cfg, s, run, end) && id in s.store.entries
    ensures id in end.store.entries && EntryEvolves(s.store.entries[id], end.store.entries[id])
    ensures Decided(s.store, id) ==> end.store.entries[id].ticket.decision == s.store.entries[id].ticket.decision
  {
    ReachableIsGood(cfg, s);
    RunKeepsInv(cfg, s, run, end);
  }

  /** A ticket is decided exactly when one decide returned True for it, and only one ever does. */
  lemma ExactlyOneDecideWins(cfg: Config, s: Sys, id: string)
    requires Reachable(cfg, s)
    ensures Decided(s.store, id) <==> exists i :: 0 <= i < |s.verdicts| && s.verdicts[i].0 == id
    ensures forall i :: 0 <= i < |s.verdicts| && s.verdicts[i].0 == id ==>
              && s.store.entries[id].ticket.decision == s.verdicts[i].1
              && forall j :: 0 <= j < |s.verdicts| && s.verdicts[j].0 == id ==> j == i
  {
    ReachableIsGood(cfg, s);
    if Decided(s.store, id) {
      assert HasVerdict(s, id);
    }
    forall i | 0 <= i < |s.verdicts| && s.verdicts[i].0 == id
      ensures Verdict(s, id, s.verdicts[i].1)
      ensures forall j :: 0 <= j < |s.verdicts| && s.verdicts[j].0 == id ==> j == i
    {
      assert Verdict(s, s.verdicts[i].0, s.verdicts[i].1);
    }
  }

  /** However the timeout, the operator and the recheck race, the waiter acts on the stored verdict. */
  lemma WaiterActsOnTheStoredVerdict(cfg: Config, s: Sys, t: string)
    requires Reachable(cfg, s) && t in s.threads && s.threads[t].pc.Adopting?
    ensures Decided(s.store, s.threads[t].id)
    ensures s.store.entries[s.threads[t].id].ticket.decision == s.threads[t].pc.verdict
    ensures s.store.entries[s.threads[t].id].ticket.call.arguments == s.threads[t].pc.args
  {
    ReachableIsGood(cfg, s);
    assert ThreadInv(s, t);
  }

  /** A ticket still in the queue has neither a claim nor a result, so listing it hides nothing. */
  lemma PendingTicketsAreUntouched(cfg: Config, s: Sys, id: string)
    requires Reachable(cfg, s) && Decidable(s.store, id)
    ensures s.store.entries[id].claimedAt.None? && s.store.entries[id].ticket.result.None?
  {
    ReachableIsGood(cfg, s);
    assert TicketInv(s, id);
  }

  // ---- results ---------------------------------------------------------------------------------

  /** A ticket's stored results are at most an interruption followed by the executor's outcome, and
      whatever a caller was ever handed is one of them. */
  lemma StoredResults(cfg: Config, s: Sys)
    requires Reachable(cfg, s)
    ensures forall i, j :: 0 <= i < j < |s.writes| && s.writes[i].id == s.writes[j].id ==>
              s.writes[i].source.StaleClose? && s.writes[i].result == INTERRUPTED && s.writes[j].source.Executor?
    ensures forall t :: t in s.threads && s.threads[t].pc.Done? && s.threads[t].pc.outcome.Returned? ==>
              exists i :: 0 <= i < |s.writes| && s.writes[i].id == s.threads[t].id
                          && s.writes[i].result == s.threads[t].pc.outcome.result
  {
    ReachableIsGood(cfg, s);
    forall i, j | 0 <= i < j < |s.writes| && s.writes[i].id == s.writes[j].id
      ensures s.writes[i].result == INTERRUPTED
    {
      assert WriteOk(s, s.writes[i]);
    }
    forall t | t in s.threads && s.threads[t].pc.Done? && s.threads[t].pc.outcome.Returned?
      ensures exists i :: 0 <= i < |s.writes| && s.writes[i].id == s.threads[t].id
                          && s.writes[i].result == s.threads[t].pc.outcome.result
    {
      assert HandedStored(s, t);
    }
  }

  /** What a step stores on this ticket: an executor its outcome, a close of a stale claim the interruption. */
  function Written(cfg: Config, s: Sys, a: Action, id: string): Option<ToolResult>
    requires Enabled(s, a)
  {
    if !a.Go? || s.threads[a.t].id != id then None
    else
      match s.threads[a.t].pc
      case Completing(result, raises) => Some(result)
      case Closing => if Stale(s.store, id, cfg.lease, a.input.asOf) then Some(INTERRUPTED) else None
      case _ => None
  }

  lemma SameResultsKept(s: Sys, n: Sys, id: string)
    requires EntriesEvolve(s.store, n.store) && SameResults(s, n) && id in s.store.entries
    ensures id in n.store.entries
    ensures n.store.entries[id].ticket.result == s.store.entries[id].ticket.result
  {
    assert EntryEvolves(s.store.entries[id], n.store.entries[id]);
  }

  lemma WriterWrites(cfg: Config, s: Sys, t: string, o: Input, id: string)
    requires Ready(s, t, o) && (s.threads[t].pc.Completing? || s.threads[t].pc.Closing?) && id in s.store.entries
    ensures var n, w := Advance(cfg, s, t, o), Written(cfg, s, Go(t, o), id);
            && id in n.store.entries
            && n.store.entries[id].ticket.result == if w.Some? then w else s.store.entries[id].ticket.result
  {
  }

  lemma OthersWriteNothing(cfg: Config, s: Sys, a: Action, id: string)
    requires Enabled(s, a) && !(a.Go? && (s.threads[a.t].pc.Completing? || s.threads[a.t].pc.Closing?))
    ensures SameResults(s, Apply(cfg, s, a)) && Written(cfg, s, a, id).None?
  {
    if a.Go? {
      GoKeepsResults(cfg, s, a.t, a.input);
    }
  }

  /** A step changes a ticket's result by what it stores on it and in no other way. */
  lemma StepWrites(cfg: Config, s: Sys, a: Action, id: string)
    requires Inv(s) && Enabled(s, a) && id in s.store.entries
    ensures var n, w := Apply(cfg, s, a), Written(cfg, s, a, id);
            && id in n.store.entries
            && n.store.entries[id].ticket.result == if w.Some? then w else s.store.entries[id].ticket.result
  {
    if a.Go? && (s.threads[a.t].pc.Completing? || s.threads[a.t].pc.Closing?) {
      WriterWrites(cfg, s, a.t, a.input, id);
    } else {
      var n := Apply(cfg, s, a);
      assert EntriesEvolve(s.store, n.store) by { StepKeepsInv(cfg, s, a); }
      OthersWriteNothing(cfg, s, a, id);
      SameResultsKept(s, n, id);
    }
  }

  /** An executor is about to report, and what it reports is not the interruption. */
  predicate Reports(s: Sys, a: Action, id: string)
    requires Enabled(s, a)
  {
    a.Go? && s.threads[a.t].id == id && s.threads[a.t].pc.Completing? && s.threads[a.t].pc.result != INTERRUPTED
  }

  /** A stored result changes in a step if and only if the ticket's executor reports in it; what it replaces is
      then the interruption of a stale close. A first result is stored if and only if an executor reports or a
      stale claim is closed. */
  lemma ResultTransitions(cfg: Config, s: Sys, a: Action, id: string)
    requires Reachable(cfg, s) && Enabled(s, a) && id in s.store.entries
    ensures var n, w := Apply(cfg, s, a), Written(cfg, s, a, id);
            && id in n.store.entries
            && var before, after := s.store.entries[id].ticket.result, n.store.entries[id].ticket.result;
               && (before.Some? ==> (after != before <==> Reports(s, a, id)))
               && (before.Some? && after != before ==> before == Some(INTERRUPTED) && after == w)
               && (before.None? ==> after == w)
  {
    ReachableIsGood(cfg, s);
    StepWrites(cfg, s, a, id);
    var before, w := s.store.entries[id].ticket.result, Written(cfg, s, a, id);
    if before.Some? && w.Some? {
      var t := a.t;
      if s.threads[t].pc.Completing? {
        assert Owns(s, t) by { assert ThreadInv(s, t); }
        OverwrittenWasInterrupted(s, t, before.value);
      }
    }
  }

  lemma WriterMoved(cfg: Config, s: Sys, a: Action, t: string, w: Write)
    requires Enabled(s, a) && NewResult(cfg, s, Apply(cfg, s, a), t, w)
    ensures a.Go? && a.t == t
  {
    if a.Go? {
      if a.t != t {
        StepMovesOne(cfg, s, a, t);
      }
    }
  }

  lemma StepMovesOne(cfg: Config, s: Sys, a: Action, t: string)
    requires Enabled(s, a) && t in s.threads && !(a.Go? && a.t == t) && !(a.Crash? && a.t == t)
    ensures Apply(cfg, s, a).threads[t] == s.threads[t]
  {
    if a.Go? {
      assert OnlyMoves(s, Advance(cfg, s, a.t, a.input), a.t);
    }
  }

  lemma OverwrittenWasInterrupted(s: Sys, t: string, r: ToolResult)
    requires HistoryInv(s) && t in s.threads && s.threads[t].pc.Completing? && Owns(s, t)
    requires s.store.entries[s.threads[t].id].ticket.result == Some(r)
    ensures r == INTERRUPTED
  {
    assert Stored(s, s.threads[t].id, r);
    var i :| 0 <= i < |s.writes| && s.writes[i].id == s.threads[t].id && s.writes[i].result == r;
    assert WriteOk(s, s.writes[i]);
  }

  // ---- a result that appears was written -------------------------------------------------------

  /** A result of this ticket was stored after `s`. */
  ghost predicate WrittenSince(s: Sys, end: Sys, id: string) {
    exists i :: |s.writes| <= i < |end.writes| && end.writes[i].id == id
  }

  lemma AppearedIsWritten(s: Sys, end: Sys, id: string)
    requires HistoryInv(s) && HistoryInv(end) && s.writes <= end.writes
    requires id in s.store.entries && s.store.entries[id].ticket.result.None?
    requires id in end.store.entries && end.store.entries[id].ticket.result.Some?
    ensures WrittenSince(s, end, id)
  {
    assert Stored(end, id, end.store.entries[id].ticket.result.value);
    forall i | 0 <= i < |s.writes| ensures end.writes[i].id != id {
      assert s.writes[i] == end.writes[i];
      assert WriteOk(s, s.writes[i]);
    }
  }

  lemma NotWritten(before: Sys, s: Sys, id: string)
    requires HistoryInv(s) && id in s.store.entries && s.store.entries[id].ticket.result.None?
    ensures !WrittenSince(before, s, id)
  {
    forall i | |before.writes| <= i < |s.writes| ensures s.writes[i].id != id {
      assert WriteOk(s, s.writes[i]);
    }
  }

  // ---- runs from reachable states --------------------------------------------------------------

  lemma {:induction false} RunsCompose(cfg: Config, s: Sys, run: seq<Action>, mid: Sys, more: seq<Action>, end: Sys)
    requires Reaches(cfg, s, run, mid) && Reaches(cfg, mid, more, end)
    ensures Reaches(cfg, s, run + more, end)
    decreases |run|
  {
    if run == [] {
      assert run + more == more;
    } else {
      assert (run + more)[1..] == run[1..] + more;
      RunsCompose(cfg, Apply(cfg, s, run[0]), run[1..], mid, more, end);
    }
  }

  lemma StaysReachable(cfg: Config, s: Sys, run: seq<Action>, end: Sys)
    requires Reachable(cfg, s) && Reaches(cfg, s, run, end)
    ensures Reachable(cfg, end)
  {
    var before :| Reaches(cfg, INIT, before, s);
    RunsCompose(cfg, INIT, before, s, run, end);
  }

  lemma StepIsReachable(cfg: Config, s: Sys, a: Action)
    requires Reachable(cfg, s) && Enabled(s, a)
    ensures Reachable(cfg, Apply(cfg, s, a))
  {
    var before :| Reaches(cfg, INIT, before, s);
    RunAppend(cfg, INIT, before, s, a);
  }

  lemma LaterHistory(cfg: Config, s: Sys, run: seq<Action>, end: Sys)
    requires Reachable(cfg, s) && Reaches(cfg, s, run, end)
    ensures HistoryInv(s) && HistoryInv(end) && Forward(s, end)
  {
    ReachableIsGood(cfg, s);
    RunKeepsHistory(cfg, s, run, end);
  }
}
