/** What the records of a run say: who decided, and which results were ever stored. */
module History {
  import opened Domain
  import opened TicketMachine
  import opened Protocol
  import opened Lifecycle

  // ---- verdicts --------------------------------------------------------------------------------

  ghost predicate HasVerdict(s: Sys, id: string) {
    exists i :: 0 <= i < |s.verdicts| && s.verdicts[i].0 == id
  }

  /** The successful decides are exactly the verdicts the tickets hold, one per decided ticket. */
  ghost predicate VerdictsInv(s: Sys) {
    && (forall i :: 0 <= i < |s.verdicts| ==> Verdict(s, s.verdicts[i].0, s.verdicts[i].1))
    && (forall i, j :: 0 <= i < j < |s.verdicts| ==> s.verdicts[i].0 != s.verdicts[j].0)
    && (forall id :: Decided(s.store, id) ==> HasVerdict(s, id))
  }

  ghost predicate SameVerdicts(s: Sys, n: Sys) {
    n.verdicts == s.verdicts && forall id :: Decided(n.store, id) ==> Decided(s.store, id)
  }

  ghost predicate NewVerdict(s: Sys, n: Sys, id: string, d: Decision) {
    && n.verdicts == s.verdicts + [(id, d)] && Decidable(s.store, id) && Verdict(n, id, d)
    && forall x :: x != id && Decided(n.store, x) ==> Decided(s.store, x)
  }

  ghost predicate VerdictEffect(s: Sys, n: Sys) {
    SameVerdicts(s, n) || exists id, d :: NewVerdict(s, n, id, d)
  }

  lemma Recorded(s: Sys, t: string, id: string, d: Decision, pc: PC)
    requires t in s.threads && Decidable(s.store, id) && d.status != Pending
    ensures VerdictEffect(s, At(Record(s, id, d), t, pc))
  {
    assert NewVerdict(s, At(Record(s, id, d), t, pc), id, d);
  }

  lemma StepVerdicts(cfg: Config, s: Sys, a: Action)
    requires Inv(s) && Enabled(s, a)
    ensures VerdictEffect(s, Apply(cfg, s, a))
  {
    var n := Apply(cfg, s, a);
    if !a.Go? {
      assert SameVerdicts(s, n);
    } else if s.threads[a.t].pc.TimingOut? || s.threads[a.t].pc.OpDeciding? {
      DeciderVerdicts(cfg, s, a.t, a.input);
    } else {
      GoKeepsVerdicts(cfg, s, a.t, a.input);
    }
  }

  lemma DeciderVerdicts(cfg: Config, s: Sys, t: string, o: Input)
    requires Ready(s, t, o) && ThreadInv(s, t) && (s.threads[t].pc.TimingOut? || s.threads[t].pc.OpDeciding?)
    ensures VerdictEffect(s, Advance(cfg, s, t, o))
  {
    var n, id, d := Advance(cfg, s, t, o), s.threads[t].id, s.threads[t].pc.verdict;
    if Decidable(s.store, id) {
      Recorded(s, t, id, d, n.threads[t].pc);
    } else {
      assert SameVerdicts(s, n);
    }
  }

  lemma GoKeepsVerdicts(cfg: Config, s: Sys, t: string, o: Input)
    requires Ready(s, t, o) && !s.threads[t].pc.TimingOut? && !s.threads[t].pc.OpDeciding?
    ensures SameVerdicts(s, Advance(cfg, s, t, o))
  {
  }

  lemma VerdictsKept(s: Sys, n: Sys)
    requires VerdictsInv(s) && Forward(s, n) && VerdictEffect(s, n)
    ensures VerdictsInv(n)
  {
    forall i | 0 <= i < |n.verdicts| ensures Verdict(n, n.verdicts[i].0, n.verdicts[i].1) {
      if i < |s.verdicts| {
        assert Verdict(s, s.verdicts[i].0, s.verdicts[i].1);
      }
    }
    forall id | Decided(n.store, id) ensures HasVerdict(n, id) {
      if Decided(s.store, id) {
        var i :| 0 <= i < |s.verdicts| && s.verdicts[i].0 == id;
        assert n.verdicts[i].0 == id;
      } else {
        assert n.verdicts[|s.verdicts|].0 == id;
      }
    }
    forall i, j | 0 <= i < j < |n.verdicts| ensures n.verdicts[i].0 != n.verdicts[j].0 {
      assert Verdict(s, s.verdicts[i].0, s.verdicts[i].1);
    }
  }

  // ---- results ---------------------------------------------------------------------------------

  ghost predicate Stored(s: Sys, id: string, r: ToolResult) {
    exists i :: 0 <= i < |s.writes| && s.writes[i].id == id && s.writes[i].result == r
  }

  ghost predicate WriteOk(s: Sys, w: Write) {
    && w.id in s.store.entries && s.store.entries[w.id].ticket.result.Some?
    && (w.source.StaleClose? ==> w.result == INTERRUPTED)
    && (w.source.Executor? ==> w.id in s.owner && s.owner[w.id] in s.threads && s.threads[s.owner[w.id]].pc.Done?
                               && s.store.entries[w.id].ticket.result == Some(w.result))
  }

  /** A result is stored by the executor at most once and by a stale close at most once, and a close
      never comes after the executor. Whatever a caller was handed had been stored. */
  ghost predicate WritesInv(s: Sys) {
    && (forall i :: 0 <= i < |s.writes| ==> WriteOk(s, s.writes[i]))
    && (forall i, j :: 0 <= i < j < |s.writes| && s.writes[i].id == s.writes[j].id ==>
          s.writes[i].source.StaleClose? && s.writes[j].source.Executor?)
    && (forall id :: id in s.store.entries && s.store.entries[id].ticket.result.Some? ==>
          Stored(s, id, s.store.entries[id].ticket.result.value))
    && (forall t :: t in s.threads ==> HandedStored(s, t))
  }

  ghost predicate HandedStored(s: Sys, t: string)
    requires t in s.threads
  {
    s.threads[t].pc.Done? && s.threads[t].pc.outcome.Returned? ==>
      Stored(s, s.threads[t].id, s.threads[t].pc.outcome.result)
  }

  ghost predicate SameResults(s: Sys, n: Sys) {
    && n.writes == s.writes
    && (forall id :: id in n.store.entries && n.store.entries[id].ticket.result.Some? ==>
          id in s.store.entries && n.store.entries[id].ticket.result == s.store.entries[id].ticket.result)
  }

  ghost predicate NewResult(cfg: Config, s: Sys, n: Sys, t: string, w: Write) {
    && n.writes == s.writes + [w] && t in s.threads && t in n.threads && w.id == s.threads[t].id
    && OnlyMoves(s, n, t) && !s.threads[t].pc.Done? && n.threads[t].pc.Done?
    && n.owner == s.owner && n.store == Complete(s.store, w.id, w.result) && w.id in s.store.entries
    && (w.source.Executor? ==> s.threads[t].pc.Completing? && Owns(s, t))
    && (w.source.StaleClose? ==> w.result == INTERRUPTED && Stale(s.store, w.id, cfg.lease, s.now))
  }

  ghost predicate ResultEffect(cfg: Config, s: Sys, n: Sys) {
    SameResults(s, n) || exists t, w :: NewResult(cfg, s, n, t, w)
  }

  /** A thread is handed a result only by reading it off the ticket or by storing it. */
  ghost predicate Handed(s: Sys, n: Sys, t: string)
    requires t in n.threads
  {
    n.threads[t].pc.Done? && n.threads[t].pc.outcome.Returned? ==>
      || (t in s.threads && s.threads[t] == n.threads[t])
      || (n.threads[t].id in n.store.entries
          && n.store.entries[n.threads[t].id].ticket.result == Some(n.threads[t].pc.outcome.result))
  }

  lemma StepResults(cfg: Config, s: Sys, a: Action)
    requires Inv(s) && Enabled(s, a)
    ensures ResultEffect(cfg, s, Apply(cfg, s, a))
  {
    var n := Apply(cfg, s, a);
    if !a.Go? {
      assert SameResults(s, n);
    } else if s.threads[a.t].pc.Completing? || s.threads[a.t].pc.Closing? {
      WriterResults(cfg, s, a.t, a.input);
    } else {
      GoKeepsResults(cfg, s, a.t, a.input);
    }
  }

  lemma WriterResults(cfg: Config, s: Sys, t: string, o: Input)
    requires Ready(s, t, o) && ThreadInv(s, t) && (s.threads[t].pc.Completing? || s.threads[t].pc.Closing?)
    ensures ResultEffect(cfg, s, Advance(cfg, s, t, o))
  {
    var n, id := Advance(cfg, s, t, o), s.threads[t].id;
    if s.threads[t].pc.Completing? {
      assert NewResult(cfg, s, n, t, Write(id, Executor, s.threads[t].pc.result));
    } else if Stale(s.store, id, cfg.lease, o.asOf) {
      assert NewResult(cfg, s, n, t, Write(id, StaleClose, INTERRUPTED));
    } else {
      assert SameResults(s, n);
    }
  }

  lemma GoKeepsResults(cfg: Config, s: Sys, t: string, o: Input)
    requires Ready(s, t, o) && !s.threads[t].pc.Completing? && !s.threads[t].pc.Closing?
    ensures SameResults(s, Advance(cfg, s, t, o))
  {
  }

  lemma ReaderHands(s: Sys, t: string)
    requires Live(s, t) && (s.threads[t].pc.ResumeReading? || s.threads[t].pc.LostReading?)
    ensures s.threads[t].pc.ResumeReading? ==> Handed(s, ReadForResume(s, t), t)
    ensures s.threads[t].pc.LostReading? ==> Handed(s, ReadAsLoser(s, t), t)
  {
  }

  lemma WriterHands(cfg: Config, s: Sys, t: string, o: Input)
    requires Ready(s, t, o) && ThreadInv(s, t) && (s.threads[t].pc.Completing? || s.threads[t].pc.Closing?)
    ensures Handed(s, Advance(cfg, s, t, o), t)
  {
  }

  predicate HandsNothing(pc: PC) {
    pc.Done? ==> !pc.outcome.Returned?
  }

  lemma GateHandsNothing(cfg: Config, s: Sys, t: string, o: Input)
    requires Ready(s, t, o) && InGate(s.threads[t].pc)
    ensures HandsNothing(Advance(cfg, s, t, o).threads[t].pc)
  {
  }

  lemma NobodyElseHands(cfg: Config, s: Sys, t: string, o: Input)
    requires Ready(s, t, o) && !InGate(s.threads[t].pc)
    requires var pc := s.threads[t].pc; !pc.Completing? && !pc.Closing? && !pc.ResumeReading? && !pc.LostReading?
    ensures HandsNothing(Advance(cfg, s, t, o).threads[t].pc)
  {
  }

  lemma StepHands(cfg: Config, s: Sys, a: Action, t: string)
    requires Inv(s) && Enabled(s, a) && t in Apply(cfg, s, a).threads
    ensures Handed(s, Apply(cfg, s, a), t)
  {
    if a.Go? && a.t == t {
      var pc := s.threads[t].pc;
      if pc.Completing? || pc.Closing? {
        WriterHands(cfg, s, t, a.input);
      } else if pc.ResumeReading? || pc.LostReading? {
        ReaderHands(s, t);
      } else if InGate(pc) {
        GateHandsNothing(cfg, s, t, a.input);
      } else {
        NobodyElseHands(cfg, s, t, a.input);
      }
    }
  }

  lemma {:induction false} StoredStays(s: Sys, n: Sys, id: string, r: ToolResult)
    requires Stored(s, id, r) && s.writes <= n.writes
    ensures Stored(n, id, r)
  {
    var i :| 0 <= i < |s.writes| && s.writes[i].id == id && s.writes[i].result == r;
    assert n.writes[i] == s.writes[i];
  }

  lemma WriteOkKept(s: Sys, n: Sys, w: Write)
    requires WriteOk(s, w) && Forward(s, n)
    requires w.source.Executor? ==> n.threads[s.owner[w.id]].pc.Done?
                                    && n.store.entries[w.id].ticket.result == s.store.entries[w.id].ticket.result
    ensures WriteOk(n, w)
  {
  }

  lemma ResultsKept(s: Sys, n: Sys)
    requires WritesInv(s) && Forward(s, n) && SameResults(s, n)
    requires forall t :: t in n.threads ==> Handed(s, n, t)
    requires forall t :: t in s.threads && s.threads[t].pc.Done? ==> n.threads[t] == s.threads[t]
    ensures WritesInv(n)
  {
    forall i | 0 <= i < |n.writes| ensures WriteOk(n, n.writes[i]) {
      assert WriteOk(s, s.writes[i]);
      WriteOkKept(s, n, s.writes[i]);
    }
    forall id | id in n.store.entries && n.store.entries[id].ticket.result.Some?
      ensures Stored(n, id, n.store.entries[id].ticket.result.value)
    {
      StoredStays(s, n, id, n.store.entries[id].ticket.result.value);
    }
    HandedKept(s, n);
  }

  lemma HandedKept(s: Sys, n: Sys)
    requires Forward(s, n)
    requires forall id :: id in n.store.entries && n.store.entries[id].ticket.result.Some? ==>
               Stored(n, id, n.store.entries[id].ticket.result.value)
    requires forall t :: t in s.threads ==> HandedStored(s, t)
    requires forall t :: t in n.threads ==> Handed(s, n, t)
    ensures forall t :: t in n.threads ==> HandedStored(n, t)
  {
    forall t | t in n.threads ensures HandedStored(n, t) {
      if n.threads[t].pc.Done? && n.threads[t].pc.outcome.Returned? {
        var id, r := n.threads[t].id, n.threads[t].pc.outcome.result;
        assert Handed(s, n, t);
        if !Stored(n, id, r) {
          if t in s.threads {
            assert HandedStored(s, t);
          }
          StoredStays(s, n, id, r);
        }
      }
    }
  }

  lemma NewWriteOk(cfg: Config, s: Sys, n: Sys, t: string, w: Write)
    requires WritesInv(s) && Forward(s, n) && NewResult(cfg, s, n, t, w)
    ensures forall i :: 0 <= i < |n.writes| ==> WriteOk(n, n.writes[i])
    ensures forall i :: 0 <= i < |s.writes| && s.writes[i].id == w.id ==>
              s.writes[i].source.StaleClose? && w.source.Executor?
  {
    forall i | 0 <= i < |n.writes| ensures WriteOk(n, n.writes[i]) {
      if i < |s.writes| {
        assert WriteOk(s, s.writes[i]);
        WriteOkKept(s, n, s.writes[i]);
      }
    }
    forall i | 0 <= i < |s.writes| && s.writes[i].id == w.id
      ensures s.writes[i].source.StaleClose? && w.source.Executor?
    {
      assert WriteOk(s, s.writes[i]);
    }
  }

  lemma NewResultKept(cfg: Config, s: Sys, n: Sys, t: string, w: Write)
    requires WritesInv(s) && Forward(s, n) && NewResult(cfg, s, n, t, w)
    requires forall u :: u in n.threads ==> Handed(s, n, u)
    ensures WritesInv(n)
  {
    NewWriteOk(cfg, s, n, t, w);
    forall id | id in n.store.entries && n.store.entries[id].ticket.result.Some?
      ensures Stored(n, id, n.store.entries[id].ticket.result.value)
    {
      if id == w.id {
        assert n.writes[|s.writes|] == w;
      } else {
        StoredStays(s, n, id, n.store.entries[id].ticket.result.value);
      }
    }
    HandedKept(s, n);
  }

  // ---- over a run ------------------------------------------------------------------------------

  ghost predicate HistoryInv(s: Sys) {
    Inv(s) && VerdictsInv(s) && WritesInv(s)
  }

  lemma DoneStays(cfg: Config, s: Sys, a: Action, t: string)
    requires Enabled(s, a) && t in s.threads && s.threads[t].pc.Done?
    ensures var n := Apply(cfg, s, a); t in n.threads && n.threads[t] == s.threads[t]
  {
    if a.Go? {
      assert OnlyMoves(s, Advance(cfg, s, a.t, a.input), a.t);
    }
  }

  lemma StepKeepsHistory(cfg: Config, s: Sys, a: Action)
    requires HistoryInv(s) && Enabled(s, a)
    ensures HistoryInv(Apply(cfg, s, a)) && Forward(s, Apply(cfg, s, a))
  {
    var n := Apply(cfg, s, a);
    StepKeepsInv(cfg, s, a);
    assert VerdictsInv(n) by { StepVerdicts(cfg, s, a); VerdictsKept(s, n); }
    assert WritesInv(n) by { StepKeepsWrites(cfg, s, a); }
  }

  lemma StepIsFair(cfg: Config, s: Sys, a: Action)
    requires Inv(s) && Enabled(s, a)
    ensures forall t :: t in Apply(cfg, s, a).threads ==> Handed(s, Apply(cfg, s, a), t)
    ensures var n := Apply(cfg, s, a);
            forall t :: t in s.threads && s.threads[t].pc.Done? ==> t in n.threads && n.threads[t] == s.threads[t]
  {
    var n := Apply(cfg, s, a);
    forall t | t in n.threads ensures Handed(s, n, t) { StepHands(cfg, s, a, t); }
    forall t | t in s.threads && s.threads[t].pc.Done?
      ensures t in n.threads && n.threads[t] == s.threads[t]
    {
      DoneStays(cfg, s, a, t);
    }
  }

  lemma StepKeepsWrites(cfg: Config, s: Sys, a: Action)
    requires Inv(s) && WritesInv(s) && Enabled(s, a) && Forward(s, Apply(cfg, s, a))
    ensures WritesInv(Apply(cfg, s, a))
  {
    var n := Apply(cfg, s, a);
    StepIsFair(cfg, s, a);
    StepResults(cfg, s, a);
    if SameResults(s, n) {
      ResultsKept(s, n);
    } else {
      var t, w :| NewResult(cfg, s, n, t, w);
      NewResultKept(cfg, s, n, t, w);
    }
  }

  lemma {:induction false} RunKeepsHistory(cfg: Config, s: Sys, run: seq<Action>, end: Sys)
    requires HistoryInv(s) && Reaches(cfg, s, run, end)
    ensures HistoryInv(end) && Forward(s, end)
    decreases |run|
  {
    if run == [] {
      EntriesStay(s.store);
    } else {
      var n := Apply(cfg, s, run[0]);
      StepKeepsHistory(cfg, s, run[0]);
      RunKeepsHistory(cfg, n, run[1..], end);
      ForwardTransitive(s, n, end);
    }
  }

  lemma InitHistory()
    ensures HistoryInv(INIT)
  {
  }
}
