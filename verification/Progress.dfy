/** Nothing stays stuck under any interference: a resume of a ticket whose executor died ends, in a bounded
    number of its own steps, with a result in hand. And what a slow executor does to a ticket so closed. */
module Progress {
  import opened Domain
  import opened TicketMachine
  import opened Protocol
  import opened Lifecycle
  import opened History
  import opened Safety
  import opened Lease

  /** Whenever `t` steps, its grant stands and the clock it reads is not older than `since`. */
  predicate OnTime(run: seq<Action>, t: string, since: real) {
    forall i :: 0 <= i < |run| && run[i].Go? && run[i].t == t ==> run[i].input.granted && run[i].input.asOf >= since
  }

  function OwnSteps(run: seq<Action>, t: string): nat {
    if run == [] then 0 else (if run[0].Go? && run[0].t == t then 1 else 0) + OwnSteps(run[1..], t)
  }

  /** Steps a resume of a claimed ticket still has to take, at most. */
  function Rank(pc: PC): nat {
    match pc
    case ResumeReading => 5
    case Granting(call, d) => 4
    case Claiming(args) => 3
    case LostReading => 2
    case Closing => 1
    case _ => 0
  }

  /** How such a resume may end: with a result, or giving way to one written since `start`, or with its process. */
  ghost predicate EndsWell(start: Sys, s: Sys, id: string, o: Outcome) {
    || o.Returned?
    || (o == Raised(PendingApproval(id)) && WrittenSince(start, s, id))
    || o == Crashed
  }

  ghost predicate OnTrack(start: Sys, s: Sys, t: string, id: string) {
    && t in s.threads && s.threads[t].id == id
    && match s.threads[t].pc
       case ResumeReading => true
       case Granting(call, d) => d.status == Status.Approved
       case Claiming(args) => true
       case LostReading => true
       case Closing => true
       case Done(o) => EndsWell(start, s, id, o)
       case _ => false
  }

  /** `start` has a claim of the ticket older than the lease and no result; `s` is a later state. */
  ghost predicate Abandoned(cfg: Config, start: Sys, s: Sys, id: string) {
    HistoryInv(start) && HistoryInv(s) && Forward(start, s) && Stale(start.store, id, cfg.lease, start.now)
  }

  lemma StillClaimed(cfg: Config, start: Sys, s: Sys, id: string)
    requires Abandoned(cfg, start, s, id)
    ensures id in s.store.entries && s.store.entries[id].claimedAt == start.store.entries[id].claimedAt
    ensures s.store.entries[id].ticket.decision.status == Status.Approved
    ensures WrittenSince(start, s, id) <==> s.store.entries[id].ticket.result.Some?
  {
    assert EntryEvolves(start.store.entries[id], s.store.entries[id]);
    assert TicketInv(s, id);
    WrittenIffAppeared(start, s, id);
  }

  // ---- the resume's own steps ------------------------------------------------------------------

  predicate Claimed(s: Sys, id: string) {
    && id in s.store.entries && s.store.entries[id].claimedAt.Some?
    && s.store.entries[id].ticket.decision.status == Status.Approved
  }

  lemma ReadingStep(start: Sys, s: Sys, t: string, id: string)
    requires Claimed(s, id) && t in s.threads && s.threads[t] == Thread(id, ResumeReading)
    ensures var n := ReadForResume(s, t); OnTrack(start, n, t, id) && Rank(n.threads[t].pc) < 5
  {
  }

  lemma GrantingStep(start: Sys, s: Sys, t: string, id: string, call: ToolCall, d: Decision)
    requires t in s.threads && s.threads[t] == Thread(id, Granting(call, d)) && d.status == Status.Approved
    ensures var n := ResolveGrant(s, t, call, d, true); OnTrack(start, n, t, id) && Rank(n.threads[t].pc) < 4
  {
  }

  lemma ClaimingStep(start: Sys, s: Sys, t: string, id: string, args: Args, asOf: real)
    requires Claimed(s, id) && t in s.threads && s.threads[t] == Thread(id, Claiming(args))
    ensures var n := TryClaim(s, t, args, asOf); OnTrack(start, n, t, id) && Rank(n.threads[t].pc) < 3
  {
  }

  lemma LosingStep(start: Sys, s: Sys, t: string, id: string)
    requires t in s.threads && s.threads[t] == Thread(id, LostReading)
    ensures var n := ReadAsLoser(s, t); OnTrack(start, n, t, id) && Rank(n.threads[t].pc) < 2
  {
  }

  lemma ClosingStep(cfg: Config, start: Sys, s: Sys, t: string, id: string, asOf: real)
    requires Claimed(s, id) && t in s.threads && s.threads[t] == Thread(id, Closing)
    requires asOf - s.store.entries[id].claimedAt.value >= cfg.lease
    requires s.store.entries[id].ticket.result.Some? ==> WrittenSince(start, s, id)
    ensures var n := TryClose(cfg, s, t, asOf); OnTrack(start, n, t, id) && Rank(n.threads[t].pc) < 1
  {
    TryCloseIs(cfg, s, t, asOf);
  }

  lemma OwnStep(cfg: Config, start: Sys, s: Sys, t: string, id: string, o: Input)
    requires OnTrack(start, s, t, id) && Ready(s, t, o) && o.granted && Claimed(s, id)
    requires o.asOf - s.store.entries[id].claimedAt.value >= cfg.lease
    requires s.store.entries[id].ticket.result.Some? ==> WrittenSince(start, s, id)
    ensures var n := Advance(cfg, s, t, o);
            OnTrack(start, n, t, id) && Rank(n.threads[t].pc) < Rank(s.threads[t].pc)
  {
    var pc := s.threads[t].pc;
    if pc.ResumeReading? {
      assert Advance(cfg, s, t, o) == ReadForResume(s, t);
      ReadingStep(start, s, t, id);
    } else if pc.Granting? {
      assert Advance(cfg, s, t, o) == ResolveGrant(s, t, pc.call, pc.verdict, true);
      GrantingStep(start, s, t, id, pc.call, pc.verdict);
    } else if pc.Claiming? {
      assert Advance(cfg, s, t, o) == TryClaim(s, t, pc.args, o.asOf);
      ClaimingStep(start, s, t, id, pc.args, o.asOf);
    } else if pc.LostReading? {
      assert Advance(cfg, s, t, o) == ReadAsLoser(s, t);
      LosingStep(start, s, t, id);
    } else {
      assert Advance(cfg, s, t, o) == TryClose(cfg, s, t, o.asOf);
      ClosingStep(cfg, start, s, t, id, o.asOf);
    }
  }

  // ---- over a run ------------------------------------------------------------------------------

  lemma OthersStep(cfg: Config, start: Sys, s: Sys, t: string, id: string, a: Action)
    requires OnTrack(start, s, t, id) && Enabled(s, a) && !(a.Go? && a.t == t)
    requires Forward(s, Apply(cfg, s, a))
    ensures var n := Apply(cfg, s, a);
            OnTrack(start, n, t, id) && Rank(n.threads[t].pc) <= Rank(s.threads[t].pc)
  {
    if a != Crash(t) {
      StepMovesOne(cfg, s, a, t);
    }
  }

  lemma StepStaysOnTrack(cfg: Config, start: Sys, s: Sys, t: string, id: string, a: Action)
    requires Abandoned(cfg, start, s, id) && OnTrack(start, s, t, id) && Enabled(s, a)
    requires a.Go? && a.t == t ==> a.input.granted && a.input.asOf >= start.now
    ensures var n := Apply(cfg, s, a);
            && Abandoned(cfg, start, n, id) && OnTrack(start, n, t, id)
            && Rank(n.threads[t].pc) + (if a.Go? && a.t == t then 1 else 0) <= Rank(s.threads[t].pc)
  {
    var n := Apply(cfg, s, a);
    StepKeepsHistory(cfg, s, a);
    ForwardTransitive(start, s, n);
    if a.Go? && a.t == t {
      StillClaimed(cfg, start, s, id);
      OwnStep(cfg, start, s, t, id, a.input);
    } else {
      OthersStep(cfg, start, s, t, id, a);
    }
  }

  lemma {:induction false} RunStaysOnTrack(cfg: Config, start: Sys, s: Sys, t: string, id: string, run: seq<Action>,
                                           end: Sys)
    requires Abandoned(cfg, start, s, id) && OnTrack(start, s, t, id)
    requires Reaches(cfg, s, run, end) && OnTime(run, t, start.now)
    ensures OnTrack(start, end, t, id) && OwnSteps(run, t) + Rank(end.threads[t].pc) <= Rank(s.threads[t].pc)
    decreases |run|
  {
    if run != [] {
      StepStaysOnTrack(cfg, start, s, t, id, run[0]);
      forall i | 0 <= i < |run[1..]| && run[1..][i].Go? && run[1..][i].t == t
        ensures run[1..][i].input.granted && run[1..][i].input.asOf >= start.now
      {
        assert run[1..][i] == run[i + 1];
      }
      RunStaysOnTrack(cfg, start, Apply(cfg, s, run[0]), t, id, run[1..], end);
    }
  }

  lemma StartsOnTrack(cfg: Config, s: Sys, t: string, id: string)
    requires Reachable(cfg, s) && t !in s.threads && Stale(s.store, id, cfg.lease, s.now)
    ensures var n := Apply(cfg, s, StartResume(t, id)); Abandoned(cfg, s, n, id) && OnTrack(s, n, t, id)
  {
    ReachableIsGood(cfg, s);
    StepKeepsHistory(cfg, s, StartResume(t, id));
  }

  /** From any reachable state in which a ticket's claim is older than the lease and it has no result, and in
      every run in which anything else happens meanwhile, a resume that is still granted and reads the clock
      takes at most five steps of its own, can always take the next one, and ends with a result, or reports
      the ticket pending only because another caller stored a result since it began. */
  lemma ResumeNeverSticks(cfg: Config, s: Sys, t: string, id: string, run: seq<Action>, end: Sys)
    requires Reachable(cfg, s) && t !in s.threads && Stale(s.store, id, cfg.lease, s.now)
    requires Reaches(cfg, Apply(cfg, s, StartResume(t, id)), run, end) && OnTime(run, t, s.now)
    ensures t in end.threads && OwnSteps(run, t) <= 5
    ensures if end.threads[t].pc.Done? then EndsWell(s, end, id, end.threads[t].pc.outcome)
            else OwnSteps(run, t) < 5 && Ready(end, t, Input(true, None, map[], Answer(INTERRUPTED), end.now, false))
  {
    StartsOnTrack(cfg, s, t, id);
    RunStaysOnTrack(cfg, s, Apply(cfg, s, StartResume(t, id)), t, id, run, end);
  }

  // ---- an executor slower than its lease -------------------------------------------------------

  /** Thread x holds its outcome and has not stored it, and its lease is over. */
  predicate Late(cfg: Config, s: Sys, x: string, id: string, r: ToolResult) {
    && x in s.threads && s.threads[x] == Thread(id, Completing(r, None))
    && Stale(s.store, id, cfg.lease, s.now)
  }

  predicate Holds(s: Sys, id: string, r: ToolResult) {
    id in s.store.entries && s.store.entries[id].ticket.result == Some(r)
  }

  /** A resume can close the ticket under a late executor; when that one reports, its outcome takes the place
      of the interruption. */
  lemma LateExecutorOverwrites(cfg: Config, s: Sys, x: string, t: string, id: string, r: ToolResult, o: Input)
    requires Reachable(cfg, s) && Late(cfg, s, x, id, r) && t !in s.threads
    ensures exists run, mid :: Reaches(cfg, s, run, mid) && Holds(mid, id, INTERRUPTED)
                               && Ready(mid, x, o) && Holds(Advance(cfg, mid, x, o), id, r)
  {
    ResumeUnsticks(cfg, s, t, id);
    var run, mid :| EndsInterrupted(cfg, s, t, id, run, mid) && |run| == 6;
    assert mid.threads[x] == s.threads[x];
    assert Ready(mid, x, o) && Advance(cfg, mid, x, o) == StoreResult(mid, x, r, None);
  }

  const APPROVAL := Decision(Status.Approved, "", "", None)

  /** What an executor of a call without arguments is fed: a grant, no failure, no secrets, this answer. */
  function Feed(r: ToolResult, now: real): Input {
    Input(true, None, map[], Answer(r), now, true)
  }

  /** The ticket of `call`, as thread "x" of a run stands at `pc`. */
  predicate RunStands(cfg: Config, run: seq<Action>, s: Sys, call: ToolCall, claimedAt: Option<real>, pc: PC) {
    && Reaches(cfg, INIT, run, s)
    && "k" in s.store.entries && s.store.entries["k"] == Entry(Ticket(call, APPROVAL, None), claimedAt)
    && "x" in s.threads && s.threads["x"] == Thread("k", pc) && "y" !in s.threads
  }

  lemma FilingIsReached(cfg: Config, call: ToolCall) returns (run: seq<Action>, s: Sys)
    ensures Reaches(cfg, INIT, run, s) && s.threads.Keys == {"f", "op"}
    ensures s.store.entries == map["k" := Entry(Ticket(call, PENDING, None), None)]
    ensures s.threads["op"] == Thread("k", OpReading(APPROVAL))
  {
    var file, decide := File("f", "k", call, false), StartDecide("op", "k", APPROVAL);
    var filed := Apply(cfg, INIT, file);
    assert Reaches(cfg, INIT, [], INIT);
    RunAppend(cfg, INIT, [], INIT, file);
    RunAppend(cfg, INIT, [] + [file], filed, decide);
    run, s := [] + [file] + [decide], Apply(cfg, filed, decide);
  }

  lemma ApprovalIsReached(cfg: Config, call: ToolCall) returns (run: seq<Action>, s: Sys)
    ensures Reaches(cfg, INIT, run, s) && s.threads.Keys == {"f", "op"}
    ensures s.store.entries == map["k" := Entry(Ticket(call, APPROVAL, None), None)]
  {
    run, s := FilingIsReached(cfg, call);
    var go := Go("op", Feed(INTERRUPTED, 0.0));
    var seen := ReadForVerdict(s, "op", APPROVAL);
    assert Apply(cfg, s, go) == seen;
    var decided := RecordVerdict(seen, "op", APPROVAL);
    assert Apply(cfg, seen, go) == decided;
    RunAppend(cfg, INIT, run, s, go);
    RunAppend(cfg, INIT, run + [go], seen, go);
    run, s := run + [go] + [go], decided;
  }

  lemma ResumeIsReached(cfg: Config, call: ToolCall) returns (run: seq<Action>, s: Sys)
    ensures RunStands(cfg, run, s, call, None, Granting(call, APPROVAL))
  {
    run, s := ApprovalIsReached(cfg, call);
    var start, go := StartResume("x", "k"), Go("x", Feed(INTERRUPTED, 0.0));
    var resuming := Apply(cfg, s, start);
    RunAppend(cfg, INIT, run, s, start);
    var seen := ReadForResume(resuming, "x");
    assert Apply(cfg, resuming, go) == seen;
    RunAppend(cfg, INIT, run + [start], resuming, go);
    run, s := run + [start] + [go], seen;
  }

  lemma ClaimIsReached(cfg: Config, call: ToolCall, r: ToolResult) returns (run: seq<Action>, s: Sys)
    requires call.arguments == map[]
    ensures RunStands(cfg, run, s, call, Some(s.now), Running(map[]))
  {
    run, s := ResumeIsReached(cfg, call);
    var go := Go("x", Feed(r, s.now));
    var granted := ResolveGrant(s, "x", call, APPROVAL, true);
    assert Apply(cfg, s, go) == granted;
    var claimed := TryClaim(granted, "x", map[], s.now);
    assert Apply(cfg, granted, go) == claimed;
    RunAppend(cfg, INIT, run, s, go);
    RunAppend(cfg, INIT, run + [go], granted, go);
    run, s := run + [go] + [go], claimed;
  }

  lemma DispatchIsReached(cfg: Config, call: ToolCall, r: ToolResult, run: seq<Action>, s: Sys)
    returns (longer: seq<Action>, end: Sys)
    requires RunStands(cfg, run, s, call, Some(s.now), Running(map[]))
    ensures RunStands(cfg, longer, end, call, Some(end.now), Completing(r, None)) && |end.trace| > 0
  {
    var go := Go("x", Feed(r, s.now));
    var n := RunSteps(s, "x", map[], None, map[]);
    assert Apply(cfg, s, go) == n;
    RunAppend(cfg, INIT, run, s, go);
    end := At(n, "x", Completing(r, None));
    assert Apply(cfg, n, go) == end;
    RunAppend(cfg, INIT, run + [go], n, go);
    longer := run + [go] + [go];
  }

  lemma LateIsReached(cfg: Config, call: ToolCall, r: ToolResult) returns (run: seq<Action>, s: Sys)
    requires call.arguments == map[]
    ensures Reaches(cfg, INIT, run, s) && Late(cfg, s, "x", "k", r) && "y" !in s.threads && |s.trace| > 0
  {
    var claiming, claimed := ClaimIsReached(cfg, call, r);
    run, s := DispatchIsReached(cfg, call, r, claiming, claimed);
    var wait := Tick(if cfg.lease > 0.0 then cfg.lease else 0.0);
    RunAppend(cfg, INIT, run, s, wait);
    run, s := run + [wait], Apply(cfg, s, wait);
  }

  /** Whatever the outcome, there is a run that dispatches a call, closes its ticket as interrupted and then
      stores the outcome over that: without timely executors a stored result is not final. */
  lemma ResultsCanBeOverwritten(cfg: Config, call: ToolCall, r: ToolResult)
    requires call.arguments == map[]
    ensures exists s, o :: Reachable(cfg, s) && Holds(s, "k", INTERRUPTED)
                           && Ready(s, "x", o) && Holds(Advance(cfg, s, "x", o), "k", r)
  {
    var run, late := LateIsReached(cfg, call, r);
    assert Reachable(cfg, late);
    LateExecutorOverwrites(cfg, late, "x", "y", "k", r, Feed(r, 0.0));
    var more, mid :| Reaches(cfg, late, more, mid) && Holds(mid, "k", INTERRUPTED)
                     && Ready(mid, "x", Feed(r, 0.0)) && Holds(Advance(cfg, mid, "x", Feed(r, 0.0)), "k", r);
    StaysReachable(cfg, late, more, mid);
  }
}
