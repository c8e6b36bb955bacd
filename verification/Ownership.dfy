/** Who owns a ticket's execution: the thread that won its claim, for good. */
module Ownership {
  import opened Domain
  import opened TicketMachine
  import opened Protocol
  import opened Lifecycle
  import opened History
  import opened Safety

  predicate PastClaim(pc: PC) {
    pc.Running? || pc.Awaiting? || pc.Completing? || pc.Done?
  }

  predicate OwnerOk(s: Sys, id: string)
    requires id in s.owner
  {
    s.owner[id] in s.threads && s.threads[s.owner[id]].id == id && PastClaim(s.threads[s.owner[id]].pc)
  }

  ghost predicate OwnersInv(s: Sys) {
    forall id :: id in s.owner ==> OwnerOk(s, id)
  }

  lemma PastStaysPast(cfg: Config, s: Sys, t: string, o: Input)
    requires Ready(s, t, o) && PastClaim(s.threads[t].pc)
    ensures PastClaim(Advance(cfg, s, t, o).threads[t].pc) && Advance(cfg, s, t, o).owner == s.owner
  {
  }

  lemma GateOwnsNothingNew(cfg: Config, s: Sys, t: string, o: Input)
    requires Ready(s, t, o) && InGate(s.threads[t].pc)
    ensures Advance(cfg, s, t, o).owner == s.owner
  {
  }

  lemma OthersOwnNothingNew(cfg: Config, s: Sys, t: string, o: Input)
    requires Ready(s, t, o) && !s.threads[t].pc.Claiming?
    ensures Advance(cfg, s, t, o).owner == s.owner
  {
    if InGate(s.threads[t].pc) {
      GateOwnsNothingNew(cfg, s, t, o);
    }
  }

  lemma StepKeepsOwner(cfg: Config, s: Sys, a: Action, id: string)
    requires Enabled(s, a) && id in s.owner && OwnerOk(s, id)
    requires id in Apply(cfg, s, a).owner && Apply(cfg, s, a).owner[id] == s.owner[id]
    ensures OwnerOk(Apply(cfg, s, a), id)
  {
    var t := s.owner[id];
    if a.Go? && a.t == t {
      PastStaysPast(cfg, s, t, a.input);
      assert OnlyMoves(s, Advance(cfg, s, t, a.input), t);
    } else if a != Crash(t) {
      StepMovesOne(cfg, s, a, t);
    }
  }

  lemma NewOwner(cfg: Config, s: Sys, a: Action, id: string)
    requires Enabled(s, a) && id !in s.owner && id in Apply(cfg, s, a).owner
    ensures OwnerOk(Apply(cfg, s, a), id)
  {
    if a.Go? {
      if !s.threads[a.t].pc.Claiming? {
        OthersOwnNothingNew(cfg, s, a.t, a.input);
      }
    }
  }

  lemma StepKeepsOwners(cfg: Config, s: Sys, a: Action)
    requires Inv(s) && OwnersInv(s) && Enabled(s, a)
    ensures OwnersInv(Apply(cfg, s, a))
  {
    assert Forward(s, Apply(cfg, s, a)) by { StepKeepsInv(cfg, s, a); }
    forall id | id in Apply(cfg, s, a).owner ensures OwnerOk(Apply(cfg, s, a), id) {
      if id in s.owner {
        StepKeepsOwner(cfg, s, a, id);
      } else {
        NewOwner(cfg, s, a, id);
      }
    }
  }

  lemma {:induction false} RunKeepsOwners(cfg: Config, s: Sys, run: seq<Action>, end: Sys)
    requires Inv(s) && OwnersInv(s) && Reaches(cfg, s, run, end)
    ensures OwnersInv(end)
    decreases |run|
  {
    if run != [] {
      StepKeepsInv(cfg, s, run[0]);
      StepKeepsOwners(cfg, s, run[0]);
      RunKeepsOwners(cfg, Apply(cfg, s, run[0]), run[1..], end);
    }
  }

  /** A thread that has not come past its claim owns nothing; one that lost it finds another owner. */
  lemma LosersOwnNothing(cfg: Config, s: Sys, t: string)
    requires Reachable(cfg, s) && t in s.threads && !PastClaim(s.threads[t].pc)
    ensures forall id :: id in s.owner ==> s.owner[id] != t
    ensures s.threads[t].pc.LostReading? || s.threads[t].pc.Closing? ==> s.threads[t].id in s.owner
  {
    var run :| Reaches(cfg, INIT, run, s);
    InitInv();
    RunKeepsInv(cfg, INIT, run, s);
    RunKeepsOwners(cfg, INIT, run, s);
    assert ThreadInv(s, t);
    forall id | id in s.owner ensures s.owner[id] != t {
      assert OwnerOk(s, id);
    }
  }
}
