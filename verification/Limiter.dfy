/** The in-process rate limiter: a budget per agent in each clock minute. */
module Limiter {

  /** Calls admitted or refused so far in the current minute, per agent. */
  datatype Window = Window(minute: int, counts: map<string, nat>)

  const FRESH := Window(-1, map[])

  datatype Attempt = Attempt(agent: string, at: real)

  function Minute(at: real): int {
    (at / 60.0).Floor
  }

  function Count(w: Window, agent: string): nat {
    if agent in w.counts then w.counts[agent] else 0
  }

  /** The window once this attempt is counted. */
  function Note(w: Window, a: Attempt): Window {
    var minute := Minute(a.at);
    var current := if minute != w.minute then Window(minute, map[]) else w;
    current.(counts := current.counts[a.agent := Count(current, a.agent) + 1])
  }

  /** The window after a whole trace of attempts, earliest first. */
  function After(trace: seq<Attempt>): Window {
    if trace == [] then FRESH else Note(After(trace[..|trace| - 1]), trace[|trace| - 1])
  }

  /** Whether the limiter lets the i-th attempt through. */
  predicate Admitted(limit: int, trace: seq<Attempt>, i: nat)
    requires i < |trace|
  {
    limit <= 0 || Count(After(trace[..i + 1]), trace[i].agent) <= limit
  }

  class WindowRateLimiter {
    const limit: int
    var window: int
    var counts: map<string, nat>
    ghost var trace: seq<Attempt>  // every attempt it was asked about

    ghost predicate Valid()
      reads this
    {
      limit > 0 ==> Window(window, counts) == After(trace)
    }

    constructor (callsPerMinute: int)
      ensures Valid() && limit == callsPerMinute && trace == []
    {
      limit, window, counts, trace := callsPerMinute, -1, map[], [];
    }

    /** With a clock that does not run backwards, the attempt is admitted exactly when fewer than
        `limit` attempts of this agent came before it in this minute. */
    method AdmitCall(agent: string, now: real) returns (ok: bool)
      requires Valid()
      modifies this
      ensures Valid()
      ensures trace == old(trace) + [Attempt(agent, now)]
      ensures ok == Admitted(limit, trace, |old(trace)|)
      ensures limit <= 0 ==> ok
      ensures limit > 0 && NonDecreasing(trace) ==> (ok <==> Attempts(old(trace), agent, Minute(now)) < limit)
    {
      ghost var before := trace;
      trace := trace + [Attempt(agent, now)];
      assert trace[..|before| + 1] == trace && trace[..|trace| - 1] == before;
      if limit > 0 && NonDecreasing(trace) {
        AdmittedIffFewBefore(limit, trace, |before|);
      }
      if limit <= 0 {
        return true;
      }
      var minute := Minute(now);
      if minute != window {
        window, counts := minute, map[];
      }
      counts := counts[agent := (if agent in counts then counts[agent] else 0) + 1];
      return counts[agent] <= limit;
    }
  }

  // ---- what the trace says ---------------------------------------------------------------------

  predicate NonDecreasing(trace: seq<Attempt>) {
    forall i, j :: 0 <= i < j < |trace| ==> trace[i].at <= trace[j].at
  }

  /** Attempts of an agent in a clock minute. */
  function Attempts(trace: seq<Attempt>, agent: string, minute: int): nat {
    if trace == [] then 0
    else
      var last := trace[|trace| - 1];
      Attempts(trace[..|trace| - 1], agent, minute) + (if last.agent == agent && Minute(last.at) == minute then 1 else 0)
  }

  /** How many of the first `n` attempts, an agent's in a clock minute, were admitted. */
  function Admissions(limit: int, trace: seq<Attempt>, n: nat, agent: string, minute: int): nat
    requires n <= |trace|
  {
    if n == 0 then 0
    else
      var i := n - 1;
      Admissions(limit, trace, i, agent, minute)
      + (if trace[i].agent == agent && Minute(trace[i].at) == minute && Admitted(limit, trace, i) then 1 else 0)
  }

  lemma MinuteIsMonotone(a: real, b: real)
    requires a <= b
    ensures Minute(a) <= Minute(b)
  {
  }

  lemma {:induction false} NoneInLaterMinute(trace: seq<Attempt>, agent: string, minute: int)
    requires forall i :: 0 <= i < |trace| ==> Minute(trace[i].at) < minute
    ensures Attempts(trace, agent, minute) == 0
  {
    if trace != [] {
      NoneInLaterMinute(trace[..|trace| - 1], agent, minute);
    }
  }

  /** The window counts the attempts of its minute, agent by agent. */
  lemma {:induction false} WindowCounts(trace: seq<Attempt>, agent: string)
    requires NonDecreasing(trace)
    ensures trace != [] ==> After(trace).minute == Minute(trace[|trace| - 1].at)
    ensures Count(After(trace), agent) == Attempts(trace, agent, After(trace).minute)
  {
    if trace != [] {
      var before, last := trace[..|trace| - 1], trace[|trace| - 1];
      WindowCounts(before, agent);
      WindowCounts(before, last.agent);
      if Minute(last.at) != After(before).minute {
        forall i | 0 <= i < |before| ensures Minute(before[i].at) < Minute(last.at) {
          MinuteIsMonotone(before[i].at, before[|before| - 1].at);
          MinuteIsMonotone(before[|before| - 1].at, last.at);
        }
        NoneInLaterMinute(before, agent, Minute(last.at));
      }
    }
  }

  /** An attempt is admitted exactly when fewer than `limit` of the agent's came before it in its minute. */
  lemma AdmittedIffFewBefore(limit: int, trace: seq<Attempt>, i: nat)
    requires limit > 0 && NonDecreasing(trace) && i < |trace|
    ensures Admitted(limit, trace, i) <==> Attempts(trace[..i], trace[i].agent, Minute(trace[i].at)) < limit
  {
    WindowCounts(trace[..i + 1], trace[i].agent);
    assert trace[..i + 1][..i] == trace[..i];
  }

  /** Exactly min(attempts, limit) calls of an agent get through in a clock minute. */
  lemma {:induction false} BudgetPerMinute(limit: int, trace: seq<Attempt>, n: nat, agent: string, minute: int)
    requires limit > 0 && NonDecreasing(trace) && n <= |trace|
    ensures var asked := Attempts(trace[..n], agent, minute);
            Admissions(limit, trace, n, agent, minute) == if asked <= limit then asked else limit
  {
    if n > 0 {
      BudgetPerMinute(limit, trace, n - 1, agent, minute);
      AdmittedIffFewBefore(limit, trace, n - 1);
      assert trace[..n][..n - 1] == trace[..n - 1];
    }
  }

  // ---- any sixty seconds -----------------------------------------------------------------------

  /** Admitted calls of an agent among the first `n` attempts, in the half-open minute from `start`. */
  function AdmittedFrom(limit: int, trace: seq<Attempt>, n: nat, agent: string, start: real): nat
    requires n <= |trace|
  {
    if n == 0 then 0
    else
      var i := n - 1;
      AdmittedFrom(limit, trace, i, agent, start)
      + (if trace[i].agent == agent && start <= trace[i].at < start + 60.0 && Admitted(limit, trace, i) then 1 else 0)
  }

  lemma SixtySecondsTouchTwoMinutes(start: real, at: real)
    requires start <= at < start + 60.0
    ensures Minute(at) == Minute(start) || Minute(at) == Minute(start) + 1
  {
    assert (start + 60.0) / 60.0 == start / 60.0 + 1.0;
  }

  lemma {:induction false} FromIsWithinTwoMinutes(limit: int, trace: seq<Attempt>, n: nat, agent: string, start: real)
    requires n <= |trace|
    ensures AdmittedFrom(limit, trace, n, agent, start)
            <= Admissions(limit, trace, n, agent, Minute(start)) + Admissions(limit, trace, n, agent, Minute(start) + 1)
  {
    if n > 0 {
      FromIsWithinTwoMinutes(limit, trace, n - 1, agent, start);
      if start <= trace[n - 1].at < start + 60.0 {
        SixtySecondsTouchTwoMinutes(start, trace[n - 1].at);
      }
    }
  }

  /** A fixed window lets an agent burst across a minute's edge, but never past twice its budget. */
  lemma AtMostTwiceTheBudget(limit: int, trace: seq<Attempt>, agent: string, start: real)
    requires limit > 0 && NonDecreasing(trace)
    ensures AdmittedFrom(limit, trace, |trace|, agent, start) <= 2 * limit
  {
    FromIsWithinTwoMinutes(limit, trace, |trace|, agent, start);
    BudgetPerMinute(limit, trace, |trace|, agent, Minute(start));
    BudgetPerMinute(limit, trace, |trace|, agent, Minute(start) + 1);
  }

  /** And the bound is met: one call before the minute's edge, one after, on a budget of one. */
  lemma TwiceIsReached(agent: string)
    ensures var trace := [Attempt(agent, 59.0), Attempt(agent, 60.0)];
            NonDecreasing(trace) && AdmittedFrom(1, trace, 2, agent, 59.0) == 2
  {
    var trace := [Attempt(agent, 59.0), Attempt(agent, 60.0)];
    assert Minute(59.0) == 0 && Minute(60.0) == 1;
    assert trace[..1] == [Attempt(agent, 59.0)] && trace[..0] == [];
    AdmittedIffFewBefore(1, trace, 0);
    AdmittedIffFewBefore(1, trace, 1);
    assert AdmittedFrom(1, trace, 1, agent, 59.0) == 1;
  }

  // ---- one agent at a time ---------------------------------------------------------------------

  /** The agent's own attempts. */
  function Own(trace: seq<Attempt>, agent: string): seq<Attempt> {
    if trace == [] then []
    else
      var last := trace[|trace| - 1];
      Own(trace[..|trace| - 1], agent) + (if last.agent == agent then [last] else [])
  }

  lemma {:induction false} OwnIsSubtrace(trace: seq<Attempt>, agent: string)
    requires NonDecreasing(trace)
    ensures NonDecreasing(Own(trace, agent))
    ensures forall k :: 0 <= k < |Own(trace, agent)| ==> exists i :: 0 <= i < |trace| && trace[i] == Own(trace, agent)[k]
  {
    if trace != [] {
      OwnIsSubtrace(trace[..|trace| - 1], agent);
    }
  }

  lemma {:induction false} OwnAttempts(trace: seq<Attempt>, agent: string, minute: int)
    ensures Attempts(Own(trace, agent), agent, minute) == Attempts(trace, agent, minute)
  {
    if trace != [] {
      var before, last := trace[..|trace| - 1], trace[|trace| - 1];
      OwnAttempts(before, agent, minute);
      if last.agent == agent {
        assert (Own(before, agent) + [last])[..|Own(before, agent)|] == Own(before, agent);
      } else {
        assert Own(trace, agent) == Own(before, agent);
      }
    }
  }

  lemma {:induction false} OwnPrefix(trace: seq<Attempt>, agent: string, i: nat)
    requires i < |trace| && trace[i].agent == agent
    ensures var own, k := Own(trace, agent), |Own(trace[..i], agent)|;
            k < |own| && own[k] == trace[i] && own[..k] == Own(trace[..i], agent)
  {
    if i < |trace| - 1 {
      var before := trace[..|trace| - 1];
      OwnPrefix(before, agent, i);
      assert before[..i] == trace[..i];
    }
  }

  /** What the other agents do never changes which of this agent's attempts get through. */
  lemma OthersDoNotMatter(limit: int, trace: seq<Attempt>, i: nat)
    requires NonDecreasing(trace) && i < |trace|
    ensures var own, k := Own(trace, trace[i].agent), |Own(trace[..i], trace[i].agent)|;
            k < |own| && own[k] == trace[i] && (Admitted(limit, trace, i) <==> Admitted(limit, own, k))
  {
    var agent := trace[i].agent;
    OwnPrefix(trace, agent, i);
    if limit > 0 {
      OwnIsSubtrace(trace, agent);
      AdmittedIffFewBefore(limit, trace, i);
      AdmittedIffFewBefore(limit, Own(trace, agent), |Own(trace[..i], agent)|);
      OwnAttempts(trace[..i], agent, Minute(trace[i].at));
    }
  }
}
