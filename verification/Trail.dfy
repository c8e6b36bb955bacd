/** The events of a call that goes all the way: what was decided of it, which secrets it used, that it was sent. */
module Trail {
  import opened Domain
  import opened Pipeline
  import opened Steps
  import opened Assembly
  import opened StraightLine
  import opened Outcomes
  import Secrets

  function Said(c: Ctx, kind: string): Event {
    Audit(kind, c.call.upstreamId + "." + c.call.toolName, c.call.agentId, None)
  }

  /** The upstream answers the call once sent, and nothing in the answer leaks. */
  ghost predicate Succeeds(svc: Services, c: Ctx, args: Args, refs: seq<string>) {
    && svc.check(c.call.arguments, SchemaOf(c)) == []
    && svc.materialize(c.world, c.call) == Secrets.Resolved(args, refs)
    && Chain(BuiltInsAfter(svc), Last(svc))(c).outcome.Returned?
  }

  function Executed(c: Ctx, args: Args, refs: seq<string>): seq<Event> {
    (if refs == [] then [] else [Said(c, "refs_materialized")]) + [Sent(c.call.(arguments := args)), Said(c, "call")]
  }

  lemma SendingLeaves(svc: Services, c: Ctx)
    requires Redact(svc)(c, Last(svc)).outcome.Returned?
    ensures Redact(svc)(c, Last(svc)).ctx.log == c.log + [Sent(c.call), Said(c, "call")]
  {
    LastLeaves(svc, c);
    assert c.log + [Sent(c.call)] + [Said(c, "call")] == c.log + [Sent(c.call), Said(c, "call")];
  }

  lemma LastLeaves(svc: Services, c: Ctx)
    ensures Last(svc)(c).outcome.Returned? ==> Last(svc)(c).ctx.log == c.log + [Sent(c.call)] + [Said(c, "call")]
    ensures Redact(svc)(c, Last(svc)).outcome.Returned? ==>
              Last(svc)(c).outcome.Returned? && Redact(svc)(c, Last(svc)).ctx == Last(svc)(c).ctx
  {
    var (w, answer) := svc.callTool(c.world, c.call);
    if answer.Answer? {
      assert Said(c, "call") == Audit("call", c.call.FullName(), c.call.agentId, None);
    }
  }

  lemma MaterializeIs(svc: Services, c: Ctx, k: Next, args: Args, refs: seq<string>)
    requires svc.materialize(c.world, c.call) == Secrets.Resolved(args, refs)
    ensures Materialize(svc)(c, k) == k(WithSecrets(c, args, refs))
  {
  }

  lemma AuditedPasses(s: Step, tag: string, c: Ctx, k: Next)
    requires Audited(s, tag)(c, k).outcome.Returned?
    ensures Audited(s, tag)(c, k) == s(c, k)
  {
  }

  lemma ExecutingLeaves(svc: Services, c: Ctx, args: Args, refs: seq<string>)
    requires Succeeds(svc, c, args, refs)
    ensures Chain(BuiltInsAfter(svc), Last(svc))(c).ctx.log == c.log + Executed(c, args, refs)
  {
    var redacted := Handler(Redact(svc), Last(svc));
    var rest := Handler(Audited(Materialize(svc), "materialize"), redacted);
    ChainOfThree(Audited(Validate(svc), "validate"), Audited(Materialize(svc), "materialize"), Redact(svc), Last(svc), c);
    AuditedPasses(Validate(svc), "validate", c, rest);
    ValidateIs(svc, c, rest);
    AuditedPasses(Materialize(svc), "materialize", c, redacted);
    MaterializeIs(svc, c, redacted, args, refs);
    var d := WithSecrets(c, args, refs);
    SendingLeaves(svc, d);
    assert d.log == c.log + (if refs == [] then [] else [Said(c, "refs_materialized")]);
    assert d.log + [Sent(d.call), Said(d, "call")] == c.log + Executed(c, args, refs);
  }

  function Approved(c: Ctx, grant: Grant): seq<Event> {
    [Said(c, "authorized")] + (if grant.mode == Auto then [] else [Said(c, "gated"), Said(c, "decided")])
  }

  lemma GateLeaves(svc: Services, id: string, verdict: Decision, c: Ctx, grant: Grant, args: Args, refs: seq<string>)
    requires c.grant == Some(grant) && Passes(grant, c.canBlock, verdict)
    requires svc.check(PassedCall(grant, c.call, verdict).arguments, grant.schema) == []
    requires svc.materialize(c.world, PassedCall(grant, c.call, verdict)) == Secrets.Resolved(args, refs)
    requires Gate(svc, id, verdict)(c, Chain(BuiltInsAfter(svc), Last(svc))).outcome.Returned?
    ensures Gate(svc, id, verdict)(c, Chain(BuiltInsAfter(svc), Last(svc))).ctx.log
            == c.log + (if grant.mode == Auto then [] else [Said(c, "gated"), Said(c, "decided")])
                     + Executed(c, args, refs)
  {
    var post := Chain(BuiltInsAfter(svc), Last(svc));
    if grant.mode == Auto {
      ExecutingLeaves(svc, c, args, refs);
      assert c.log + [] == c.log;
    } else {
      GateApproved(svc, id, c, verdict, post);
      var d := Adopt(svc, Waited(c), verdict);
      AdoptedCall(svc, Waited(c), verdict);
      assert d.call == PassedCall(grant, c.call, verdict);
      ExecutingLeaves(svc, d, args, refs);
      assert d.log == c.log + [Said(c, "gated"), Said(c, "decided")];
      assert Executed(d, args, refs) == Executed(c, args, refs);
    }
  }

  lemma AuthorizeLeaves(svc: Services, id: string, verdict: Decision, c: Ctx, w: World, grant: Grant, args: Args,
                        refs: seq<string>)
    requires svc.grantFor(c.world, c.call) == (w, Some(grant)) && Passes(grant, c.canBlock, verdict)
    requires svc.check(PassedCall(grant, c.call, verdict).arguments, grant.schema) == []
    requires svc.materialize(w, PassedCall(grant, c.call, verdict)) == Secrets.Resolved(args, refs)
    requires Authorize(svc)(c, Gated(svc, id, verdict)).outcome.Returned?
    ensures Authorize(svc)(c, Gated(svc, id, verdict)).ctx.log == c.log + Approved(c, grant) + Executed(c, args, refs)
  {
    AuthorizeIs(svc, c, Gated(svc, id, verdict));
    var d := Authorized(c, w, grant);
    AuditedPasses(Gate(svc, id, verdict), "approval", d, Chain(BuiltInsAfter(svc), Last(svc)));
    GateLeaves(svc, id, verdict, d, grant, args, refs);
    var waited := if grant.mode == Auto then [] else [Said(c, "gated"), Said(c, "decided")];
    assert c.log + [Said(c, "authorized")] + waited == c.log + Approved(c, grant);
    assert Executed(d, args, refs) == Executed(c, args, refs);
  }

  lemma LimitedRun(svc: Services, id: string, verdict: Decision, c: Ctx)
    ensures Run(BuiltInPipeline(svc, true, id, verdict), c)
            == Audited(RateLimit(svc), "rate_limit")(c, Handler(Audited(Authorize(svc), "authorize"),
                                                                Gated(svc, id, verdict)))
  {
    AssembledBefore(svc, true);
    AssembledAfter(svc, true);
    var limit, authorize := Audited(RateLimit(svc), "rate_limit"), Audited(Authorize(svc), "authorize");
    var before, k := [limit] + [authorize], Gated(svc, id, verdict);
    RunsBeforeTheGate(before, Audited(Gate(svc, id, verdict), "approval"), BuiltInsAfter(svc) + [Dispatch(svc)], svc, c);
    assert before[1..] == [authorize] && [authorize][1..] == [];
    assert Chain([authorize], k) == Handler(authorize, k);
    assert Chain(before, k) == Handler(limit, Handler(authorize, k));
  }

  lemma UnlimitedRun(svc: Services, id: string, verdict: Decision, c: Ctx)
    ensures Run(BuiltInPipeline(svc, false, id, verdict), c)
            == Audited(Authorize(svc), "authorize")(c, Gated(svc, id, verdict))
  {
    AssembledBefore(svc, false);
    AssembledAfter(svc, false);
    var authorize, k := Audited(Authorize(svc), "authorize"), Gated(svc, id, verdict);
    var before := [authorize];
    assert [] + [authorize] == before;
    RunsBeforeTheGate(before, Audited(Gate(svc, id, verdict), "approval"), BuiltInsAfter(svc) + [Dispatch(svc)], svc, c);
    assert before[1..] == [];
    assert Chain(before, k) == Handler(authorize, k);
  }

  /** A call that returns its result through the built-in pipeline leaves exactly these events, in this order: it
      was authorized; if it had to be approved, it was gated and decided; its secrets were used, if it has any; it
      was sent; it was answered. */
  lemma SuccessLeavesATrail(svc: Services, limited: bool, id: string, verdict: Decision, c: Ctx, w: World, grant: Grant,
                            args: Args, refs: seq<string>)
    requires Granted(svc, limited, c, w, grant) && Passes(grant, c.canBlock, verdict)
    requires svc.check(PassedCall(grant, c.call, verdict).arguments, grant.schema) == []
    requires svc.materialize(w, PassedCall(grant, c.call, verdict)) == Secrets.Resolved(args, refs)
    requires Run(BuiltInPipeline(svc, limited, id, verdict), c).outcome.Returned?
    ensures Run(BuiltInPipeline(svc, limited, id, verdict), c).ctx.log
            == c.log + [Said(c, "authorized")]
               + (if grant.mode == Auto then [] else [Said(c, "gated"), Said(c, "decided")])
               + (if refs == [] then [] else [Said(c, "refs_materialized")])
               + [Sent(c.call.(arguments := args)), Said(c, "call")]
  {
    var k := Gated(svc, id, verdict);
    if limited {
      var authorize := Handler(Audited(Authorize(svc), "authorize"), k);
      LimitedRun(svc, id, verdict, c);
      AuditedPasses(RateLimit(svc), "rate_limit", c, authorize);
      RateLimitIs(svc, c, authorize);
      var d := c.(world := svc.admit(c.world, c.call.agentId, c.call.FullName()).0);
      AuditedPasses(Authorize(svc), "authorize", d, k);
      AuthorizeLeaves(svc, id, verdict, d, w, grant, args, refs);
    } else {
      UnlimitedRun(svc, id, verdict, c);
      AuditedPasses(Authorize(svc), "authorize", c, k);
      AuthorizeLeaves(svc, id, verdict, c, w, grant, args, refs);
    }
  }
}
