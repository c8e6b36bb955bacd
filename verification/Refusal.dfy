/** The listing and the pipeline agree: a tool left out of the listing is never sent upstream. */
module Refusal {
  import opened Domain
  import opened Pipeline
  import opened Steps
  import opened Assembly
  import opened StraightLine
  import Policy
  import Visibility

  /** With unique names and the same policy throughout, every call the edge builds for a tool the listing
      dropped runs through the whole pipeline without being sent, whatever its arguments and whatever
      steps are contributed, as long as those before the gate pass the call on as it is. */
  lemma HiddenToolIsNeverSent(svc: Services, limited: bool, extras: seq<Extra>, gate: Step, env: Policy.Env,
                              policy: Option<Policy.Compiled>, agent: string, specs: seq<Visibility.Spec>,
                              s: Visibility.Spec, requestId: string, args: Args, c: Ctx)
    requires Visibility.UniqueNames(specs) && s in specs
    requires s !in Visibility.Listed(Visibility.Listing(env, policy), agent, specs)
    requires Visibility.EdgeCall(requestId, agent, s.name, args, specs) == Some(c.call)
    requires forall w :: svc.grantFor(w, c.call).1 == Policy.GrantFor(env, policy, c.call)
    requires forall i :: 0 <= i < |extras| && extras[i].stage == BeforeApproval ==> KeepsTheCall(extras[i].step)
    ensures var before := Stepped(svc, limited, extras, BeforeApproval);
            var post := Stepped(svc, limited, extras, AfterApproval) + [Dispatch(svc)];
            Sends(Run(before + [Audited(gate, "approval")] + post, c).ctx.log) == Sends(c.log)
  {
    Visibility.EveryDroppedToolIsRefused(env, policy, agent, specs, s, requestId, args);
    forall w ensures Denies(svc, c.call, w) {
      assert svc.grantFor(w, c.call).1 == Policy.GrantFor(env, policy, c.call);
    }
    DeniedIsNeverSent(svc, limited, extras, gate, c);
  }

  /** With the built-in steps alone the caller is told so: the tool is not allowed, unless the agent is over its
      call budget, which is looked at first. */
  lemma HiddenToolIsRefused(svc: Services, limited: bool, id: string, verdict: Decision, env: Policy.Env,
                            policy: Option<Policy.Compiled>, agent: string, specs: seq<Visibility.Spec>,
                            s: Visibility.Spec, requestId: string, args: Args, c: Ctx)
    requires Visibility.UniqueNames(specs) && s in specs
    requires s !in Visibility.Listed(Visibility.Listing(env, policy), agent, specs)
    requires Visibility.EdgeCall(requestId, agent, s.name, args, specs) == Some(c.call)
    requires forall w :: svc.grantFor(w, c.call).1 == Policy.GrantFor(env, policy, c.call)
    ensures var r := Run(BuiltInPipeline(svc, limited, id, verdict), c);
            && r.outcome == Raised(if limited && !svc.admit(c.world, agent, s.name).1
                                   then RateLimited("rate limit exceeded for agent " + agent)
                                   else ToolNotAllowed("not allowed: " + s.name))
            && Adds(c.log, r.ctx.log, [])
  {
    Visibility.EveryDroppedToolIsRefused(env, policy, agent, specs, s, requestId, args);
    Visibility.PartitionRejoins(s.name);
    forall w ensures Denies(svc, c.call, w) {
      assert svc.grantFor(w, c.call).1 == Policy.GrantFor(env, policy, c.call);
    }
    assert c.call.FullName() == s.name && c.call.agentId == agent;
    DeniedIsRefused(svc, limited, id, verdict, c);
  }
}
