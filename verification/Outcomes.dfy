/** How a call through the assembled built-in pipeline ends, case by case, in the answers of the ports alone. */
module Outcomes {
  import opened Domain
  import opened Pipeline
  import opened Steps
  import opened Assembly
  import opened StraightLine
  import Secrets

  /** The agent is within its budget, if there is one, and the call is granted, leaving the services so. */
  ghost predicate Granted(svc: Services, limited: bool, c: Ctx, w: World, grant: Grant) {
    var admitted := svc.admit(c.world, c.call.agentId, c.call.FullName());
    && (limited ==> admitted.1)
    && svc.grantFor(if limited then admitted.0 else c.world, c.call) == (w, Some(grant))
  }

  /** The gate lets the call pass: it asks for no approval, or its caller waits for one and gets it. */
  predicate Passes(grant: Grant, canBlock: bool, verdict: Decision) {
    grant.mode == Auto || (grant.mode == Interactive && canBlock && verdict.status == Approved)
  }

  /** The call as it comes out of the gate. */
  function PassedCall(grant: Grant, call: ToolCall, verdict: Decision): ToolCall {
    if grant.mode == Auto || verdict.edited.None? then call else call.(arguments := verdict.edited.value)
  }

  /** The run ended in this outcome, having sent these calls. */
  ghost predicate EndsIn(r: Ret, c: Ctx, outcome: Outcome, sent: seq<ToolCall>) {
    r.outcome == outcome && Adds(c.log, r.ctx.log, sent)
  }

  lemma OverBudget(svc: Services, id: string, verdict: Decision, c: Ctx)
    requires !svc.admit(c.world, c.call.agentId, c.call.FullName()).1
    ensures EndsIn(Run(BuiltInPipeline(svc, true, id, verdict), c), c,
                   Raised(RateLimited("rate limit exceeded for agent " + c.call.agentId)), [])
  {
    PipelineIsStraightLine(svc, true, id, verdict, c);
  }

  lemma GrantedGoesToTheGate(svc: Services, limited: bool, id: string, verdict: Decision, c: Ctx, w: World, grant: Grant)
    requires Granted(svc, limited, c, w, grant)
    ensures Shows(Run(BuiltInPipeline(svc, limited, id, verdict), c), c.log, Approve(svc, id, verdict, c, w, grant))
  {
    PipelineIsStraightLine(svc, limited, id, verdict, c);
    if limited {
      var d := c.(world := svc.admit(c.world, c.call.agentId, c.call.FullName()).0);
      ApproveLooksAt(svc, id, verdict, c, d, w, grant);
    }
  }

  /** A call the gate does not let pass is not sent: its caller gets the ticket to come back with, or the verdict
      that turned the call down. */
  lemma StoppedAtTheGate(svc: Services, limited: bool, id: string, verdict: Decision, c: Ctx, w: World, grant: Grant)
    requires Granted(svc, limited, c, w, grant) && !Passes(grant, c.canBlock, verdict)
    ensures EndsIn(Run(BuiltInPipeline(svc, limited, id, verdict), c), c,
                   Raised(if grant.mode == Interactive && c.canBlock then ApprovalDenied(verdict)
                          else PendingApproval(id)), [])
  {
    GrantedGoesToTheGate(svc, limited, id, verdict, c, w, grant);
  }

  /** What the agent is told of an edit. */
  function EditTold(svc: Services, grant: Grant, c: Ctx, verdict: Decision): Option<string> {
    if grant.mode == Auto || verdict.edited.None? || verdict.edited.value == c.call.arguments then None
    else
      var text := svc.noteText(if verdict.approver == "" then "?" else verdict.approver,
                               Changed(c.call.arguments, verdict.edited.value));
      if text == "" then None else Some(text)
  }

  lemma PassedIsExecuted(svc: Services, limited: bool, id: string, verdict: Decision, c: Ctx, w: World, grant: Grant)
    requires Granted(svc, limited, c, w, grant) && Passes(grant, c.canBlock, verdict) && "edit_note" !in c.bag
    ensures Shows(Run(BuiltInPipeline(svc, limited, id, verdict), c), c.log,
                  Execute(svc, w, Some(grant), PassedCall(grant, c.call, verdict), EditTold(svc, grant, c, verdict)))
  {
    GrantedGoesToTheGate(svc, limited, id, verdict, c, w, grant);
    if grant.mode != Auto {
      assert EditNote(Adopt(svc, c, verdict).bag) == EditTold(svc, grant, c, verdict);
    }
  }

  /** A call whose arguments, an operator's edit included, break the schema of the grant is not sent. */
  lemma InvalidIsRefused(svc: Services, limited: bool, id: string, verdict: Decision, c: Ctx, w: World, grant: Grant)
    requires Granted(svc, limited, c, w, grant) && Passes(grant, c.canBlock, verdict) && "edit_note" !in c.bag
    requires svc.check(PassedCall(grant, c.call, verdict).arguments, grant.schema) != []
    ensures EndsIn(Run(BuiltInPipeline(svc, limited, id, verdict), c), c,
                   Raised(SchemaInvalid(svc.errorsText(svc.check(PassedCall(grant, c.call, verdict).arguments,
                                                                 grant.schema)))), [])
  {
    PassedIsExecuted(svc, limited, id, verdict, c, w, grant);
  }

  /** Nor is one that names a secret the resolver does not hold. */
  lemma MissingSecretIsRefused(svc: Services, limited: bool, id: string, verdict: Decision, c: Ctx, w: World,
                               grant: Grant, ref: string)
    requires Granted(svc, limited, c, w, grant) && Passes(grant, c.canBlock, verdict) && "edit_note" !in c.bag
    requires svc.check(PassedCall(grant, c.call, verdict).arguments, grant.schema) == []
    requires svc.materialize(w, PassedCall(grant, c.call, verdict)) == Secrets.Missing(ref)
    ensures EndsIn(Run(BuiltInPipeline(svc, limited, id, verdict), c), c, Raised(SecretRefMissing(ref)), [])
  {
    PassedIsExecuted(svc, limited, id, verdict, c, w, grant);
  }

  /** What the agent sees of the upstream's answer: the redacted result with the operator's note before the notes
      of its own, or an error, and no more of a result that leaks a secret. */
  ghost predicate Sees(svc: Services, w: World, answer: Answer, upstreamId: string, note: Option<string>, o: Outcome) {
    if answer.Failed? then o == Raised(UpstreamUnavailable("tool call failed: " + answer.text))
    else
      var notes := (if note.Some? then [note.value] else []) + answer.result.notes;
      var shown := svc.redact(w, answer.result.(elapsedMs := answer.elapsedMs, notes := notes), upstreamId);
      if shown.Some? then o == Returned(shown.value) else o == Raised(SecretLeak("upstream echoed an active secret"))
  }

  /** Every other call is sent, once, with the secrets in place of their refs. */
  lemma ValidIsSent(svc: Services, limited: bool, id: string, verdict: Decision, c: Ctx, w: World, grant: Grant,
                    args: Args, refs: seq<string>)
    requires Granted(svc, limited, c, w, grant) && Passes(grant, c.canBlock, verdict) && "edit_note" !in c.bag
    requires svc.check(PassedCall(grant, c.call, verdict).arguments, grant.schema) == []
    requires svc.materialize(w, PassedCall(grant, c.call, verdict)) == Secrets.Resolved(args, refs)
    ensures var r, sent := Run(BuiltInPipeline(svc, limited, id, verdict), c), c.call.(arguments := args);
            && Adds(c.log, r.ctx.log, [sent])
            && Sees(svc, svc.callTool(w, sent).0, svc.callTool(w, sent).1, c.call.upstreamId,
                    EditTold(svc, grant, c, verdict), r.outcome)
  {
    PassedIsExecuted(svc, limited, id, verdict, c, w, grant);
    var sent, note := c.call.(arguments := args), EditTold(svc, grant, c, verdict);
    assert PassedCall(grant, c.call, verdict).(arguments := args) == sent;
    var answer := svc.callTool(w, sent).1;
    if answer.Answer? {
      assert [] + answer.result.notes == answer.result.notes;
      assert answer.result.(elapsedMs := answer.elapsedMs, notes := answer.result.notes)
          == answer.result.(elapsedMs := answer.elapsedMs);
    }
  }

  // ---- what the gate leaves on the ticket ------------------------------------------------------

  /** The outcome of an approved call is on its ticket before the caller hears of it: the result, or the message
      of the failure as an error. */
  lemma GateStoresTheOutcome(svc: Services, id: string, verdict: Decision, c: Ctx, k: Next)
    requires c.grant.Some? && c.grant.value.mode == Interactive && c.canBlock && verdict.status == Approved
    ensures var r, inner := Gate(svc, id, verdict)(c, k), k(Adopt(svc, Waited(c), verdict));
            && r.outcome == inner.outcome && r.ctx.log == inner.ctx.log
            && (inner.outcome.Returned? ==> r.ctx.world == svc.complete(inner.ctx.world, id, inner.outcome.result))
            && (inner.outcome.Raised? ==>
                  r.ctx.world == svc.complete(inner.ctx.world, id,
                                              ToolResult(Str(inner.outcome.error.Message()), true, 0, [])))
  {
    GateApproved(svc, id, c, verdict, k);
  }

  /** A resume whose grant was withdrawn runs nothing and leaves no event. */
  lemma WithdrawnGrantStopsAResume(svc: Services, id: string, call: ToolCall, verdict: Decision, log: seq<Event>,
                                   world: World, post: Next)
    requires svc.grantFor(world, call).1.None?
    ensures var r := Resume(svc, id, call, verdict, log, world, post);
            && r.outcome == Raised(ToolNotAllowed("no longer allowed: " + call.FullName()))
            && r.ctx.log == log && r.ctx.world == svc.grantFor(world, call).0
  {
  }
}
