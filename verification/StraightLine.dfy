/** The assembled pipeline against the program it stands for: one call, written straight down. */
module StraightLine {
  import opened Domain
  import opened Pipeline
  import opened Steps
  import opened Assembly

  /** How a run ends, and whether its call was sent upstream. */
  datatype End = End(outcome: Outcome, sent: Option<ToolCall>)

  function Refuse(e: Error): End {
    End(Raised(e), None)
  }

  /** After approval: validate, resolve the secrets, send, redact. */
  function Execute(svc: Services, w: World, grant: Option<Grant>, call: ToolCall, note: Option<string>): End {
    var schema := if grant.Some? then grant.value.schema else None;
    var errors := svc.check(call.arguments, schema);
    if errors != [] then Refuse(SchemaInvalid(svc.errorsText(errors))) else SendMaterialized(svc, w, call, note)
  }

  function SendMaterialized(svc: Services, w: World, call: ToolCall, note: Option<string>): End {
    match svc.materialize(w, call)
    case Missing(ref) => Refuse(SecretRefMissing(ref))
    case Resolved(args, _) => Send(svc, w, call.(arguments := args), note)
  }

  function Send(svc: Services, w: World, call: ToolCall, note: Option<string>): End {
    var (v, answer) := svc.callTool(w, call);
    match answer
    case Failed(text) => End(Raised(UpstreamUnavailable("tool call failed: " + text)), Some(call))
    case Answer(r, elapsedMs) =>
      var clean := svc.redact(v, Noted(r.(elapsedMs := elapsedMs), note), call.upstreamId);
      End(if clean.None? then Raised(SecretLeak("upstream echoed an active secret")) else Returned(clean.value),
          Some(call))
  }

  /** The gate: in auto mode straight on, else only an approved caller that waited goes on, with the edit. */
  function Approve(svc: Services, id: string, verdict: Decision, c: Ctx, w: World, grant: Grant): End {
    if grant.mode == Auto then Execute(svc, w, Some(grant), c.call, EditNote(c.bag))
    else if grant.mode == Async || !c.canBlock then Refuse(PendingApproval(id))
    else if verdict.status != Approved then Refuse(ApprovalDenied(verdict))
    else
      Execute(svc, w, Some(grant), c.call.(arguments := Effective(c.call.arguments, verdict)),
              EditNote(Adopt(svc, c, verdict).bag))
  }

  function Call(svc: Services, limited: bool, id: string, verdict: Decision, c: Ctx): End {
    var (w, ok) := if limited then svc.admit(c.world, c.call.agentId, c.call.FullName()) else (c.world, true);
    if !ok then Refuse(RateLimited("rate limit exceeded for agent " + c.call.agentId))
    else AuthorizeAndGo(svc, id, verdict, c.(world := w))
  }

  function AuthorizeAndGo(svc: Services, id: string, verdict: Decision, c: Ctx): End {
    var (w, grant) := svc.grantFor(c.world, c.call);
    if grant.None? then Refuse(ToolNotAllowed("not allowed: " + c.call.FullName()))
    else Approve(svc, id, verdict, c, w, grant.value)
  }

  /** The calls sent, in order. */
  function Calls(log: seq<Event>): seq<ToolCall> {
    if log == [] then []
    else
      var last := log[|log| - 1];
      Calls(log[..|log| - 1]) + (if last.Sent? then [last.call] else [])
  }

  /** `log` grew to `longer`, and these are the calls sent in between. */
  ghost predicate Adds(log: seq<Event>, longer: seq<Event>, calls: seq<ToolCall>) {
    log <= longer && Calls(longer[|log|..]) == calls
  }

  lemma AddsOne(log: seq<Event>, longer: seq<Event>, calls: seq<ToolCall>, e: Event)
    requires Adds(log, longer, calls)
    ensures Adds(log, longer + [e], if e.Sent? then calls + [e.call] else calls)
  {
    var added := longer[|log|..];
    assert (longer + [e])[|log|..] == added + [e];
    assert (added + [e])[..|added|] == added;
    assert calls + [] == calls;
  }

  lemma NoteAdds(log: seq<Event>, c: Ctx, kind: string, calls: seq<ToolCall>)
    requires Adds(log, c.log, calls)
    ensures Adds(log, Note(c, kind).log, calls)
  {
    AddsOne(log, c.log, calls, Audit(kind, c.call.FullName(), c.call.agentId, None));
  }

  function SentBy(e: End): seq<ToolCall> {
    if e.sent.Some? then [e.sent.value] else []
  }

  /** What a run shows that began with `log`: this outcome, and since then exactly this call sent, or none. */
  ghost predicate Shows(r: Ret, log: seq<Event>, e: End) {
    r.outcome == e.outcome && Adds(log, r.ctx.log, SentBy(e))
  }

  lemma AuditedShows(s: Step, tag: string, c: Ctx, k: Next, log: seq<Event>, e: End)
    requires Shows(s(c, k), log, e)
    ensures Shows(Audited(s, tag)(c, k), log, e)
  {
    var r := s(c, k);
    if r.outcome.Raised? {
      AddsOne(log, r.ctx.log, SentBy(e), ErrorEvent(r.ctx, tag, r.outcome.error));
    }
  }

  // ---- after the gate --------------------------------------------------------------------------

  lemma LastShows(svc: Services, c: Ctx, log: seq<Event>)
    requires Adds(log, c.log, [])
    ensures Adds(log, Last(svc)(c).ctx.log, [c.call])
  {
    AddsOne(log, c.log, [], Sent(c.call));
    var (w, answer) := svc.callTool(c.world, c.call);
    var d := c.(world := w, log := c.log + [Sent(c.call)]);
    NoteAdds(log, d, "call_failed", [c.call]);
    NoteAdds(log, d, "call", [c.call]);
  }

  lemma RedactShows(svc: Services, c: Ctx, log: seq<Event>)
    requires Adds(log, c.log, [])
    ensures Shows(Redact(svc)(c, Last(svc)), log, Send(svc, c.world, c.call, EditNote(c.bag)))
  {
    LastShows(svc, c, log);
    NoteAdds(log, Last(svc)(c).ctx, "leak_detected", [c.call]);
  }

  lemma SecretsAddNothing(log: seq<Event>, c: Ctx, args: Args, refs: seq<string>)
    requires Adds(log, c.log, [])
    ensures Adds(log, WithSecrets(c, args, refs).log, [])
  {
    NoteAdds(log, c, "refs_materialized", []);
  }

  lemma MaterializeShows(svc: Services, c: Ctx, log: seq<Event>)
    requires Adds(log, c.log, [])
    ensures Shows(Materialize(svc)(c, Handler(Redact(svc), Last(svc))), log,
                  SendMaterialized(svc, c.world, c.call, EditNote(c.bag)))
  {
    var m := svc.materialize(c.world, c.call);
    if m.Resolved? {
      SecretsAddNothing(log, c, m.args, m.refs);
      SecretsKeepTheNote(c, m.args, m.refs);
      RedactShows(svc, WithSecrets(c, m.args, m.refs), log);
    }
  }

  lemma ValidateIs(svc: Services, c: Ctx, k: Next)
    ensures var errors := svc.check(c.call.arguments, SchemaOf(c));
            Validate(svc)(c, k)
            == if errors != [] then Ret(c, Raised(SchemaInvalid(svc.errorsText(errors)))) else k(c)
  {
  }

  lemma ValidateShows(svc: Services, c: Ctx, k: Next, log: seq<Event>)
    requires Adds(log, c.log, []) && Shows(k(c), log, SendMaterialized(svc, c.world, c.call, EditNote(c.bag)))
    ensures Shows(Validate(svc)(c, k), log, Execute(svc, c.world, c.grant, c.call, EditNote(c.bag)))
  {
    ValidateIs(svc, c, k);
    var errors := svc.check(c.call.arguments, SchemaOf(c));
    if errors != [] {
      assert Execute(svc, c.world, c.grant, c.call, EditNote(c.bag)) == Refuse(SchemaInvalid(svc.errorsText(errors)));
    }
  }

  lemma PostShows(svc: Services, c: Ctx, log: seq<Event>)
    requires Adds(log, c.log, [])
    ensures Shows(Chain(BuiltInsAfter(svc), Last(svc))(c), log, Execute(svc, c.world, c.grant, c.call, EditNote(c.bag)))
  {
    ChainOfThree(Audited(Validate(svc), "validate"), Audited(Materialize(svc), "materialize"), Redact(svc), Last(svc), c);
    var redacted := Handler(Redact(svc), Last(svc));
    var k := Handler(Audited(Materialize(svc), "materialize"), redacted);
    MaterializeShows(svc, c, log);
    AuditedShows(Materialize(svc), "materialize", c, redacted, log,
                 SendMaterialized(svc, c.world, c.call, EditNote(c.bag)));
    ValidateShows(svc, c, k, log);
    AuditedShows(Validate(svc), "validate", c, k, log, Execute(svc, c.world, c.grant, c.call, EditNote(c.bag)));
  }

  lemma NothingAdded(log: seq<Event>)
    ensures Adds(log, log, [])
  {
  }

  /** After the gate a call is sent, once and with its secrets in place, exactly when its arguments (an
      operator's edit included) satisfy the schema and no secret is missing. */
  lemma OnlyValidCallsAreSent(svc: Services, c: Ctx)
    ensures var r, m := Chain(BuiltInsAfter(svc), Last(svc))(c), svc.materialize(c.world, c.call);
            if svc.check(c.call.arguments, SchemaOf(c)) == [] && m.Resolved?
            then Adds(c.log, r.ctx.log, [c.call.(arguments := m.args)])
            else Adds(c.log, r.ctx.log, []) && r.outcome.Raised?
  {
    NothingAdded(c.log);
    PostShows(svc, c, c.log);
  }

  // ---- the gate and what comes before ----------------------------------------------------------

  lemma AdoptedCall(svc: Services, c: Ctx, verdict: Decision)
    ensures Adopt(svc, c, verdict).call == c.call.(arguments := Effective(c.call.arguments, verdict))
    ensures Adopt(svc, c, verdict).world == c.world && Adopt(svc, c, verdict).grant == c.grant
    ensures Adopt(svc, c, verdict).log == c.log
  {
  }

  /** The program past the gate looks at the call, the bag and whether the caller can wait. */
  lemma ApproveLooksAt(svc: Services, id: string, verdict: Decision, c: Ctx, d: Ctx, w: World, grant: Grant)
    requires d.call == c.call && d.bag == c.bag && d.canBlock == c.canBlock
    ensures Approve(svc, id, verdict, c, w, grant) == Approve(svc, id, verdict, d, w, grant)
  {
    assert Adopt(svc, c, verdict).bag == Adopt(svc, d, verdict).bag;
  }

  lemma StoredShows(svc: Services, id: string, r: Ret, log: seq<Event>, e: End)
    requires Shows(r, log, e)
    ensures Shows(Stored(svc, id, r), log, e)
  {
  }

  lemma AdoptedShows(svc: Services, id: string, verdict: Decision, c: Ctx, log: seq<Event>)
    requires Adds(log, c.log, []) && verdict.status == Approved
    ensures var args := Effective(c.call.arguments, verdict);
            Shows(Decide(svc, id, c, verdict, Chain(BuiltInsAfter(svc), Last(svc))), log,
                  Execute(svc, c.world, c.grant, c.call.(arguments := args), EditNote(Adopt(svc, c, verdict).bag)))
  {
    var d := Adopt(svc, c, verdict);
    AdoptedCall(svc, c, verdict);
    PostShows(svc, d, log);
    StoredShows(svc, id, Chain(BuiltInsAfter(svc), Last(svc))(d), log,
                Execute(svc, d.world, d.grant, d.call, EditNote(d.bag)));
  }

  lemma WaitedAddsNothing(c: Ctx, log: seq<Event>)
    requires Adds(log, c.log, [])
    ensures Adds(log, Waited(c).log, [])
  {
    NoteAdds(log, c, "gated", []);
    NoteAdds(log, Note(c, "gated"), "decided", []);
  }

  lemma DeniedShows(svc: Services, id: string, verdict: Decision, c: Ctx, k: Next, log: seq<Event>)
    requires Adds(log, c.log, []) && verdict.status != Approved
    ensures Shows(Decide(svc, id, c, verdict, k), log, Refuse(ApprovalDenied(verdict)))
  {
  }

  /** The gate's program for a caller that waited. */
  lemma ApproveWaited(svc: Services, id: string, verdict: Decision, c: Ctx)
    requires c.grant.Some? && c.grant.value.mode == Interactive && c.canBlock
    ensures Approve(svc, id, verdict, c, c.world, c.grant.value)
            == if verdict.status != Approved then Refuse(ApprovalDenied(verdict))
               else Execute(svc, c.world, c.grant, c.call.(arguments := Effective(c.call.arguments, verdict)),
                            EditNote(Adopt(svc, Waited(c), verdict).bag))
  {
    assert Adopt(svc, Waited(c), verdict).bag == Adopt(svc, c, verdict).bag;
    assert Some(c.grant.value) == c.grant;
  }

  lemma WaitedShows(svc: Services, id: string, verdict: Decision, c: Ctx, log: seq<Event>)
    requires Adds(log, c.log, []) && c.grant.Some? && c.grant.value.mode == Interactive && c.canBlock
    ensures Shows(Decide(svc, id, Waited(c), verdict, Chain(BuiltInsAfter(svc), Last(svc))), log,
                  Approve(svc, id, verdict, c, c.world, c.grant.value))
  {
    WaitedAddsNothing(c, log);
    ApproveWaited(svc, id, verdict, c);
    if verdict.status == Approved {
      AdoptedShows(svc, id, verdict, Waited(c), log);
    } else {
      DeniedShows(svc, id, verdict, Waited(c), Chain(BuiltInsAfter(svc), Last(svc)), log);
    }
  }

  lemma GateShows(svc: Services, id: string, verdict: Decision, c: Ctx, log: seq<Event>)
    requires Adds(log, c.log, []) && c.grant.Some?
    ensures Shows(Gate(svc, id, verdict)(c, Chain(BuiltInsAfter(svc), Last(svc))), log,
                  Approve(svc, id, verdict, c, c.world, c.grant.value))
  {
    var post := Chain(BuiltInsAfter(svc), Last(svc));
    if c.grant.value.mode == Auto {
      PostShows(svc, c, log);
    } else if c.grant.value.mode == Interactive && c.canBlock {
      GateApproved(svc, id, c, verdict, post);
      WaitedShows(svc, id, verdict, c, log);
    } else {
      NoteAdds(log, c, "gated", []);
    }
  }

  /** The audited gate and what follows it. */
  function Gated(svc: Services, id: string, verdict: Decision): Next {
    Handler(Audited(Gate(svc, id, verdict), "approval"), Chain(BuiltInsAfter(svc), Last(svc)))
  }

  lemma GatedShows(svc: Services, id: string, verdict: Decision, c: Ctx, log: seq<Event>)
    requires Adds(log, c.log, []) && c.grant.Some?
    ensures Shows(Gated(svc, id, verdict)(c), log, Approve(svc, id, verdict, c, c.world, c.grant.value))
  {
    GateShows(svc, id, verdict, c, log);
    AuditedShows(Gate(svc, id, verdict), "approval", c, Chain(BuiltInsAfter(svc), Last(svc)), log,
                 Approve(svc, id, verdict, c, c.world, c.grant.value));
  }

  function Authorized(c: Ctx, w: World, grant: Grant): Ctx {
    Note(c.(world := w, grant := Some(grant)), "authorized")
  }

  lemma AuthorizeIs(svc: Services, c: Ctx, k: Next)
    ensures var (w, grant) := svc.grantFor(c.world, c.call);
            Authorize(svc)(c, k)
            == if grant.None? then Ret(c.(world := w), Raised(ToolNotAllowed("not allowed: " + c.call.FullName())))
               else k(Authorized(c, w, grant.value))
  {
    var (w, grant) := svc.grantFor(c.world, c.call);
    if grant.Some? {
      assert Note(c.(world := w, grant := grant), "authorized") == Authorized(c, w, grant.value);
    }
  }

  lemma AuthorizeShows(svc: Services, id: string, verdict: Decision, c: Ctx, log: seq<Event>)
    requires Adds(log, c.log, [])
    ensures Shows(Authorize(svc)(c, Gated(svc, id, verdict)), log, AuthorizeAndGo(svc, id, verdict, c))
  {
    var (w, grant) := svc.grantFor(c.world, c.call);
    AuthorizeIs(svc, c, Gated(svc, id, verdict));
    if grant.Some? {
      var d := Authorized(c, w, grant.value);
      NoteAdds(log, c.(world := w, grant := grant), "authorized", []);
      GatedShows(svc, id, verdict, d, log);
      ApproveLooksAt(svc, id, verdict, c, d, w, grant.value);
    }
  }

  lemma RateLimitIs(svc: Services, c: Ctx, k: Next)
    ensures var (w, ok) := svc.admit(c.world, c.call.agentId, c.call.FullName());
            RateLimit(svc)(c, k)
            == if ok then k(c.(world := w))
               else Ret(c.(world := w), Raised(RateLimited("rate limit exceeded for agent " + c.call.agentId)))
  {
  }

  lemma RateLimitShows(svc: Services, id: string, verdict: Decision, c: Ctx)
    ensures Shows(RateLimit(svc)(c, Handler(Audited(Authorize(svc), "authorize"), Gated(svc, id, verdict))), c.log,
                  Call(svc, true, id, verdict, c))
  {
    var (w, ok) := svc.admit(c.world, c.call.agentId, c.call.FullName());
    RateLimitIs(svc, c, Handler(Audited(Authorize(svc), "authorize"), Gated(svc, id, verdict)));
    NothingAdded(c.log);
    if ok {
      var d := c.(world := w);
      AuthorizeShows(svc, id, verdict, d, c.log);
      AuditedShows(Authorize(svc), "authorize", d, Gated(svc, id, verdict), c.log, AuthorizeAndGo(svc, id, verdict, d));
    }
  }

  // ---- the assembly ----------------------------------------------------------------------------

  lemma AtStageCons(p: Placed, rest: seq<Placed>, stage: Stage)
    ensures AtStage([p] + rest, stage) == if p.stage == stage then [p] + AtStage(rest, stage) else AtStage(rest, stage)
  {
    assert ([p] + rest)[1..] == rest;
  }

  lemma SplitAtTheGate(a: Placed, v: Placed, m: Placed, r: Placed, last: seq<Placed>, stage: Stage)
    requires a.stage == BeforeApproval && v.stage == m.stage == r.stage == AfterApproval && stage != NotAStage
    ensures AtStage([a, v, m, r] + last, stage)
            == (if stage == BeforeApproval then [a] else [v, m, r]) + AtStage(last, stage)
  {
    assert [a, v, m, r] + last == [a] + ([v] + ([m] + ([r] + last)));
    AtStageCons(a, [v] + ([m] + ([r] + last)), stage);
    AtStageCons(v, [m] + ([r] + last), stage);
    AtStageCons(m, [r] + last, stage);
    AtStageCons(r, last, stage);
  }

  lemma StageOfBuiltIns(svc: Services, limited: bool, stage: Stage)
    requires stage != NotAStage
    ensures AtStage(Chained(svc, limited, []), stage)
            == if stage == AfterApproval then [Validating(svc), Materializing(svc), Redacting(svc)]
               else [Authorizing(svc)] + (if limited then [RateLimiting(svc)] else [])
  {
    var last := if limited then [RateLimiting(svc)] else [];
    SplitAtTheGate(Authorizing(svc), Validating(svc), Materializing(svc), Redacting(svc), last, stage);
    if limited {
      AtStageCons(RateLimiting(svc), [], stage);
      assert last == [RateLimiting(svc)] + [];
    }
    assert Chained(svc, limited, []) == BuiltIns(svc, limited);
  }

  lemma SortOfOne(p: Placed)
    ensures Sort([p]) == [p]
  {
    assert [p][1..] == [];
  }

  lemma SortOfTwo(p: Placed, q: Placed)
    ensures Sort([p, q]) == if p.order <= q.order then [p, q] else [q, p]
  {
    SortOfOne(q);
    assert [p, q][1..] == [q] && [q][1..] == [];
    assert Sort([p, q]) == Insert(p, [q]);
    assert Insert(p, []) == [p];
  }

  lemma SortOfThree(p: Placed, q: Placed, r: Placed)
    requires p.order <= q.order <= r.order
    ensures Sort([p, q, r]) == [p, q, r]
  {
    SortOfTwo(q, r);
    assert [p, q, r][1..] == [q, r];
  }

  /** With no contributed steps the sort puts the built-ins in their documented order. */
  lemma AssembledBefore(svc: Services, limited: bool)
    ensures Stepped(svc, limited, [], BeforeApproval)
            == (if limited then [Audited(RateLimit(svc), "rate_limit")] else []) + [Audited(Authorize(svc), "authorize")]
  {
    StageOfBuiltIns(svc, limited, BeforeApproval);
    if limited {
      SortOfTwo(Authorizing(svc), RateLimiting(svc));
    } else {
      SortOfOne(Authorizing(svc));
    }
  }

  lemma AssembledAfter(svc: Services, limited: bool)
    ensures Stepped(svc, limited, [], AfterApproval) == BuiltInsAfter(svc)
  {
    StageOfBuiltIns(svc, limited, AfterApproval);
    SortOfThree(Validating(svc), Materializing(svc), Redacting(svc));
  }

  lemma RunsBeforeTheGate(before: seq<Step>, gate: Step, post: seq<Step>, svc: Services, c: Ctx)
    requires post == BuiltInsAfter(svc) + [Dispatch(svc)]
    ensures Run(before + [gate] + post, c) == Chain(before, Handler(gate, Chain(BuiltInsAfter(svc), Last(svc))))(c)
  {
    FullAfterTheGateIsPost(before, gate, post);
    PostEndsInDispatch(svc, BuiltInsAfter(svc));
  }

  lemma LimitedShows(svc: Services, id: string, verdict: Decision, c: Ctx)
    ensures var before := [Audited(RateLimit(svc), "rate_limit")] + [Audited(Authorize(svc), "authorize")];
            Shows(Chain(before, Gated(svc, id, verdict))(c), c.log, Call(svc, true, id, verdict, c))
  {
    var authorize, k := Audited(Authorize(svc), "authorize"), Gated(svc, id, verdict);
    var limit := Audited(RateLimit(svc), "rate_limit");
    assert ([limit] + [authorize])[1..] == [authorize] && [authorize][1..] == [];
    assert Chain([authorize], k) == Handler(authorize, k);
    assert Chain([limit] + [authorize], k) == Handler(limit, Handler(authorize, k));
    RateLimitShows(svc, id, verdict, c);
    AuditedShows(RateLimit(svc), "rate_limit", c, Handler(authorize, k), c.log, Call(svc, true, id, verdict, c));
  }

  lemma UnlimitedShows(svc: Services, id: string, verdict: Decision, c: Ctx)
    ensures Shows(Chain([Audited(Authorize(svc), "authorize")], Gated(svc, id, verdict))(c), c.log,
                  Call(svc, false, id, verdict, c))
  {
    var authorize, k := Audited(Authorize(svc), "authorize"), Gated(svc, id, verdict);
    assert [authorize][1..] == [];
    assert Chain([authorize], k) == Handler(authorize, k);
    NothingAdded(c.log);
    AuthorizeShows(svc, id, verdict, c, c.log);
    AuditedShows(Authorize(svc), "authorize", c, k, c.log, AuthorizeAndGo(svc, id, verdict, c));
  }

  /** The full pipeline with no contributed steps. */
  function BuiltInPipeline(svc: Services, limited: bool, id: string, verdict: Decision): seq<Step> {
    Stepped(svc, limited, [], BeforeApproval) + [Audited(Gate(svc, id, verdict), "approval")]
    + (Stepped(svc, limited, [], AfterApproval) + [Dispatch(svc)])
  }

  /** The pipeline the gateway assembles from its built-in steps, continuations, wrappers, sort and all,
      ends every call as the straight-line program does, and sends exactly what it sends. */
  lemma PipelineIsStraightLine(svc: Services, limited: bool, id: string, verdict: Decision, c: Ctx)
    ensures Shows(Run(BuiltInPipeline(svc, limited, id, verdict), c), c.log, Call(svc, limited, id, verdict, c))
  {
    AssembledBefore(svc, limited);
    AssembledAfter(svc, limited);
    var before, gate := Stepped(svc, limited, [], BeforeApproval), Audited(Gate(svc, id, verdict), "approval");
    RunsBeforeTheGate(before, gate, Stepped(svc, limited, [], AfterApproval) + [Dispatch(svc)], svc, c);
    if limited {
      LimitedShows(svc, id, verdict, c);
    } else {
      UnlimitedShows(svc, id, verdict, c);
      assert before == [Audited(Authorize(svc), "authorize")];
    }
  }

  lemma DeniedCall(svc: Services, limited: bool, id: string, verdict: Decision, c: Ctx)
    requires forall w :: Denies(svc, c.call, w)
    ensures Call(svc, limited, id, verdict, c)
            == Refuse(if limited && !svc.admit(c.world, c.call.agentId, c.call.FullName()).1
                      then RateLimited("rate limit exceeded for agent " + c.call.agentId)
                      else ToolNotAllowed("not allowed: " + c.call.FullName()))
  {
    var (w, ok) := if limited then svc.admit(c.world, c.call.agentId, c.call.FullName()) else (c.world, true);
    assert Denies(svc, c.call, w);
  }

  /** A call the resolver denies is refused: for its budget, which is looked at first, or for want of a grant.
      Nothing is sent. */
  lemma DeniedIsRefused(svc: Services, limited: bool, id: string, verdict: Decision, c: Ctx)
    requires forall w :: Denies(svc, c.call, w)
    ensures var r := Run(BuiltInPipeline(svc, limited, id, verdict), c);
            && r.outcome == Raised(if limited && !svc.admit(c.world, c.call.agentId, c.call.FullName()).1
                                   then RateLimited("rate limit exceeded for agent " + c.call.agentId)
                                   else ToolNotAllowed("not allowed: " + c.call.FullName()))
            && Adds(c.log, r.ctx.log, [])
  {
    PipelineIsStraightLine(svc, limited, id, verdict, c);
    DeniedCall(svc, limited, id, verdict, c);
  }
}
