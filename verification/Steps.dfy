/** The built-in steps, the approval gate as a step, and the two ways to an approved call: blocking
    inside the pipeline, or resuming its ticket. */
module Steps {
  import opened Domain
  import opened Pipeline
  import Secrets

  datatype Answer = Answer(result: ToolResult, elapsedMs: int) | Failed(text: string)

  /** The ports the steps are built on. */
  datatype Services = Services(
    admit: (World, string, string) -> (World, bool),            // the rate limiter
    grantFor: (World, ToolCall) -> (World, Option<Grant>),
    check: (Args, Option<Value>) -> seq<string>,                // the schema validator's complaints
    materialize: (World, ToolCall) -> Secrets.Materialized,
    redact: (World, ToolResult, string) -> Option<ToolResult>,  // none: a secret leaked
    callTool: (World, ToolCall) -> (World, Answer),
    complete: (World, string, ToolResult) -> World,             // the ticket store
    noteText: (string, set<string>) -> string,                  // how an operator's edit is worded
    errorsText: seq<string> -> string)

  // ---- before approval -------------------------------------------------------------------------

  function RateLimit(svc: Services): Step {
    (c: Ctx, k: Next) =>
      var (w, ok) := svc.admit(c.world, c.call.agentId, c.call.FullName());
      if ok then k(c.(world := w))
      else Ret(c.(world := w), Raised(RateLimited("rate limit exceeded for agent " + c.call.agentId)))
  }

  function Authorize(svc: Services): Step {
    (c: Ctx, k: Next) =>
      var (w, grant) := svc.grantFor(c.world, c.call);
      if grant.None? then Ret(c.(world := w), Raised(ToolNotAllowed("not allowed: " + c.call.FullName())))
      else k(Note(c.(world := w, grant := grant), "authorized"))
  }

  // ---- after approval --------------------------------------------------------------------------

  function SchemaOf(c: Ctx): Option<Value> {
    if c.grant.Some? then c.grant.value.schema else None
  }

  function Validate(svc: Services): Step {
    (c: Ctx, k: Next) =>
      var errors := svc.check(c.call.arguments, SchemaOf(c));
      if errors != [] then Ret(c, Raised(SchemaInvalid(svc.errorsText(errors)))) else k(c)
  }

  function Refs(refs: seq<string>): Value {
    List(seq(|refs|, i requires 0 <= i < |refs| => Str(refs[i])))
  }

  function Materialize(svc: Services): Step {
    (c: Ctx, k: Next) =>
      match svc.materialize(c.world, c.call)
      case Missing(ref) => Ret(c, Raised(SecretRefMissing(ref)))
      case Resolved(args, refs) => k(WithSecrets(c, args, refs))
  }

  function WithSecrets(c: Ctx, args: Args, refs: seq<string>): Ctx {
    var d := c.(call := c.call.(arguments := args));
    if refs == [] then d else Note(d.(bag := d.bag["materialized_refs" := Refs(refs)]), "refs_materialized")
  }

  function Redact(svc: Services): Step {
    (c: Ctx, k: Next) =>
      var r := k(c);
      if !r.outcome.Returned? then r
      else
        var clean := svc.redact(r.ctx.world, r.outcome.result, r.ctx.call.upstreamId);
        if clean.None? then Ret(Note(r.ctx, "leak_detected"), Raised(SecretLeak("upstream echoed an active secret")))
        else Ret(r.ctx, Returned(clean.value))
  }

  /** The note apply_decision left for the agent. */
  function EditNote(bag: map<string, Value>): Option<string> {
    if "edit_note" in bag && bag["edit_note"].Str? && bag["edit_note"].s != "" then Some(bag["edit_note"].s) else None
  }

  /** The terminal step: it never calls on. */
  function Dispatch(svc: Services): Step {
    (c: Ctx, k: Next) =>
      var (w, answer) := svc.callTool(c.world, c.call);
      var d := c.(world := w, log := c.log + [Sent(c.call)]);
      match answer
      case Failed(text) => Ret(Note(d, "call_failed"), Raised(UpstreamUnavailable("tool call failed: " + text)))
      case Answer(r, elapsedMs) => Ret(Note(d, "call"), Returned(Noted(r.(elapsedMs := elapsedMs), EditNote(c.bag))))
  }

  /** The end of every pipeline. */
  function Last(svc: Services): Next {
    Handler(Dispatch(svc), End())
  }

  function Noted(r: ToolResult, note: Option<string>): ToolResult {
    if note.Some? then r.(notes := [note.value] + r.notes) else r
  }

  // ---- the verdict -----------------------------------------------------------------------------

  function Lookup(args: Args, key: string): Value {
    if key in args then args[key] else Null
  }

  /** The fields an edit changed. */
  function Changed(before: Args, after: Args): set<string> {
    set key | key in before.Keys + after.Keys && Lookup(before, key) != Lookup(after, key)
  }

  /** The note names exactly the fields an edit changed; an edit it names none for only turned a missing
      field into an explicit null, or back. */
  lemma ChangedFields(before: Args, after: Args)
    ensures forall key :: key in Changed(before, after) <==> Lookup(before, key) != Lookup(after, key)
    ensures before != after && Changed(before, after) == {} ==>
              exists key :: (key in before) != (key in after) && Lookup(before, key) == Null == Lookup(after, key)
  {
    if before != after && Changed(before, after) == {} {
      forall key | key in before && key in after ensures before[key] == after[key] {
        assert key !in Changed(before, after);
      }
      assert before.Keys != after.Keys;
      var key :| (key in before) != (key in after);
      assert key !in Changed(before, after);
    }
  }

  /** apply_decision on an approved verdict: the operator's edit replaces the arguments and leaves a note. */
  function Adopt(svc: Services, c: Ctx, d: Decision): Ctx {
    if d.edited.None? || d.edited.value == c.call.arguments then c
    else
      c.(call := c.call.(arguments := d.edited.value),
         bag := c.bag["edit_note" := Str(svc.noteText(if d.approver == "" then "?" else d.approver,
                                                      Changed(c.call.arguments, d.edited.value)))])
  }

  /** run_once by the caller that wins the claim: the outcome is stored on the ticket, a failure as its
      message before it is raised again. */
  function Stored(svc: Services, id: string, r: Ret): Ret {
    match r.outcome
    case Returned(result) => r.(ctx := r.ctx.(world := svc.complete(r.ctx.world, id, result)))
    case Raised(e) => r.(ctx := r.ctx.(world := svc.complete(r.ctx.world, id, ErrorResult(e))))
    case Broken => r
  }

  function Decide(svc: Services, id: string, c: Ctx, d: Decision, k: Next): Ret {
    if d.status != Approved then Ret(c, Raised(ApprovalDenied(d))) else Stored(svc, id, k(Adopt(svc, c, d)))
  }

  /** The gate, with the ticket it files, the verdict the wait comes to and the claim it then wins. */
  function Gate(svc: Services, id: string, verdict: Decision): Step {
    (c: Ctx, k: Next) =>
      if c.grant.None? || c.grant.value.mode == Auto then k(c)
      else
        var gated := Note(c, "gated");
        if c.grant.value.mode == Async || !c.canBlock then Ret(gated, Raised(PendingApproval(id)))
        else Decide(svc, id, Note(gated, "decided"), verdict, k)
  }

  /** ToolGateway.resume on a decided ticket of `call`, where `post` is the pipeline after the gate. */
  function Resume(svc: Services, id: string, call: ToolCall, verdict: Decision, log: seq<Event>, world: World,
                  post: Next): Ret
  {
    var (w, grant) := svc.grantFor(world, call);
    var c := Ctx(call, grant, true, map[], log, w);
    if grant.None? then Ret(c, Raised(ToolNotAllowed("no longer allowed: " + call.FullName())))
    else Decide(svc, id, c, verdict, (d: Ctx) => post(Note(d, "resumed")))
  }

  // ---- the steps do not look at what they were not given ---------------------------------------

  lemma ValidateIsBlind(svc: Services, v: View)
    ensures Blind(v, Validate(svc))
  {
    forall k: Next, l: Next, x: Ctx, y: Ctx | Agree(v, k, l) && Alike(v, x, y)
      ensures AlikeRets(v, Validate(svc)(x, k), Validate(svc)(y, l))
    {
      assert SchemaOf(x) == SchemaOf(y);
      assert AlikeRets(v, k(x), l(y));
    }
  }

  lemma MaterializeIsBlind(svc: Services, v: View)
    ensures Blind(v, Materialize(svc))
  {
    forall k: Next, l: Next, x: Ctx, y: Ctx | Agree(v, k, l) && Alike(v, x, y)
      ensures AlikeRets(v, Materialize(svc)(x, k), Materialize(svc)(y, l))
    {
      var m := svc.materialize(x.world, x.call);
      if m.Resolved? {
        SecretsAlike(v, x, y, m.args, m.refs);
      }
    }
  }

  lemma SecretsAlike(v: View, x: Ctx, y: Ctx, args: Args, refs: seq<string>)
    requires Alike(v, x, y)
    ensures Alike(v, WithSecrets(x, args, refs), WithSecrets(y, args, refs))
  {
    var e := Audit("refs_materialized", x.call.FullName(), x.call.agentId, None);
    LogAlike(v, x, y, e);
  }

  lemma RedactIsBlind(svc: Services, v: View)
    ensures Blind(v, Redact(svc))
  {
    forall k: Next, l: Next, x: Ctx, y: Ctx | Agree(v, k, l) && Alike(v, x, y)
      ensures AlikeRets(v, Redact(svc)(x, k), Redact(svc)(y, l))
    {
      var r, t := k(x), l(y);
      assert AlikeRets(v, r, t);
      LogAlike(v, r.ctx, t.ctx, Audit("leak_detected", r.ctx.call.FullName(), r.ctx.call.agentId, None));
    }
  }

  /** The terminal step reads one entry of the bag. */
  lemma LastAgrees(svc: Services, v: View)
    requires "edit_note" !in v.hidden
    ensures Agree(v, Last(svc), Last(svc))
  {
    forall x: Ctx, y: Ctx | Alike(v, x, y) ensures AlikeRets(v, Last(svc)(x), Last(svc)(y)) {
      var (w, answer) := svc.callTool(x.world, x.call);
      LogAlike(v, x, y, Sent(x.call));
      var x', y' := x.(world := w, log := x.log + [Sent(x.call)]), y.(world := w, log := y.log + [Sent(y.call)]);
      assert Alike(v, x', y');
      LogAlike(v, x', y', Audit("call", x.call.FullName(), x.call.agentId, None));
      LogAlike(v, x', y', Audit("call_failed", x.call.FullName(), x.call.agentId, None));
      assert Entry(x.bag, "edit_note") == Entry(y.bag, "edit_note");
    }
  }

  /** Every step after the gate but the terminal one reads nothing of what the steps before it left. */
  lemma BuiltInsAreBlind(svc: Services, v: View)
    ensures Blind(v, Audited(Validate(svc), "validate"))
    ensures Blind(v, Audited(Materialize(svc), "materialize"))
    ensures Blind(v, Redact(svc))
  {
    ValidateIsBlind(svc, v);
    AuditedIsBlind(v, Validate(svc), "validate");
    MaterializeIsBlind(svc, v);
    AuditedIsBlind(v, Materialize(svc), "materialize");
    RedactIsBlind(svc, v);
  }

  // ---- blocking and resuming are the same ------------------------------------------------------

  /** What the bag held at the gate is hidden; the logs are compared from where each path starts
      running the approved call. */
  function Since(c: Ctx, log: seq<Event>): View {
    View(c.bag.Keys,
         c.log + [Audit("gated", c.call.FullName(), c.call.agentId, None),
                  Audit("decided", c.call.FullName(), c.call.agentId, None)],
         log + [Audit("resumed", c.call.FullName(), c.call.agentId, None)])
  }

  function Waited(c: Ctx): Ctx {
    Note(Note(c, "gated"), "decided")
  }

  function Resumed(c: Ctx, log: seq<Event>): Ctx {
    Ctx(c.call, c.grant, true, map[], log, c.world)
  }

  lemma AdoptedAlike(svc: Services, c: Ctx, verdict: Decision, log: seq<Event>)
    requires c.canBlock && "edit_note" !in c.bag
    ensures Alike(Since(c, log), Adopt(svc, Waited(c), verdict), Note(Adopt(svc, Resumed(c, log), verdict), "resumed"))
  {
    var v, x := Since(c, log), Adopt(svc, Waited(c), verdict);
    var y := Note(Adopt(svc, Resumed(c, log), verdict), "resumed");
    assert x.log == v.left && y.log == v.right;
    assert x.bag.Keys <= c.bag.Keys + {"edit_note"};
  }

  lemma GateApproved(svc: Services, id: string, c: Ctx, verdict: Decision, k: Next)
    requires c.grant.Some? && c.grant.value.mode == Interactive && c.canBlock
    ensures Gate(svc, id, verdict)(c, k) == Decide(svc, id, Waited(c), verdict, k)
  {
  }

  lemma ResumeApproved(svc: Services, id: string, c: Ctx, verdict: Decision, log: seq<Event>, k: Next)
    requires c.grant.Some? && svc.grantFor(c.world, c.call) == (c.world, c.grant)
    ensures Resume(svc, id, c.call, verdict, log, c.world, k)
            == if verdict.status == Approved then Stored(svc, id, k(Note(Adopt(svc, Resumed(c, log), verdict), "resumed")))
               else Ret(Resumed(c, log), Raised(ApprovalDenied(verdict)))
  {
  }

  lemma StoredAlike(svc: Services, id: string, v: View, r: Ret, t: Ret)
    requires AlikeRets(v, r, t)
    ensures AlikeRets(v, Stored(svc, id, r), Stored(svc, id, t))
  {
  }

  lemma WaitingSendsNothing(c: Ctx)
    ensures Sends(Waited(c).log) == Sends(c.log)
  {
    var gated := Note(c, "gated");
    SendsAppend(c.log, gated.log[|c.log|]);
    SendsAppend(gated.log, Waited(c).log[|gated.log|]);
  }

  /** A call approved while its caller waits and the same call filed as a ticket and resumed under the
      same grant come to the same outcome, with the same calls sent and the same events from there on,
      provided the steps after the gate read no bag entry the steps before it left. */
  lemma BlockingIsResuming(svc: Services, after: seq<Step>, id: string, c: Ctx, verdict: Decision, log: seq<Event>)
    requires c.grant.Some? && c.grant.value.mode == Interactive && c.canBlock
    requires svc.grantFor(c.world, c.call) == (c.world, c.grant)
    requires "edit_note" !in c.bag
    requires forall i :: 0 <= i < |after| ==> Blind(Since(c, log), after[i])
    ensures var post := Chain(after, Last(svc));
            var blocking := Gate(svc, id, verdict)(c, post);
            var resumed := Resume(svc, id, c.call, verdict, log, c.world, post);
            if verdict.status == Approved then AlikeRets(Since(c, log), blocking, resumed)
            else && blocking.outcome == resumed.outcome == Raised(ApprovalDenied(verdict))
                 && Sends(blocking.ctx.log) == Sends(c.log) && resumed.ctx.log == log
  {
    var post := Chain(after, Last(svc));
    GateApproved(svc, id, c, verdict, post);
    ResumeApproved(svc, id, c, verdict, log, post);
    WaitingSendsNothing(c);
    if verdict.status == Approved {
      AdoptedAlike(svc, c, verdict, log);
      LastAgrees(svc, Since(c, log));
      BlindChain(Since(c, log), after, Last(svc), Last(svc));
      StoredAlike(svc, id, Since(c, log), post(Adopt(svc, Waited(c), verdict)),
                  post(Note(Adopt(svc, Resumed(c, log), verdict), "resumed")));
    }
  }

  function BuiltInsAfter(svc: Services): seq<Step> {
    [Audited(Validate(svc), "validate"), Audited(Materialize(svc), "materialize"), Redact(svc)]
  }

  lemma BuiltInsAfterAreBlind(svc: Services, v: View)
    ensures forall i :: 0 <= i < |BuiltInsAfter(svc)| ==> Blind(v, BuiltInsAfter(svc)[i])
  {
    BuiltInsAreBlind(svc, v);
    BlindThree(v, Audited(Validate(svc), "validate"), Audited(Materialize(svc), "materialize"), Redact(svc));
  }

  lemma BlindThree(v: View, a: Step, b: Step, c: Step)
    requires Blind(v, a) && Blind(v, b) && Blind(v, c)
    ensures forall i :: 0 <= i < 3 ==> Blind(v, [a, b, c][i])
  {
    forall i | 0 <= i < 3 ensures Blind(v, [a, b, c][i]) {
      if i == 0 {
        assert [a, b, c][i] == a;
      } else if i == 1 {
        assert [a, b, c][i] == b;
      } else {
        assert [a, b, c][i] == c;
      }
    }
  }

  /** With the built-in steps that is all: no bag entry a step leaves before the gate matters after it. */
  lemma BuiltInsBlockAsTheyResume(svc: Services, id: string, c: Ctx, verdict: Decision, log: seq<Event>)
    requires c.grant.Some? && c.grant.value.mode == Interactive && c.canBlock
    requires svc.grantFor(c.world, c.call) == (c.world, c.grant)
    requires "edit_note" !in c.bag
    ensures var post := Chain(BuiltInsAfter(svc), Last(svc));
            var blocking := Gate(svc, id, verdict)(c, post);
            var resumed := Resume(svc, id, c.call, verdict, log, c.world, post);
            if verdict.status == Approved then AlikeRets(Since(c, log), blocking, resumed)
            else && blocking.outcome == resumed.outcome == Raised(ApprovalDenied(verdict))
                 && Sends(blocking.ctx.log) == Sends(c.log) && resumed.ctx.log == log
  {
    BuiltInsAfterAreBlind(svc, Since(c, log));
    BlockingIsResuming(svc, BuiltInsAfter(svc), id, c, verdict, log);
  }

  /** When the steps after the gate fail an approved call, the gate stores the failure and raises it again:
      a step of a path the error passes. */
  lemma GateLetsPass(svc: Services, id: string, verdict: Decision, c: Ctx, path: seq<Pass>, k: Next, e: Error)
    requires c.grant.Some? && c.grant.value.mode == Interactive && c.canBlock && verdict.status == Approved
    requires path != [] && LetsPass(path, k, e) && path[0].entered == Adopt(svc, Waited(c), verdict)
    ensures var failed := Chain(StepsOn(path), k)(path[0].entered).ctx;
            var left := failed.(world := svc.complete(failed.world, id, ErrorResult(e)));
            LetsPass([Pass(Item(Gate(svc, id, verdict), Some("approval")), c, left, [])] + path, k, e)
  {
    var next := Chain(StepsOn(path), k);
    var failed := next(path[0].entered).ctx;
    var left := failed.(world := svc.complete(failed.world, id, ErrorResult(e)));
    var gate := Pass(Item(Gate(svc, id, verdict), Some("approval")), c, left, []);
    assert ([gate] + path)[1..] == path;
    TrailOf(path, k, e);
    GateApproved(svc, id, c, verdict, next);
    assert failed.log + [] == failed.log;
  }

  // ---- who is sent what ------------------------------------------------------------------------

  /** A refused grant ends the run with nothing sent, whatever the rest of the pipeline is. */
  lemma UnauthorizedIsNotSent(svc: Services, c: Ctx, k: Next, tag: string)
    requires svc.grantFor(c.world, c.call).1.None?
    ensures var r := Audited(Authorize(svc), tag)(c, k);
            && r.outcome == Raised(ToolNotAllowed("not allowed: " + c.call.FullName()))
            && Sends(r.ctx.log) == Sends(c.log)
  {
    AuditedSends(Authorize(svc), tag, c, k);
  }

  lemma BuiltInsCallNextAtMostOnce(svc: Services)
    ensures CallsNextAtMostOnce(RateLimit(svc)) && CallsNextAtMostOnce(Authorize(svc))
    ensures CallsNextAtMostOnce(Validate(svc)) && CallsNextAtMostOnce(Materialize(svc))
    ensures CallsNextAtMostOnce(Redact(svc))
  {
    forall c: Ctx, k: Next
      ensures Sends(RateLimit(svc)(c, k).ctx.log) == Sends(c.log) || HandsOn(RateLimit(svc), c, k)
    {
      var (w, ok) := svc.admit(c.world, c.call.agentId, c.call.FullName());
      assert Sends(c.(world := w).log) == Sends(c.log);
    }
    forall c: Ctx, k: Next
      ensures Sends(Authorize(svc)(c, k).ctx.log) == Sends(c.log) || HandsOn(Authorize(svc), c, k)
    {
      var (w, grant) := svc.grantFor(c.world, c.call);
      var d := Note(c.(world := w, grant := grant), "authorized");
      SendsAppend(c.log, d.log[|c.log|]);
    }
    forall c: Ctx, k: Next
      ensures Sends(Validate(svc)(c, k).ctx.log) == Sends(c.log) || HandsOn(Validate(svc), c, k)
    {
    }
    forall c: Ctx, k: Next
      ensures Sends(Materialize(svc)(c, k).ctx.log) == Sends(c.log) || HandsOn(Materialize(svc), c, k)
    {
      var m := svc.materialize(c.world, c.call);
      if m.Resolved? {
        var d := WithSecrets(c, m.args, m.refs);
        if m.refs != [] {
          SendsAppend(c.log, d.log[|c.log|]);
        }
        assert Sends(d.log) == Sends(c.log);
      }
    }
    forall c: Ctx, k: Next
      ensures Sends(Redact(svc)(c, k).ctx.log) == Sends(c.log) || HandsOn(Redact(svc), c, k)
    {
      var r := k(c);
      SendsAppend(r.ctx.log, Note(r.ctx, "leak_detected").log[|r.ctx.log|]);
      assert Sends(Redact(svc)(c, k).ctx.log) == Sends(k(c).ctx.log);
    }
  }

  lemma GateCallsNextAtMostOnce(svc: Services, id: string, verdict: Decision)
    ensures CallsNextAtMostOnce(Gate(svc, id, verdict))
  {
    var gate := Gate(svc, id, verdict);
    forall c: Ctx, k: Next ensures Sends(gate(c, k).ctx.log) == Sends(c.log) || HandsOn(gate, c, k) {
      var gated := Note(c, "gated");
      var decided := Note(gated, "decided");
      SendsAppend(c.log, gated.log[|c.log|]);
      SendsAppend(gated.log, decided.log[|gated.log|]);
      assert Sends(c.log) == Sends(c.log);
      assert Sends(Adopt(svc, decided, verdict).log) == Sends(c.log);
    }
  }

  lemma LastSends(svc: Services, c: Ctx)
    ensures Sends(Last(svc)(c).ctx.log) == Sends(c.log) + 1
    ensures c.log + [Sent(c.call)] <= Last(svc)(c).ctx.log
  {
    var log := c.log + [Sent(c.call)];
    SendsAppend(c.log, Sent(c.call));
    var (w, answer) := svc.callTool(c.world, c.call);
    match answer {
      case Failed(text) => SendsAppend(log, Audit("call_failed", c.call.FullName(), c.call.agentId, None));
      case Answer(r, elapsedMs) => SendsAppend(log, Audit("call", c.call.FullName(), c.call.agentId, None));
    }
  }

  /** However steps are contributed around the built-ins, one run of a pipeline sends its call at most once
      as long as each of them calls on at most once. */
  lemma PipelineSendsAtMostOnce(svc: Services, steps: seq<Step>, c: Ctx)
    requires forall i :: 0 <= i < |steps| ==> CallsNextAtMostOnce(steps[i])
    ensures Sends(Chain(steps, Last(svc))(c).ctx.log) <= Sends(c.log) + 1
  {
    forall d: Ctx ensures Sends(Last(svc)(d).ctx.log) <= Sends(d.log) + 1 {
      LastSends(svc, d);
    }
    ChainSendsAtMostOnce(steps, Last(svc));
  }

  lemma ChainOfThree(a: Step, b: Step, c: Step, k: Next, x: Ctx)
    ensures Chain([a, b, c], k)(x) == a(x, Handler(b, Handler(c, k)))
  {
    assert [a, b, c][1..] == [b, c] && [b, c][1..] == [c] && [c][1..] == [];
    assert Chain([c], k) == Handler(c, k);
    assert Chain([b, c], k) == Handler(b, Handler(c, k));
  }

  lemma AuditedReturns(s: Step, tag: string, c: Ctx, k: Next)
    ensures Audited(s, tag)(c, k).outcome == s(c, k).outcome
    ensures s(c, k).ctx.log <= Audited(s, tag)(c, k).ctx.log
    ensures Sends(Audited(s, tag)(c, k).ctx.log) == Sends(s(c, k).ctx.log)
  {
    AuditedSends(s, tag, c, k);
  }

  /** The wording of an edit's note. */
  function NoteOf(svc: Services, c: Ctx, d: Decision): string
    requires d.edited.Some?
  {
    svc.noteText(if d.approver == "" then "?" else d.approver, Changed(c.call.arguments, d.edited.value))
  }

  lemma NotedByLast(svc: Services, c: Ctx)
    requires forall w, r, u :: svc.redact(w, r, u).Some? ==> svc.redact(w, r, u).value.notes == r.notes
    ensures var note, r := EditNote(c.bag), Redact(svc)(c, Last(svc));
            note.Some? && r.outcome.Returned? ==> |r.outcome.result.notes| > 0 && r.outcome.result.notes[0] == note.value
  {
    var r := Last(svc)(c);
    if r.outcome.Returned? && EditNote(c.bag).Some? {
      var (w, answer) := svc.callTool(c.world, c.call);
      assert r.outcome.result.notes == [EditNote(c.bag).value] + answer.result.notes;
      assert svc.redact(r.ctx.world, r.outcome.result, r.ctx.call.upstreamId).Some? ==>
               svc.redact(r.ctx.world, r.outcome.result, r.ctx.call.upstreamId).value.notes == r.outcome.result.notes;
    }
  }

  lemma AdoptLeavesANote(svc: Services, c: Ctx, d: Decision)
    requires d.edited.Some? && d.edited.value != c.call.arguments && NoteOf(svc, c, d) != ""
    ensures EditNote(Adopt(svc, c, d).bag) == Some(NoteOf(svc, c, d))
  {
  }

  lemma SecretsKeepTheNote(c: Ctx, args: Args, refs: seq<string>)
    ensures EditNote(WithSecrets(c, args, refs).bag) == EditNote(c.bag)
  {
  }

  /** An agent whose call an operator edited finds the operator's note first among those of its result. */
  lemma EditReachesTheAgent(svc: Services, id: string, c: Ctx, d: Decision)
    requires d.status == Approved && d.edited.Some? && d.edited.value != c.call.arguments && NoteOf(svc, c, d) != ""
    requires forall w, r, u :: svc.redact(w, r, u).Some? ==> svc.redact(w, r, u).value.notes == r.notes
    ensures var r := Decide(svc, id, c, d, Chain(BuiltInsAfter(svc), Last(svc)));
            r.outcome.Returned? ==> |r.outcome.result.notes| > 0 && r.outcome.result.notes[0] == NoteOf(svc, c, d)
  {
    var e := Adopt(svc, c, d);
    var redacted := Handler(Redact(svc), Last(svc));
    var rest := Handler(Audited(Materialize(svc), "materialize"), redacted);
    ChainOfThree(Audited(Validate(svc), "validate"), Audited(Materialize(svc), "materialize"), Redact(svc), Last(svc), e);
    AuditedReturns(Validate(svc), "validate", e, rest);
    AuditedReturns(Materialize(svc), "materialize", e, redacted);
    var m := svc.materialize(e.world, e.call);
    if m.Resolved? {
      AdoptLeavesANote(svc, c, d);
      SecretsKeepTheNote(e, m.args, m.refs);
      NotedByLast(svc, WithSecrets(e, m.args, m.refs));
    }
  }
}
