/** The composable pipeline: steps chained by continuations, each free to act before, after or instead
    of the rest. A step is a function from the context and its continuation to the context it leaves
    behind and an outcome. */
module Pipeline {
  import opened Domain

  /** Whatever else steps and their services hold: limiter windows, policies, upstreams. */
  type World(!new)

  /** What a run does that others can see, in order: audit events and calls sent upstream. */
  datatype Event =
    | Audit(kind: string, tool: string, agent: string, error: Option<Error>)
    | Sent(call: ToolCall)

  datatype Ctx = Ctx(call: ToolCall, grant: Option<Grant>, canBlock: bool, bag: map<string, Value>,
                     log: seq<Event>, world: World)

  datatype Outcome =
    | Returned(result: ToolResult)
    | Raised(error: Error)
    | Broken  // an exception that is not a GatewayError

  datatype Ret = Ret(ctx: Ctx, outcome: Outcome)

  type Next = Ctx -> Ret
  type Step = (Ctx, Next) -> Ret

  function Note(c: Ctx, kind: string): Ctx {
    c.(log := c.log + [Audit(kind, c.call.FullName(), c.call.agentId, None)])
  }

  // ---- composition -----------------------------------------------------------------------------

  function Handler(s: Step, k: Next): Next {
    c => s(c, k)
  }

  /** The steps in order, then `k`. */
  function Chain(steps: seq<Step>, k: Next): Next {
    if steps == [] then k else Handler(steps[0], Chain(steps[1..], k))
  }

  /** A pipeline without a terminal step fails when it gets there. */
  function End(): Next {
    c => Ret(c, Broken)
  }

  function Run(steps: seq<Step>, c: Ctx): Ret {
    Chain(steps, End())(c)
  }

  /** Running a concatenation is running the first part with the second as its continuation. */
  lemma {:induction false} ChainConcat(a: seq<Step>, b: seq<Step>, k: Next)
    ensures Chain(a + b, k) == Chain(a, Chain(b, k))
  {
    if a == [] {
      assert a + b == b;
    } else {
      assert (a + b)[1..] == a[1..] + b;
      ChainConcat(a[1..], b, k);
    }
  }

  // ---- audit -----------------------------------------------------------------------------------

  /** A step wrapped so that an error passing out of it is recorded. */
  function Audited(s: Step, tag: string): Step {
    (c: Ctx, k: Next) =>
      var r := s(c, k);
      if r.outcome.Raised? then Ret(r.ctx.(log := r.ctx.log + [ErrorEvent(r.ctx, tag, r.outcome.error)]), r.outcome)
      else r
  }

  function ErrorEvent(c: Ctx, tag: string, e: Error): Event {
    Audit(tag + ".error", c.call.FullName(), c.call.agentId, Some(e))
  }

  /** A step and, if it is audited, under which name. */
  datatype Item = Item(step: Step, tag: Option<string>)

  function Wrapped(i: Item): Step {
    if i.tag.Some? then Audited(i.step, i.tag.value) else i.step
  }

  function StepsOf(items: seq<Item>): (steps: seq<Step>)
    ensures |steps| == |items|
    ensures forall i :: 0 <= i < |items| ==> steps[i] == Wrapped(items[i])
  {
    if items == [] then [] else [Wrapped(items[0])] + StepsOf(items[1..])
  }

  /** One step an error passes on its way out: the context it was entered with, the one it leaves behind, and
      the events of its own it adds in between (a step may see the error, act on it and raise it again). */
  datatype Pass = Pass(item: Item, entered: Ctx, left: Ctx, own: seq<Event>)

  function StepsOn(path: seq<Pass>): seq<Step> {
    if path == [] then [] else [Wrapped(path[0].item)] + StepsOn(path[1..])
  }

  /** The error is raised by the last step of the path; each step before it enters the next one and, when the
      error comes back, raises it again. What else it does to the context is its own affair. */
  ghost predicate LetsPass(path: seq<Pass>, k: Next, e: Error)
    requires path != []
  {
    var p, next := path[0], Chain(StepsOn(path[1..]), k);
    if |path| == 1 then p.own == [] && p.item.step(p.entered, next) == Ret(p.left, Raised(e))
    else
      && LetsPass(path[1..], k, e)
      && var inner := next(path[1].entered);
         inner.outcome == Raised(e) ==>
           p.item.step(p.entered, next) == Ret(p.left, Raised(e)) && p.left.log == inner.ctx.log + p.own
  }

  function WrapperEvent(p: Pass, e: Error): seq<Event> {
    if p.item.tag.None? then []
    else [Audit(p.item.tag.value + ".error", p.left.call.FullName(), p.left.call.agentId, Some(e))]
  }

  /** What a path adds to the log: from the innermost step outwards, its own events and then exactly one of
      its wrapper if it is audited. */
  function ErrorTrail(path: seq<Pass>, e: Error): seq<Event> {
    if path == [] then [] else ErrorTrail(path[1..], e) + path[0].own + WrapperEvent(path[0], e)
  }

  lemma WrappedRaises(p: Pass, k: Next, e: Error)
    requires p.item.step(p.entered, k) == Ret(p.left, Raised(e))
    ensures Wrapped(p.item)(p.entered, k) == Ret(p.left.(log := p.left.log + WrapperEvent(p, e)), Raised(e))
  {
    if p.item.tag.None? {
      assert p.left.log + [] == p.left.log;
    }
  }

  /** The error on its way out of one step: what came back from the next one, and what goes on. */
  lemma PassedOn(p: Pass, next: Next, handed: Ctx, inner: Ctx, e: Error)
    requires next(handed) == Ret(inner, Raised(e))
    requires p.item.step(p.entered, next) == Ret(p.left, Raised(e)) && p.left.log == inner.log + p.own
    ensures Wrapped(p.item)(p.entered, next)
            == Ret(p.left.(log := inner.log + p.own + WrapperEvent(p, e)), Raised(e))
  {
    WrappedRaises(p, next, e);
  }

  lemma ChainOnPath(path: seq<Pass>, k: Next, c: Ctx)
    requires path != []
    ensures Chain(StepsOn(path), k)(c) == Wrapped(path[0].item)(c, Chain(StepsOn(path[1..]), k))
  {
    assert StepsOn(path)[1..] == StepsOn(path[1..]);
  }

  lemma TrailGrows(path: seq<Pass>, raised: seq<Event>, e: Error)
    requires path != []
    ensures raised + ErrorTrail(path[1..], e) + path[0].own + WrapperEvent(path[0], e) == raised + ErrorTrail(path, e)
  {
  }

  lemma {:induction false} TrailOf(path: seq<Pass>, k: Next, e: Error)
    requires path != [] && LetsPass(path, k, e)
    ensures Chain(StepsOn(path), k)(path[0].entered)
            == Ret(path[0].left.(log := path[|path| - 1].left.log + ErrorTrail(path, e)), Raised(e))
  {
    var p, next, raised := path[0], Chain(StepsOn(path[1..]), k), path[|path| - 1].left.log;
    ChainOnPath(path, k, p.entered);
    TrailGrows(path, raised, e);
    if |path| == 1 {
      WrappedRaises(p, next, e);
      assert raised + [] + [] == raised;
    } else {
      var rest := path[1..];
      assert rest[|rest| - 1] == path[|path| - 1];
      TrailOf(rest, k, e);
      PassedOn(p, next, rest[0].entered, rest[0].left.(log := raised + ErrorTrail(rest, e)), e);
    }
  }

  /** An error raised at one position and raised again all the way out reaches the caller with exactly one
      event of each audited step on its way, innermost first, among those steps' own, and none of a step
      deeper than the one that raised it. */
  lemma ErrorLeavesATrail(path: seq<Pass>, deeper: seq<Step>, k: Next, e: Error)
    requires path != [] && LetsPass(path, Chain(deeper, k), e)
    ensures Chain(StepsOn(path) + deeper, k)(path[0].entered)
            == Ret(path[0].left.(log := path[|path| - 1].left.log + ErrorTrail(path, e)), Raised(e))
  {
    ChainConcat(StepsOn(path), deeper, k);
    TrailOf(path, Chain(deeper, k), e);
  }

  // ---- a chain sends a call at most once -------------------------------------------------------

  function Sends(log: seq<Event>): nat {
    if log == [] then 0 else Sends(log[..|log| - 1]) + (if log[|log| - 1].Sent? then 1 else 0)
  }

  lemma SendsAppend(log: seq<Event>, e: Event)
    ensures Sends(log + [e]) == Sends(log) + (if e.Sent? then 1 else 0)
  {
    assert (log + [e])[..|log|] == log;
  }

  /** The step sends nothing itself and calls its continuation at most once. */
  ghost predicate CallsNextAtMostOnce(s: Step) {
    forall c: Ctx, k: Next :: Sends(s(c, k).ctx.log) == Sends(c.log) || HandsOn(s, c, k)
  }

  ghost predicate HandsOn(s: Step, c: Ctx, k: Next) {
    exists d: Ctx :: Sends(d.log) == Sends(c.log) && Sends(s(c, k).ctx.log) == Sends(k(d).ctx.log)
  }

  ghost predicate SendsAtMostOnce(k: Next) {
    forall c: Ctx :: Sends(k(c).ctx.log) <= Sends(c.log) + 1
  }

  /** Steps that call on at most once, before a terminal that sends at most once, send at most once. */
  lemma {:induction false} ChainSendsAtMostOnce(steps: seq<Step>, k: Next)
    requires forall i :: 0 <= i < |steps| ==> CallsNextAtMostOnce(steps[i])
    requires SendsAtMostOnce(k)
    ensures SendsAtMostOnce(Chain(steps, k))
  {
    if steps != [] {
      ChainSendsAtMostOnce(steps[1..], k);
      var rest := Chain(steps[1..], k);
      forall c: Ctx ensures Sends(Chain(steps, k)(c).ctx.log) <= Sends(c.log) + 1 {
        assert CallsNextAtMostOnce(steps[0]);
        if HandsOn(steps[0], c, rest) {
          var d: Ctx :| Sends(d.log) == Sends(c.log) && Sends(steps[0](c, rest).ctx.log) == Sends(rest(d).ctx.log);
        }
      }
    }
  }

  /** Being audited changes none of that. */
  lemma AuditedCallsNextAtMostOnce(s: Step, tag: string)
    requires CallsNextAtMostOnce(s)
    ensures CallsNextAtMostOnce(Audited(s, tag))
  {
    forall c: Ctx, k: Next
      ensures Sends(Audited(s, tag)(c, k).ctx.log) == Sends(c.log) || HandsOn(Audited(s, tag), c, k)
    {
      AuditedSends(s, tag, c, k);
      if HandsOn(s, c, k) {
        var d: Ctx :| Sends(d.log) == Sends(c.log) && Sends(s(c, k).ctx.log) == Sends(k(d).ctx.log);
        assert Sends(Audited(s, tag)(c, k).ctx.log) == Sends(k(d).ctx.log);
      }
    }
  }

  lemma AuditedSends(s: Step, tag: string, c: Ctx, k: Next)
    ensures Sends(Audited(s, tag)(c, k).ctx.log) == Sends(s(c, k).ctx.log)
  {
    var r := s(c, k);
    if r.outcome.Raised? {
      SendsAppend(r.ctx.log, ErrorEvent(r.ctx, tag, r.outcome.error));
    }
  }

  // ---- two runs that differ only in forgotten bag entries and in what happened before ----------

  function Entry(bag: map<string, Value>, key: string): Option<Value> {
    if key in bag then Some(bag[key]) else None
  }

  /** What came after `p` in one log is what came after `q` in the other. */
  predicate SameSince(p: seq<Event>, q: seq<Event>, a: seq<Event>, b: seq<Event>) {
    p <= a && q <= b && a[|p|..] == b[|q|..]
  }

  /** Where two runs are being compared: the bag entries not to look at, and the two logs so far. */
  datatype View = View(hidden: set<string>, left: seq<Event>, right: seq<Event>)

  ghost predicate Alike(v: View, x: Ctx, y: Ctx) {
    && x.call == y.call && x.grant == y.grant && x.canBlock == y.canBlock && x.world == y.world
    && (forall key :: key !in v.hidden ==> Entry(x.bag, key) == Entry(y.bag, key))
    && SameSince(v.left, v.right, x.log, y.log)
  }

  ghost predicate AlikeRets(v: View, r: Ret, t: Ret) {
    r.outcome == t.outcome && Alike(v, r.ctx, t.ctx)
  }

  /** Alike contexts in, alike outcomes out. */
  ghost predicate Agree(v: View, k: Next, l: Next) {
    forall x: Ctx, y: Ctx :: Alike(v, x, y) ==> AlikeRets(v, k(x), l(y))
  }

  /** The step reads no hidden bag entry and nothing of the log. */
  ghost predicate Blind(v: View, s: Step) {
    forall k: Next, l: Next, x: Ctx, y: Ctx :: Agree(v, k, l) && Alike(v, x, y) ==> AlikeRets(v, s(x, k), s(y, l))
  }

  lemma BlindHandler(v: View, s: Step, k: Next, l: Next)
    requires Blind(v, s) && Agree(v, k, l)
    ensures Agree(v, Handler(s, k), Handler(s, l))
  {
  }

  lemma {:induction false} BlindChain(v: View, steps: seq<Step>, k: Next, l: Next)
    requires forall i :: 0 <= i < |steps| ==> Blind(v, steps[i])
    requires Agree(v, k, l)
    ensures Agree(v, Chain(steps, k), Chain(steps, l))
  {
    if steps != [] {
      var rest := steps[1..];
      forall i | 0 <= i < |rest| ensures Blind(v, rest[i]) {
        assert rest[i] == steps[i + 1];
      }
      BlindChain(v, rest, k, l);
      BlindHandler(v, steps[0], Chain(rest, k), Chain(rest, l));
    }
  }

  lemma LogAlike(v: View, x: Ctx, y: Ctx, e: Event)
    requires Alike(v, x, y)
    ensures Alike(v, x.(log := x.log + [e]), y.(log := y.log + [e]))
  {
    assert (x.log + [e])[|v.left|..] == x.log[|v.left|..] + [e];
    assert (y.log + [e])[|v.right|..] == y.log[|v.right|..] + [e];
  }

  /** Auditing a step does not make it look. */
  lemma AuditedIsBlind(v: View, s: Step, tag: string)
    requires Blind(v, s)
    ensures Blind(v, Audited(s, tag))
  {
    forall k: Next, l: Next, x: Ctx, y: Ctx | Agree(v, k, l) && Alike(v, x, y)
      ensures AlikeRets(v, Audited(s, tag)(x, k), Audited(s, tag)(y, l))
    {
      var r, t := s(x, k), s(y, l);
      assert AlikeRets(v, r, t);
      if r.outcome.Raised? {
        LogAlike(v, r.ctx, t.ctx, ErrorEvent(r.ctx, tag, r.outcome.error));
      }
    }
  }
}
