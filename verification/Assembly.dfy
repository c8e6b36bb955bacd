/** How the gateway puts its two pipelines together, and what a contributed step can and cannot change. */
module Assembly {
  import opened Domain
  import opened Pipeline
  import opened Steps

  datatype Stage = BeforeApproval | AfterApproval | NotAStage

  /** A step with its place: stages split the chain at the gate, orders sort it within a stage. */
  datatype Placed = Placed(item: Item, stage: Stage, order: int)

  /** A step contributed by the application. */
  datatype Extra = Extra(name: string, step: Step, stage: Stage, order: int)

  datatype Pipelines = Pipelines(full: seq<Step>, post: seq<Step>)

  function Authorizing(svc: Services): Placed {
    Placed(Item(Authorize(svc), Some("authorize")), BeforeApproval, 100)
  }

  function RateLimiting(svc: Services): Placed {
    Placed(Item(RateLimit(svc), Some("rate_limit")), BeforeApproval, 50)
  }

  function Validating(svc: Services): Placed {
    Placed(Item(Validate(svc), Some("validate")), AfterApproval, 100)
  }

  function Materializing(svc: Services): Placed {
    Placed(Item(Materialize(svc), Some("materialize")), AfterApproval, 200)
  }

  function Redacting(svc: Services): Placed {
    Placed(Item(Redact(svc), None), AfterApproval, 300)
  }

  function BuiltIns(svc: Services, limited: bool): seq<Placed> {
    [Authorizing(svc), Validating(svc), Materializing(svc), Redacting(svc)]
    + (if limited then [RateLimiting(svc)] else [])
  }

  function AuditedExtras(extras: seq<Extra>): (placed: seq<Placed>)
    ensures |placed| == |extras|
    ensures forall i :: 0 <= i < |extras| ==>
              placed[i] == Placed(Item(extras[i].step, Some("step." + extras[i].name)), extras[i].stage, extras[i].order)
  {
    seq(|extras|, i requires 0 <= i < |extras| =>
      Placed(Item(extras[i].step, Some("step." + extras[i].name)), extras[i].stage, extras[i].order))
  }

  function AtStage(chain: seq<Placed>, stage: Stage): seq<Placed> {
    if chain == [] then []
    else (if chain[0].stage == stage then [chain[0]] else []) + AtStage(chain[1..], stage)
  }

  // ---- a stable sort ---------------------------------------------------------------------------

  function Insert(p: Placed, s: seq<Placed>): seq<Placed> {
    if s == [] || p.order <= s[0].order then [p] + s else [s[0]] + Insert(p, s[1..])
  }

  /** `sorted(..., key=order)`. */
  function Sort(s: seq<Placed>): seq<Placed> {
    if s == [] then [] else Insert(s[0], Sort(s[1..]))
  }

  ghost predicate Ascending(s: seq<Placed>) {
    forall i, j :: 0 <= i < j < |s| ==> s[i].order <= s[j].order
  }

  function OfOrder(s: seq<Placed>, order: int): seq<Placed> {
    if s == [] then [] else (if s[0].order == order then [s[0]] else []) + OfOrder(s[1..], order)
  }

  lemma {:induction false} InsertAscending(p: Placed, s: seq<Placed>)
    requires Ascending(s)
    ensures Ascending(Insert(p, s))
    ensures |Insert(p, s)| == |s| + 1
    ensures forall q :: q in Insert(p, s) <==> q == p || q in s
  {
    if s != [] && p.order > s[0].order {
      InsertAscending(p, s[1..]);
      assert s == [s[0]] + s[1..];
      forall q | q in Insert(p, s[1..]) ensures s[0].order <= q.order {
      }
      var t := Insert(p, s);
      forall i, j | 0 <= i < j < |t| ensures t[i].order <= t[j].order {
        assert t[j] in Insert(p, s[1..]);
      }
    }
  }

  lemma OfOrderCons(p: Placed, s: seq<Placed>, order: int)
    ensures OfOrder([p] + s, order) == if p.order == order then [p] + OfOrder(s, order) else OfOrder(s, order)
  {
    assert ([p] + s)[1..] == s;
  }

  lemma {:induction false} InsertOfOrder(p: Placed, s: seq<Placed>, order: int)
    ensures OfOrder(Insert(p, s), order) == if p.order == order then [p] + OfOrder(s, order) else OfOrder(s, order)
  {
    if s == [] || p.order <= s[0].order {
      OfOrderCons(p, s, order);
    } else {
      InsertOfOrder(p, s[1..], order);
      OfOrderCons(s[0], Insert(p, s[1..]), order);
      OfOrderCons(s[0], s[1..], order);
      assert s == [s[0]] + s[1..];
    }
  }

  /** The result is ascending, holds the same steps, and keeps steps of equal order as they were. */
  lemma {:induction false} SortIsStable(s: seq<Placed>)
    ensures Ascending(Sort(s))
    ensures forall p :: p in Sort(s) <==> p in s
    ensures forall order :: OfOrder(Sort(s), order) == OfOrder(s, order)
  {
    if s != [] {
      SortIsStable(s[1..]);
      InsertAscending(s[0], Sort(s[1..]));
      assert s == [s[0]] + s[1..];
      forall order ensures OfOrder(Sort(s), order) == OfOrder(s, order) {
        InsertOfOrder(s[0], Sort(s[1..]), order);
        OfOrderCons(s[0], s[1..], order);
      }
    }
  }

  lemma {:induction false} OfOrderMembers(s: seq<Placed>, order: int, p: Placed)
    ensures p in OfOrder(s, order) <==> p in s && p.order == order
  {
    if s != [] {
      OfOrderMembers(s[1..], order, p);
      assert s == [s[0]] + s[1..];
    }
  }

  lemma FirstIsLowest(a: seq<Placed>, b: seq<Placed>)
    requires Ascending(b) && a != []
    requires forall order :: OfOrder(a, order) == OfOrder(b, order)
    ensures b != [] && b[0].order <= a[0].order
  {
    OfOrderMembers(a, a[0].order, a[0]);
    assert OfOrder(a, a[0].order) == OfOrder(b, a[0].order);
    OfOrderMembers(b, a[0].order, a[0]);
    var i :| 0 <= i < |b| && b[i] == a[0];
  }

  /** That determines it: any sort with these properties gives the same sequence. */
  lemma {:induction false} StableSortIsUnique(a: seq<Placed>, b: seq<Placed>)
    requires Ascending(a) && Ascending(b)
    requires forall order :: OfOrder(a, order) == OfOrder(b, order)
    ensures a == b
  {
    if a == [] {
      if b != [] {
        FirstIsLowest(b, a);
      }
    } else {
      FirstIsLowest(a, b);
      FirstIsLowest(b, a);
      assert a == [a[0]] + a[1..] && b == [b[0]] + b[1..];
      forall order ensures OfOrder(a[1..], order) == OfOrder(b[1..], order) {
        OfOrderCons(a[0], a[1..], order);
        OfOrderCons(b[0], b[1..], order);
        assert OfOrder(a, order) == OfOrder(b, order);
        if order == a[0].order {
          assert OfOrder(a[1..], order) == OfOrder(a, order)[1..];
          assert OfOrder(b[1..], order) == OfOrder(b, order)[1..];
        }
      }
      assert a[0] == OfOrder(a, a[0].order)[0] == OfOrder(b, a[0].order)[0] == b[0];
      StableSortIsUnique(a[1..], b[1..]);
    }
  }

  // ---- the two pipelines -----------------------------------------------------------------------

  function ItemsOf(s: seq<Placed>): (items: seq<Item>)
    ensures |items| == |s| && forall i :: 0 <= i < |s| ==> items[i] == s[i].item
  {
    seq(|s|, i requires 0 <= i < |s| => s[i].item)
  }

  function Chained(svc: Services, limited: bool, extras: seq<Extra>): seq<Placed> {
    BuiltIns(svc, limited) + AuditedExtras(extras)
  }

  /** The steps of a stage, in the order they run. */
  function Stepped(svc: Services, limited: bool, extras: seq<Extra>, stage: Stage): seq<Step> {
    StepsOf(ItemsOf(Sort(AtStage(Chained(svc, limited, extras), stage))))
  }

  /** Refuses (a ValueError) a contributed step that names no stage. */
  method Assemble(svc: Services, limited: bool, extras: seq<Extra>, gate: Step) returns (p: Option<Pipelines>)
    ensures p.None? <==> exists i :: 0 <= i < |extras| && extras[i].stage == NotAStage
    ensures p.Some? ==>
              && p.value.post == Stepped(svc, limited, extras, AfterApproval) + [Dispatch(svc)]
              && p.value.full == Stepped(svc, limited, extras, BeforeApproval) + [Audited(gate, "approval")] + p.value.post
  {
    var builtIn := [Authorizing(svc), Validating(svc), Materializing(svc), Redacting(svc)];
    if limited {
      builtIn := builtIn + [RateLimiting(svc)];
    }
    for i := 0 to |extras|
      invariant forall j :: 0 <= j < i ==> extras[j].stage != NotAStage
    {
      if extras[i].stage.NotAStage? {
        return None;
      }
    }
    var chain := builtIn + AuditedExtras(extras);
    assert chain == Chained(svc, limited, extras);
    var before := StepsOf(ItemsOf(Sort(AtStage(chain, BeforeApproval))));
    var after := StepsOf(ItemsOf(Sort(AtStage(chain, AfterApproval))));
    var post := after + [Dispatch(svc)];
    return Some(Pipelines(before + [Audited(gate, "approval")] + post, post));
  }

  /** After the gate, the full pipeline is the one a resumed ticket runs: no resume skips a step. */
  lemma FullAfterTheGateIsPost(before: seq<Step>, gate: Step, post: seq<Step>)
    ensures Chain(before + [gate] + post, End()) == Chain(before, Handler(gate, Chain(post, End())))
  {
    ChainConcat(before + [gate], post, End());
    ChainConcat(before, [gate], Chain(post, End()));
    assert Chain([gate], Chain(post, End())) == Handler(gate, Chain(post, End()));
  }

  lemma PostEndsInDispatch(svc: Services, after: seq<Step>)
    ensures Chain(after + [Dispatch(svc)], End()) == Chain(after, Last(svc))
  {
    ChainConcat(after, [Dispatch(svc)], End());
  }

  // ---- where the built-ins stand ---------------------------------------------------------------

  lemma {:induction false} AtStageMembers(chain: seq<Placed>, stage: Stage, p: Placed)
    ensures p in AtStage(chain, stage) <==> p in chain && p.stage == stage
  {
    if chain != [] {
      AtStageMembers(chain[1..], stage, p);
      assert chain == [chain[0]] + chain[1..];
    }
  }

  lemma {:induction false} AtStageConcat(a: seq<Placed>, b: seq<Placed>, stage: Stage)
    ensures AtStage(a + b, stage) == AtStage(a, stage) + AtStage(b, stage)
  {
    if a == [] {
      assert a + b == b;
    } else {
      assert (a + b)[1..] == a[1..] + b;
      AtStageConcat(a[1..], b, stage);
    }
  }

  lemma {:induction false} OfOrderConcat(a: seq<Placed>, b: seq<Placed>, order: int)
    ensures OfOrder(a + b, order) == OfOrder(a, order) + OfOrder(b, order)
  {
    if a == [] {
      assert a + b == b;
    } else {
      assert (a + b)[1..] == a[1..] + b;
      OfOrderConcat(a[1..], b, order);
    }
  }

  /** At equal order a built-in runs before a contributed step, and these in the order they were given. */
  lemma BuiltInsGoFirst(svc: Services, limited: bool, extras: seq<Extra>, stage: Stage, order: int)
    ensures OfOrder(Sort(AtStage(Chained(svc, limited, extras), stage)), order)
            == OfOrder(AtStage(BuiltIns(svc, limited), stage), order)
               + OfOrder(AtStage(AuditedExtras(extras), stage), order)
  {
    SortIsStable(AtStage(Chained(svc, limited, extras), stage));
    AtStageConcat(BuiltIns(svc, limited), AuditedExtras(extras), stage);
    OfOrderConcat(AtStage(BuiltIns(svc, limited), stage), AtStage(AuditedExtras(extras), stage), order);
  }

  /** A step of the chain runs in its stage, after everything of a lower order. */
  lemma StandsInItsStage(chain: seq<Placed>, p: Placed) returns (i: nat)
    requires p in chain
    ensures var s := Sort(AtStage(chain, p.stage));
            && i < |s| && s[i] == p
            && forall j :: 0 <= j < |s| && s[j].order < p.order ==> j < i
  {
    AtStageMembers(chain, p.stage, p);
    SortIsStable(AtStage(chain, p.stage));
    i :| 0 <= i < |Sort(AtStage(chain, p.stage))| && Sort(AtStage(chain, p.stage))[i] == p;
  }

  /** Whatever is contributed, every approved execution validates, then materializes, then redacts. */
  lemma NoExecutionSkipsABuiltIn(svc: Services, limited: bool, extras: seq<Extra>) returns (v: nat, m: nat, r: nat)
    ensures var after := Stepped(svc, limited, extras, AfterApproval);
            && v < m < r < |after|
            && after[v] == Audited(Validate(svc), "validate")
            && after[m] == Audited(Materialize(svc), "materialize")
            && after[r] == Redact(svc)
  {
    var chain := Chained(svc, limited, extras);
    assert chain[1] == Validating(svc) && chain[2] == Materializing(svc) && chain[3] == Redacting(svc);
    v := StandsInItsStage(chain, Validating(svc));
    m := StandsInItsStage(chain, Materializing(svc));
    r := StandsInItsStage(chain, Redacting(svc));
  }

  // ---- a denied tool is never sent -------------------------------------------------------------

  /** The step hands on, at most once, only the call it was given, and sends nothing itself. */
  ghost predicate KeepsTheCall(s: Step) {
    forall c: Ctx, k: Next :: Sends(s(c, k).ctx.log) == Sends(c.log) || HandsOnTheCall(s, c, k)
  }

  ghost predicate HandsOnTheCall(s: Step, c: Ctx, k: Next) {
    exists d: Ctx :: d.call == c.call && Sends(d.log) == Sends(c.log) && Sends(s(c, k).ctx.log) == Sends(k(d).ctx.log)
  }

  /** This call goes nowhere from here. */
  ghost predicate Stops(k: Next, call: ToolCall) {
    forall c: Ctx :: c.call == call ==> Sends(k(c).ctx.log) == Sends(c.log)
  }

  lemma {:induction false} KeepersStop(steps: seq<Step>, k: Next, call: ToolCall)
    requires forall i :: 0 <= i < |steps| ==> KeepsTheCall(steps[i])
    requires Stops(k, call)
    ensures Stops(Chain(steps, k), call)
  {
    if steps != [] {
      KeepersStop(steps[1..], k, call);
      assert KeepsTheCall(steps[0]);
    }
  }

  predicate Denies(svc: Services, call: ToolCall, w: World) {
    svc.grantFor(w, call).1.None?
  }

  lemma AuthorizeStops(svc: Services, k: Next, call: ToolCall)
    requires forall w :: Denies(svc, call, w)
    ensures Stops(Handler(Audited(Authorize(svc), "authorize"), k), call)
  {
    forall c: Ctx | c.call == call
      ensures Sends(Handler(Audited(Authorize(svc), "authorize"), k)(c).ctx.log) == Sends(c.log)
    {
      assert Denies(svc, call, c.world);
      UnauthorizedIsNotSent(svc, c, k, "authorize");
    }
  }

  lemma AuditedKeepsTheCall(s: Step, tag: string)
    requires KeepsTheCall(s)
    ensures KeepsTheCall(Audited(s, tag))
  {
    forall c: Ctx, k: Next
      ensures Sends(Audited(s, tag)(c, k).ctx.log) == Sends(c.log) || HandsOnTheCall(Audited(s, tag), c, k)
    {
      AuditedSends(s, tag, c, k);
      if HandsOnTheCall(s, c, k) {
        var d: Ctx :| d.call == c.call && Sends(d.log) == Sends(c.log) && Sends(s(c, k).ctx.log) == Sends(k(d).ctx.log);
        assert Sends(Audited(s, tag)(c, k).ctx.log) == Sends(k(d).ctx.log);
      }
    }
  }

  lemma RateLimitKeepsTheCall(svc: Services)
    ensures KeepsTheCall(RateLimit(svc))
  {
    forall c: Ctx, k: Next
      ensures Sends(RateLimit(svc)(c, k).ctx.log) == Sends(c.log) || HandsOnTheCall(RateLimit(svc), c, k)
    {
      var (w, ok) := svc.admit(c.world, c.call.agentId, c.call.FullName());
      assert c.(world := w).call == c.call;
    }
  }

  /** Every step of the before stage but the authorizer is the rate limiter or a contributed one. */
  lemma BeforeSteps(svc: Services, limited: bool, extras: seq<Extra>, p: Placed)
    requires p in AtStage(Chained(svc, limited, extras), BeforeApproval)
    requires forall i :: 0 <= i < |extras| && extras[i].stage == BeforeApproval ==> KeepsTheCall(extras[i].step)
    ensures p == Authorizing(svc) || KeepsTheCall(Wrapped(p.item))
  {
    AtStageMembers(Chained(svc, limited, extras), BeforeApproval, p);
    if p in BuiltIns(svc, limited) {
      RateLimitKeepsTheCall(svc);
      AuditedKeepsTheCall(RateLimit(svc), "rate_limit");
    } else {
      var i :| 0 <= i < |extras| && AuditedExtras(extras)[i] == p;
      AuditedKeepsTheCall(extras[i].step, "step." + extras[i].name);
    }
  }

  /** A call the policy denies is never sent, whatever steps are contributed, as long as those before the
      gate pass the call on as it is. */
  lemma DeniedIsNeverSent(svc: Services, limited: bool, extras: seq<Extra>, gate: Step, c: Ctx)
    requires forall w :: Denies(svc, c.call, w)
    requires forall i :: 0 <= i < |extras| && extras[i].stage == BeforeApproval ==> KeepsTheCall(extras[i].step)
    ensures var before := Stepped(svc, limited, extras, BeforeApproval);
            var post := Stepped(svc, limited, extras, AfterApproval) + [Dispatch(svc)];
            Sends(Run(before + [Audited(gate, "approval")] + post, c).ctx.log) == Sends(c.log)
  {
    var before := Stepped(svc, limited, extras, BeforeApproval);
    var post := Stepped(svc, limited, extras, AfterApproval) + [Dispatch(svc)];
    var k := Handler(Audited(gate, "approval"), Chain(post, End()));
    FullAfterTheGateIsPost(before, Audited(gate, "approval"), post);
    AuthorizerStops(svc, limited, extras, k, c.call);
  }

  lemma AuthorizerStops(svc: Services, limited: bool, extras: seq<Extra>, k: Next, call: ToolCall)
    requires forall w :: Denies(svc, call, w)
    requires forall i :: 0 <= i < |extras| && extras[i].stage == BeforeApproval ==> KeepsTheCall(extras[i].step)
    ensures Stops(Chain(Stepped(svc, limited, extras, BeforeApproval), k), call)
  {
    var chain := Chained(svc, limited, extras);
    var placed, before := Sort(AtStage(chain, BeforeApproval)), Stepped(svc, limited, extras, BeforeApproval);
    assert chain[0] == Authorizing(svc);
    var a := FirstAuthorizer(svc, limited, extras);
    forall i | 0 <= i < a ensures KeepsTheCall(before[..a][i]) {
      SortIsStable(AtStage(chain, BeforeApproval));
      BeforeSteps(svc, limited, extras, placed[i]);
    }
    AuthorizeStops(svc, Chain(before[a + 1..], k), call);
    assert before == before[..a] + ([before[a]] + before[a + 1..]);
    ChainConcat(before[..a], [before[a]] + before[a + 1..], k);
    assert ([before[a]] + before[a + 1..])[1..] == before[a + 1..];
    KeepersStop(before[..a], Handler(before[a], Chain(before[a + 1..], k)), call);
  }

  lemma FirstAuthorizer(svc: Services, limited: bool, extras: seq<Extra>) returns (a: nat)
    ensures var placed := Sort(AtStage(Chained(svc, limited, extras), BeforeApproval));
            a < |placed| && placed[a] == Authorizing(svc) && forall i :: 0 <= i < a ==> placed[i] != Authorizing(svc)
  {
    var chain := Chained(svc, limited, extras);
    assert chain[0] == Authorizing(svc);
    var placed := Sort(AtStage(chain, BeforeApproval));
    var i := StandsInItsStage(chain, Authorizing(svc));
    a := 0;
    while placed[a] != Authorizing(svc)
      invariant a <= i && forall j :: 0 <= j < a ==> placed[j] != Authorizing(svc)
      decreases i - a
    {
      a := a + 1;
    }
  }
}
