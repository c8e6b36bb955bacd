/** The declarative policy: ordered rules over tool, agent, hints and arguments; first match wins. */
module Policy {
  import opened Domain
  import Glob

  datatype Op = Eq | Ne | Gt | Ge | Lt | Le | In

  /** What the source leaves to its libraries: character classes in globs, and the comparison
      operators (false on a type mismatch). */
  datatype Env = Env(classes: Glob.Classes, compare: (Op, Value, Value) -> bool)

  datatype Cond = Cond(arg: string, op: Op, value: Value)

  datatype Hint = ReadOnly | Destructive | Idempotent | OpenWorld

  datatype Rule = Rule(tool: string, agents: seq<string>, conds: seq<Cond>, hints: map<Hint, bool>,
                       deny: bool, mode: Mode, schema: Option<Value>)

  datatype Compiled = Compiled(rules: seq<Rule>, default: Option<Grant>, trust: seq<string>)

  // ---- hints -----------------------------------------------------------------------------------

  function HintKey(h: Hint): string {
    match h
    case ReadOnly => "readOnlyHint"
    case Destructive => "destructiveHint"
    case Idempotent => "idempotentHint"
    case OpenWorld => "openWorldHint"
  }

  /** What the protocol assumes of a tool that does not say. */
  function HintDefault(h: Hint): bool {
    h == Destructive || h == OpenWorld
  }

  function Truthy(v: Value): bool {
    match v
    case Null => false
    case Bool(b) => b
    case Num(n) => n != 0.0
    case Str(s) => s != ""
    case List(items) => items != []
    case Obj(fields) => fields != map[]
  }

  function Declared(annotations: Args, h: Hint): bool {
    if HintKey(h) in annotations then Truthy(annotations[HintKey(h)]) else HintDefault(h)
  }

  function EffectiveHint(annotations: Args, h: Hint): bool {
    if h == Destructive && Declared(annotations, ReadOnly) then false else Declared(annotations, h)
  }

  // ---- matching --------------------------------------------------------------------------------

  predicate Holds(env: Env, c: Cond, args: Args) {
    c.arg in args && env.compare(c.op, args[c.arg], c.value)
  }

  predicate AllHold(env: Env, conds: seq<Cond>, args: Args) {
    forall i :: 0 <= i < |conds| ==> Holds(env, conds[i], args)
  }

  predicate AnyGlob(env: Env, globs: seq<string>, s: string) {
    exists i :: 0 <= i < |globs| && Glob.Matches(env.classes, globs[i], s)
  }

  /** Tool, agent and hints match; the argument conditions are not checked. */
  predicate Targets(env: Env, r: Rule, call: ToolCall, trusted: bool) {
    && Glob.Matches(env.classes, r.tool, call.FullName())
    && AnyGlob(env, r.agents, call.agentId)
    && forall h :: h in r.hints ==> EffectiveHint(if trusted then call.annotations else map[], h) == r.hints[h]
  }

  predicate RuleMatches(env: Env, r: Rule, call: ToolCall, trusted: bool) {
    Targets(env, r, call, trusted) && AllHold(env, r.conds, call.arguments)
  }

  predicate Trusted(env: Env, p: Compiled, call: ToolCall) {
    AnyGlob(env, p.trust, call.upstreamId)
  }

  // ---- grant_for and may_call ------------------------------------------------------------------

  function SelectGrant(env: Env, rules: seq<Rule>, default: Option<Grant>, call: ToolCall, trusted: bool): Option<Grant> {
    if rules == [] then default
    else if RuleMatches(env, rules[0], call, trusted) then
      if rules[0].deny then None else Some(Grant(rules[0].mode, rules[0].schema))
    else SelectGrant(env, rules[1..], default, call, trusted)
  }

  function GrantFor(env: Env, policy: Option<Compiled>, call: ToolCall): Option<Grant> {
    if policy.None? then None
    else SelectGrant(env, policy.value.rules, policy.value.default, call, Trusted(env, policy.value, call))
  }

  function SelectMayCall(env: Env, rules: seq<Rule>, default: Option<Grant>, call: ToolCall, trusted: bool): bool {
    if rules == [] then default.Some?
    else if !Targets(env, rules[0], call, trusted) then SelectMayCall(env, rules[1..], default, call, trusted)
    else if rules[0].conds == [] || !rules[0].deny then !rules[0].deny
    else SelectMayCall(env, rules[1..], default, call, trusted)
  }

  function MayCall(env: Env, policy: Option<Compiled>, call: ToolCall): bool {
    policy.Some?
    && SelectMayCall(env, policy.value.rules, policy.value.default, call, Trusted(env, policy.value, call))
  }

  // ---- what decides ----------------------------------------------------------------------------

  /** Rule j is the first that matches. */
  ghost predicate FirstMatchAt(env: Env, p: Compiled, call: ToolCall, j: nat) {
    && j < |p.rules| && RuleMatches(env, p.rules[j], call, Trusted(env, p, call))
    && forall i :: 0 <= i < j ==> !RuleMatches(env, p.rules[i], call, Trusted(env, p, call))
  }

  ghost predicate NoneMatches(env: Env, p: Compiled, call: ToolCall) {
    forall i :: 0 <= i < |p.rules| ==> !RuleMatches(env, p.rules[i], call, Trusted(env, p, call))
  }

  lemma {:induction false} SelectAt(env: Env, rules: seq<Rule>, default: Option<Grant>, call: ToolCall, trusted: bool, j: nat)
    requires j <= |rules| && forall i :: 0 <= i < j ==> !RuleMatches(env, rules[i], call, trusted)
    ensures SelectGrant(env, rules, default, call, trusted) == SelectGrant(env, rules[j..], default, call, trusted)
  {
    if j == 0 {
      assert rules[0..] == rules;
    } else {
      SelectAt(env, rules[1..], default, call, trusted, j - 1);
      assert rules[1..][j - 1..] == rules[j..];
    }
  }

  /** The first rule that matches decides, with its own mode and schema; the default when none does; nothing
      is granted without a policy. */
  lemma FirstMatchDecides(env: Env, p: Compiled, call: ToolCall, j: nat)
    ensures FirstMatchAt(env, p, call, j) ==>
              GrantFor(env, Some(p), call)
              == if p.rules[j].deny then None else Some(Grant(p.rules[j].mode, p.rules[j].schema))
    ensures NoneMatches(env, p, call) ==> GrantFor(env, Some(p), call) == p.default
    ensures GrantFor(env, None, call) == None
  {
    var trusted := Trusted(env, p, call);
    if FirstMatchAt(env, p, call, j) {
      SelectAt(env, p.rules, p.default, call, trusted, j);
      assert p.rules[j..][0] == p.rules[j];
    }
    if NoneMatches(env, p, call) {
      SelectAt(env, p.rules, p.default, call, trusted, |p.rules|);
      assert p.rules[|p.rules|..] == [];
    }
  }

  /** What a match takes: the tool's glob, one of the agents' globs, every hint the rule names as the call's
      upstream declares it if it is trusted (as the protocol defaults it if not), and every condition, on an
      argument that is there. */
  lemma MatchMeans(env: Env, p: Compiled, r: Rule, call: ToolCall)
    ensures RuleMatches(env, r, call, Trusted(env, p, call)) <==>
              && Glob.Matches(env.classes, r.tool, call.upstreamId + "." + call.toolName)
              && (exists i :: 0 <= i < |r.agents| && Glob.Matches(env.classes, r.agents[i], call.agentId))
              && (forall h :: h in r.hints ==>
                    r.hints[h] == EffectiveHint(
                      if exists i :: 0 <= i < |p.trust| && Glob.Matches(env.classes, p.trust[i], call.upstreamId)
                      then call.annotations else map[], h))
              && (forall i :: 0 <= i < |r.conds| ==>
                    && r.conds[i].arg in call.arguments
                    && env.compare(r.conds[i].op, call.arguments[r.conds[i].arg], r.conds[i].value))
  {
    assert Trusted(env, p, call) <==>
           exists i :: 0 <= i < |p.trust| && Glob.Matches(env.classes, p.trust[i], call.upstreamId);
    assert AllHold(env, r.conds, call.arguments) <==>
           forall i :: 0 <= i < |r.conds| ==>
             && r.conds[i].arg in call.arguments
             && env.compare(r.conds[i].op, call.arguments[r.conds[i].arg], r.conds[i].value) by {
      assert forall i :: 0 <= i < |r.conds| ==>
               (Holds(env, r.conds[i], call.arguments) <==>
                 && r.conds[i].arg in call.arguments
                 && env.compare(r.conds[i].op, call.arguments[r.conds[i].arg], r.conds[i].value));
    }
  }

  /** Rule j is the first that settles a listing: it targets the call and is unconditional or an allow. */
  ghost predicate FirstFinalAt(env: Env, p: Compiled, call: ToolCall, j: nat) {
    && j < |p.rules| && Settles(env, p, call, j) && forall i :: 0 <= i < j ==> !Settles(env, p, call, i)
  }

  predicate Settles(env: Env, p: Compiled, call: ToolCall, i: nat)
    requires i < |p.rules|
  {
    Targets(env, p.rules[i], call, Trusted(env, p, call)) && (p.rules[i].conds == [] || !p.rules[i].deny)
  }

  lemma {:induction false} SelectMayCallAt(env: Env, p: Compiled, call: ToolCall, j: nat, n: nat)
    requires n <= j <= |p.rules| && forall i :: n <= i < j ==> !Settles(env, p, call, i)
    ensures SelectMayCall(env, p.rules[n..], p.default, call, Trusted(env, p, call))
            == SelectMayCall(env, p.rules[j..], p.default, call, Trusted(env, p, call))
    decreases j - n
  {
    if n < j {
      assert !Settles(env, p, call, n);
      assert p.rules[n..][1..] == p.rules[n + 1..];
      SelectMayCallAt(env, p, call, j, n + 1);
    }
  }

  /** The first such rule settles the listing: listed if it allows. Without one, if there is a default. */
  lemma FirstFinalDecides(env: Env, p: Compiled, call: ToolCall, j: nat)
    ensures FirstFinalAt(env, p, call, j) ==> MayCall(env, Some(p), call) == !p.rules[j].deny
    ensures (forall i :: 0 <= i < |p.rules| ==> !Settles(env, p, call, i)) ==> MayCall(env, Some(p), call) == p.default.Some?
    ensures !MayCall(env, None, call)
  {
    assert p.rules[0..] == p.rules;
    if FirstFinalAt(env, p, call, j) {
      SelectMayCallAt(env, p, call, j, 0);
      assert Settles(env, p, call, j) && p.rules[j..][0] == p.rules[j];
    }
    if forall i :: 0 <= i < |p.rules| ==> !Settles(env, p, call, i) {
      SelectMayCallAt(env, p, call, |p.rules|, 0);
      assert p.rules[|p.rules|..] == [];
    }
  }

  /** The same call with other arguments. */
  function With(call: ToolCall, args: Args): ToolCall {
    call.(arguments := args)
  }

  ghost predicate Grantable(env: Env, policy: Option<Compiled>, call: ToolCall) {
    exists args :: GrantFor(env, policy, With(call, args)).Some?
  }

  lemma TargetsIgnoresArguments(env: Env, r: Rule, call: ToolCall, args: Args, trusted: bool)
    ensures Targets(env, r, With(call, args), trusted) == Targets(env, r, call, trusted)
  {
  }

  // ---- may_call never hides a tool the policy could grant --------------------------------------

  lemma {:induction false} SelectSound(env: Env, rules: seq<Rule>, default: Option<Grant>, call: ToolCall, args: Args,
                                       trusted: bool)
    requires SelectGrant(env, rules, default, With(call, args), trusted).Some?
    ensures SelectMayCall(env, rules, default, call, trusted)
  {
    if rules != [] {
      TargetsIgnoresArguments(env, rules[0], call, args, trusted);
      if !RuleMatches(env, rules[0], With(call, args), trusted) {
        SelectSound(env, rules[1..], default, call, args, trusted);
      }
    }
  }

  /** If a call is granted with some arguments, the tool is listed, whatever arguments it is asked with. */
  lemma MayCallIsSound(env: Env, policy: Option<Compiled>, call: ToolCall, args: Args)
    requires GrantFor(env, policy, With(call, args)).Some?
    ensures MayCall(env, policy, call)
  {
    assert Trusted(env, policy.value, With(call, args)) == Trusted(env, policy.value, call);
    SelectSound(env, policy.value.rules, policy.value.default, call, args, Trusted(env, policy.value, call));
  }

  // ---- when a listed tool can really be granted ------------------------------------------------

  /** Rule j allows the call with these arguments: no rule before it is an unconditional match, and
      none of the denials before it applies. */
  ghost predicate Offers(env: Env, rules: seq<Rule>, call: ToolCall, trusted: bool, j: nat, args: Args) {
    && j < |rules| && !rules[j].deny && RuleMatches(env, rules[j], With(call, args), trusted)
    && (forall i :: 0 <= i < j ==> !(Targets(env, rules[i], call, trusted) && rules[i].conds == []))
    && (forall i :: 0 <= i < j && rules[i].deny ==> !RuleMatches(env, rules[i], With(call, args), trusted))
  }

  ghost predicate FallsThrough(env: Env, rules: seq<Rule>, call: ToolCall, trusted: bool) {
    forall i :: 0 <= i < |rules| ==> !(Targets(env, rules[i], call, trusted) && rules[i].conds == [])
  }

  /** The policy could let the call through: some rule offers it, or the default does. */
  ghost predicate Offered(env: Env, rules: seq<Rule>, default: Option<Grant>, call: ToolCall, trusted: bool) {
    || (exists j: nat, args :: Offers(env, rules, call, trusted, j, args))
    || (default.Some? && FallsThrough(env, rules, call, trusted))
  }

  lemma {:induction false} OfferIsGranted(env: Env, rules: seq<Rule>, default: Option<Grant>, call: ToolCall,
                                          trusted: bool, j: nat, args: Args)
    requires Offers(env, rules, call, trusted, j, args)
    ensures SelectGrant(env, rules, default, With(call, args), trusted).Some?
  {
    if j > 0 && !RuleMatches(env, rules[0], With(call, args), trusted) {
      OfferIsGranted(env, rules[1..], default, call, trusted, j - 1, args);
    }
  }

  /** With no arguments at all, no conditional rule matches. */
  lemma {:induction false} DefaultIsGranted(env: Env, rules: seq<Rule>, default: Option<Grant>, call: ToolCall,
                                            trusted: bool)
    requires default.Some? && FallsThrough(env, rules, call, trusted)
    ensures SelectGrant(env, rules, default, With(call, map[]), trusted).Some?
  {
    if rules != [] {
      assert !RuleMatches(env, rules[0], With(call, map[]), trusted) by {
        TargetsIgnoresArguments(env, rules[0], call, map[], trusted);
        if rules[0].conds != [] {
          assert !Holds(env, rules[0].conds[0], map[]);
        }
      }
      DefaultIsGranted(env, rules[1..], default, call, trusted);
    }
  }

  /** Rules before `n` did not match these arguments; the grant comes from the first one that does. */
  lemma {:induction false} GrantIndex(env: Env, rules: seq<Rule>, default: Option<Grant>, call: ToolCall,
                                      trusted: bool, args: Args, n: nat)
    requires n <= |rules| && SelectGrant(env, rules[n..], default, With(call, args), trusted).Some?
    requires forall i :: 0 <= i < n ==> !RuleMatches(env, rules[i], With(call, args), trusted)
    ensures Offered(env, rules, default, call, trusted)
    decreases |rules| - n
  {
    forall i | 0 <= i < n ensures !(Targets(env, rules[i], call, trusted) && rules[i].conds == []) {
      TargetsIgnoresArguments(env, rules[i], call, args, trusted);
    }
    if n < |rules| {
      assert rules[n..][1..] == rules[n + 1..];
      if RuleMatches(env, rules[n], With(call, args), trusted) {
        assert Offers(env, rules, call, trusted, n, args);
      } else {
        GrantIndex(env, rules, default, call, trusted, args, n + 1);
      }
    }
  }

  /** Exactly when some arguments are granted, read off the rules. */
  lemma GrantableIffOffered(env: Env, p: Compiled, call: ToolCall)
    ensures Grantable(env, Some(p), call) <==> Offered(env, p.rules, p.default, call, Trusted(env, p, call))
  {
    var trusted := Trusted(env, p, call);
    if Grantable(env, Some(p), call) {
      var args :| GrantFor(env, Some(p), With(call, args)).Some?;
      assert Trusted(env, p, With(call, args)) == trusted;
      assert p.rules[0..] == p.rules;
      GrantIndex(env, p.rules, p.default, call, trusted, args, 0);
    }
    if j: nat, args :| Offers(env, p.rules, call, trusted, j, args) {
      OfferIsGranted(env, p.rules, p.default, call, trusted, j, args);
      assert Trusted(env, p, With(call, args)) == trusted;
      assert GrantFor(env, Some(p), With(call, args)).Some?;
    } else if p.default.Some? && FallsThrough(env, p.rules, call, trusted) {
      DefaultIsGranted(env, p.rules, p.default, call, trusted);
      assert Trusted(env, p, With(call, map[])) == trusted;
      assert GrantFor(env, Some(p), With(call, map[])).Some?;
    }
  }

  /** No conditional allow targets the call before its first unconditional match. */
  predicate NoConditionalAllow(env: Env, rules: seq<Rule>, call: ToolCall, trusted: bool) {
    rules == [] || (
      if !Targets(env, rules[0], call, trusted) then NoConditionalAllow(env, rules[1..], call, trusted)
      else rules[0].conds == [] || (rules[0].deny && NoConditionalAllow(env, rules[1..], call, trusted)))
  }

  lemma {:induction false} SelectExact(env: Env, rules: seq<Rule>, default: Option<Grant>, call: ToolCall, trusted: bool)
    requires NoConditionalAllow(env, rules, call, trusted)
    ensures SelectMayCall(env, rules, default, call, trusted)
            == SelectGrant(env, rules, default, With(call, map[]), trusted).Some?
  {
    if rules != [] {
      TargetsIgnoresArguments(env, rules[0], call, map[], trusted);
      if Targets(env, rules[0], call, trusted) && rules[0].conds == [] {
      } else {
        if rules[0].conds != [] {
          assert !Holds(env, rules[0].conds[0], map[]);
        }
        SelectExact(env, rules[1..], default, call, trusted);
      }
    }
  }

  /** Then listing a tool and granting it with no arguments are the same thing. */
  lemma MayCallIsGrantForNoArguments(env: Env, p: Compiled, call: ToolCall)
    requires NoConditionalAllow(env, p.rules, call, Trusted(env, p, call))
    ensures MayCall(env, Some(p), call) == GrantFor(env, Some(p), With(call, map[])).Some?
  {
    assert Trusted(env, p, With(call, map[])) == Trusted(env, p, call);
    SelectExact(env, p.rules, p.default, call, Trusted(env, p, call));
  }

  /** The listing is exact (listed exactly when some arguments are granted) unless the search stops at a
      conditional allow and nothing in the policy offers the call. */
  lemma ListingIsExactIff(env: Env, p: Compiled, call: ToolCall)
    ensures var trusted := Trusted(env, p, call);
            (MayCall(env, Some(p), call) == Grantable(env, Some(p), call)) <==>
            NoConditionalAllow(env, p.rules, call, trusted) || Offered(env, p.rules, p.default, call, trusted)
  {
    var trusted := Trusted(env, p, call);
    GrantableIffOffered(env, p, call);
    if Grantable(env, Some(p), call) {
      var args :| GrantFor(env, Some(p), With(call, args)).Some?;
      MayCallIsSound(env, Some(p), call, args);
    }
    if NoConditionalAllow(env, p.rules, call, trusted) {
      MayCallIsGrantForNoArguments(env, p, call);
    } else {
      ConditionalAllowIsListed(env, p.rules, p.default, call, trusted);
    }
  }

  lemma {:induction false} ConditionalAllowIsListed(env: Env, rules: seq<Rule>, default: Option<Grant>, call: ToolCall,
                                                    trusted: bool)
    requires !NoConditionalAllow(env, rules, call, trusted)
    ensures SelectMayCall(env, rules, default, call, trusted)
  {
    if !Targets(env, rules[0], call, trusted) || rules[0].deny {
      ConditionalAllowIsListed(env, rules[1..], default, call, trusted);
    }
  }

  /** It can be inexact: a conditional denial before an allow on the same condition shadows it for all
      arguments, yet the tool is listed. */
  lemma ListedButNeverGranted(env: Env, call: ToolCall, c: Cond, mode: Mode)
    ensures var p := Compiled([Rule("*", ["*"], [c], map[], true, mode, None),
                               Rule("*", ["*"], [c], map[], false, mode, None)], None, []);
            MayCall(env, Some(p), call) && !Grantable(env, Some(p), call)
  {
    var deny := Rule("*", ["*"], [c], map[], true, mode, None);
    var allow := Rule("*", ["*"], [c], map[], false, mode, None);
    var p := Compiled([deny, allow], None, []);
    StarMatches(env, call.FullName());
    StarMatches(env, call.agentId);
    assert Glob.Matches(env.classes, deny.agents[0], call.agentId);
    assert Glob.Matches(env.classes, allow.agents[0], call.agentId);
    assert Targets(env, deny, call, false) && Targets(env, allow, call, false);
    assert p.rules[1..] == [allow];
    forall args ensures GrantFor(env, Some(p), With(call, args)).None? {
      TargetsIgnoresArguments(env, deny, call, args, false);
      TargetsIgnoresArguments(env, allow, call, args, false);
      assert RuleMatches(env, deny, With(call, args), false) == RuleMatches(env, allow, With(call, args), false);
      assert !Trusted(env, p, With(call, args));
      var call' := With(call, args);
      assert [allow][1..] == [];
      assert SelectGrant(env, [allow], None, call', false)
             == if RuleMatches(env, allow, call', false) then Some(Grant(mode, None)) else None;
      assert [deny, allow][1..] == [allow];
      assert SelectGrant(env, [deny, allow], None, call', false)
             == if RuleMatches(env, deny, call', false) then None else SelectGrant(env, [allow], None, call', false);
    }
  }

  lemma StarMatches(env: Env, s: string)
    ensures Glob.Matches(env.classes, "*", s)
  {
    Glob.StarMatchesAll(env.classes, s);
  }

  // ---- hints of upstreams nobody trusts --------------------------------------------------------

  /** The hints of a call are total, as declared or else as the protocol defaults them, and never both
      read-only and destructive. */
  lemma HintsAreConsistent(annotations: Args)
    ensures EffectiveHint(annotations, ReadOnly)
            == ("readOnlyHint" in annotations && Truthy(annotations["readOnlyHint"]))
    ensures EffectiveHint(annotations, Destructive)
            == (("destructiveHint" in annotations ==> Truthy(annotations["destructiveHint"]))
                && !EffectiveHint(annotations, ReadOnly))
    ensures EffectiveHint(annotations, Idempotent)
            == ("idempotentHint" in annotations && Truthy(annotations["idempotentHint"]))
    ensures EffectiveHint(annotations, OpenWorld)
            == ("openWorldHint" in annotations ==> Truthy(annotations["openWorldHint"]))
    ensures !(EffectiveHint(annotations, ReadOnly) && EffectiveHint(annotations, Destructive))
    ensures forall h :: HintKey(h) !in annotations && h != Destructive ==> EffectiveHint(annotations, h) == HintDefault(h)
    ensures HintKey(Destructive) !in annotations ==>
              EffectiveHint(annotations, Destructive) == !EffectiveHint(annotations, ReadOnly)
  {
  }

  lemma {:induction false} SelectIgnoresAnnotations(env: Env, rules: seq<Rule>, default: Option<Grant>, call: ToolCall,
                                                    annotations: Args)
    ensures SelectGrant(env, rules, default, call.(annotations := annotations), false)
            == SelectGrant(env, rules, default, call, false)
    ensures SelectMayCall(env, rules, default, call.(annotations := annotations), false)
            == SelectMayCall(env, rules, default, call, false)
  {
    if rules != [] {
      SelectIgnoresAnnotations(env, rules[1..], default, call, annotations);
    }
  }

  /** What an untrusted upstream claims about its tools never changes a verdict or a listing. */
  lemma UntrustedHintsDoNotMatter(env: Env, policy: Option<Compiled>, call: ToolCall, a: Args, b: Args)
    requires policy.Some? ==> !Trusted(env, policy.value, call)
    ensures GrantFor(env, policy, call.(annotations := a)) == GrantFor(env, policy, call.(annotations := b))
    ensures MayCall(env, policy, call.(annotations := a)) == MayCall(env, policy, call.(annotations := b))
  {
    if policy.Some? {
      var p := policy.value;
      assert !Trusted(env, p, call.(annotations := a)) && !Trusted(env, p, call.(annotations := b));
      SelectIgnoresAnnotations(env, p.rules, p.default, call, a);
      SelectIgnoresAnnotations(env, p.rules, p.default, call, b);
    }
  }
}
