/** What an agent is shown, against what it can call: the catalog, the listing and the calls the MCP
    edge builds from a tool's name. */
module Visibility {
  import opened Domain
  import opened Policy
  import Glob

  /** A catalog entry; `None` when it declares no annotations. */
  datatype Spec = Spec(name: string, annotations: Option<Args>)

  function Declares(s: Spec): Args {
    if s.annotations.Some? then s.annotations.value else map[]
  }

  // ---- upstream and tool -----------------------------------------------------------------------

  /** `str.partition`: split at the first dot; all before it, and nothing after, when there is none. */
  function Partition(name: string): (string, string) {
    if name == "" then ("", "")
    else if name[0] == '.' then ("", name[1..])
    else var (upstream, tool) := Partition(name[1..]); ([name[0]] + upstream, tool)
  }

  lemma {:induction false} PartitionRejoins(name: string)
    ensures var (upstream, tool) := Partition(name);
            '.' !in upstream && (if '.' in name then upstream + "." + tool == name else upstream == name && tool == "")
  {
    if name != "" {
      assert name == [name[0]] + name[1..];
      if name[0] != '.' {
        PartitionRejoins(name[1..]);
        var (upstream, tool) := Partition(name[1..]);
        assert [name[0]] + (upstream + "." + tool) == ([name[0]] + upstream) + "." + tool;
      }
    }
  }

  /** The call a listing asks the policy about. */
  function ListingCall(agent: string, s: Spec): ToolCall {
    var (upstream, tool) := Partition(s.name);
    ToolCall("list", agent, upstream, tool, map[], Declares(s))
  }

  /** The first catalog entry with this name. */
  function Find(specs: seq<Spec>, name: string): Option<Spec> {
    if specs == [] then None else if specs[0].name == name then Some(specs[0]) else Find(specs[1..], name)
  }

  /** The call the edge builds for `tools/call`; none for a name that is not `upstream.tool`. */
  function EdgeCall(requestId: string, agent: string, name: string, args: Args, specs: seq<Spec>): Option<ToolCall> {
    if '.' !in name then None
    else
      var (upstream, tool) := Partition(name);
      var found := Find(specs, name);
      Some(ToolCall(requestId, agent, upstream, tool, args, if found.Some? then Declares(found.value) else map[]))
  }

  /** A listing asks for the tool by its name, with no arguments and the hints of the entry itself. */
  lemma ListingAsksByName(agent: string, s: Spec)
    ensures var call := ListingCall(agent, s);
            && call.agentId == agent && call.arguments == map[]
            && call.annotations == (if s.annotations.Some? then s.annotations.value else map[])
            && ('.' in s.name ==> call.upstreamId + "." + call.toolName == s.name && '.' !in call.upstreamId)
  {
    PartitionRejoins(s.name);
  }

  lemma {:induction false} FindAt(specs: seq<Spec>, name: string, j: nat)
    requires j <= |specs| && forall i :: 0 <= i < j ==> specs[i].name != name
    ensures Find(specs, name) == Find(specs[j..], name)
  {
    if j == 0 {
      assert specs[0..] == specs;
    } else {
      FindAt(specs[1..], name, j - 1);
      assert specs[1..][j - 1..] == specs[j..];
    }
  }

  /** Exactly a name with a dot is callable, and what the edge calls is that very tool, as this agent, with the
      agent's arguments and the hints of the first entry of that name, or none. */
  lemma EdgeCallsTheNamedTool(requestId: string, agent: string, name: string, args: Args, specs: seq<Spec>, j: nat)
    requires j <= |specs| && forall i :: 0 <= i < j ==> specs[i].name != name
    requires j < |specs| ==> specs[j].name == name
    ensures var call := EdgeCall(requestId, agent, name, args, specs);
            && (call.Some? <==> '.' in name)
            && (call.Some? ==>
                  && call.value.upstreamId + "." + call.value.toolName == name && '.' !in call.value.upstreamId
                  && call.value.requestId == requestId && call.value.agentId == agent && call.value.arguments == args
                  && call.value.annotations
                     == if j < |specs| && specs[j].annotations.Some? then specs[j].annotations.value else map[])
  {
    PartitionRejoins(name);
    FindAt(specs, name, j);
    if j == |specs| {
      assert specs[j..] == [];
    } else {
      assert specs[j..][0] == specs[j];
    }
  }

  // ---- the listing -----------------------------------------------------------------------------

  function Listed(mayCall: ToolCall -> bool, agent: string, specs: seq<Spec>): seq<Spec> {
    if specs == [] then []
    else Listed(mayCall, agent, specs[..|specs| - 1])
         + (if mayCall(ListingCall(agent, specs[|specs| - 1])) then [specs[|specs| - 1]] else [])
  }

  /** A resolver without `may_call` lists everything. */
  method VisibleTools(mayCall: Option<ToolCall -> bool>, agent: string, specs: seq<Spec>) returns (visible: seq<Spec>)
    ensures mayCall.None? ==> visible == specs
    ensures mayCall.Some? ==> visible == Listed(mayCall.value, agent, specs)
  {
    if mayCall.None? {
      return specs;
    }
    visible := [];
    for n := 0 to |specs|
      invariant visible == Listed(mayCall.value, agent, specs[..n])
    {
      assert specs[..n + 1][..n] == specs[..n];
      if mayCall.value(ListingCall(agent, specs[n])) {
        visible := visible + [specs[n]];
      }
    }
    assert specs[..|specs|] == specs;
  }

  /** The listing keeps the catalog's order: that of a catalog in two parts is that of the first, then that of
      the second, and each entry is asked about once. */
  lemma {:induction false} ListedPartByPart(mayCall: ToolCall -> bool, agent: string, a: seq<Spec>, b: seq<Spec>, s: Spec)
    ensures Listed(mayCall, agent, a + b) == Listed(mayCall, agent, a) + Listed(mayCall, agent, b)
    ensures Listed(mayCall, agent, [s]) == if mayCall(ListingCall(agent, s)) then [s] else []
    decreases |b|
  {
    assert [s][..0] == [];
    if b == [] {
      assert a + b == a;
    } else {
      assert (a + b)[..|a + b| - 1] == a + b[..|b| - 1];
      ListedPartByPart(mayCall, agent, a, b[..|b| - 1], s);
    }
  }

  lemma {:induction false} ListedIffMayCall(mayCall: ToolCall -> bool, agent: string, specs: seq<Spec>, s: Spec)
    ensures s in Listed(mayCall, agent, specs) <==> s in specs && mayCall(ListingCall(agent, s))
  {
    if specs != [] {
      ListedIffMayCall(mayCall, agent, specs[..|specs| - 1], s);
      assert specs == specs[..|specs| - 1] + [specs[|specs| - 1]];
    }
  }

  // ---- a dropped tool is never granted ---------------------------------------------------------

  function Listing(env: Env, policy: Option<Compiled>): ToolCall -> bool {
    call => MayCall(env, policy, call)
  }

  lemma {:induction false} SelectIgnoresRequest(env: Env, rules: seq<Rule>, default: Option<Grant>, call: ToolCall,
                                                r: string, trusted: bool)
    ensures SelectGrant(env, rules, default, call.(requestId := r), trusted)
            == SelectGrant(env, rules, default, call, trusted)
  {
    if rules != [] {
      SelectIgnoresRequest(env, rules[1..], default, call, r, trusted);
    }
  }

  lemma RequestDoesNotMatter(env: Env, policy: Option<Compiled>, call: ToolCall, r: string)
    ensures GrantFor(env, policy, call.(requestId := r)) == GrantFor(env, policy, call)
  {
    if policy.Some? {
      assert Trusted(env, policy.value, call.(requestId := r)) == Trusted(env, policy.value, call);
      SelectIgnoresRequest(env, policy.value.rules, policy.value.default, call, r, Trusted(env, policy.value, call));
    }
  }

  /** The catalog entry behind a name was dropped from the listing: under the same policy no call of
      that name is granted, whatever its arguments. */
  lemma DroppedIsNeverGranted(env: Env, policy: Option<Compiled>, agent: string, specs: seq<Spec>, s: Spec,
                              requestId: string, args: Args)
    requires Find(specs, s.name) == Some(s) && s !in Listed(Listing(env, policy), agent, specs)
    ensures var call := EdgeCall(requestId, agent, s.name, args, specs);
            call.None? || GrantFor(env, policy, call.value).None?
  {
    FoundIsInCatalog(specs, s.name);
    ListedIffMayCall(Listing(env, policy), agent, specs, s);
    var asked := ListingCall(agent, s);
    if '.' in s.name {
      var call := EdgeCall(requestId, agent, s.name, args, specs).value;
      assert call == With(asked, args).(requestId := requestId);
      RequestDoesNotMatter(env, policy, With(asked, args), requestId);
      if GrantFor(env, policy, With(asked, args)).Some? {
        MayCallIsSound(env, policy, asked, args);
      }
    }
  }

  lemma {:induction false} FoundIsInCatalog(specs: seq<Spec>, name: string)
    ensures Find(specs, name).Some? ==> Find(specs, name).value in specs && Find(specs, name).value.name == name
  {
    if specs != [] {
      FoundIsInCatalog(specs[1..], name);
      assert specs == [specs[0]] + specs[1..];
    }
  }

  ghost predicate UniqueNames(specs: seq<Spec>) {
    forall i, j :: 0 <= i < j < |specs| ==> specs[i].name != specs[j].name
  }

  lemma {:induction false} UniqueIsFound(specs: seq<Spec>, s: Spec)
    requires UniqueNames(specs) && s in specs
    ensures Find(specs, s.name) == Some(s)
  {
    assert specs == [specs[0]] + specs[1..];
    if specs[0] != s {
      var i :| 0 <= i < |specs| && specs[i] == s;
      assert specs[0].name != s.name;
      UniqueIsFound(specs[1..], s);
    }
  }

  /** With unique names, that is every dropped entry. */
  lemma EveryDroppedToolIsRefused(env: Env, policy: Option<Compiled>, agent: string, specs: seq<Spec>, s: Spec,
                                  requestId: string, args: Args)
    requires UniqueNames(specs) && s in specs && s !in Listed(Listing(env, policy), agent, specs)
    ensures var call := EdgeCall(requestId, agent, s.name, args, specs);
            call.None? || GrantFor(env, policy, call.value).None?
  {
    UniqueIsFound(specs, s);
    DroppedIsNeverGranted(env, policy, agent, specs, s, requestId, args);
  }

  // ---- catalogs that repeat a name -------------------------------------------------------------

  predicate SameHints(a: Args, b: Args) {
    forall h: Hint :: EffectiveHint(a, h) == EffectiveHint(b, h)
  }

  lemma {:induction false} SelectSeesHintsOnly(env: Env, rules: seq<Rule>, default: Option<Grant>, call: ToolCall,
                                               annotations: Args, trusted: bool)
    requires SameHints(call.annotations, annotations)
    ensures SelectMayCall(env, rules, default, call, trusted)
            == SelectMayCall(env, rules, default, call.(annotations := annotations), trusted)
  {
    if rules != [] {
      assert Targets(env, rules[0], call, trusted) == Targets(env, rules[0], call.(annotations := annotations), trusted);
      SelectSeesHintsOnly(env, rules[1..], default, call, annotations, trusted);
    }
  }

  lemma MayCallSeesHintsOnly(env: Env, policy: Option<Compiled>, call: ToolCall, annotations: Args)
    requires SameHints(call.annotations, annotations)
    ensures MayCall(env, policy, call) == MayCall(env, policy, call.(annotations := annotations))
  {
    if policy.Some? {
      var trusted := Trusted(env, policy.value, call);
      assert Trusted(env, policy.value, call.(annotations := annotations)) == trusted;
      SelectSeesHintsOnly(env, policy.value.rules, policy.value.default, call, annotations, trusted);
    }
  }

  /** A policy that allows exactly the tools with one value of one hint, as their upstreams declare it. */
  function AllowHint(h: Hint, value: bool): Compiled {
    Compiled([Rule("*", ["*"], [], map[h := value], false, Auto, None)], None, ["*"])
  }

  lemma AllowHintDecides(env: Env, h: Hint, value: bool, call: ToolCall)
    ensures GrantFor(env, Some(AllowHint(h, value)), call).Some? <==> EffectiveHint(call.annotations, h) == value
    ensures MayCall(env, Some(AllowHint(h, value)), call) <==> EffectiveHint(call.annotations, h) == value
  {
    var p := AllowHint(h, value);
    var rule := p.rules[0];
    StarMatches(env, call.FullName());
    StarMatches(env, call.agentId);
    StarMatches(env, call.upstreamId);
    assert Glob.Matches(env.classes, p.trust[0], call.upstreamId);
    assert Glob.Matches(env.classes, rule.agents[0], call.agentId);
    assert h in rule.hints && rule.hints[h] == value;
    assert Targets(env, rule, call, true) <==> EffectiveHint(call.annotations, h) == value;
    assert p.rules[1..] == [];
    assert SelectGrant(env, [], None, call, true).None? && !SelectMayCall(env, [], None, call, true);
  }

  lemma {:induction false} NameIsFound(specs: seq<Spec>, s: Spec)
    requires s in specs
    ensures Find(specs, s.name).Some?
  {
    assert specs == [specs[0]] + specs[1..];
    if specs[0].name != s.name {
      NameIsFound(specs[1..], s);
    }
  }

  /** If this entry is dropped from the listing, this call of its name is refused. */
  ghost predicate RefusedIfDropped(env: Env, policy: Option<Compiled>, agent: string, specs: seq<Spec>, s: Spec,
                                   requestId: string, args: Args)
  {
    s !in Listed(Listing(env, policy), agent, specs) ==>
      var call := EdgeCall(requestId, agent, s.name, args, specs);
      call.None? || GrantFor(env, policy, call.value).None?
  }

  lemma SameHintsAreRefused(env: Env, policy: Option<Compiled>, agent: string, specs: seq<Spec>, s: Spec,
                            requestId: string, args: Args)
    requires s in specs && Find(specs, s.name).Some? && SameHints(Declares(s), Declares(Find(specs, s.name).value))
    ensures RefusedIfDropped(env, policy, agent, specs, s, requestId, args)
  {
    var first := Find(specs, s.name).value;
    FoundIsInCatalog(specs, s.name);
    ListedIffMayCall(Listing(env, policy), agent, specs, s);
    ListedIffMayCall(Listing(env, policy), agent, specs, first);
    MayCallSeesHintsOnly(env, policy, ListingCall(agent, s), Declares(first));
    assert ListingCall(agent, s).(annotations := Declares(first)) == ListingCall(agent, first);
    if s !in Listed(Listing(env, policy), agent, specs) {
      DroppedIsNeverGranted(env, policy, agent, specs, first, requestId, args);
    }
  }

  lemma OtherHintsAreShadowed(env: Env, agent: string, specs: seq<Spec>, s: Spec, h: Hint, requestId: string, args: Args)
    requires s in specs && '.' in s.name && Find(specs, s.name).Some?
    requires EffectiveHint(Declares(s), h) != EffectiveHint(Declares(Find(specs, s.name).value), h)
    ensures var policy := AllowHint(h, EffectiveHint(Declares(Find(specs, s.name).value), h));
            !RefusedIfDropped(env, Some(policy), agent, specs, s, requestId, args)
  {
    var first := Find(specs, s.name).value;
    var value := EffectiveHint(Declares(first), h);
    ListedIffMayCall(Listing(env, Some(AllowHint(h, value))), agent, specs, s);
    AllowHintDecides(env, h, value, ListingCall(agent, s));
    AllowHintDecides(env, h, value, EdgeCall(requestId, agent, s.name, args, specs).value);
  }

  /** A dropped entry is refused under every policy and with every arguments if and only if its name is not
      callable at all or it has the effective hints of the first entry of its name, which the calls carry. */
  lemma DroppedIsRefusedIffHintsAgree(env: Env, agent: string, specs: seq<Spec>, s: Spec)
    requires s in specs
    ensures Find(specs, s.name).Some?
    ensures (forall policy, requestId, args :: RefusedIfDropped(env, policy, agent, specs, s, requestId, args))
            <==> '.' !in s.name || SameHints(Declares(s), Declares(Find(specs, s.name).value))
  {
    NameIsFound(specs, s);
    var first := Find(specs, s.name).value;
    if '.' !in s.name {
    } else if SameHints(Declares(s), Declares(first)) {
      forall policy, requestId, args ensures RefusedIfDropped(env, policy, agent, specs, s, requestId, args) {
        SameHintsAreRefused(env, policy, agent, specs, s, requestId, args);
      }
    } else {
      var h: Hint :| EffectiveHint(Declares(s), h) != EffectiveHint(Declares(first), h);
      OtherHintsAreShadowed(env, agent, specs, s, h, "", map[]);
      assert !RefusedIfDropped(env, Some(AllowHint(h, EffectiveHint(Declares(first), h))), agent, specs, s, "", map[]);
    }
  }

  // The second entry of this catalog says less than the first.

  const SAFE := Spec("u.t", Some(map["readOnlyHint" := Bool(true)]))
  const BARE := Spec("u.t", None)

  /** So there is a policy under which it is dropped, yet its calls are granted. */
  lemma RepeatedNameIsShadowed(env: Env, agent: string, requestId: string, args: Args)
    ensures !RefusedIfDropped(env, Some(AllowHint(ReadOnly, true)), agent, [SAFE, BARE], BARE, requestId, args)
  {
    assert "u.t"[1] == '.';
    assert EffectiveHint(Declares(SAFE), ReadOnly) && !EffectiveHint(Declares(BARE), ReadOnly);
    OtherHintsAreShadowed(env, agent, [SAFE, BARE], BARE, ReadOnly, requestId, args);
  }
}
