/** Policy documents as published, and their compilation. Defaults of absent JSON keys are taken as
    already filled in. */
module PolicyDocument {
  import opened Domain
  import opened Policy

  datatype RawCond = RawCond(arg: string, op: string, value: Value)

  datatype RawRule = RawRule(tool: string, agents: seq<string>, when: seq<RawCond>, hints: seq<(string, Value)>,
                             deny: bool, mode: string, schema: Option<Value>)

  datatype Document = Document(default: string, rules: seq<RawRule>, trust: seq<string>)

  function ModeOf(name: string): Option<Mode> {
    match name
    case "auto" => Some(Auto)
    case "interactive" => Some(Interactive)
    case "async" => Some(Async)
    case _ => None
  }

  function OpOf(name: string): Option<Op> {
    match name
    case "eq" => Some(Eq)
    case "ne" => Some(Ne)
    case "gt" => Some(Gt)
    case "ge" => Some(Ge)
    case "lt" => Some(Lt)
    case "le" => Some(Le)
    case "in" => Some(In)
    case _ => None
  }

  function HintOf(key: string): Option<Hint> {
    match key
    case "readOnlyHint" => Some(ReadOnly)
    case "destructiveHint" => Some(Destructive)
    case "idempotentHint" => Some(Idempotent)
    case "openWorldHint" => Some(OpenWorld)
    case _ => None
  }

  // ---- when a document compiles ----------------------------------------------------------------

  predicate GoodRule(raw: RawRule) {
    && (raw.deny || ModeOf(raw.mode).Some?)
    && (forall i :: 0 <= i < |raw.when| ==> OpOf(raw.when[i].op).Some?)
    && (forall i :: 0 <= i < |raw.hints| ==> HintOf(raw.hints[i].0).Some? && raw.hints[i].1.Bool?)
  }

  predicate GoodDocument(doc: Document) {
    && (forall i :: 0 <= i < |doc.rules| ==> GoodRule(doc.rules[i]))
    && (doc.default == "deny" || ModeOf(doc.default).Some?)
  }

  function CondOf(raw: RawCond): Cond
    requires OpOf(raw.op).Some?
  {
    Cond(raw.arg, OpOf(raw.op).value, raw.value)
  }

  /** Of two entries for one hint the later counts. */
  function HintsOf(hints: seq<(string, Value)>): map<Hint, bool>
    requires forall i :: 0 <= i < |hints| ==> HintOf(hints[i].0).Some? && hints[i].1.Bool?
  {
    if hints == [] then map[]
    else
      var last := hints[|hints| - 1];
      HintsOf(hints[..|hints| - 1])[HintOf(last.0).value := last.1.b]
  }

  function RuleOf(raw: RawRule): Rule
    requires GoodRule(raw)
  {
    Rule(raw.tool, raw.agents,
         seq(|raw.when|, i requires 0 <= i < |raw.when| => CondOf(raw.when[i])),
         HintsOf(raw.hints), raw.deny,
         if raw.deny then Auto else ModeOf(raw.mode).value, raw.schema)
  }

  function CompilePolicy(doc: Document): (p: Option<Compiled>)
    ensures p.Some? <==> GoodDocument(doc)
  {
    if GoodDocument(doc) then
      Some(Compiled(seq(|doc.rules|, i requires 0 <= i < |doc.rules| => RuleOf(doc.rules[i])),
                    if doc.default == "deny" then None else Some(Grant(ModeOf(doc.default).value, None)),
                    doc.trust))
    else None
  }

  // ---- what a document says --------------------------------------------------------------------

  /** The modes, operators and hints by their names; no other name is one. */
  lemma NamesMean(name: string)
    ensures ModeOf(name) == (if name == "auto" then Some(Auto) else if name == "interactive" then Some(Interactive)
                             else if name == "async" then Some(Async) else None)
    ensures forall op :: OpOf(name) == Some(op) <==> name == OpName(op)
    ensures forall h :: HintOf(name) == Some(h) <==> name == HintKey(h)
  {
  }

  function OpName(op: Op): string {
    match op
    case Eq => "eq"
    case Ne => "ne"
    case Gt => "gt"
    case Ge => "ge"
    case Lt => "lt"
    case Le => "le"
    case In => "in"
  }

  /** The entries for hint h among these. */
  ghost predicate Names(hints: seq<(string, Value)>, h: Hint) {
    exists i :: 0 <= i < |hints| && hints[i].0 == HintKey(h)
  }

  /** The last entry for hint h gives it this value. */
  ghost predicate LastSays(hints: seq<(string, Value)>, h: Hint, i: nat) {
    i < |hints| && hints[i].0 == HintKey(h) && forall k :: i < k < |hints| ==> hints[k].0 != HintKey(h)
  }

  lemma NamesAppend(before: seq<(string, Value)>, last: (string, Value), h: Hint)
    ensures Names(before + [last], h) <==> Names(before, h) || last.0 == HintKey(h)
  {
    var hints := before + [last];
    if Names(before, h) {
      var i :| 0 <= i < |before| && before[i].0 == HintKey(h);
      assert hints[i] == before[i];
    }
    if last.0 == HintKey(h) {
      assert hints[|before|] == last;
    }
  }

  lemma HintNamed(name: string, h: Hint)
    ensures HintOf(name) == Some(h) <==> name == HintKey(h)
  {
  }

  lemma {:induction false} HintsAsNamed(hints: seq<(string, Value)>, h: Hint)
    requires forall i :: 0 <= i < |hints| ==> HintOf(hints[i].0).Some? && hints[i].1.Bool?
    ensures h in HintsOf(hints) <==> Names(hints, h)
  {
    if hints != [] {
      var before, last := hints[..|hints| - 1], hints[|hints| - 1];
      HintsAsNamed(before, h);
      HintNamed(last.0, h);
      NamesAppend(before, last, h);
      assert hints == before + [last];
    }
  }

  lemma {:induction false} HintsAsLastSaid(hints: seq<(string, Value)>, h: Hint, i: nat)
    requires forall k :: 0 <= k < |hints| ==> HintOf(hints[k].0).Some? && hints[k].1.Bool?
    requires LastSays(hints, h, i)
    ensures h in HintsOf(hints) && hints[i].1 == Bool(HintsOf(hints)[h])
  {
    var before, last := hints[..|hints| - 1], hints[|hints| - 1];
    HintNamed(last.0, h);
    if i < |before| {
      assert LastSays(before, h, i);
      HintsAsLastSaid(before, h, i);
    }
  }

  /** A rule compiles to what it says: its own tool, agents, schema and verdict, its mode by name if it allows,
      and its conditions in order. */
  lemma RuleMeans(raw: RawRule)
    requires GoodRule(raw)
    ensures var r := RuleOf(raw);
            && r.tool == raw.tool && r.agents == raw.agents && r.schema == raw.schema && r.deny == raw.deny
            && (!raw.deny ==> ModeOf(raw.mode) == Some(r.mode))
            && |r.conds| == |raw.when|
            && (forall i :: 0 <= i < |raw.when| ==>
                  && r.conds[i].arg == raw.when[i].arg && r.conds[i].value == raw.when[i].value
                  && raw.when[i].op == OpName(r.conds[i].op))
            && (forall h :: h in r.hints <==> Names(raw.hints, h))
            && (forall h, i: nat :: LastSays(raw.hints, h, i) ==> h in r.hints && raw.hints[i].1 == Bool(r.hints[h]))
  {
    forall i | 0 <= i < |raw.when| ensures raw.when[i].op == OpName(RuleOf(raw).conds[i].op) {
      NamesMean(raw.when[i].op);
    }
    forall h ensures h in HintsOf(raw.hints) <==> Names(raw.hints, h) {
      HintsAsNamed(raw.hints, h);
    }
    forall h, i: nat | LastSays(raw.hints, h, i)
      ensures h in HintsOf(raw.hints) && raw.hints[i].1 == Bool(HintsOf(raw.hints)[h])
    {
      HintsAsLastSaid(raw.hints, h, i);
    }
  }

  /** A document compiles to its rules in order, its trusted upstreams, and its default: none for "deny", else
      a grant in that mode without a schema. */
  lemma PolicyMeans(doc: Document)
    requires GoodDocument(doc)
    ensures CompilePolicy(doc).Some?
    ensures var p := CompilePolicy(doc).value;
            && |p.rules| == |doc.rules| && (forall i :: 0 <= i < |doc.rules| ==> p.rules[i] == RuleOf(doc.rules[i]))
            && p.trust == doc.trust
            && (p.default.None? <==> doc.default == "deny")
            && (p.default.Some? ==> p.default.value.schema == None && ModeOf(doc.default) == Some(p.default.value.mode))
  {
  }

  // ---- compilation -----------------------------------------------------------------------------

  /** None is a PolicyError. */
  method CompileRule(raw: RawRule) returns (rule: Option<Rule>)
    ensures rule.Some? <==> GoodRule(raw)
    ensures rule.Some? ==> rule.value == RuleOf(raw)
  {
    var mode := Auto;
    if !raw.deny {
      if ModeOf(raw.mode).None? {
        return None;
      }
      mode := ModeOf(raw.mode).value;
    }
    var conds: seq<Cond> := [];
    for i := 0 to |raw.when|
      invariant |conds| == i
      invariant forall j :: 0 <= j < i ==> OpOf(raw.when[j].op).Some? && conds[j] == CondOf(raw.when[j])
    {
      if OpOf(raw.when[i].op).None? {
        return None;
      }
      conds := conds + [CondOf(raw.when[i])];
    }
    var hints: map<Hint, bool> := map[];
    for i := 0 to |raw.hints|
      invariant forall j :: 0 <= j < i ==> HintOf(raw.hints[j].0).Some? && raw.hints[j].1.Bool?
      invariant hints == HintsOf(raw.hints[..i])
    {
      if HintOf(raw.hints[i].0).None? || !raw.hints[i].1.Bool? {
        return None;
      }
      assert raw.hints[..i + 1][..i] == raw.hints[..i];
      hints := hints[HintOf(raw.hints[i].0).value := raw.hints[i].1.b];
    }
    assert raw.hints[..|raw.hints|] == raw.hints;
    return Some(Rule(raw.tool, raw.agents, conds, hints, raw.deny, mode, raw.schema));
  }

  method Compile(doc: Document) returns (p: Option<Compiled>)
    ensures p == CompilePolicy(doc)
  {
    var rules: seq<Rule> := [];
    for i := 0 to |doc.rules|
      invariant |rules| == i
      invariant forall j :: 0 <= j < i ==> GoodRule(doc.rules[j]) && rules[j] == RuleOf(doc.rules[j])
    {
      var rule := CompileRule(doc.rules[i]);
      if rule.None? {
        return None;
      }
      rules := rules + [rule.value];
    }
    assert GoodDocument(doc) ==> rules == CompilePolicy(doc).value.rules;
    if doc.default == "deny" {
      return Some(Compiled(rules, None, doc.trust));
    }
    if ModeOf(doc.default).None? {
      return None;
    }
    return Some(Compiled(rules, Some(Grant(ModeOf(doc.default).value, None)), doc.trust));
  }
}
