/** One replica's policy object over an in-process source, between two awaits at a time. */
module PolicyReplica {
  import opened Domain
  import opened Policy
  import opened PolicyDocument

  class MemoryPolicySource {
    var doc: Option<Document>
    var version: nat

    constructor (doc: Option<Document>)
      ensures this.doc == doc && version == if doc.Some? then 1 else 0
    {
      this.doc, version := doc, if doc.Some? then 1 else 0;
    }

    /** The version and document held, unless the caller has that version already. */
    method Load(newerThan: Option<nat>) returns (loaded: Option<(nat, Document)>)
      ensures loaded.Some? ==> loaded.value.0 == version && Some(loaded.value.1) == doc && newerThan != Some(version)
      ensures loaded.None? && doc.Some? ==> newerThan == Some(version)
    {
      if doc.None? || newerThan == Some(version) {
        return None;
      }
      return Some((version, doc.value));
    }

    method Store(d: Document) returns (v: nat)
      modifies this
      ensures doc == Some(d) && v == version == old(version) + 1
    {
      doc, version := Some(d), version + 1;
      return version;
    }
  }

  class DeclarativePolicy {
    const env: Env
    const source: MemoryPolicySource
    const interval: real
    var compiled: Option<Compiled>
    var doc: Option<Document>
    var version: Option<nat>
    var checked: Option<real>  // when the source was last asked; None is never

    /** What is in force is always a compiled document of the source. */
    ghost predicate Valid()
      reads this
    {
      && (compiled.Some? <==> doc.Some?) && (doc.Some? <==> version.Some?)
      && (doc.Some? ==> compiled == CompilePolicy(doc.value))
    }

    ghost predicate InForce(c: Option<Compiled>, d: Option<Document>, v: Option<nat>)
      reads this
    {
      compiled == c && doc == d && version == v
    }

    constructor (env: Env, source: MemoryPolicySource, interval: real)
      ensures Valid() && this.env == env && this.source == source && this.interval == interval
      ensures InForce(None, None, None) && checked == None
    {
      this.env, this.source, this.interval := env, source, interval;
      compiled, doc, version, checked := None, None, None, None;
    }

    /** A document that does not compile is refused before it is stored and changes nothing; a good one
        is stored and in force here at once. */
    method Publish(d: Document, now: real) returns (v: Option<nat>)
      requires Valid()
      modifies this, source
      ensures Valid()
      ensures v.Some? <==> GoodDocument(d)
      ensures v.None? ==> unchanged(this) && unchanged(source)
      ensures v.Some? ==>
                && source.doc == Some(d) && v == Some(source.version) && source.version == old(source.version) + 1
                && InForce(CompilePolicy(d), Some(d), v) && checked == Some(now)
    {
      var c := Compile(d);
      if c.None? {
        return None;
      }
      var stored := source.Store(d);
      compiled, doc, version, checked := c, Some(d), Some(stored), Some(now);
      return Some(stored);
    }

    ghost predicate Due(now: real)
      reads this
    {
      checked.None? || now - checked.value >= interval
    }

    /** The source holds a version this replica does not have, and it compiles. */
    ghost predicate Outdated()
      reads this, source
    {
      source.doc.Some? && GoodDocument(source.doc.value) && version != Some(source.version)
    }

    ghost predicate UpToDate()
      reads this, source
      requires source.doc.Some?
    {
      InForce(CompilePolicy(source.doc.value), source.doc, Some(source.version))
    }

    /** Asks the source when the interval is over; a document that does not compile is ignored and the
        last good policy stays. */
    method RefreshIfDue(now: real)
      requires Valid()
      modifies this
      ensures Valid()
      ensures !old(Due(now)) ==> unchanged(this)
      ensures old(Due(now)) ==> checked == Some(now)
      ensures old(Due(now)) && old(Outdated()) ==> UpToDate()
      ensures !(old(Due(now)) && old(Outdated())) ==> InForce(old(compiled), old(doc), old(version))
    {
      if checked.Some? && now - checked.value < interval {
        return;
      }
      checked := Some(now);
      var loaded := source.Load(version);
      if loaded.None? {
        return;
      }
      var c := Compile(loaded.value.1);
      if c.None? {
        return;
      }
      compiled, doc, version := c, Some(loaded.value.1), Some(loaded.value.0);
    }

    method Refresh(now: real)
      requires Valid()
      modifies this
      ensures Valid() && checked == Some(now)
      ensures old(Outdated()) ==> UpToDate()
      ensures !old(Outdated()) ==> InForce(old(compiled), old(doc), old(version))
    {
      checked := None;
      RefreshIfDue(now);
    }

    /** The rules of the policy then in force, the source's own when the replica was due and outdated, are
        tried in order and the first match decides; with nothing loaded all is denied. */
    method GrantFor(call: ToolCall, now: real) returns (g: Option<Grant>)
      requires Valid()
      modifies this
      ensures Valid()
      ensures g == Policy.GrantFor(env, compiled, call)
      ensures compiled.None? ==> g == None
      ensures compiled.Some? ==>
                && (NoneMatches(env, compiled.value, call) ==> g == compiled.value.default)
                && forall j: nat :: FirstMatchAt(env, compiled.value, call, j) ==>
                     g == if compiled.value.rules[j].deny then None
                          else Some(Grant(compiled.value.rules[j].mode, compiled.value.rules[j].schema))
      ensures if old(Due(now)) then checked == Some(now) else unchanged(this)
      ensures old(Due(now)) && old(Outdated()) ==> UpToDate()
      ensures !(old(Due(now)) && old(Outdated())) ==> InForce(old(compiled), old(doc), old(version))
    {
      RefreshIfDue(now);
      if compiled.None? {
        return None;
      }
      g := FirstMatch(env, compiled.value, call);
    }

    method MayCall(call: ToolCall, now: real) returns (may: bool)
      requires Valid()
      modifies this
      ensures Valid()
      ensures may == Policy.MayCall(env, compiled, call)
      ensures compiled.None? ==> !may
      ensures compiled.Some? ==>
                && (forall j: nat :: FirstFinalAt(env, compiled.value, call, j) ==> may == !compiled.value.rules[j].deny)
                && ((forall i :: 0 <= i < |compiled.value.rules| ==> !Settles(env, compiled.value, call, i)) ==>
                      may == compiled.value.default.Some?)
      ensures if old(Due(now)) then checked == Some(now) else unchanged(this)
      ensures old(Due(now)) && old(Outdated()) ==> UpToDate()
      ensures !(old(Due(now)) && old(Outdated())) ==> InForce(old(compiled), old(doc), old(version))
    {
      RefreshIfDue(now);
      if compiled.None? {
        return false;
      }
      may := FirstFinal(env, compiled.value, call);
    }
  }

  /** The rule loop of grant_for: the first match decides, with its own mode and schema. */
  method FirstMatch(env: Env, p: Compiled, call: ToolCall) returns (g: Option<Grant>)
    ensures g == Policy.GrantFor(env, Some(p), call)
    ensures forall j: nat :: FirstMatchAt(env, p, call, j) ==>
              g == if p.rules[j].deny then None else Some(Grant(p.rules[j].mode, p.rules[j].schema))
    ensures NoneMatches(env, p, call) ==> g == p.default
  {
    MatchesDecide(env, p, call);
    var trusted := Trusted(env, p, call);
    for i := 0 to |p.rules|
      invariant Policy.GrantFor(env, Some(p), call) == SelectGrant(env, p.rules[i..], p.default, call, trusted)
    {
      assert p.rules[i..][1..] == p.rules[i + 1..];
      if RuleMatches(env, p.rules[i], call, trusted) {
        return if p.rules[i].deny then None else Some(Grant(p.rules[i].mode, p.rules[i].schema));
      }
    }
    return p.default;
  }

  lemma MatchesDecide(env: Env, p: Compiled, call: ToolCall)
    ensures forall j: nat :: FirstMatchAt(env, p, call, j) ==>
              Policy.GrantFor(env, Some(p), call)
              == if p.rules[j].deny then None else Some(Grant(p.rules[j].mode, p.rules[j].schema))
    ensures NoneMatches(env, p, call) ==> Policy.GrantFor(env, Some(p), call) == p.default
  {
    forall j: nat | FirstMatchAt(env, p, call, j)
      ensures Policy.GrantFor(env, Some(p), call)
              == if p.rules[j].deny then None else Some(Grant(p.rules[j].mode, p.rules[j].schema))
    {
      FirstMatchDecides(env, p, call, j);
    }
    FirstMatchDecides(env, p, call, 0);
  }

  lemma FinalsDecide(env: Env, p: Compiled, call: ToolCall)
    ensures forall j: nat :: FirstFinalAt(env, p, call, j) ==> Policy.MayCall(env, Some(p), call) == !p.rules[j].deny
    ensures (forall i :: 0 <= i < |p.rules| ==> !Settles(env, p, call, i)) ==>
              Policy.MayCall(env, Some(p), call) == p.default.Some?
  {
    forall j: nat | FirstFinalAt(env, p, call, j) ensures Policy.MayCall(env, Some(p), call) == !p.rules[j].deny {
      FirstFinalDecides(env, p, call, j);
    }
    FirstFinalDecides(env, p, call, 0);
  }

  /** The rule loop of may_call: the first rule that targets the call for good decides. */
  method FirstFinal(env: Env, p: Compiled, call: ToolCall) returns (may: bool)
    ensures may == Policy.MayCall(env, Some(p), call)
    ensures forall j: nat :: FirstFinalAt(env, p, call, j) ==> may == !p.rules[j].deny
    ensures (forall i :: 0 <= i < |p.rules| ==> !Settles(env, p, call, i)) ==> may == p.default.Some?
  {
    FinalsDecide(env, p, call);
    var trusted := Trusted(env, p, call);
    for i := 0 to |p.rules|
      invariant Policy.MayCall(env, Some(p), call) == SelectMayCall(env, p.rules[i..], p.default, call, trusted)
    {
      assert p.rules[i..][1..] == p.rules[i + 1..];
      if !Targets(env, p.rules[i], call, trusted) {
        continue;
      }
      if p.rules[i].conds == [] || !p.rules[i].deny {
        return !p.rules[i].deny;
      }
    }
    return p.default.Some?;
  }
}
