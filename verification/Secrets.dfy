/** Replacing `secret://ref` arguments by their values just before dispatch. */
module Secrets {
  import opened Domain

  const SCHEME := "secret://"

  predicate IsRef(v: Value) {
    v.Str? && SCHEME <= v.s
  }

  function RefOf(v: Value): string
    requires IsRef(v)
  {
    v.s[|SCHEME|..]
  }

  predicate Resolvable(secrets: map<string, string>, args: Args) {
    forall k :: k in args && IsRef(args[k]) ==> RefOf(args[k]) in secrets
  }

  function Resolve(secrets: map<string, string>, args: Args): Args
    requires Resolvable(secrets, args)
  {
    map k | k in args :: if IsRef(args[k]) then Str(secrets[RefOf(args[k])]) else args[k]
  }

  /** A ref is a string that begins with the scheme, and names what follows it. */
  lemma RefsBeginWithTheScheme(v: Value, name: string)
    ensures IsRef(Str("secret://" + name)) && RefOf(Str("secret://" + name)) == name
    ensures IsRef(v) ==> v == Str("secret://" + RefOf(v))
  {
    if IsRef(v) {
      assert v.s == v.s[..|SCHEME|] + v.s[|SCHEME|..];
    }
  }

  /** Resolving puts the secret in the place of each ref and leaves every other argument alone. */
  lemma ResolvedArguments(secrets: map<string, string>, args: Args)
    requires Resolvable(secrets, args)
    ensures Resolve(secrets, args).Keys == args.Keys
    ensures forall k, name :: k in args && args[k] == Str("secret://" + name) ==>
              name in secrets && Resolve(secrets, args)[k] == Str(secrets[name])
    ensures forall k :: k in args && !(args[k].Str? && "secret://" <= args[k].s) ==> Resolve(secrets, args)[k] == args[k]
  {
    forall k, name | k in args && args[k] == Str("secret://" + name)
      ensures name in secrets && Resolve(secrets, args)[k] == Str(secrets[name])
    {
      RefsBeginWithTheScheme(args[k], name);
    }
  }

  /** The refs among these arguments, in order. */
  function Used(args: Args, keys: seq<string>): seq<string>
    requires forall i :: 0 <= i < |keys| ==> keys[i] in args
  {
    if keys == [] then []
    else
      var key := keys[|keys| - 1];
      Used(args, keys[..|keys| - 1]) + (if IsRef(args[key]) then [RefOf(args[key])] else [])
  }

  /** A ref is named once for each argument that holds it, in the order of the arguments. */
  lemma {:induction false} UsedPartByPart(args: Args, a: seq<string>, b: seq<string>, key: string)
    requires key in args
    requires forall i :: 0 <= i < |a| ==> a[i] in args
    requires forall i :: 0 <= i < |b| ==> b[i] in args
    ensures Used(args, a + b) == Used(args, a) + Used(args, b)
    ensures Used(args, [key]) == if args[key].Str? && "secret://" <= args[key].s then [args[key].s[9..]] else []
    decreases |b|
  {
    assert [key][..0] == [];
    if b == [] {
      assert a + b == a;
    } else {
      assert (a + b)[..|a + b| - 1] == a + b[..|b| - 1];
      UsedPartByPart(args, a, b[..|b| - 1], key);
    }
  }

  lemma UsedNext(args: Args, keys: seq<string>, n: nat)
    requires n < |keys| && forall i :: 0 <= i < |keys| ==> keys[i] in args
    ensures Used(args, keys[..n + 1])
            == Used(args, keys[..n]) + (if IsRef(args[keys[n]]) then [RefOf(args[keys[n]])] else [])
    ensures forall k :: k in keys[..n + 1] <==> k in keys[..n] || k == keys[n]
  {
    assert keys[..n + 1] == keys[..n] + [keys[n]];
    assert keys[..n + 1][..n] == keys[..n];
  }

  /** What materializing comes to: the arguments with the refs used, or the first ref that is not defined. */
  datatype Materialized = Resolved(args: Args, refs: seq<string>) | Missing(ref: string)

  class DictSecretResolver {
    var secrets: map<string, string>

    constructor (secrets: map<string, string>)
      ensures this.secrets == secrets
    {
      this.secrets := secrets;
    }

    method Define(ref: string, value: string)
      modifies this
      ensures secrets == old(secrets)[ref := value]
    {
      secrets := secrets[ref := value];
    }

    /** `keys` is the order in which the arguments are visited. Every ref is replaced, or the first one
        that is not defined is reported. */
    method Materialize(args: Args, keys: seq<string>) returns (m: Materialized)
      requires forall k :: k in keys <==> k in args
      ensures m.Resolved? <==> Resolvable(secrets, args)
      ensures m.Resolved? ==> m.args == Resolve(secrets, args) && m.refs == Used(args, keys)
      ensures m.Missing? ==>
                exists i :: 0 <= i < |keys| && IsRef(args[keys[i]]) && RefOf(args[keys[i]]) == m.ref && m.ref !in secrets
                            && forall j :: 0 <= j < i && IsRef(args[keys[j]]) ==> RefOf(args[keys[j]]) in secrets
    {
      var resolved: Args, used := map[], [];
      for n := 0 to |keys|
        invariant ResolvedSoFar(secrets, args, keys[..n], resolved)
        invariant used == Used(args, keys[..n])
      {
        var value := args[keys[n]];
        UsedNext(args, keys, n);
        if IsRef(value) {
          if RefOf(value) !in secrets {
            FirstMissing(secrets, args, keys, n, resolved);
            return Missing(RefOf(value));
          }
          resolved := resolved[keys[n] := Str(secrets[RefOf(value)])];
          used := used + [RefOf(value)];
        } else {
          resolved := resolved[keys[n] := value];
        }
      }
      assert keys[..|keys|] == keys;
      ResolvedAll(secrets, args, keys, resolved);
      return Resolved(resolved, used);
    }
  }

  /** The arguments visited so far are there, each ref replaced. */
  ghost predicate ResolvedSoFar(secrets: map<string, string>, args: Args, visited: seq<string>, resolved: Args) {
    && (forall k :: k in resolved <==> k in visited)
    && (forall k :: k in resolved ==>
          && k in args && (IsRef(args[k]) ==> RefOf(args[k]) in secrets)
          && resolved[k] == if IsRef(args[k]) then Str(secrets[RefOf(args[k])]) else args[k])
  }

  lemma ResolvedAll(secrets: map<string, string>, args: Args, keys: seq<string>, resolved: Args)
    requires ResolvedSoFar(secrets, args, keys, resolved) && forall k :: k in keys <==> k in args
    ensures Resolvable(secrets, args) && resolved == Resolve(secrets, args)
  {
    forall k | k in args && IsRef(args[k]) ensures RefOf(args[k]) in secrets {
      assert k in keys;
      assert k in resolved;
    }
    forall k ensures k in resolved <==> k in args {
      assert k in keys <==> k in args;
    }
  }

  lemma FirstMissing(secrets: map<string, string>, args: Args, keys: seq<string>, n: nat, resolved: Args)
    requires n < |keys| && forall k :: k in keys <==> k in args
    requires ResolvedSoFar(secrets, args, keys[..n], resolved)
    ensures forall j :: 0 <= j < n && IsRef(args[keys[j]]) ==> RefOf(args[keys[j]]) in secrets
  {
    forall j | 0 <= j < n && IsRef(args[keys[j]]) ensures RefOf(args[keys[j]]) in secrets {
      assert keys[..n][j] == keys[j];
      assert keys[j] in resolved;
    }
  }
}
