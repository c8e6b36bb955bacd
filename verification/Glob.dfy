/** Tool filters: shell globs as the in-memory store matches them, and their translation to a SQL
    LIKE pattern. Character classes stay abstract: `classes(body, c)` says whether `[body]` matches c. */
module Glob {

  type Classes = (string, char) -> bool

  /** The index of the first ']' at or after `from`, or the length. */
  function FirstClose(p: string, from: nat): (j: nat)
    requires from <= |p|
    ensures from <= j <= |p|
    decreases |p| - from
  {
    if from == |p| || p[from] == ']' then from else FirstClose(p, from + 1)
  }

  /** Where the character class opened by `p[0]` closes: a '!' and then a ']' may stand first inside
      it. The length when it never closes; the '[' is then an ordinary character. */
  function ClassEnd(p: string): (j: nat)
    requires p != "" && p[0] == '['
    ensures 1 <= j <= |p|
  {
    var i := if 1 < |p| && p[1] == '!' then 2 else 1;
    var k := if i < |p| && p[i] == ']' then i + 1 else i;
    FirstClose(p, k)
  }

  predicate OpensClass(p: string) {
    p != "" && p[0] == '[' && ClassEnd(p) < |p|
  }

  /** fnmatchcase. */
  predicate Matches(classes: Classes, p: string, s: string)
    decreases |p|, |s|
  {
    if p == "" then s == ""
    else if p[0] == '*' then Matches(classes, p[1..], s) || (s != "" && Matches(classes, p, s[1..]))
    else if s == "" then false
    else if OpensClass(p) then
      var j := ClassEnd(p);
      classes(p[1..j], s[0]) && Matches(classes, p[j + 1..], s[1..])
    else (p[0] == '?' || p[0] == s[0]) && Matches(classes, p[1..], s[1..])
  }

  // ---- what a glob means -----------------------------------------------------------------------

  predicate Literal(p: string) {
    forall i :: 0 <= i < |p| ==> p[i] != '*' && p[i] != '?' && p[i] != '['
  }

  lemma {:induction false} StarMatchesAll(classes: Classes, s: string)
    ensures Matches(classes, "*", s)
    decreases |s|
  {
    if s != "" {
      StarMatchesAll(classes, s[1..]);
    }
  }

  /** A literal pattern matches itself alone, and with a star at its end what begins with it. */
  lemma {:induction false} LiteralThenStar(classes: Classes, p: string, s: string)
    requires Literal(p)
    ensures Matches(classes, p, s) <==> s == p
    ensures Matches(classes, p + "*", s) <==> p <= s
  {
    if p == "" {
      assert p + "*" == "*";
      StarMatchesAll(classes, s);
    } else {
      assert (p + "*")[1..] == p[1..] + "*";
      if s != "" {
        LiteralThenStar(classes, p[1..], s[1..]);
        assert p == [p[0]] + p[1..] && s == [s[0]] + s[1..];
      }
    }
  }

  /** A question mark stands for exactly one character. */
  lemma QuestionMatchesOne(classes: Classes, p: string, s: string)
    ensures Matches(classes, "?" + p, s) <==> s != "" && Matches(classes, p, s[1..])
  {
    assert ("?" + p)[1..] == p;
  }

  lemma {:induction false} ClosesAt(p: string, from: nat, j: nat)
    requires from <= j < |p| && p[j] == ']' && forall i :: from <= i < j ==> p[i] != ']'
    ensures FirstClose(p, from) == j
    decreases j - from
  {
    if from < j {
      ClosesAt(p, from + 1, j);
    }
  }

  /** A class stands for exactly one character and ends at the first ']' that is not its first member, which may
      come after a '!'. */
  lemma ClassMatchesOne(classes: Classes, body: string, rest: string, s: string)
    requires var first := if body != "" && body[0] == '!' then 1 else 0;
             first < |body| && forall i :: first < i < |body| ==> body[i] != ']'
    ensures Matches(classes, "[" + body + "]" + rest, s) <==>
              s != "" && classes(body, s[0]) && Matches(classes, rest, s[1..])
  {
    var p, j := "[" + body + "]" + rest, |body| + 1;
    assert p[0] == '[' && p[j] == ']' && forall i :: 0 <= i < |body| ==> p[i + 1] == body[i];
    var i := if p[1] == '!' then 2 else 1;
    var k := if p[i] == ']' then i + 1 else i;
    forall n | k <= n < j ensures p[n] != ']' {
      assert p[n] == body[n - 1];
    }
    ClosesAt(p, k, j);
    assert ClassEnd(p) == j;
    assert p[1..j] == body && p[j + 1..] == rest;
  }

  /** LIKE with a backslash as escape character: section 8.5 of ISO/IEC 9075-2. */
  predicate Like(p: string, s: string)
    decreases |p|, |s|
  {
    if p == "" then s == ""
    else if p[0] == '%' then Like(p[1..], s) || (s != "" && Like(p, s[1..]))
    else if s == "" then false
    else if p[0] == '\\' then |p| >= 2 && p[1] == s[0] && Like(p[2..], s[1..])
    else (p[0] == '_' || p[0] == s[0]) && Like(p[1..], s[1..])
  }

  /** str.replace of one character. */
  function Replace(s: string, c: char, with: string): string {
    if s == "" then "" else (if s[0] == c then with else [s[0]]) + Replace(s[1..], c, with)
  }

  /** The pattern the SQL store builds. */
  function ToLike(p: string): string {
    Replace(Replace(Replace(Replace(p, '\\', "\\\\"), '%', "\\%"), '_', "\\_"), '*', "%")
  }

  // ---- the four replacements amount to one translation per character ----------------------------

  function LikeOf(c: char): string {
    if c == '\\' then "\\\\" else if c == '%' then "\\%" else if c == '_' then "\\_"
    else if c == '*' then "%" else [c]
  }

  function CharByChar(p: string): string {
    if p == "" then "" else LikeOf(p[0]) + CharByChar(p[1..])
  }

  lemma {:induction false} ReplaceConcat(a: string, b: string, c: char, with: string)
    ensures Replace(a + b, c, with) == Replace(a, c, with) + Replace(b, c, with)
  {
    if a == "" {
      assert a + b == b;
    } else {
      assert (a + b)[1..] == a[1..] + b;
      ReplaceConcat(a[1..], b, c, with);
    }
  }

  lemma ReplaceOne(x: char, c: char, with: string)
    ensures Replace([x], c, with) == if x == c then with else [x]
  {
    assert Replace([x], c, with) == (if x == c then with else [x]) + Replace("", c, with);
  }

  lemma ReplaceTwo(x: char, y: char, c: char, with: string)
    ensures Replace([x, y], c, with) == (if x == c then with else [x]) + (if y == c then with else [y])
  {
    ReplaceOne(x, c, with);
    ReplaceOne(y, c, with);
    ReplaceConcat([x], [y], c, with);
    assert [x] + [y] == [x, y];
  }

  lemma ToLikeOfOne(c: char)
    ensures ToLike([c]) == LikeOf(c)
  {
    ReplaceOne(c, '\\', "\\\\");
    ReplaceOne(c, '%', "\\%");
    ReplaceOne(c, '_', "\\_");
    ReplaceOne(c, '*', "%");
    ReplaceTwo('\\', c, '%', "\\%");
    ReplaceTwo('\\', c, '_', "\\_");
    ReplaceTwo('\\', c, '*', "%");
  }

  lemma ToLikeConcat(a: string, b: string)
    ensures ToLike(a + b) == ToLike(a) + ToLike(b)
  {
    var a1, b1 := Replace(a, '\\', "\\\\"), Replace(b, '\\', "\\\\");
    var a2, b2 := Replace(a1, '%', "\\%"), Replace(b1, '%', "\\%");
    var a3, b3 := Replace(a2, '_', "\\_"), Replace(b2, '_', "\\_");
    ReplaceConcat(a, b, '\\', "\\\\");
    ReplaceConcat(a1, b1, '%', "\\%");
    ReplaceConcat(a2, b2, '_', "\\_");
    ReplaceConcat(a3, b3, '*', "%");
  }

  lemma {:induction false} ToLikeIsCharByChar(p: string)
    ensures ToLike(p) == CharByChar(p)
  {
    if p != "" {
      assert p == [p[0]] + p[1..];
      ToLikeConcat([p[0]], p[1..]);
      ToLikeOfOne(p[0]);
      ToLikeIsCharByChar(p[1..]);
    }
  }

  // ---- on plain patterns both matchers agree ---------------------------------------------------

  /** Only '*' is special: no '?', and no '[' that opens a class. */
  predicate Plain(p: string) {
    p == "" || (p[0] != '?' && !OpensClass(p) && Plain(p[1..]))
  }

  lemma LikeStep(c: char, rest: string, s: string)
    ensures c != '*' ==> (Like(LikeOf(c) + rest, s) <==> s != "" && s[0] == c && Like(rest, s[1..]))
    ensures c == '*' ==> (Like(LikeOf(c) + rest, s) <==> Like(rest, s) || (s != "" && Like(LikeOf(c) + rest, s[1..])))
  {
    var p := LikeOf(c) + rest;
    if c == '\\' || c == '%' || c == '_' {
      assert p[0] == '\\' && p[1] == c && p[2..] == rest;
    } else {
      assert p[1..] == rest;
    }
  }

  lemma {:induction false} PlainPatternsAgree(classes: Classes, p: string, s: string)
    requires Plain(p)
    ensures Like(CharByChar(p), s) == Matches(classes, p, s)
    decreases |p|, |s|
  {
    if p != "" {
      LikeStep(p[0], CharByChar(p[1..]), s);
      if p[0] == '*' {
        PlainPatternsAgree(classes, p[1..], s);
        if s != "" {
          PlainPatternsAgree(classes, p, s[1..]);
        }
      } else if s != "" {
        PlainPatternsAgree(classes, p[1..], s[1..]);
      }
    }
  }

  // ---- on any other pattern they differ --------------------------------------------------------

  /** The pattern without its stars: the shortest string LIKE accepts. */
  function Strip(p: string): string {
    if p == "" then "" else (if p[0] == '*' then "" else [p[0]]) + Strip(p[1..])
  }

  lemma {:induction false} LikeAcceptsStrip(p: string)
    ensures Like(CharByChar(p), Strip(p))
  {
    if p != "" {
      LikeStep(p[0], CharByChar(p[1..]), Strip(p));
      LikeAcceptsStrip(p[1..]);
      if p[0] == '*' {
        assert Strip(p) == Strip(p[1..]);
      } else {
        assert Strip(p)[1..] == Strip(p[1..]);
      }
    }
  }

  lemma {:induction false} StripIsShortest(p: string, s: string)
    requires Like(CharByChar(p), s)
    ensures |s| >= |Strip(p)| && (|s| == |Strip(p)| ==> s == Strip(p))
    decreases |p|, |s|
  {
    if p != "" {
      LikeStep(p[0], CharByChar(p[1..]), s);
      if p[0] == '*' {
        assert Strip(p) == Strip(p[1..]);
        if Like(CharByChar(p[1..]), s) {
          StripIsShortest(p[1..], s);
        } else {
          StripIsShortest(p, s[1..]);
        }
      } else {
        StripIsShortest(p[1..], s[1..]);
        assert s == [s[0]] + s[1..];
      }
    }
  }

  ghost predicate SomeClassIsEmpty(classes: Classes, p: string) {
    p != "" &&
    if OpensClass(p) then
      || (forall c: char :: !classes(p[1..ClassEnd(p)], c))
      || SomeClassIsEmpty(classes, p[ClassEnd(p) + 1..])
    else SomeClassIsEmpty(classes, p[1..])
  }

  lemma {:induction false} EmptyClassMatchesNothing(classes: Classes, p: string, s: string)
    requires SomeClassIsEmpty(classes, p)
    ensures !Matches(classes, p, s)
    decreases |p|, |s|
  {
    if p[0] == '*' {
      EmptyClassMatchesNothing(classes, p[1..], s);
      if s != "" {
        EmptyClassMatchesNothing(classes, p, s[1..]);
      }
    } else if s != "" {
      if OpensClass(p) {
        if SomeClassIsEmpty(classes, p[ClassEnd(p) + 1..]) {
          EmptyClassMatchesNothing(classes, p[ClassEnd(p) + 1..], s[1..]);
        }
      } else {
        EmptyClassMatchesNothing(classes, p[1..], s[1..]);
      }
    }
  }

  lemma {:induction false} StripConcat(a: string, b: string)
    ensures Strip(a + b) == Strip(a) + Strip(b)
  {
    if a == "" {
      assert a + b == b;
    } else {
      assert (a + b)[1..] == a[1..] + b;
      StripConcat(a[1..], b);
    }
  }

  lemma {:induction false} FirstCloseFinds(p: string, from: nat)
    requires from <= |p| && FirstClose(p, from) < |p|
    ensures p[FirstClose(p, from)] == ']'
    decreases |p| - from
  {
    if p[from] != ']' {
      FirstCloseFinds(p, from + 1);
    }
  }

  lemma ClassIsLonger(p: string)
    requires OpensClass(p)
    ensures |Strip(p)| >= 2 + |Strip(p[ClassEnd(p) + 1..])|
  {
    var j := ClassEnd(p);
    var i := if 1 < |p| && p[1] == '!' then 2 else 1;
    FirstCloseFinds(p, if i < |p| && p[i] == ']' then i + 1 else i);
    assert p == p[..1] + (p[1..j] + (p[j..j + 1] + p[j + 1..]));
    StripConcat(p[..1], p[1..j] + (p[j..j + 1] + p[j + 1..]));
    StripConcat(p[1..j], p[j..j + 1] + p[j + 1..]);
    StripConcat(p[j..j + 1], p[j + 1..]);
    assert Strip(p[..1]) == "[" && Strip(p[j..j + 1]) == "]";
  }

  /** A string the glob accepts that is shorter than, or unlike, anything LIKE accepts. */
  lemma {:induction false} ShortMatch(classes: Classes, p: string) returns (w: string)
    requires !SomeClassIsEmpty(classes, p)
    ensures Matches(classes, p, w)
    ensures |w| <= |Strip(p)| && (w == Strip(p) ==> Plain(p))
  {
    if p == "" {
      w := "";
    } else if p[0] == '*' {
      w := ShortMatch(classes, p[1..]);
      assert Strip(p) == Strip(p[1..]);
    } else if OpensClass(p) {
      var j := ClassEnd(p);
      var c :| classes(p[1..j], c);
      var rest := ShortMatch(classes, p[j + 1..]);
      w := [c] + rest;
      assert w[1..] == rest;
      ClassIsLonger(p);
    } else {
      var rest := ShortMatch(classes, p[1..]);
      w := [if p[0] == '?' then 'a' else p[0]] + rest;
      assert w[1..] == rest;
      assert Strip(p)[1..] == Strip(p[1..]);
    }
  }

  lemma LikeMissesShortMatch(classes: Classes, p: string)
    requires !Plain(p) && !SomeClassIsEmpty(classes, p)
    ensures exists w :: !Like(ToLike(p), w) && Matches(classes, p, w)
  {
    var w := ShortMatch(classes, p);
    ToLikeIsCharByChar(p);
    if Like(CharByChar(p), w) {
      StripIsShortest(p, w);
      assert false;
    }
    assert !Like(ToLike(p), w) && Matches(classes, p, w);
  }

  /** The translated filter selects what the glob selects, for every name, exactly on plain patterns. */
  lemma ToLikeIsFaithfulIffPlain(classes: Classes, p: string)
    ensures (forall s :: Like(ToLike(p), s) == Matches(classes, p, s)) <==> Plain(p)
  {
    ToLikeIsCharByChar(p);
    if Plain(p) {
      forall s ensures Like(ToLike(p), s) == Matches(classes, p, s) {
        PlainPatternsAgree(classes, p, s);
      }
    } else if SomeClassIsEmpty(classes, p) {
      EmptyClassMatchesNothing(classes, p, Strip(p));
      LikeAcceptsStrip(p);
      assert Like(ToLike(p), Strip(p)) != Matches(classes, p, Strip(p));
    } else {
      LikeMissesShortMatch(classes, p);
    }
  }
}
