/**
 * Python's `fnmatch.fnmatch(name, pattern)` on POSIX (no case folding).
 *
 * The pattern is first read into tokens, the way `fnmatch.translate` reads it:
 * `*` matches any run of characters (including `/`), `?` any one character,
 * `[...]` a character class and `[!...]` its complement; a `[` without a closing
 * `]` is an ordinary character. Inside a class, `a-z` is a range and a range whose
 * ends are reversed contains nothing. The tokens are then matched against the
 * whole name.
 */
module Glob {
  import opened Wrappers

  datatype ClassItem = Single(c: char) | Span(lo: char, hi: char)

  datatype Token = Star | AnyChar | Class(negated: bool, items: seq<ClassItem>) | Lit(c: char)

  /** The members of a class body, read left to right; `x-y` is a range when a character follows the `-`. */
  function ClassItems(body: string): seq<ClassItem>
    decreases |body|
  {
    if body == [] then []
    else if |body| >= 3 && body[1] == '-' then [Span(body[0], body[2])] + ClassItems(body[3..])
    else [Single(body[0])] + ClassItems(body[1..])
  }

  predicate InItems(c: char, items: seq<ClassItem>)
  {
    exists k :: 0 <= k < |items| && ItemHas(items[k], c)
  }

  predicate ItemHas(item: ClassItem, c: char)
  {
    match item
    case Single(d) => c == d
    case Span(lo, hi) => lo <= c <= hi
  }

  /** A class body; a leading `!` negates it. */
  function ParseClass(body: string): Token
  {
    if body != [] && body[0] == '!' then Class(true, ClassItems(body[1..]))
    else Class(false, ClassItems(body))
  }

  /** First index at or after `from` holding `c`. */
  function FindFrom(p: string, c: char, from: nat): (r: Option<nat>)
    ensures r.Some? ==> (from <= r.value < |p| && p[r.value] == c
                         && forall k :: from <= k < r.value ==> p[k] != c)
    ensures r.None? ==> forall k :: from <= k < |p| ==> p[k] != c
    decreases |p| - from
  {
    if from >= |p| then None
    else if p[from] == c then Some(from)
    else FindFrom(p, c, from + 1)
  }

  lemma {:induction false} FindFromFirst(p: string, c: char, from: nat, i: nat)
    requires from <= i < |p| && p[i] == c
    requires forall k :: from <= k < i ==> p[k] != c
    ensures FindFrom(p, c, from) == Some(i)
    decreases i - from
  {
    if from < i {
      FindFromFirst(p, c, from + 1, i);
    }
  }

  /**
   * For a pattern starting with `[`, the index of the `]` closing the class: a `!`
   * right after the `[` and then a `]` right after that belong to the class body.
   */
  function ClassEnd(p: string): (r: Option<nat>)
    requires p != [] && p[0] == '['
    ensures r.Some? ==> 1 <= r.value < |p| && p[r.value] == ']'
  {
    var j0 := if 1 < |p| && p[1] == '!' then 2 else 1;
    var j1 := if j0 < |p| && p[j0] == ']' then j0 + 1 else j0;
    FindFrom(p, ']', j1)
  }

  /** `fnmatch.translate`, producing tokens instead of a regular expression. */
  function Tokenize(p: string): seq<Token>
    decreases |p|
  {
    if p == [] then []
    else if p[0] == '*' then [Star] + Tokenize(p[1..])
    else if p[0] == '?' then [AnyChar] + Tokenize(p[1..])
    else if p[0] == '[' then
      match ClassEnd(p)
      case Some(j) => [ParseClass(p[1..j])] + Tokenize(p[j + 1..])
      case None => [Lit('[')] + Tokenize(p[1..])
    else [Lit(p[0])] + Tokenize(p[1..])
  }

  /** Whole-string match of `s` against the tokens. */
  predicate Match(s: string, toks: seq<Token>)
    decreases |toks|, |s|
  {
    if toks == [] then s == []
    else match toks[0]
      case Star => Match(s, toks[1..]) || (s != [] && Match(s[1..], toks))
      case AnyChar => s != [] && Match(s[1..], toks[1..])
      case Class(neg, items) => s != [] && InItems(s[0], items) != neg && Match(s[1..], toks[1..])
      case Lit(c) => s != [] && s[0] == c && Match(s[1..], toks[1..])
  }

  /** `fnmatch.fnmatch(name, pattern)`. */
  predicate FnMatch(name: string, pattern: string)
  {
    Match(name, Tokenize(pattern))
  }

  /** A pattern with none of `*`, `?` and `[`. */
  predicate Plain(p: string)
  {
    '*' !in p && '?' !in p && '[' !in p
  }

  function Lits(p: string): (r: seq<Token>)
    ensures |r| == |p|
  {
    if p == [] then [] else [Lit(p[0])] + Lits(p[1..])
  }

  lemma {:induction false} TokenizePlain(p: string)
    requires Plain(p)
    ensures Tokenize(p) == Lits(p)
  {
    if p != [] {
      assert Plain(p[1..]) by {
        assert forall c :: c in p[1..] ==> c in p;
      }
      TokenizePlain(p[1..]);
    }
  }

  lemma {:induction false} MatchLits(s: string, p: string)
    ensures Match(s, Lits(p)) <==> s == p
  {
    if p != [] && s != [] {
      MatchLits(s[1..], p[1..]);
      assert s == [s[0]] + s[1..] && p == [p[0]] + p[1..];
    }
  }

  /** A pattern without wildcards matches exactly itself. */
  lemma PlainMatchesItself(s: string, p: string)
    requires Plain(p)
    ensures FnMatch(s, p) <==> s == p
  {
    TokenizePlain(p);
    MatchLits(s, p);
  }

  /** `*` followed by tokens matches `s` iff the tokens match some suffix of `s`. */
  lemma {:induction false} StarMatch(s: string, rest: seq<Token>)
    ensures Match(s, [Star] + rest) <==> exists k :: 0 <= k <= |s| && Match(s[k..], rest)
    decreases |s|
  {
    var toks := [Star] + rest;
    assert toks[1..] == rest;
    if s == [] {
      assert s[0..] == s;
    } else {
      StarMatch(s[1..], rest);
      assert forall k :: 1 <= k <= |s| ==> s[1..][k - 1..] == s[k..];
      assert s[0..] == s;
      if Match(s, toks) {
        if !Match(s, rest) {
          var k :| 0 <= k <= |s[1..]| && Match(s[1..][k..], rest);
          assert s[k + 1..] == s[1..][k..];
        }
      } else {
        forall k | 0 <= k <= |s| ensures !Match(s[k..], rest) {
          if k > 0 {
            assert s[1..][k - 1..] == s[k..];
          }
        }
      }
    }
  }

  /** `*` matches every name, `/` included. */
  lemma StarMatchesAll(s: string)
    ensures FnMatch(s, "*")
  {
    assert Tokenize("*") == [Star] + [];
    StarMatch(s, []);
    assert s[|s|..] == [];
  }

  /** `*` followed by plain text matches exactly the names ending in that text. */
  lemma StarSuffix(s: string, suffix: string)
    requires Plain(suffix)
    ensures FnMatch(s, "*" + suffix) <==> (|suffix| <= |s| && s[|s| - |suffix|..] == suffix)
  {
    assert ("*" + suffix)[1..] == suffix;
    TokenizePlain(suffix);
    StarMatch(s, Lits(suffix));
    forall k | 0 <= k <= |s| ensures Match(s[k..], Lits(suffix)) <==> s[k..] == suffix {
      MatchLits(s[k..], suffix);
    }
  }

  /** `?` matches exactly the one-character names. */
  lemma QuestionMatchesOne(s: string)
    ensures FnMatch(s, "?") <==> |s| == 1
  {
    var toks := Tokenize("?");
    assert toks == [AnyChar] + [];
    assert toks[1..] == [];
    if s != [] {
      assert Match(s[1..], []) <==> |s| == 1;
    }
  }

  /** Without `*`, a match consumes exactly one character per token. */
  lemma {:induction false} StarFreeLength(s: string, toks: seq<Token>)
    requires forall k :: 0 <= k < |toks| ==> toks[k] != Star
    requires Match(s, toks)
    ensures |s| == |toks|
    decreases |toks|
  {
    if toks != [] {
      assert toks[0] != Star;
      StarFreeLength(s[1..], toks[1..]);
    }
  }

  /** A `[` that is never closed is an ordinary character. */
  lemma UnclosedBracket(rest: string)
    requires ']' !in rest
    ensures Tokenize("[" + rest) == [Lit('[')] + Tokenize(rest)
  {
    var p := "[" + rest;
    assert p[1..] == rest;
    assert forall k :: 1 <= k < |p| ==> p[k] == rest[k - 1];
  }

  /** So the pattern `[` matches only the name `[`. */
  lemma LoneBracketIsLiteral(s: string)
    ensures FnMatch(s, "[") <==> s == "["
  {
    UnclosedBracket("");
    assert "[" + "" == "[";
    var toks := Tokenize("[");
    assert toks == [Lit('[')];
    assert toks[1..] == [];
    if s != [] {
      assert Match(s[1..], []) <==> |s| == 1;
      assert s == "[" <==> (s[0] == '[' && |s| == 1);
    }
  }

  /** The `]` closing `[body]` is the last character when the body holds none. */
  lemma ClassEndPlain(body: string)
    requires body != [] && body[0] != '!' && ']' !in body
    ensures ClassEnd("[" + body + "]") == Some(|body| + 1)
  {
    var pos := "[" + body + "]";
    assert pos[1] == body[0] && body[0] in body;
    forall k | 1 <= k < |pos| - 1
      ensures pos[k] != ']'
    {
      assert pos[k] == body[k - 1] && body[k - 1] in body;
    }
    FindFromFirst(pos, ']', 1, |pos| - 1);
  }

  lemma ClassEndNegated(body: string)
    requires body != [] && body[0] != '!' && ']' !in body
    ensures ClassEnd("[!" + body + "]") == Some(|body| + 2)
  {
    var neg := "[!" + body + "]";
    assert neg[1] == '!' && neg[2] == body[0] && body[0] in body;
    forall k | 2 <= k < |neg| - 1
      ensures neg[k] != ']'
    {
      assert neg[k] == body[k - 2] && body[k - 2] in body;
    }
    FindFromFirst(neg, ']', 2, |neg| - 1);
  }

  /** A pattern that is one whole class is one class token. */
  lemma TokenizeWholeClass(p: string, j: nat)
    requires p != [] && p[0] == '[' && ClassEnd(p) == Some(j) && j + 1 == |p|
    ensures Tokenize(p) == [ParseClass(p[1..j])]
  {
    assert p[j + 1..] == [];
  }

  lemma TokenizeClass(body: string)
    requires body != [] && body[0] != '!' && ']' !in body
    ensures Tokenize("[" + body + "]") == [Class(false, ClassItems(body))]
  {
    ClassEndPlain(body);
    Bracketed("", body);
    TokenizeWholeClass("[" + body + "]", |body| + 1);
  }

  /** `[` then `lead + body` then `]`: the class body sits between the brackets. */
  lemma Bracketed(lead: string, body: string)
    ensures |"[" + lead + body + "]"| == |lead| + |body| + 2
    ensures ("[" + lead + body + "]")[0] == '['
    ensures ("[" + lead + body + "]")[1..|lead| + |body| + 1] == lead + body
  {
    var p := "[" + lead + body + "]";
    assert p == "[" + (lead + body) + "]";
  }

  lemma TokenizeNegatedClass(body: string)
    requires body != [] && body[0] != '!' && ']' !in body
    ensures Tokenize("[!" + body + "]") == [Class(true, ClassItems(body))]
  {
    ClassEndNegated(body);
    Bracketed("!", body);
    assert "[" + "!" + body + "]" == "[!" + body + "]";
    TokenizeWholeClass("[!" + body + "]", |body| + 2);
    ParseNegated(body);
  }

  lemma ParseNegated(body: string)
    ensures ParseClass("!" + body) == Class(true, ClassItems(body))
  {
    var inner := "!" + body;
    assert inner[0] == '!' && inner[1..] == body;
  }

  lemma MatchOneClass(c: char, neg: bool, items: seq<ClassItem>)
    ensures Match([c], [Class(neg, items)]) <==> InItems(c, items) != neg
  {
    assert [c][1..] == [] && [Class(neg, items)][1..] == [];
  }

  /** `[!body]` matches exactly the single characters `[body]` does not. */
  lemma NegatedClass(c: char, body: string)
    requires body != [] && body[0] != '!' && ']' !in body
    ensures FnMatch([c], "[!" + body + "]") <==> !FnMatch([c], "[" + body + "]")
  {
    TokenizeClass(body);
    TokenizeNegatedClass(body);
    MatchOneClass(c, false, ClassItems(body));
    MatchOneClass(c, true, ClassItems(body));
  }
}
