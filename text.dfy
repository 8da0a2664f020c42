/** The Python string operations the tools rely on, over `seq<char>`. */
module Text {
  import opened Seqs

  /** `s.count(c)` for a one-character `c`. */
  function CountChar(s: string, c: char): nat
  {
    if s == [] then 0 else CountChar(s[1..], c) + (if s[0] == c then 1 else 0)
  }

  lemma {:induction false} CountCharAppend(a: string, b: string, c: char)
    ensures CountChar(a + b, c) == CountChar(a, c) + CountChar(b, c)
  {
    if a == [] {
      assert a + b == b;
    } else {
      assert (a + b)[1..] == a[1..] + b;
      CountCharAppend(a[1..], b, c);
    }
  }

  predicate StartsWith(s: string, prefix: string)
  {
    |prefix| <= |s| && s[..|prefix|] == prefix
  }

  /** A text opens with a non-empty prefix when its first character and its tail open it. */
  lemma StartsWithCons(c: char, x: string, q: string)
    requires q != []
    ensures StartsWith([c] + x, q) <==> c == q[0] && StartsWith(x, q[1..])
  {
    var s := [c] + x;
    if StartsWith(s, q) {
      assert s[..|q|][0] == c && s[..|q|][1..] == x[..|q| - 1];
    }
    if c == q[0] && StartsWith(x, q[1..]) {
      assert s[..|q|] == [c] + x[..|q| - 1];
    }
  }

  /** Python's `s.endswith(suffix)`. */
  predicate EndsWith(s: string, suffix: string)
  {
    |suffix| <= |s| && s[|s| - |suffix|..] == suffix
  }

  /** Python's `sub in s`: `sub` occurs at some position of `s`. */
  predicate Contains(s: string, sub: string)
    decreases |s|
  {
    StartsWith(s, sub) || (s != [] && Contains(s[1..], sub))
  }

  lemma {:induction false} ContainsAt(s: string, sub: string, i: nat)
    requires i + |sub| <= |s| && s[i..i + |sub|] == sub
    ensures Contains(s, sub)
    decreases i
  {
    if i > 0 {
      assert s[1..][i - 1..i - 1 + |sub|] == s[i..i + |sub|];
      ContainsAt(s[1..], sub, i - 1);
    }
  }

  /** `sub` occurs in `s` starting at index `i`. */
  predicate OccursAt(s: string, sub: string, i: nat)
  {
    i + |sub| <= |s| && s[i..i + |sub|] == sub
  }

  /** With no position where `sub` occurs, `s` does not contain it. */
  lemma {:induction false} NoPosition(s: string, sub: string)
    requires forall i: nat :: !OccursAt(s, sub, i)
    ensures !Contains(s, sub)
    decreases |s|
  {
    if |sub| <= |s| {
      assert s[..|sub|] == s[0..0 + |sub|];
      assert !OccursAt(s, sub, 0);
    }
    if s != [] {
      forall i: nat
        ensures !OccursAt(s[1..], sub, i)
      {
        assert !OccursAt(s, sub, i + 1);
        if i + |sub| <= |s[1..]| {
          assert s[1..][i..i + |sub|] == s[i + 1..i + 1 + |sub|];
        }
      }
      NoPosition(s[1..], sub);
    }
  }

  /** A text that does not contain `sub` has it at no position. */
  lemma {:induction false} Absent(s: string, sub: string)
    requires !Contains(s, sub)
    ensures forall i: nat :: !OccursAt(s, sub, i)
    decreases |s|
  {
    if |sub| <= |s| {
      assert s[..|sub|] == s[0..0 + |sub|];
    }
    if s != [] {
      Absent(s[1..], sub);
      forall i: nat | 1 <= i
        ensures !OccursAt(s, sub, i)
      {
        assert !OccursAt(s[1..], sub, i - 1);
        if i + |sub| <= |s| {
          assert s[1..][i - 1..i - 1 + |sub|] == s[i..i + |sub|];
        }
      }
    }
  }

  /** A position at which `sub` occurs. */
  lemma {:induction false} ContainsPosition(s: string, sub: string) returns (i: nat)
    requires Contains(s, sub)
    ensures i + |sub| <= |s| && s[i..i + |sub|] == sub
    decreases |s|
  {
    if StartsWith(s, sub) {
      i := 0;
    } else {
      var j := ContainsPosition(s[1..], sub);
      assert s[j + 1..j + 1 + |sub|] == s[1..][j..j + |sub|];
      i := j + 1;
    }
  }

  /** An occurrence in `a` is still an occurrence in `a + b`. */
  lemma ContainsInLeft(a: string, b: string, sub: string)
    requires Contains(a, sub)
    ensures Contains(a + b, sub)
  {
    var i := ContainsPosition(a, sub);
    assert (a + b)[i..i + |sub|] == a[i..i + |sub|];
    ContainsAt(a + b, sub, i);
  }

  /** An occurrence in `b` is still an occurrence in `a + b`. */
  lemma ContainsInRight(a: string, b: string, sub: string)
    requires Contains(b, sub)
    ensures Contains(a + b, sub)
  {
    var i := ContainsPosition(b, sub);
    assert (a + b)[|a| + i..|a| + i + |sub|] == b[i..i + |sub|];
    ContainsAt(a + b, sub, |a| + i);
  }

  lemma ContainsSelf(s: string)
    ensures Contains(s, s)
  {
    assert StartsWith(s, s);
  }

  /** An occurrence needs room. */
  lemma ContainsLength(s: string, sub: string)
    ensures Contains(s, sub) ==> |sub| <= |s|
  {
    if Contains(s, sub) {
      var i := ContainsPosition(s, sub);
    }
  }

  /** Every character of an occurrence is a character of the text. */
  lemma ContainsChars(s: string, sub: string, c: char)
    ensures Contains(s, sub) && c in sub ==> c in s
  {
    if Contains(s, sub) && c in sub {
      var i := ContainsPosition(s, sub);
      var t :| 0 <= t < |sub| && sub[t] == c;
      assert s[i + t] == c;
    }
  }

  /**
   * An occurrence in `a + b` lies in `a`, lies in `b`, or straddles the seam,
   * and then the first character of `b` is one of its characters.
   */
  lemma ContainsConcat(a: string, b: string, sub: string)
    ensures Contains(a + b, sub) ==> Contains(a, sub) || Contains(b, sub) || (b != [] && b[0] in sub)
  {
    if Contains(a + b, sub) {
      ContainsSplit(a, b, sub);
    }
  }

  lemma ContainsSplit(a: string, b: string, sub: string)
    requires Contains(a + b, sub)
    ensures Contains(a, sub) || Contains(b, sub) || (b != [] && b[0] in sub)
  {
    var s := a + b;
    var i := ContainsPosition(s, sub);
    if i + |sub| <= |a| {
      assert a[i..i + |sub|] == s[i..i + |sub|];
      ContainsAt(a, sub, i);
    } else if i >= |a| {
      assert b[i - |a|..i - |a| + |sub|] == s[i..i + |sub|];
      ContainsAt(b, sub, i - |a|);
    } else {
      assert sub[|a| - i] == s[|a|] == b[0];
    }
  }

  /** Python's `s.replace(pat, by)`: every non-overlapping occurrence, scanning left to right. */
  function ReplaceAll(s: string, pat: string, repl: string): string
    requires |pat| > 0
    decreases |s|
  {
    if |s| < |pat| then s
    else if s[..|pat|] == pat then repl + ReplaceAll(s[|pat|..], pat, repl)
    else [s[0]] + ReplaceAll(s[1..], pat, repl)
  }

  /** With nothing to replace, `replace` leaves the string as it is. */
  lemma {:induction false} ReplaceAbsent(s: string, pat: string, repl: string)
    requires |pat| > 0 && !Contains(s, pat)
    ensures ReplaceAll(s, pat, repl) == s
    decreases |s|
  {
    if |s| >= |pat| {
      assert !StartsWith(s, pat);
      ReplaceAbsent(s[1..], pat, repl);
    }
  }

  /** Replacing an occurrence puts the replacement in the text. */
  lemma {:induction false} ReplaceIntroduces(s: string, pat: string, repl: string)
    requires |pat| > 0
    ensures Contains(s, pat) ==> Contains(ReplaceAll(s, pat, repl), repl)
    decreases |s|
  {
    ContainsLength(s, pat);
    if |s| >= |pat| {
      var rest := ReplaceAll(s[|pat|..], pat, repl);
      if s[..|pat|] == pat {
        ContainsSelf(repl);
        ContainsInLeft(repl, rest, repl);
      } else {
        ReplaceIntroduces(s[1..], pat, repl);
        if Contains(s[1..], pat) {
          ContainsInRight([s[0]], ReplaceAll(s[1..], pat, repl), repl);
        }
      }
    }
  }

  /** Python's `sep.join(parts)`. */
  function Join(parts: seq<string>, sep: string): string
  {
    if parts == [] then ""
    else if |parts| == 1 then parts[0]
    else parts[0] + sep + Join(parts[1..], sep)
  }

  /** Every part of a join occurs in the joined text. */
  lemma {:induction false} JoinContainsPart(parts: seq<string>, sep: string, k: nat)
    requires k < |parts|
    ensures Contains(Join(parts, sep), parts[k])
  {
    if |parts| == 1 {
      ContainsSelf(parts[0]);
    } else if k == 0 {
      ContainsSelf(parts[0]);
      ContainsInLeft(parts[0], sep + Join(parts[1..], sep), parts[0]);
      assert parts[0] + sep + Join(parts[1..], sep) == parts[0] + (sep + Join(parts[1..], sep));
    } else {
      JoinContainsPart(parts[1..], sep, k - 1);
      ContainsInRight(parts[0] + sep, Join(parts[1..], sep), parts[k]);
    }
  }

  /** An occurrence inside an occurrence is an occurrence. */
  lemma ContainsTrans(s: string, mid: string, sub: string)
    requires Contains(s, mid) && Contains(mid, sub)
    ensures Contains(s, sub)
  {
    var i := ContainsPosition(s, mid);
    var j := ContainsPosition(mid, sub);
    assert forall t :: 0 <= t < |sub| ==> s[i + j + t] == mid[j + t] == sub[t];
    assert s[i + j..i + j + |sub|] == sub;
    ContainsAt(s, sub, i + j);
  }

  /** Python's `s.split(c)` for a one-character separator: never an empty list. */
  function Split(s: string, c: char): (parts: seq<string>)
    ensures |parts| >= 1
    ensures forall k :: 0 <= k < |parts| ==> c !in parts[k]
    decreases |s|
  {
    if c !in s then [s]
    else
      var i := IndexOf(s, c);
      [s[..i]] + Split(s[i + 1..], c)
  }

  /** Position of the first `c` in `s`. */
  function IndexOf(s: string, c: char): (i: nat)
    requires c in s
    ensures i < |s| && s[i] == c && c !in s[..i]
  {
    if s[0] == c then 0 else IndexOf(s[1..], c) + 1
  }

  /** Splitting on `c` yields one more piece than there are `c` characters. */
  lemma {:induction false} SplitCount(s: string, c: char)
    ensures |Split(s, c)| == CountChar(s, c) + 1
    decreases |s|
  {
    if c !in s {
      NoCharCount(s, c);
    } else {
      var i := IndexOf(s, c);
      assert s == s[..i] + [c] + s[i + 1..];
      CountCharAppend(s[..i] + [c], s[i + 1..], c);
      CountCharAppend(s[..i], [c], c);
      NoCharCount(s[..i], c);
      SplitCount(s[i + 1..], c);
    }
  }

  lemma {:induction false} NoCharCount(s: string, c: char)
    requires c !in s
    ensures CountChar(s, c) == 0
  {
    if s != [] {
      assert c !in s[1..];
      NoCharCount(s[1..], c);
    }
  }

  /** Joining the pieces of a split with the same separator gives back the string. */
  lemma {:induction false} SplitJoin(s: string, c: char)
    ensures Join(Split(s, c), [c]) == s
    decreases |s|
  {
    if c in s {
      var i := IndexOf(s, c);
      var rest := Split(s[i + 1..], c);
      SplitJoin(s[i + 1..], c);
      assert Split(s, c) == [s[..i]] + rest;
      JoinCons(s[..i], rest, [c]);
      assert s == s[..i] + [c] + s[i + 1..];
    }
  }

  lemma JoinCons(a: string, rest: seq<string>, sep: string)
    requires rest != []
    ensures Join([a] + rest, sep) == a + sep + Join(rest, sep)
  {
    assert ([a] + rest)[1..] == rest;
  }

  /** Python's `s.split(sep)` for a non-empty separator string, scanning left to right. */
  function SplitOn(s: string, sep: string): (parts: seq<string>)
    requires |sep| > 0
    ensures |parts| >= 1
    decreases |s|
  {
    if |s| < |sep| then [s]
    else if s[..|sep|] == sep then [""] + SplitOn(s[|sep|..], sep)
    else
      var rest := SplitOn(s[1..], sep);
      [[s[0]] + rest[0]] + rest[1..]
  }

  /** Joining the pieces with the separator gives back the string. */
  lemma {:induction false} SplitOnJoin(s: string, sep: string)
    requires |sep| > 0
    ensures Join(SplitOn(s, sep), sep) == s
    decreases |s|
  {
    if |s| >= |sep| {
      if s[..|sep|] == sep {
        SplitOnJoin(s[|sep|..], sep);
        JoinCons("", SplitOn(s[|sep|..], sep), sep);
        assert s == "" + sep + s[|sep|..];
      } else {
        SplitOnJoin(s[1..], sep);
        JoinWidenFirst([s[0]], SplitOn(s[1..], sep), sep);
        assert s == [s[0]] + s[1..];
      }
    }
  }

  lemma JoinWidenFirst(c: string, parts: seq<string>, sep: string)
    requires |parts| >= 1
    ensures Join([c + parts[0]] + parts[1..], sep) == c + Join(parts, sep)
  {
    var widened := [c + parts[0]] + parts[1..];
    assert widened[1..] == parts[1..];
    if |parts| > 1 {
      assert (c + parts[0]) + sep + Join(parts[1..], sep) == c + (parts[0] + sep + Join(parts[1..], sep));
    }
  }

  /** `split` cuts the string exactly when the separator occurs in it. */
  lemma {:induction false} SplitOnCount(s: string, sep: string)
    requires |sep| > 0
    ensures |SplitOn(s, sep)| >= 2 <==> Contains(s, sep)
    decreases |s|
  {
    ContainsLength(s, sep);
    if |s| >= |sep| && s[..|sep|] != sep {
      SplitOnCount(s[1..], sep);
    }
  }

  /** Without the separator, `split` gives the string alone. */
  lemma {:induction false} SplitOnAbsent(s: string, sep: string)
    requires |sep| > 0 && !Contains(s, sep)
    ensures SplitOn(s, sep) == [s]
    decreases |s|
  {
    if |s| >= |sep| {
      assert !StartsWith(s, sep);
      SplitOnAbsent(s[1..], sep);
      assert [s[0]] + s[1..] == s;
    }
  }

  /** `os.path.basename(p)`: the text after the last `/`. */
  function Basename(p: string): (r: string)
    ensures '/' !in r
    ensures |r| <= |p| && p[|p| - |r|..] == r
    ensures |r| < |p| ==> p[|p| - |r| - 1] == '/'
  {
    if p == [] then ""
    else if p[|p| - 1] == '/' then ""
    else Basename(p[..|p| - 1]) + [p[|p| - 1]]
  }

  function DigitChar(d: nat): char
    requires d < 10
  {
    "0123456789"[d]
  }

  /** `str(n)` for a natural number. */
  function NatToString(n: nat): (r: string)
    ensures |r| >= 1
    ensures forall k :: 0 <= k < |r| ==> '0' <= r[k] <= '9'
  {
    if n < 10 then [DigitChar(n)] else NatToString(n / 10) + [DigitChar(n % 10)]
  }

  /** `str(i)` for an integer. */
  function IntToString(i: int): string
  {
    if i < 0 then "-" + NatToString(-i) else NatToString(i)
  }

  /** `f"{n:,}"`: decimal digits grouped by thousands with commas. */
  function Grouped(n: nat): string
  {
    if n < 1000 then NatToString(n)
    else Grouped(n / 1000) + "," + PadLeftWith(NatToString(n % 1000), 3, '0')
  }

  /** `f"{i:,}"` for an integer. */
  function GroupedInt(i: int): string
  {
    if i < 0 then "-" + Grouped(-i) else Grouped(i)
  }

  function Repeat(c: char, n: nat): (r: string)
    ensures |r| == n && forall k :: 0 <= k < n ==> r[k] == c
  {
    if n == 0 then "" else [c] + Repeat(c, n - 1)
  }

  function PadLeftWith(s: string, width: nat, fill: char): (r: string)
    ensures |r| == Max(|s|, width) && r[|r| - |s|..] == s
  {
    if |s| >= width then s else Repeat(fill, width - |s|) + s
  }

  /** `f"{s:>width}"`: right-aligned in a field of spaces. */
  function PadLeft(s: string, width: nat): string
  {
    PadLeftWith(s, width, ' ')
  }

  /** The characters for which Python's `str.isspace()` holds. */
  predicate IsSpace(c: char)
  {
    c == ' ' || ('\t' <= c <= '\r') || ('\U{001c}' <= c <= '\U{001f}') || c == '\U{0085}' || c == '\U{00a0}'
    || c == '\U{1680}' || ('\U{2000}' <= c <= '\U{200a}') || c == '\U{2028}' || c == '\U{2029}'
    || c == '\U{202f}' || c == '\U{205f}' || c == '\U{3000}'
  }

  function StripLeft(s: string): (r: string)
    ensures |r| <= |s| && s[|s| - |r|..] == r
    ensures r != [] ==> !IsSpace(r[0])
    ensures forall k :: 0 <= k < |s| - |r| ==> IsSpace(s[k])
  {
    if s != [] && IsSpace(s[0]) then StripLeft(s[1..]) else s
  }

  function StripRight(s: string): (r: string)
    ensures |r| <= |s| && s[..|r|] == r
    ensures r != [] ==> !IsSpace(r[|r| - 1])
    ensures forall k :: |r| <= k < |s| ==> IsSpace(s[k])
  {
    if s != [] && IsSpace(s[|s| - 1]) then StripRight(s[..|s| - 1]) else s
  }

  /** Python's `s.strip()`: leading and trailing whitespace removed. */
  function Strip(s: string): string
  {
    StripRight(StripLeft(s))
  }

  /** Python's `s.upper()` on the ASCII letters. */
  function Upper(s: string): (r: string)
    ensures |r| == |s|
  {
    seq(|s|, k requires 0 <= k < |s| => if 'a' <= s[k] <= 'z' then (s[k] as int - 32) as char else s[k])
  }
}
