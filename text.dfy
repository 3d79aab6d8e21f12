/** The few Python string operations the modelled code relies on:
    `str.strip`, `str.startswith`, `in` on strings, `str.split(sep)[0]`,
    `str.split(".")[-1]`, `" ".join` and `c * n`. */
module Text {

  /** The characters Python's `str.isspace` accepts, which is what
      `str.strip()` without arguments removes. */
  predicate IsSpace(c: char) {
    || c == ' ' || c == '\t' || c == '\n' || c == '\r'
    || c == '\U{000B}' || c == '\U{000C}'
    || ('\U{001C}' <= c <= '\U{001F}')
    || c == '\U{0085}' || c == '\U{00A0}' || c == '\U{1680}'
    || ('\U{2000}' <= c <= '\U{200A}')
    || c == '\U{2028}' || c == '\U{2029}' || c == '\U{202F}'
    || c == '\U{205F}' || c == '\U{3000}'
  }

  /** `s` with its leading whitespace removed. */
  function TrimStart(s: string): (r: string)
    ensures |r| <= |s|
    ensures forall i :: 0 <= i < |s| - |r| ==> IsSpace(s[i])
    ensures r == [] || !IsSpace(r[0])
  {
    if |s| > 0 && IsSpace(s[0]) then TrimStart(s[1..]) else s
  }

  /** `s` with its trailing whitespace removed. */
  function TrimEnd(s: string): (r: string)
    ensures |r| <= |s| && r == s[..|r|]
    ensures forall i :: |r| <= i < |s| ==> IsSpace(s[i])
    ensures r == [] || !IsSpace(r[|r| - 1])
  {
    if |s| > 0 && IsSpace(s[|s| - 1]) then TrimEnd(s[..|s| - 1]) else s
  }

  /** Python's `s.strip()`. */
  function Strip(s: string): (r: string)
    ensures |r| <= |s|
    ensures r == [] || (!IsSpace(r[0]) && !IsSpace(r[|r| - 1]))
  {
    TrimEnd(TrimStart(s))
  }

  /** A string with no whitespace at either end is its own strip. */
  lemma {:induction false} StripFixesUnpadded(s: string)
    requires s == [] || (!IsSpace(s[0]) && !IsSpace(s[|s| - 1]))
    ensures Strip(s) == s
  {
    assert TrimStart(s) == s;
  }

  /** Stripping twice is stripping once. */
  lemma StripIdempotent(s: string)
    ensures Strip(Strip(s)) == Strip(s)
  {
    StripFixesUnpadded(Strip(s));
  }

  /** A string whose characters are all whitespace strips to "". */
  lemma {:induction false} StripAllSpace(s: string)
    requires forall i :: 0 <= i < |s| ==> IsSpace(s[i])
    ensures Strip(s) == ""
  {
    if |s| > 0 {
      StripAllSpace(s[1..]);
      assert TrimStart(s) == TrimStart(s[1..]);
    }
  }

  /** Concatenation is associative; stated once so that proofs over long
      concatenations of literals can use it without unfolding them. */
  lemma ConcatAssoc<T>(a: seq<T>, b: seq<T>, c: seq<T>)
    ensures (a + b) + c == a + (b + c)
  {
  }

  /** Python's `s.startswith(p)`. */
  predicate StartsWith(s: string, p: string) {
    |p| <= |s| && s[..|p|] == p
  }

  /** Python's `sub in s` on strings. */
  predicate Contains(s: string, sub: string)
    decreases |s|
  {
    StartsWith(s, sub) || (|s| > 0 && Contains(s[1..], sub))
  }

  /** `sub in s` holds exactly when `sub` occurs at some position of `s`. */
  lemma {:induction false} ContainsAt(s: string, sub: string, k: nat)
    requires k + |sub| <= |s| && s[k..k + |sub|] == sub
    ensures Contains(s, sub)
  {
    if k > 0 {
      assert s[1..][k - 1..k - 1 + |sub|] == s[k..k + |sub|];
      ContainsAt(s[1..], sub, k - 1);
    }
  }

  /** Python's `s.split(sep)[0]`: the text before the first occurrence of
      `sep`, or all of `s` when `sep` does not occur. */
  function BeforeFirst(s: string, sep: string): (r: string)
    requires sep != []
    ensures |r| <= |s|
    decreases |s|
  {
    if |s| < |sep| then s
    else if StartsWith(s, sep) then ""
    else [s[0]] + BeforeFirst(s[1..], sep)
  }

  /** `BeforeFirst` is a prefix of `s`, and when it stops short, `sep`
      follows it. */
  lemma {:induction false} BeforeFirstIsPrefix(s: string, sep: string)
    requires sep != []
    ensures var r := BeforeFirst(s, sep);
      && r == s[..|r|]
      && (|r| < |s| ==> StartsWith(s[|r|..], sep))
    decreases |s|
  {
    if |s| >= |sep| && !StartsWith(s, sep) {
      BeforeFirstIsPrefix(s[1..], sep);
      var t := BeforeFirst(s[1..], sep);
      assert s[1..][|t|..] == s[|t| + 1..];
    }
  }

  /** The text before the first `sep` holds no `sep` of its own, so it really
      stops at the FIRST occurrence. */
  lemma {:induction false} BeforeFirstHasNoSeparator(s: string, sep: string)
    requires sep != []
    ensures !Contains(BeforeFirst(s, sep), sep)
    decreases |s|
  {
    var r := BeforeFirst(s, sep);
    if |s| < |sep| {
      NoRoomNoContains(s, sep);
    } else if StartsWith(s, sep) {
      NoRoomNoContains(r, sep);
    } else {
      var t := BeforeFirst(s[1..], sep);
      BeforeFirstHasNoSeparator(s[1..], sep);
      BeforeFirstIsPrefix(s[1..], sep);
      assert r == [s[0]] + t;
      assert r[1..] == t;
      if |sep| <= |r| {
        assert r[..|sep|] == s[..|sep|];
      }
    }
  }

  /** A string shorter than `sub` cannot contain it (when `sub` is not empty). */
  lemma {:induction false} NoRoomNoContains(s: string, sub: string)
    requires sub != [] && |s| < |sub|
    ensures !Contains(s, sub)
    decreases |s|
  {
    if |s| > 0 {
      NoRoomNoContains(s[1..], sub);
    }
  }

  /** When `sep` does not occur, `BeforeFirst` returns the whole string. */
  lemma {:induction false} BeforeFirstAbsent(s: string, sep: string)
    requires sep != [] && !Contains(s, sep)
    ensures BeforeFirst(s, sep) == s
    decreases |s|
  {
    if |s| >= |sep| {
      BeforeFirstAbsent(s[1..], sep);
    }
  }

  /** Python's `s.split(c)[-1]` for a one-character separator: the text after
      the last `c`, or all of `s` when `c` does not occur. */
  function AfterLast(s: string, c: char): string {
    if |s| == 0 then s
    else if s[|s| - 1] == c then ""
    else AfterLast(s[..|s| - 1], c) + [s[|s| - 1]]
  }

  /** `AfterLast` is a suffix free of `c`, and when it is shorter than `s` the
      character just before it is `c`: it starts right after the LAST `c`. */
  lemma {:induction false} AfterLastSpec(s: string, c: char)
    ensures var r := AfterLast(s, c);
      && |r| <= |s| && r == s[|s| - |r|..]
      && c !in r
      && (|r| < |s| ==> s[|s| - |r| - 1] == c)
      && (c !in s ==> r == s)
  {
    if |s| > 0 && s[|s| - 1] != c {
      var t := s[..|s| - 1];
      AfterLastSpec(t, c);
      var r := AfterLast(s, c);
      assert r == AfterLast(t, c) + [s[|s| - 1]];
      assert c !in s ==> c !in t;
    }
  }

  /** After the last `c` of `s + [c] + t` comes exactly `t`, when `t` holds
      no `c`. */
  lemma {:induction false} AfterLastOfSuffix(s: string, c: char, t: string)
    requires c !in t
    ensures AfterLast(s + [c] + t, c) == t
    decreases |t|
  {
    var u := s + [c] + t;
    if t != [] {
      var t' := t[..|t| - 1];
      assert u[..|u| - 1] == s + [c] + t';
      assert u[|u| - 1] == t[|t| - 1];
      AfterLastOfSuffix(s, c, t');
      assert t' + [t[|t| - 1]] == t;
    }
  }

  /** Python's `" ".join(parts)`. */
  function JoinWithSpace(parts: seq<string>): (r: string)
    ensures |parts| == 1 ==> r == parts[0]
    ensures |parts| > 1 ==> StartsWith(r, parts[0] + " ")
  {
    if |parts| == 0 then ""
    else if |parts| == 1 then parts[0]
    else parts[0] + " " + JoinWithSpace(parts[1..])
  }

  /** Python's `c * n`: `n` copies of `c`, and "" for a negative `n`. */
  function Repeat(c: char, n: int): (r: string)
    ensures |r| == if n <= 0 then 0 else n
    ensures forall i :: 0 <= i < |r| ==> r[i] == c
  {
    if n <= 0 then "" else [c] + Repeat(c, n - 1)
  }
}
