/** The string operations the generator relies on: `str.strip()`, `str.split('\n')`,
    `str.lower()` and the substring test `t in s`. */
module Text {

  /** Python's `str.isspace()` for one character: the characters `str.strip()` removes. */
  predicate IsSpace(c: char) {
    c == ' ' || ('\t' <= c <= '\r') || ('\U{1c}' <= c <= '\U{1f}')
    || c == '\U{85}' || c == '\U{a0}' || c == '\U{1680}'
    || ('\U{2000}' <= c <= '\U{200a}') || c == '\U{2028}' || c == '\U{2029}'
    || c == '\U{202f}' || c == '\U{205f}' || c == '\U{3000}'
  }

  /** `s.lstrip()`: the suffix of `s` left after its leading whitespace. */
  function TrimStart(s: string): (r: string)
    ensures |r| <= |s| && r == s[|s| - |r|..]
    ensures forall k :: 0 <= k < |s| - |r| ==> IsSpace(s[k])
    ensures r == [] || !IsSpace(r[0])
  {
    if s != [] && IsSpace(s[0]) then TrimStart(s[1..]) else s
  }

  /** `s.rstrip()`: the prefix of `s` left before its trailing whitespace. */
  function TrimEnd(s: string): (r: string)
    ensures |r| <= |s| && r == s[..|r|]
    ensures forall k :: |r| <= k < |s| ==> IsSpace(s[k])
    ensures r == [] || !IsSpace(r[|r| - 1])
  {
    if s != [] && IsSpace(s[|s| - 1]) then TrimEnd(s[..|s| - 1]) else s
  }

  /** `s.strip()`: neither starts nor ends with whitespace, and is empty exactly
      when `s` is blank. */
  function Strip(s: string): (r: string)
    ensures |r| <= |s|
    ensures r != [] ==> !IsSpace(r[0]) && !IsSpace(r[|r| - 1])
    ensures r == [] <==> forall k :: 0 <= k < |s| ==> IsSpace(s[k])
  {
    var t := TrimStart(s);
    var r := TrimEnd(t);
    assert forall k :: |s| - |t| <= k < |s| ==> s[k] == t[k - (|s| - |t|)];
    r
  }

  /** `r` is `s` at index `i`, with only whitespace before and after it. */
  predicate StripsTo(s: string, r: string, i: nat) {
    && i + |r| <= |s| && r == s[i..i + |r|]
    && (forall k :: 0 <= k < i ==> IsSpace(s[k]))
    && (forall k :: i + |r| <= k < |s| ==> IsSpace(s[k]))
  }

  /** `s.strip()` is `s` with exactly its leading and trailing whitespace removed:
      the slice of `s` at the returned index, with only whitespace around it. */
  lemma StripInfix(s: string) returns (i: nat)
    ensures StripsTo(s, Strip(s), i)
  {
    var t := TrimStart(s);
    var r := TrimEnd(t);
    i := |s| - |t|;
    assert r == s[i..i + |r|] by {
      assert r == t[..|r|] && t == s[i..];
    }
    forall k | i + |r| <= k < |s|
      ensures IsSpace(s[k])
    {
      assert s[k] == t[k - i];
    }
  }

  /** `s.split('\n')`: the pieces between newlines, at least one, none holding a newline. */
  function Split(s: string): (r: seq<string>)
    ensures |r| >= 1
    ensures forall k :: 0 <= k < |r| ==> '\n' !in r[k]
  {
    if s == [] then [[]]
    else
      var rest := Split(s[1..]);
      if s[0] == '\n' then [[]] + rest
      else [[s[0]] + rest[0]] + rest[1..]
  }

  /** `'\n'.join(ls)`. */
  function Join(ls: seq<string>): string
    requires |ls| >= 1
  {
    if |ls| == 1 then ls[0] else ls[0] + "\n" + Join(ls[1..])
  }

  /** Splitting loses nothing: joining the pieces gives the text back. */
  lemma {:induction false} JoinSplit(s: string)
    ensures Join(Split(s)) == s
  {
    if s != [] {
      var rest := Split(s[1..]);
      JoinSplit(s[1..]);
      if s[0] == '\n' {
        assert Split(s) == [[]] + rest;
        assert Join(Split(s)) == [] + "\n" + Join(rest);
      } else if |rest| == 1 {
        assert Split(s) == [[s[0]] + rest[0]];
      } else {
        var r := Split(s);
        assert r[1..] == rest[1..];
        assert Join(r) == [s[0]] + rest[0] + "\n" + Join(rest[1..]);
      }
    }
  }

  /** Splitting a newline-free prefix onto the front of the text extends the first piece. */
  lemma {:induction false} SplitPrefix(a: string, s: string)
    requires '\n' !in a
    ensures Split(a + s) == [a + Split(s)[0]] + Split(s)[1..]
  {
    if a != [] {
      assert (a + s)[1..] == a[1..] + s;
      assert a[0] != '\n';
      SplitPrefix(a[1..], s);
      assert [a[0]] + (a[1..] + Split(s)[0]) == a + Split(s)[0];
    } else {
      var r := Split(s);
      assert a + s == s && a + r[0] == r[0];
      assert [r[0]] + r[1..] == r;
    }
  }

  /** Joining newline-free pieces and splitting again gives the same pieces. */
  lemma {:induction false} SplitJoin(ls: seq<string>)
    requires |ls| >= 1
    requires forall k :: 0 <= k < |ls| ==> '\n' !in ls[k]
    ensures Split(Join(ls)) == ls
  {
    if |ls| == 1 {
      SplitPrefix(ls[0], []);
      assert ls[0] + [] == ls[0];
    } else {
      SplitJoin(ls[1..]);
      var tail := "\n" + Join(ls[1..]);
      assert Split(tail) == [[]] + ls[1..];
      SplitPrefix(ls[0], tail);
      assert ls[0] + "\n" + Join(ls[1..]) == ls[0] + tail;
      assert ls[0] + [] == ls[0];
      assert [ls[0]] + ls[1..] == ls;
    }
  }

  /** `c.lower()` restricted to ASCII letters; every other character is kept. */
  function LowerChar(c: char): char {
    if 'A' <= c <= 'Z' then (c as int + 32) as char else c
  }

  /** `s.lower()`, character by character. */
  function Lower(s: string): (r: string)
    ensures |r| == |s| && forall k :: 0 <= k < |s| ==> r[k] == LowerChar(s[k])
  {
    seq(|s|, k requires 0 <= k < |s| => LowerChar(s[k]))
  }

  /** `t in s` for strings: `t` occurs in `s` at some position. */
  predicate Contains(s: string, t: string)
    decreases |s|
  {
    t <= s || (s != [] && Contains(s[1..], t))
  }

  /** `t` occurs in `s` at index `i`. */
  predicate At(s: string, t: string, i: nat) {
    i + |t| <= |s| && s[i..i + |t|] == t
  }

  /** `t` occurs in `s` at some index. */
  ghost predicate Occurs(s: string, t: string) {
    exists i: nat :: At(s, t, i)
  }

  /** The substring test holds at every occurrence. */
  lemma {:induction false} ContainsAt(s: string, t: string, i: nat)
    requires i + |t| <= |s| && s[i..i + |t|] == t
    ensures Contains(s, t)
    decreases i
  {
    if i == 0 {
      assert s[..|t|] == t;
    } else {
      assert s[1..][i - 1..i - 1 + |t|] == s[i..i + |t|];
      ContainsAt(s[1..], t, i - 1);
    }
  }

  /** The substring test holds only where there is an occurrence, and returns its index. */
  lemma {:induction false} ContainsOnlyAt(s: string, t: string) returns (i: nat)
    requires Contains(s, t)
    ensures At(s, t, i)
    decreases |s|
  {
    if t <= s {
      i := 0;
      assert s[..|t|] == t;
    } else {
      var j := ContainsOnlyAt(s[1..], t);
      i := j + 1;
      assert s[1..][j..j + |t|] == s[i..i + |t|];
    }
  }

  /** The substring test finds exactly the occurrences. */
  lemma ContainsIff(s: string, t: string)
    ensures Contains(s, t) <==> Occurs(s, t)
  {
    if Contains(s, t) {
      var i := ContainsOnlyAt(s, t);
    }
    if Occurs(s, t) {
      var i: nat :| At(s, t, i);
      ContainsAt(s, t, i);
    }
  }
}
