/** Text helpers with the meaning Python gives to the string methods the
    marketplace calls: `strip`, `lower`, `split`, `join`, `replace`,
    `startswith` and the substring test `a in b`. */
module Strings {

  /** Python's `str.isspace` for one character (the set `str.strip()` removes). */
  predicate IsSpace(c: char) {
    || c == ' ' || c == '\t' || c == '\n' || c == '\r'
    || c == '\U{000B}' || c == '\U{000C}'
    || ('\U{001C}' <= c <= '\U{001F}')
    || c == '\U{0085}' || c == '\U{00A0}' || c == '\U{1680}'
    || ('\U{2000}' <= c <= '\U{200A}')
    || c == '\U{2028}' || c == '\U{2029}' || c == '\U{202F}'
    || c == '\U{205F}' || c == '\U{3000}'
  }

  /** `s.strip()`: drops whitespace from both ends. */
  function Strip(s: string): (r: string)
    ensures |r| <= |s|
    ensures r != [] ==> !IsSpace(r[0]) && !IsSpace(r[|r| - 1])
    ensures AllSpace(s) <==> r == []
    decreases |s|
  {
    if s != [] && IsSpace(s[0]) then
      assert AllSpace(s) <==> AllSpace(s[1..]) by {
        assert forall i :: 1 <= i < |s| ==> s[i] == s[1..][i - 1];
      }
      Strip(s[1..])
    else if s != [] && IsSpace(s[|s| - 1]) then
      assert AllSpace(s) <==> AllSpace(s[..|s| - 1]) by {
        assert forall i :: 0 <= i < |s| - 1 ==> s[i] == s[..|s| - 1][i];
      }
      Strip(s[..|s| - 1])
    else
      assert s != [] ==> !AllSpace(s);
      s
  }

  /** Every character of `s` is whitespace (so "" too). */
  predicate AllSpace(s: string) {
    forall i :: 0 <= i < |s| ==> IsSpace(s[i])
  }

  lemma AllSpaceSnoc(t: string, c: char)
    requires AllSpace(t) && IsSpace(c)
    ensures AllSpace(t + [c])
  {
    forall k | 0 <= k < |t + [c]| ensures IsSpace((t + [c])[k]) {
      if k < |t| {
        assert (t + [c])[k] == t[k];
      }
    }
  }

  /** Where the result of `strip()` lies in its input: between `i` and `j`,
      with only whitespace before and after. */
  lemma {:induction false} StripBounds(s: string) returns (i: nat, j: nat)
    ensures i <= j <= |s| && Strip(s) == s[i..j] && AllSpace(s[..i]) && AllSpace(s[j..])
    decreases |s|
  {
    if s != [] && IsSpace(s[0]) {
      var i', j' := StripBounds(s[1..]);
      StripBoundsFront(s, i', j');
      i, j := i' + 1, j' + 1;
    } else if s != [] && IsSpace(s[|s| - 1]) {
      i, j := StripBounds(s[..|s| - 1]);
      StripBoundsBack(s, i, j);
    } else {
      i, j := 0, |s|;
      assert s[..0] == [] && s[|s|..] == [] && s[0..|s|] == s;
    }
  }

  lemma StripBoundsFront(s: string, i: nat, j: nat)
    requires s != [] && IsSpace(s[0])
    requires i <= j <= |s| - 1 && Strip(s[1..]) == s[1..][i..j] && AllSpace(s[1..][..i]) && AllSpace(s[1..][j..])
    ensures Strip(s) == s[i + 1..j + 1] && AllSpace(s[..i + 1]) && AllSpace(s[j + 1..])
  {
    assert Strip(s) == Strip(s[1..]);
    assert s[1..][i..j] == s[i + 1..j + 1];
    var before, after, rest := s[..i + 1], s[j + 1..], s[1..];
    forall k | 0 <= k < |before| ensures IsSpace(before[k]) {
      if k == 0 {
        assert before[k] == s[0];
      } else {
        assert before[k] == rest[..i][k - 1];
        assert IsSpace(rest[..i][k - 1]);
      }
    }
    forall k | 0 <= k < |after| ensures IsSpace(after[k]) {
      assert after[k] == rest[j..][k];
    }
  }

  lemma StripBoundsBack(s: string, i: nat, j: nat)
    requires s != [] && !IsSpace(s[0]) && IsSpace(s[|s| - 1])
    requires var t := s[..|s| - 1];
      i <= j <= |t| && Strip(t) == t[i..j] && AllSpace(t[..i]) && AllSpace(t[j..])
    ensures Strip(s) == s[i..j] && AllSpace(s[..i]) && AllSpace(s[j..])
  {
    var t := s[..|s| - 1];
    assert t[i..j] == s[i..j];
    assert s[..i] == t[..i];
    AllSpaceSnoc(t[j..], s[|s| - 1]);
    assert s[j..] == t[j..] + [s[|s| - 1]];
  }

  /** `strip()` returns an infix of its input and drops only whitespace
      around it. */
  lemma StripIsInfix(s: string)
    ensures exists i, j :: 0 <= i <= j <= |s| && Strip(s) == s[i..j] && AllSpace(s[..i]) && AllSpace(s[j..])
  {
    var i, j := StripBounds(s);
  }

  /** `strip()` keeps a run of characters of its input: it adds none. */
  lemma StripAbsent(s: string, c: char)
    requires c !in s
    ensures c !in Strip(s)
  {
    var i, j := StripBounds(s);
    forall k | 0 <= k < j - i ensures s[i..j][k] != c {
      assert s[i..j][k] == s[i + k];
    }
  }

  /** A string that `strip()` leaves as it is. */
  predicate IsTrimmed(s: string) {
    s == [] || (!IsSpace(s[0]) && !IsSpace(s[|s| - 1]))
  }

  lemma StripTrimmed(s: string)
    requires IsTrimmed(s)
    ensures Strip(s) == s
  {
  }

  /** Leading whitespace does not change what `strip()` returns. */
  lemma StripSpacePrefix(c: char, s: string)
    requires IsSpace(c)
    ensures Strip([c] + s) == Strip(s)
  {
    assert ([c] + s)[1..] == s;
  }

  /** ASCII case folding of one character, as `str.lower` does on ASCII input. */
  function LowerChar(c: char): char {
    if 'A' <= c <= 'Z' then (c as int + 32) as char else c
  }

  /** `s.lower()` on the ASCII letters. */
  function Lower(s: string): (r: string)
    ensures |r| == |s|
    ensures forall i :: 0 <= i < |s| ==> r[i] == LowerChar(s[i])
  {
    seq(|s|, i requires 0 <= i < |s| => LowerChar(s[i]))
  }

  /** `s.replace(a, b)` for single characters. */
  function ReplaceChar(s: string, a: char, b: char): (r: string)
    ensures |r| == |s|
    ensures forall i :: 0 <= i < |s| ==> r[i] == (if s[i] == a then b else s[i])
  {
    seq(|s|, i requires 0 <= i < |s| => if s[i] == a then b else s[i])
  }

  predicate StartsWith(s: string, prefix: string) {
    |prefix| <= |s| && s[..|prefix|] == prefix
  }

  /** Python's `a in b` on strings: `a` occurs in `b` at some position. */
  predicate Contains(b: string, a: string)
    decreases |b|
  {
    StartsWith(b, a) || (b != [] && Contains(b[1..], a))
  }

  /** Every string contains the empty string. */
  lemma ContainsEmpty(b: string)
    ensures Contains(b, "")
  {
  }

  /** `s.split(d)` with an explicit one-character separator. */
  function Split(s: string, d: char): (r: seq<string>)
    ensures |r| >= 1
    ensures forall i :: 0 <= i < |r| ==> d !in r[i]
  {
    if s == [] then [""]
    else if s[0] == d then [""] + Split(s[1..], d)
    else var rest := Split(s[1..], d); [[s[0]] + rest[0]] + rest[1..]
  }

  /** `sep.join(xs)`. */
  function Join(xs: seq<string>, sep: string): string {
    if xs == [] then ""
    else if |xs| == 1 then xs[0]
    else xs[0] + sep + Join(xs[1..], sep)
  }

  /** A string without the separator is one piece. */
  lemma {:induction false} SplitNoSeparator(s: string, d: char)
    requires d !in s
    ensures Split(s, d) == [s]
  {
    if s != [] {
      SplitNoSeparator(s[1..], d);
      assert [s[0]] + s[1..] == s;
    }
  }

  /** Splitting `a + [d] + b` where `a` has no separator yields `a` and then the pieces of `b`. */
  lemma {:induction false} SplitAtSeparator(a: string, d: char, b: string)
    requires d !in a
    ensures Split(a + [d] + b, d) == [a] + Split(b, d)
  {
    if a == [] {
      assert a + [d] + b == [d] + b;
      assert ([d] + b)[1..] == b;
    } else {
      var s := a + [d] + b;
      assert s[0] == a[0] && s[1..] == a[1..] + [d] + b;
      SplitAtSeparator(a[1..], d, b);
      assert [a[0]] + a[1..] == a;
    }
  }

  /** A leading non-separator character joins the first piece. */
  lemma SplitConsChar(c: char, s: string, d: char)
    requires c != d
    ensures Split([c] + s, d) == [[c] + Split(s, d)[0]] + Split(s, d)[1..]
  {
    assert ([c] + s)[1..] == s;
  }
}
