// String helpers with the meaning JavaScript gives them: the `\s` class and
// `trim`, `toLowerCase` (ASCII letters only), `includes`, `startsWith`,
// `split` on one character and `join`.

module Text {

  /** JavaScript's `\s` class: the characters `trim` removes and the email
      pattern refuses. */
  predicate IsSpace(c: char)
  {
    || c == ' ' || c == '\t' || c == '\n' || c == '\U{000B}' || c == '\U{000C}' || c == '\r'
    || c == '\U{00A0}' || c == '\U{1680}' || ('\U{2000}' <= c <= '\U{200A}')
    || c == '\U{2028}' || c == '\U{2029}' || c == '\U{202F}' || c == '\U{205F}'
    || c == '\U{3000}' || c == '\U{FEFF}'
  }

  predicate NoSpace(s: string)
  {
    forall i :: 0 <= i < |s| ==> !IsSpace(s[i])
  }

  /** Neither end is whitespace. */
  predicate IsTrimmed(s: string)
  {
    s == [] || (!IsSpace(s[0]) && !IsSpace(s[|s| - 1]))
  }

  function TrimStart(s: string): (r: string)
    ensures |r| <= |s| && r == s[|s| - |r|..]
    ensures r == [] || !IsSpace(r[0])
    ensures forall i :: 0 <= i < |s| - |r| ==> IsSpace(s[i])
  {
    if s != [] && IsSpace(s[0]) then TrimStart(s[1..]) else s
  }

  function TrimEnd(s: string): (r: string)
    ensures |r| <= |s| && r == s[..|r|]
    ensures r == [] || !IsSpace(r[|r| - 1])
    ensures forall i :: |r| <= i < |s| ==> IsSpace(s[i])
  {
    if s != [] && IsSpace(s[|s| - 1]) then TrimEnd(s[..|s| - 1]) else s
  }

  /** `String.prototype.trim`. */
  function Trim(s: string): (r: string)
    ensures IsTrimmed(r)
    ensures |r| <= |s|
  {
    var t := TrimStart(s);
    var r := TrimEnd(t);
    assert r != [] ==> r[0] == t[0];
    r
  }

  lemma {:induction false} TrimOfTrimmed(s: string)
    requires IsTrimmed(s)
    ensures Trim(s) == s
  {
  }

  /** One leading whitespace character is dropped by `trim`. */
  lemma TrimSpacePrefix(c: char, s: string)
    requires IsSpace(c)
    ensures Trim([c] + s) == Trim(s)
  {
    assert ([c] + s)[1..] == s;
  }

  lemma TrimOfNoSpace(s: string)
    requires NoSpace(s)
    ensures Trim(s) == s
  {
    TrimOfTrimmed(s);
  }

  /** `toLowerCase` on ASCII letters; every other character is kept. */
  function LowerChar(c: char): char
  {
    if 'A' <= c <= 'Z' then (c as int + 32) as char else c
  }

  function ToLower(s: string): (r: string)
    ensures |r| == |s|
    ensures forall i :: 0 <= i < |s| ==> r[i] == LowerChar(s[i])
  {
    seq(|s|, i requires 0 <= i < |s| => LowerChar(s[i]))
  }

  lemma LowerKeepsSpaces(s: string)
    ensures NoSpace(ToLower(s)) <==> NoSpace(s)
  {
    var r := ToLower(s);
    forall i | 0 <= i < |s| ensures IsSpace(r[i]) <==> IsSpace(s[i]) {}
  }

  /** `sub` occurs in `s` at some position (`String.prototype.includes`). */
  predicate Contains(s: string, sub: string)
    decreases |s|
  {
    sub <= s || (s != [] && Contains(s[1..], sub))
  }

  /** Case-insensitive substring test, as `a.toLowerCase().includes(b.toLowerCase())`. */
  predicate IncludesIgnoringCase(s: string, query: string)
  {
    Contains(ToLower(s), ToLower(query))
  }

  lemma {:induction false} EmptyQueryMatches(s: string)
    ensures IncludesIgnoringCase(s, "")
  {
    assert ToLower("") == "";
    assert "" <= ToLower(s);
  }

  /** An empty string contains nothing but the empty query. */
  lemma {:induction false} EmptyContainsOnlyEmpty(query: string)
    ensures IncludesIgnoringCase("", query) <==> query == ""
  {
    assert |ToLower(query)| == |query|;
  }

  predicate StartsWith(s: string, prefix: string)
  {
    prefix <= s
  }

  /** `s.split(c)` for a one-character separator: never an empty list. */
  function Split(s: string, c: char): (r: seq<string>)
    ensures |r| >= 1
  {
    if s == [] then [""]
    else
      var rest := Split(s[1..], c);
      if s[0] == c then [""] + rest else [[s[0]] + rest[0]] + rest[1..]
  }

  /** `xs.join(sep)`. */
  function Join(xs: seq<string>, sep: string): string
  {
    if |xs| == 0 then ""
    else if |xs| == 1 then xs[0]
    else xs[0] + sep + Join(xs[1..], sep)
  }

  lemma {:induction false} SplitWithout(s: string, c: char)
    requires c !in s
    ensures Split(s, c) == [s]
  {
    if s != [] {
      SplitWithout(s[1..], c);
      assert [s[0]] + s[1..] == s;
    }
  }

  /** Splitting at the first separator. */
  lemma {:induction false} SplitAtSeparator(a: string, c: char, b: string)
    requires c !in a
    ensures Split(a + [c] + b, c) == [a] + Split(b, c)
  {
    if a == [] {
      assert ([c] + b)[1..] == b;
    } else {
      SplitAtSeparator(a[1..], c, b);
      assert (a + [c] + b)[1..] == a[1..] + [c] + b;
      assert [a[0]] + a[1..] == a;
    }
  }

  /** Prefixing every element but the first with `pad`. */
  function PadTail(xs: seq<string>, pad: string): (r: seq<string>)
    requires |xs| >= 1
    ensures |r| == |xs| && r[0] == xs[0]
    ensures forall i :: 1 <= i < |xs| ==> r[i] == pad + xs[i]
  {
    [xs[0]] + seq(|xs| - 1, i requires 0 <= i < |xs| - 1 => pad + xs[i + 1])
  }

  /** Splitting a joined list at the separator's first character gives back
      the pieces, each but the first still carrying the rest of the separator. */
  lemma {:induction false} SplitJoin(xs: seq<string>, c: char, pad: string)
    requires |xs| >= 1
    requires forall i :: 0 <= i < |xs| ==> c !in xs[i]
    requires c !in pad
    ensures Split(Join(xs, [c] + pad), c) == PadTail(xs, pad)
  {
    if |xs| == 1 {
      SplitWithout(xs[0], c);
    } else {
      var tail := Join(xs[1..], [c] + pad);
      assert Join(xs, [c] + pad) == xs[0] + [c] + (pad + tail);
      SplitAtSeparator(xs[0], c, pad + tail);
      SplitJoin(xs[1..], c, pad);
      assert Split(tail, c) == PadTail(xs[1..], pad);
      SplitPadded(pad, tail, c);
    }
  }

  lemma {:induction false} SplitPadded(pad: string, s: string, c: char)
    requires c !in pad
    ensures |Split(pad + s, c)| == |Split(s, c)|
    ensures Split(pad + s, c)[0] == pad + Split(s, c)[0]
    ensures Split(pad + s, c)[1..] == Split(s, c)[1..]
  {
    if pad != [] {
      SplitPadded(pad[1..], s, c);
      var t := pad + s;
      assert t != [] && t[0] == pad[0] && t[0] != c;
      assert t[1..] == pad[1..] + s;
      var rest := Split(t[1..], c);
      assert Split(t, c) == [[t[0]] + rest[0]] + rest[1..];
      assert [pad[0]] + (pad[1..] + Split(s, c)[0]) == pad + Split(s, c)[0];
    } else {
      assert pad + s == s;
    }
  }
}
