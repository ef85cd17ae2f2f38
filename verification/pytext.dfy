/**
 * The Python string operations the wrapper calls, `split` on one character and
 * `strip`, over Dafny strings. `IndexOf` finds the first occurrence of a character
 * for `Split`. `Join` is Python's `str.join`, which `str()` of a list uses and
 * which states the round trips of `Split`.
 */
module PyText {

  /** Position of the first `c` in `s`, or `|s|` when `s` holds none (as `s.find(c)` would give, with `|s|` for -1). */
  function IndexOf(s: string, c: char): (k: nat)
    ensures k <= |s|
    ensures k < |s| ==> s[k] == c
    ensures forall j :: 0 <= j < k ==> s[j] != c
  {
    if s == [] then 0 else if s[0] == c then 0 else 1 + IndexOf(s[1..], c)
  }

  /** `IndexOf` finds the first occurrence. */
  lemma {:induction false} IndexOfFirst(s: string, c: char, k: nat)
    requires k < |s| && s[k] == c
    requires forall j :: 0 <= j < k ==> s[j] != c
    ensures IndexOf(s, c) == k
  {
    if k > 0 {
      IndexOfFirst(s[1..], c, k - 1);
    }
  }

  /** Python's `s.split(c)` for a one-character separator: the pieces between the separators, in order. */
  function Split(s: string, c: char): (parts: seq<string>)
    ensures |parts| >= 1
    ensures forall i :: 0 <= i < |parts| ==> c !in parts[i]
    decreases |s|
  {
    var k := IndexOf(s, c);
    if k == |s| then [s] else [s[..k]] + Split(s[k + 1..], c)
  }

  /** Python's `sep.join(parts)`. */
  function Join(parts: seq<string>, sep: string): string
  {
    if |parts| == 0 then ""
    else if |parts| == 1 then parts[0]
    else parts[0] + sep + Join(parts[1..], sep)
  }

  /** Python's `s.lstrip(chars)`: drops the longest prefix made of `chars`. */
  function StripLeft(s: string, chars: set<char>): (r: string)
    ensures |r| <= |s| && r == s[|s| - |r|..]
    ensures forall i :: 0 <= i < |s| - |r| ==> s[i] in chars
    ensures r != [] ==> r[0] !in chars
  {
    if s != [] && s[0] in chars then StripLeft(s[1..], chars) else s
  }

  /** Python's `s.rstrip(chars)`: drops the longest suffix made of `chars`. */
  function StripRight(s: string, chars: set<char>): (r: string)
    ensures |r| <= |s| && r == s[..|r|]
    ensures forall i :: |r| <= i < |s| ==> s[i] in chars
    ensures r != [] ==> r[|r| - 1] !in chars
  {
    if s != [] && s[|s| - 1] in chars then StripRight(s[..|s| - 1], chars) else s
  }

  /** Python's `s.strip(chars)`. */
  function Strip(s: string, chars: set<char>): string
  {
    StripRight(StripLeft(s, chars), chars)
  }

  /**
   * What `strip(chars)` leaves neither starts nor ends with one of `chars`, and
   * nothing is left only when every character of `s` is one of them.
   */
  lemma StripEnds(s: string, chars: set<char>)
    ensures var r := Strip(s, chars);
      |r| <= |s| && (r != [] ==> Unstripped(r, chars)) &&
      (r == [] <==> forall i :: 0 <= i < |s| ==> s[i] in chars)
  {
    var t := StripLeft(s, chars);
    var r := StripRight(t, chars);
    assert r != [] ==> r[0] == t[0];
  }

  /** Stripping a text surrounded only by stripped characters, itself starting and ending outside them, gives the text. */
  lemma StripAround(pre: string, s: string, post: string, chars: set<char>)
    requires forall i :: 0 <= i < |pre| ==> pre[i] in chars
    requires forall i :: 0 <= i < |post| ==> post[i] in chars
    requires Unstripped(s, chars)
    ensures Strip(pre + s + post, chars) == s
  {
    assert (s + post)[0] == s[0];
    StripLeftPrefix(pre, s + post, chars);
    Reassociate(pre, s, post);
    StripRightSuffix(s, post, chars);
  }

  /** Concatenation regrouped, kept apart so that the sequence equality is proved outside the larger context. */
  lemma Reassociate(a: string, b: string, c: string)
    ensures a + b + c == a + (b + c)
  {
  }

  lemma {:induction false} StripLeftPrefix(pre: string, t: string, chars: set<char>)
    requires forall i :: 0 <= i < |pre| ==> pre[i] in chars
    requires t != [] && t[0] !in chars
    ensures StripLeft(pre + t, chars) == t
  {
    if pre == [] {
      assert pre + t == t;
    } else {
      assert (pre + t)[1..] == pre[1..] + t;
      StripLeftPrefix(pre[1..], t, chars);
    }
  }

  lemma {:induction false} StripRightSuffix(t: string, post: string, chars: set<char>)
    requires forall i :: 0 <= i < |post| ==> post[i] in chars
    requires t != [] && t[|t| - 1] !in chars
    ensures StripRight(t + post, chars) == t
  {
    if post == [] {
      assert t + post == t;
    } else {
      var p := post[..|post| - 1];
      assert (t + post)[..|t + post| - 1] == t + p;
      StripRightSuffix(t, p, chars);
    }
  }

  /** Splitting and joining again on the same separator gives back the text. */
  lemma {:induction false} JoinSplit(s: string, c: char)
    ensures Join(Split(s, c), [c]) == s
    decreases |s|
  {
    var k := IndexOf(s, c);
    if k < |s| {
      var parts := Split(s, c);
      var rest := Split(s[k + 1..], c);
      assert parts == [s[..k]] + rest;
      assert parts[1..] == rest;
      assert |parts| >= 2;
      assert Join(parts, [c]) == s[..k] + [c] + Join(rest, [c]);
      JoinSplit(s[k + 1..], c);
      assert s == s[..k] + [c] + s[k + 1..];
    }
  }

  /** Joining pieces free of the separator and splitting again gives back the pieces. */
  lemma {:induction false} SplitJoin(parts: seq<string>, c: char)
    requires |parts| >= 1
    requires forall i :: 0 <= i < |parts| ==> c !in parts[i]
    ensures Split(Join(parts, [c]), c) == parts
  {
    var s := Join(parts, [c]);
    if |parts| == 1 {
      assert IndexOf(s, c) == |s|;
    } else {
      var p := parts[0];
      var tail := Join(parts[1..], [c]);
      assert s == p + [c] + tail;
      SplitCons(p, c, tail);
      SplitJoin(parts[1..], c);
      assert parts == [p] + parts[1..];
    }
  }

  /** A separator-free piece, a separator and the rest split into that piece and the split of the rest. */
  lemma SplitCons(p: string, c: char, tail: string)
    requires c !in p
    ensures Split(p + [c] + tail, c) == [p] + Split(tail, c)
  {
    var s := p + [c] + tail;
    assert forall j :: 0 <= j < |p| ==> s[j] == p[j] && p[j] != c;
    IndexOfFirst(s, c, |p|);
    assert s[..|p|] == p;
    assert s[|p| + 1..] == tail;
  }

  /** Stripping leaves a text alone that neither starts nor ends with a stripped character. */
  lemma StripUnchanged(s: string, chars: set<char>)
    requires Unstripped(s, chars)
    ensures Strip(s, chars) == s
  {
    assert StripLeft(s, chars) == s;
  }

  /** A non-empty text whose first and last characters are not among `chars`, which `strip(chars)` leaves alone. */
  predicate Unstripped(s: string, chars: set<char>)
  {
    s != [] && s[0] !in chars && s[|s| - 1] !in chars
  }

  /** Stripping removes one stripped character from each end of a text that is otherwise left alone. */
  lemma StripEnclosed(l: char, inner: string, r: char, chars: set<char>)
    requires l in chars && r in chars
    requires Unstripped(inner, chars)
    ensures Strip([l] + inner + [r], chars) == inner
  {
    var s := [l] + inner + [r];
    assert s[1..] == inner + [r];
    assert StripLeft(s, chars) == StripLeft(inner + [r], chars) == inner + [r];
    assert (inner + [r])[..|inner|] == inner;
    assert StripRight(inner + [r], chars) == StripRight(inner, chars) == inner;
  }

  /** Stripping a text that starts with a stripped character strips the rest. */
  lemma StripLeading(l: char, s: string, chars: set<char>)
    requires l in chars
    ensures Strip([l] + s, chars) == Strip(s, chars)
  {
    assert ([l] + s)[1..] == s;
  }
}
