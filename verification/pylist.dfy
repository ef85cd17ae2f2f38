/**
 * Python's `str()` of a list of ints, `[1, 2, 3]`, and how joining with `", "`
 * relates to joining with `","`.
 */
module PyList {
  import opened Results
  import opened Decimal
  import opened PyText

  /** `[str(x) for x in xs]`. */
  function Renders(xs: seq<int>): (r: seq<string>)
    ensures |r| == |xs|
  {
    seq(|xs|, i requires 0 <= i < |xs| => IntDecimal(xs[i]))
  }

  /** Element `i` of the rendering is `str(xs[i])`. */
  lemma RendersAt(xs: seq<int>, i: nat)
    requires i < |xs|
    ensures Renders(xs)[i] == IntDecimal(xs[i])
  {
  }

  /** Each rendered element reads back through `int()` as the element it renders. */
  lemma RendersReadBack(xs: seq<int>)
    ensures forall i :: 0 <= i < |xs| ==> DecimalInt(Renders(xs)[i]) == Some(xs[i])
  {
    forall i | 0 <= i < |xs| ensures DecimalInt(Renders(xs)[i]) == Some(xs[i]) {
      RendersAt(xs, i);
      IntDecimalValue(xs[i]);
    }
  }

  /** Python's `str(xs)` for a list of ints: the elements between brackets, separated by a comma and a space. */
  function ListStr(xs: seq<int>): (r: string)
    ensures |r| >= 2 && r[0] == '[' && r[|r| - 1] == ']'
  {
    "[" + Join(Renders(xs), ", ") + "]"
  }

  /** Every element but the first, with the space `str(list)` puts after each comma. */
  function Spaced(rs: seq<string>): (r: seq<string>)
    ensures |r| == |rs|
  {
    if rs == [] then [] else [" " + rs[0]] + Spaced(rs[1..])
  }

  lemma {:induction false} SpacedAt(rs: seq<string>, i: nat)
    requires i < |rs|
    ensures Spaced(rs)[i] == " " + rs[i]
  {
    if i > 0 {
      SpacedAt(rs[1..], i - 1);
    }
  }

  lemma JoinCons(p: string, rest: seq<string>, sep: string)
    requires |rest| >= 1
    ensures Join([p] + rest, sep) == p + sep + Join(rest, sep)
  {
    assert ([p] + rest)[1..] == rest;
  }

  lemma {:induction false} JoinSpaced(rs: seq<string>)
    requires |rs| >= 1
    ensures Join(Spaced(rs), ",") == " " + Join(rs, ", ")
  {
    if |rs| >= 2 {
      var r, rest := rs[0], rs[1..];
      assert rs == [r] + rest;
      assert Spaced(rs) == [" " + r] + Spaced(rest);
      JoinSpaced(rest);
      JoinCons(" " + r, Spaced(rest), ",");
      JoinCons(r, rest, ", ");
      assert " " + r + "," + (" " + Join(rest, ", ")) == " " + (r + ", " + Join(rest, ", "));
    }
  }

  /** Joining with `", "` is joining with `","` after putting a space in front of every part but the first. */
  lemma CommaSpace(r: string, rest: seq<string>)
    ensures Join([r] + rest, ", ") == Join([r] + Spaced(rest), ",")
  {
    if |rest| >= 1 {
      JoinSpaced(rest);
      JoinCons(r, Spaced(rest), ",");
      JoinCons(r, rest, ", ");
      assert r + "," + (" " + Join(rest, ", ")) == r + ", " + Join(rest, ", ");
    }
  }

  lemma {:induction false} JoinTrailing(parts: seq<string>, c: char)
    requires |parts| >= 1
    ensures Join(parts, [c]) + [c] == Join(parts + [""], [c])
  {
    if |parts| >= 2 {
      JoinTrailing(parts[1..], c);
      assert (parts + [""])[1..] == parts[1..] + [""];
    } else {
      assert (parts + [""])[1..] == [""];
    }
  }

  /** A join starts with the first character of its first part, when that part is not empty. */
  lemma JoinFirst(parts: seq<string>, sep: string)
    requires |parts| >= 1 && parts[0] != []
    ensures |Join(parts, sep)| >= 1 && Join(parts, sep)[0] == parts[0][0]
  {
  }

  /** A join ends with the last character of its last part, when that part is not empty. */
  lemma {:induction false} JoinLast(parts: seq<string>, sep: string, c: char)
    requires |parts| >= 1
    requires var p := parts[|parts| - 1]; p != [] && p[|p| - 1] == c
    ensures var s := Join(parts, sep); |s| >= 1 && s[|s| - 1] == c
  {
    if |parts| >= 2 {
      JoinLast(parts[1..], sep, c);
    }
  }

  /** `str(i)` neither starts nor ends with a bracket: a sign or a digit comes first, a digit last. */
  lemma RenderUnbracketed(i: int)
    ensures Unstripped(IntDecimal(i), {'[', ']'})
  {
  }

  /** A join of parts whose first part starts, and whose last part ends, outside `chars` neither starts nor ends inside `chars`. */
  lemma JoinUnstripped(parts: seq<string>, sep: string, chars: set<char>)
    requires |parts| >= 1
    requires Unstripped(parts[0], chars) && Unstripped(parts[|parts| - 1], chars)
    ensures Unstripped(Join(parts, sep), chars)
  {
    var last := parts[|parts| - 1];
    JoinFirst(parts, sep);
    JoinLast(parts, sep, last[|last| - 1]);
  }

  /** Each rendered element neither starts nor ends with a bracket. */
  lemma RendersAtUnbracketed(xs: seq<int>, i: nat)
    requires i < |xs|
    ensures Unstripped(Renders(xs)[i], {'[', ']'})
  {
    RendersAt(xs, i);
    RenderUnbracketed(xs[i]);
  }

  /** The joined elements neither start nor end with a bracket. */
  lemma JoinedRendersEnds(xs: seq<int>)
    requires |xs| >= 1
    ensures Unstripped(Join(Renders(xs), ", "), {'[', ']'})
  {
    RendersAtUnbracketed(xs, 0);
    RendersAtUnbracketed(xs, |xs| - 1);
    JoinUnstripped(Renders(xs), ", ", {'[', ']'});
  }

  lemma ListStrSpelling(xs: seq<int>)
    ensures ListStr(xs) == ['['] + Join(Renders(xs), ", ") + [']']
  {
  }
}
