/**
 * The snapshot query `SNAP?`: the check of the list of parameter selectors, the
 * query text the wrapper builds from Python's `str(list)`, and the splitting of
 * the instrument's reply into one field per selector.
 */
module Snap {
  import opened Results
  import opened Decimal
  import opened PyText
  import opened PyList

  const LengthMessage := "List should contain 2-6 entries."
  const RangeMessage := "List should contain integer values between 1 and 11."

  /** Python's `min(xs)`. */
  function Min(xs: seq<int>): (m: int)
    requires |xs| >= 1
    ensures m in xs && forall i :: 0 <= i < |xs| ==> m <= xs[i]
  {
    if |xs| == 1 then xs[0]
    else
      var rest := Min(xs[1..]);
      if xs[0] <= rest then xs[0] else rest
  }

  /** Python's `max(xs)`. */
  function Max(xs: seq<int>): (m: int)
    requires |xs| >= 1
    ensures m in xs && forall i :: 0 <= i < |xs| ==> xs[i] <= m
  {
    if |xs| == 1 then xs[0]
    else
      var rest := Max(xs[1..]);
      if xs[0] >= rest then xs[0] else rest
  }

  /**
   * The two assertions of `snap`, in order: 2 to 6 selectors, then smallest at
   * least 1 and largest at most 11. Checking the extremes checks every element.
   */
  function SnapCheck(xs: seq<int>): (r: Outcome)
    ensures r == Pass <==> 2 <= |xs| <= 6 && forall i :: 0 <= i < |xs| ==> 1 <= xs[i] <= 11
    ensures !(2 <= |xs| <= 6) ==> r == Fail(LengthMessage)
    ensures 2 <= |xs| <= 6 && r != Pass ==> r == Fail(RangeMessage)
  {
    if !(|xs| >= 2 && |xs| <= 6) then Fail(LengthMessage)
    else if !(Min(xs) >= 1 && Max(xs) <= 11) then Fail(RangeMessage)
    else Pass
  }

  /** `'SNAP?{},'.format(str(xs).strip('[]'))`. */
  function SnapQuery(xs: seq<int>): (q: string)
    ensures |q| >= 6 && q[..5] == "SNAP?" && q[|q| - 1] == ','
  {
    "SNAP?" + Strip(ListStr(xs), {'[', ']'}) + ","
  }

  /** `reply.split(',')`: one field per value, in the order of the reply. */
  function SnapFields(reply: string): (fields: seq<string>)
    ensures |fields| >= 1
    ensures forall i :: 0 <= i < |fields| ==> ',' !in fields[i]
  {
    Split(reply, ',')
  }

  /** The fields put back together with commas are the reply. */
  lemma SnapFieldsComplete(reply: string)
    ensures Join(SnapFields(reply), ",") == reply
  {
    JoinSplit(reply, ',');
  }

  // ---------------------------------------------------------------------------
  // What the query carries

  /** The text of the list after `strip('[]')` is the elements joined by `", "`. */
  lemma StrippedList(xs: seq<int>)
    requires |xs| >= 1
    ensures Strip(ListStr(xs), {'[', ']'}) == Join(Renders(xs), ", ")
  {
    JoinedRendersEnds(xs);
    ListStrSpelling(xs);
    StripEnclosed('[', Join(Renders(xs), ", "), ']', {'[', ']'});
  }

  /** The comma-separated fields of the query after `SNAP?`: each element with the space `str()` puts after a comma, then an empty field after the trailing comma. */
  function QueryFields(xs: seq<int>): seq<string>
    requires |xs| >= 1
  {
    var rs := Renders(xs);
    [rs[0]] + Spaced(rs[1..]) + [""]
  }

  /** The query is `SNAP?`, the elements joined by `", "`, and a comma. */
  lemma QuerySpelling(xs: seq<int>)
    requires |xs| >= 1
    ensures SnapQuery(xs) == "SNAP?" + (Join(Renders(xs), ", ") + ",")
  {
    StrippedList(xs);
  }

  lemma QueryText(xs: seq<int>)
    requires |xs| >= 1
    ensures SnapQuery(xs) == "SNAP?" + Join(QueryFields(xs), ",")
  {
    var rs := Renders(xs);
    var parts := [rs[0]] + Spaced(rs[1..]);
    QuerySpelling(xs);
    assert Join(rs, ", ") == Join(parts, ",") by {
      assert rs == [rs[0]] + rs[1..];
      CommaSpace(rs[0], rs[1..]);
    }
    assert Join(parts, ",") + "," == Join(parts + [""], ",") by {
      JoinTrailing(parts, ',');
    }
    assert QueryFields(xs) == parts + [""];
  }

  lemma {:induction false} QueryFieldAt(xs: seq<int>, i: nat)
    requires i < |xs|
    ensures |QueryFields(xs)| == |xs| + 1
    ensures QueryFields(xs)[i] == (if i == 0 then "" else " ") + IntDecimal(xs[i])
  {
    var rs := Renders(xs);
    RendersAt(xs, i);
    if i > 0 {
      SpacedAt(rs[1..], i - 1);
    }
  }

  lemma QueryFieldsCommaFree(xs: seq<int>)
    requires |xs| >= 1
    ensures forall i :: 0 <= i < |QueryFields(xs)| ==> ',' !in QueryFields(xs)[i]
  {
    var fields := QueryFields(xs);
    forall i | 0 <= i < |fields| ensures ',' !in fields[i] {
      if i < |xs| {
        QueryFieldAt(xs, i);
        var d := IntDecimal(xs[i]);
        assert forall k :: 0 <= k < |d| ==> d[k] != ',';
      }
    }
  }

  /**
   * Split on its commas, the part of the query after `SNAP?` gives one field per
   * selector, each reading back as that selector, and an empty last field after
   * the trailing comma.
   */
  lemma SnapQueryFields(xs: seq<int>)
    requires |xs| >= 1
    ensures |SnapQuery(xs)| >= 5 && SnapQuery(xs)[..5] == "SNAP?"
    ensures var fields := Split(SnapQuery(xs)[5..], ',');
      |fields| == |xs| + 1 && fields[|xs|] == "" &&
      forall i :: 0 <= i < |xs| ==> ParseInt(fields[i]) == Some(xs[i])
  {
    var fields := QueryFields(xs);
    QueryText(xs);
    assert SnapQuery(xs)[5..] == Join(fields, ",");
    QueryFieldsCommaFree(xs);
    SplitJoin(fields, ',');
    QueryFieldAt(xs, 0);
    forall i | 0 <= i < |xs| ensures ParseInt(fields[i]) == Some(xs[i]) {
      QueryFieldAt(xs, i);
      IntDecimalRoundTrip(xs[i]);
    }
  }

  /** `str([1, 2, 3])` without its brackets is `1, 2, 3`. */
  lemma ListExample(xs: seq<int>)
    requires xs == [1, 2, 3]
    ensures Join(Renders(xs), ", ") == "1, 2, 3"
  {
    assert Renders(xs) == ["1", "2", "3"] by {
      assert NatDigits(1) == "1" && NatDigits(2) == "2" && NatDigits(3) == "3";
      RendersAt(xs, 0);
      RendersAt(xs, 1);
      RendersAt(xs, 2);
    }
    JoinCons("2", ["3"], ", ");
    JoinCons("1", ["2", "3"], ", ");
  }

  /** `snap([1, 2, 3])` passes both assertions; `snap([1])` and `snap([0, 5])` do not. */
  lemma SnapCheckExample()
    ensures SnapCheck([1, 2, 3]) == Pass
    ensures SnapCheck([1]) == Fail(LengthMessage)
    ensures SnapCheck([0, 5]) == Fail(RangeMessage)
  {
    assert Min([0, 5]) == 0;
  }

  /** `snap([1, 2, 3])` sends `SNAP?1, 2, 3,`: `str(list)` puts a space after every comma. */
  lemma SnapQueryExample(xs: seq<int>)
    requires xs == [1, 2, 3]
    ensures SnapQuery(xs) == "SNAP?1, 2, 3,"
  {
    QuerySpelling(xs);
    ListExample(xs);
  }
}
