/**
 * std::set<CV>, the container of the supported topics and directives: a
 * sequence kept strictly increasing under CV's operator<. Because that order
 * looks at codes only, the set holds at most one coded value per code.
 */
module CvSet {
  import opened Primitives

  /** Strictly increasing under Less, hence free of two elements with one code. */
  predicate Ordered(s: seq<CV>) {
    forall i, j :: 0 <= i < j < |s| ==> Less(s[i], s[j])
  }

  type CvSet = s: seq<CV> | Ordered(s) witness []

  /** Whether the set holds an element equivalent to x, that is one with x's code. */
  predicate HasCode(s: seq<CV>, code: string) {
    exists y :: y in s && y.code == code
  }

  /**
   * std::set::insert: x goes in at its place in the order unless an
   * element with the same code is already there, in which case the set is
   * left exactly as it was, even when x differs from that element in its
   * display name or code system.
   */
  function Insert(s: seq<CV>, x: CV): (r: seq<CV>)
    requires Ordered(s)
    ensures Ordered(r)
    ensures forall y :: y in r <==> y in s || (y == x && !HasCode(s, x.code))
    ensures HasCode(s, x.code) ==> r == s
    ensures HasCode(r, x.code)
  {
    if |s| == 0 then [x]
    else if Less(x, s[0]) then
      InsertBeforeHead(s, x);
      [x] + s
    else if Less(s[0], x) then
      var rest := Insert(s[1..], x);
      HeadBelowRest(s, x, rest);
      [s[0]] + rest
    else
      UnorderedIffSameCode(x, s[0]);
      s
  }

  lemma InsertBeforeHead(s: seq<CV>, x: CV)
    requires Ordered(s) && 0 < |s| && Less(x, s[0])
    ensures Ordered([x] + s)
    ensures !HasCode(s, x.code)
  {
    forall j | 0 < j < |s|
      ensures Less(x, s[j])
    {
      LessTransitive(x, s[0], s[j]);
    }
    if HasCode(s, x.code) {
      var y :| y in s && y.code == x.code;
      var j :| 0 <= j < |s| && s[j] == y;
      LessIrreflexive(x);
      assert false;
    }
  }

  lemma HeadBelowRest(s: seq<CV>, x: CV, rest: seq<CV>)
    requires Ordered(s) && 0 < |s| && Less(s[0], x)
    requires Ordered(rest)
    requires forall y :: y in rest ==> y in s[1..] || y == x
    ensures Ordered([s[0]] + rest)
  {
    forall y | y in rest
      ensures Less(s[0], y)
    {
      if y != x {
        var j :| 0 <= j < |s[1..]| && s[1..][j] == y;
        assert s[j + 1] == y;
      }
    }
  }
}
