/** The resume matching tab's own logic: turning the criteria text box into the criteria list
    handed to the screener, and the status shown for each verdict. The widgets are left out. */
module ResumeMatching {
  import opened Wrappers
  import opened Json
  import opened Text
  import Screener

  /** Every piece stripped. */
  function StripAll(parts: seq<string>): seq<string> {
    seq(|parts|, j requires 0 <= j < |parts| => Strip(parts[j]))
  }

  /** The non-empty strings of xs, in order. */
  function NonBlank(xs: seq<string>): (r: seq<string>)
    ensures |r| <= |xs|
    ensures forall c <- r :: c != "" && c in xs
  {
    if xs == [] then []
    else (if xs[0] != "" then [xs[0]] else []) + NonBlank(xs[1..])
  }

  /** The list comprehension of get_criteria: every piece stripped, blank pieces dropped. */
  function Clean(parts: seq<string>): (r: seq<string>)
    ensures |r| <= |parts|
    ensures forall c <- r :: c != "" && !IsSpace(c[0]) && !IsSpace(c[|c| - 1])
  {
    var stripped := StripAll(parts);
    assert forall c <- stripped :: c == "" || (!IsSpace(c[0]) && !IsSpace(c[|c| - 1]));
    NonBlank(stripped)
  }

  /** A character absent from a string is absent from its stripped form. */
  lemma StripKeepsOut(p: string, ch: char)
    requires ch !in p
    ensures ch !in Strip(p)
  {
    var i := |p| - |TrimStart(p)|;
    var r := Strip(p);
    forall k | 0 <= k < |r| ensures r[k] != ch {
      assert r[k] == p[i + k];
    }
  }

  lemma CleanKeepsOut(parts: seq<string>, ch: char)
    requires forall p <- parts :: ch !in p
    ensures forall c <- Clean(parts) :: ch !in c
  {
    forall j | 0 <= j < |parts| ensures ch !in StripAll(parts)[j] {
      StripKeepsOut(parts[j], ch);
    }
  }

  /** get_criteria: None while the text box holds nothing, otherwise the '|'-separated pieces,
      stripped, blank ones dropped. No criterion is blank, holds a '|', or starts or ends with
      whitespace. */
  function GetCriteria(input: Option<string>): (r: Option<seq<string>>)
    ensures r.None? <==> input.None?
    ensures r.Some? ==> forall c <- r.value ::
      c != "" && '|' !in c && !IsSpace(c[0]) && !IsSpace(c[|c| - 1])
  {
    match input
    case None => None
    case Some(s) =>
      CleanKeepsOut(Split(s, '|'), '|');
      Some(Clean(Split(s, '|')))
  }

  /** The indices, from i on, of the non-empty strings of xs, in order. */
  ghost function Kept(xs: seq<string>, i: nat): seq<int>
    decreases |xs| - i
  {
    if i >= |xs| then []
    else (if xs[i] != "" then [i] else []) + Kept(xs, i + 1)
  }

  /** The indices lie in the range searched. */
  lemma {:induction false} KeptInRange(xs: seq<string>, i: nat)
    requires i <= |xs|
    ensures forall k :: 0 <= k < |Kept(xs, i)| ==> i <= Kept(xs, i)[k] < |xs|
    decreases |xs| - i
  {
    if i < |xs| {
      KeptInRange(xs, i + 1);
      var head: seq<int> := if xs[i] != "" then [i] else [];
      var rest := Kept(xs, i + 1);
      var idx := head + rest;
      assert Kept(xs, i) == idx;
      forall k | 0 <= k < |idx| ensures i <= idx[k] < |xs| {
        if k >= |head| {
          assert idx[k] == rest[k - |head|];
        }
      }
    }
  }

  /** The indices increase. */
  lemma {:induction false} KeptIncreasing(xs: seq<string>, i: nat)
    requires i <= |xs|
    ensures forall k, l :: 0 <= k < l < |Kept(xs, i)| ==> Kept(xs, i)[k] < Kept(xs, i)[l]
    decreases |xs| - i
  {
    if i < |xs| {
      KeptIncreasing(xs, i + 1);
      KeptInRange(xs, i + 1);
      var head: seq<int> := if xs[i] != "" then [i] else [];
      var rest := Kept(xs, i + 1);
      var idx := head + rest;
      assert Kept(xs, i) == idx;
      forall k, l | 0 <= k < l < |idx| ensures idx[k] < idx[l] {
        if k >= |head| {
          assert idx[k] == rest[k - |head|] && idx[l] == rest[l - |head|];
          assert rest[k - |head|] < rest[l - |head|];
        } else {
          assert idx[k] == i && idx[l] == rest[l - 1] && i + 1 <= rest[l - 1];
        }
      }
    }
  }

  /** The indices name exactly the non-empty strings. */
  lemma {:induction false} KeptExactly(xs: seq<string>, i: nat)
    requires i <= |xs|
    ensures var idx := Kept(xs, i);
      forall j :: i <= j < |xs| ==> (xs[j] != "" <==> j in idx)
    decreases |xs| - i
  {
    if i < |xs| {
      KeptExactly(xs, i + 1);
      KeptInRange(xs, i + 1);
      var head: seq<int> := if xs[i] != "" then [i] else [];
      var rest := Kept(xs, i + 1);
      var idx := head + rest;
      assert Kept(xs, i) == idx;
      forall j | i <= j < |xs| ensures xs[j] != "" <==> j in idx {
        assert i !in rest;
        assert j in idx <==> j in head || j in rest;
      }
    }
  }

  /** NonBlank keeps exactly the strings at the Kept indices. */
  lemma {:induction false} NonBlankSelects(xs: seq<string>, i: nat)
    requires i <= |xs|
    ensures var idx := Kept(xs, i); var r := NonBlank(xs[i..]);
      && |idx| == |r|
      && (forall k :: 0 <= k < |idx| ==> 0 <= idx[k] < |xs| && r[k] == xs[idx[k]])
    decreases |xs| - i
  {
    KeptInRange(xs, i);
    if i < |xs| {
      NonBlankSelects(xs, i + 1);
      assert xs[i..][1..] == xs[i + 1..];
      var head: seq<int> := if xs[i] != "" then [i] else [];
      var rest := Kept(xs, i + 1);
      var idx := head + rest;
      assert Kept(xs, i) == idx;
      var r := NonBlank(xs[i..]);
      var front: seq<string> := if xs[i] != "" then [xs[i]] else [];
      assert r == front + NonBlank(xs[i + 1..]);
      forall k | 0 <= k < |idx|
        ensures r[k] == xs[idx[k]]
      {
        if k >= |head| {
          assert idx[k] == rest[k - |head|];
          assert r[k] == NonBlank(xs[i + 1..])[k - |head|];
        }
      }
    }
  }

  /** The criteria are the pieces that do not strip to nothing, stripped, in their original
      order: with idx := Kept(StripAll(parts), 0), the k-th criterion is the stripped piece
      idx[k] (CleanKeepsOrder says which indices idx holds). */
  lemma CleanSelects(parts: seq<string>)
    ensures var idx := Kept(StripAll(parts), 0); var r := Clean(parts);
      && |idx| == |r|
      && (forall k :: 0 <= k < |idx| ==> 0 <= idx[k] < |parts| && r[k] == Strip(parts[idx[k]]))
  {
    var xs := StripAll(parts);
    KeptInRange(xs, 0);
    NonBlankSelects(xs, 0);
    assert xs[0..] == xs;
    assert Clean(parts) == NonBlank(xs);
  }

  /** The indices of the kept pieces increase, and a piece is kept exactly when it does not
      strip to nothing. */
  lemma CleanKeepsOrder(parts: seq<string>)
    ensures var idx := Kept(StripAll(parts), 0);
      && (forall k, l :: 0 <= k < l < |idx| ==> idx[k] < idx[l])
      && (forall j :: 0 <= j < |parts| ==> (Strip(parts[j]) != "" <==> j in idx))
  {
    KeptIncreasing(StripAll(parts), 0);
    KeptExactly(StripAll(parts), 0);
  }

  /** NonBlank is empty exactly when every string is empty. */
  lemma {:induction false} NonBlankEmpty(xs: seq<string>)
    ensures NonBlank(xs) == [] <==> forall j :: 0 <= j < |xs| ==> xs[j] == ""
  {
    if xs != [] {
      NonBlankEmpty(xs[1..]);
      assert forall j :: 1 <= j < |xs| ==> xs[j] == xs[1..][j - 1];
    }
  }

  /** The cleaned list is empty exactly when every piece is blank. */
  lemma CleanEmpty(parts: seq<string>)
    ensures Clean(parts) == [] <==> forall j :: 0 <= j < |parts| ==> AllSpace(parts[j])
  {
    var xs := StripAll(parts);
    assert Clean(parts) == NonBlank(xs);
    NonBlankEmpty(xs);
    forall j | 0 <= j < |parts| ensures xs[j] == "" <==> AllSpace(parts[j]) {
      StripEmpty(parts[j]);
    }
  }

  lemma AllSpaceCons(c: char, p: string)
    ensures AllSpace([c] + p) <==> IsSpace(c) && AllSpace(p)
  {
    var q := [c] + p;
    assert q[0] == c;
    if AllSpace(q) {
      forall k | 0 <= k < |p| ensures IsSpace(p[k]) {
        assert q[k + 1] == p[k];
      }
    }
    if IsSpace(c) && AllSpace(p) {
      forall k | 0 <= k < |q| ensures IsSpace(q[k]) {
        if k > 0 { assert q[k] == p[k - 1]; }
      }
    }
  }

  /** Every piece of a split is blank exactly when the string holds only separators and
      whitespace. */
  lemma {:induction false} SplitBlank(s: string, sep: char)
    ensures (forall p <- Split(s, sep) :: AllSpace(p)) <==> forall k :: 0 <= k < |s| ==> s[k] == sep || IsSpace(s[k])
    decreases |s|
  {
    if s != "" {
      SplitBlank(s[1..], sep);
      var rest := Split(s[1..], sep);
      var parts := Split(s, sep);
      assert forall k :: 1 <= k < |s| ==> s[k] == s[1..][k - 1];
      if s[0] == sep {
        assert parts == [""] + rest;
        assert forall p <- parts :: p == "" || p in rest;
      } else {
        assert parts == [[s[0]] + rest[0]] + rest[1..];
        assert forall p <- parts :: p == [s[0]] + rest[0] || p in rest[1..];
        assert forall p <- rest :: p == rest[0] || p in rest[1..];
        AllSpaceCons(s[0], rest[0]);
      }
    }
  }

  /** A text box holding only '|' and whitespace yields no criteria at all, which the screener
      treats like an untouched text box: it generates criteria from the job description. */
  lemma BlankInputMeansGenerated(s: string, init: Screener.State)
    requires init.criteria == GetCriteria(Some(s))
    ensures Screener.ShouldGenerateCriteria(init) == "criteria"
      <==> forall k :: 0 <= k < |s| ==> s[k] == '|' || IsSpace(s[k])
  {
    CleanEmpty(Split(s, '|'));
    SplitBlank(s, '|');
  }

  /** The status shown for a verdict, per criterion and overall. */
  datatype MatchStatus = AMatch | NotAMatch

  /** Only the exact string "fail" reads as not a match; any other value, "FAIL" or a
      non-string included, reads as a match. */
  function Status(decision: Json): (st: MatchStatus)
    ensures st == NotAMatch <==> decision == JString("fail")
  {
    if decision == JString("fail") then NotAMatch else AMatch
  }

  /** One rendered row of render_decisions: the criterion, its status and its reason. */
  datatype Row = Row(criterion: Option<string>, status: MatchStatus, reason: Json)

  /** render_decisions: one row per decision, in order. */
  function Rows(decisions: seq<Screener.ScreeningDecision>): (rows: seq<Row>)
    ensures |rows| == |decisions|
    ensures forall i :: 0 <= i < |rows| ==>
      && rows[i].criterion == decisions[i].criterion
      && rows[i].reason == decisions[i].reason
      && (rows[i].status == NotAMatch <==> decisions[i].decision == JString("fail"))
  {
    seq(|decisions|, i requires 0 <= i < |decisions| =>
      Row(decisions[i].criterion, Status(decisions[i].decision), decisions[i].reason))
  }
}
