/** The request grammar: filters, OR groups and the rest of a query string, parsed against a
    relation. */
module Grammar {
  import opened Wrappers

  datatype Problem = Repeated | UnknownColumn | DeniedColumn | BadSelect | BadOrder | BadLimit | BadOffset | BadCount
                   | BadToggle | Malformed | EmptyIn | NeedsOperator | TextOnly | TooManyValues
                   | NotParenthesised | NotATerm | EmptyGroup

  datatype Options = Options(defaultLimit: nat, maxLimit: nat, maxInValues: nat)

  // ---------------------------------------------------------------- strings

  /** Unicode white space. */
  predicate IsSpace(c: char) {
    || c == ' ' || '\t' <= c <= '\r' || c == '\U{85}' || c == '\U{A0}' || c == '\U{1680}'
    || '\U{2000}' <= c <= '\U{200A}'
    || c == '\U{2028}' || c == '\U{2029}' || c == '\U{202F}' || c == '\U{205F}' || c == '\U{3000}'
  }

  function TrimLeft(s: string): string { if s != "" && IsSpace(s[0]) then TrimLeft(s[1..]) else s }

  function TrimRight(s: string): string {
    if s != "" && IsSpace(s[|s| - 1]) then TrimRight(s[..|s| - 1]) else s
  }

  function Trim(s: string): string { TrimRight(TrimLeft(s)) }

  /** Neither end is a space. */
  predicate Trimmed(s: string) { s == "" || (!IsSpace(s[0]) && !IsSpace(s[|s| - 1])) }

  predicate Blank(s: string) { forall k :: 0 <= k < |s| ==> IsSpace(s[k]) }

  predicate Lacks(s: string, c: char) { forall k :: 0 <= k < |s| ==> s[k] != c }

  predicate HasPrefix(s: string, p: string) { p <= s }

  predicate HasSuffix(s: string, p: string) { |p| <= |s| && s[|s| - |p|..] == p }

  /** Before and after the first occurrence. */
  function Cut(s: string, c: char): Option<(string, string)> {
    if s == "" then None
    else if s[0] == c then Some(("", s[1..]))
    else
      var r := Cut(s[1..], c);
      if r.None? then None else Some(([s[0]] + r.value.0, r.value.1))
  }

  /** The parts between separators; one more than there are separators. */
  function Split(s: string, c: char): (r: seq<string>)
    ensures r != []
  {
    if s == "" then [""]
    else
      var r := Split(s[1..], c);
      if s[0] == c then [""] + r else [[s[0]] + r[0]] + r[1..]
  }

  function JoinAll(parts: seq<string>): string {
    if parts == [] then "" else if |parts| == 1 then parts[0] else parts[0] + "," + JoinAll(parts[1..])
  }

  function TrimAll(parts: seq<string>): seq<string> {
    if parts == [] then [] else [Trim(parts[0])] + TrimAll(parts[1..])
  }

  lemma {:induction false} TrimLeftKeeps(s: string)
    ensures TrimLeft(s) == s <==> s == "" || !IsSpace(s[0])
    ensures |TrimLeft(s)| <= |s|
    ensures TrimLeft(s) == "" || !IsSpace(TrimLeft(s)[0])
    ensures TrimLeft(s) == "" <==> Blank(s)
  {
    if s != "" {
      TrimLeftKeeps(s[1..]);
      assert Blank(s) <==> IsSpace(s[0]) && Blank(s[1..]) by {
        assert forall k :: 0 <= k < |s| - 1 ==> s[1..][k] == s[k + 1];
        assert Blank(s[1..]) && IsSpace(s[0]) ==>
                 forall k :: 0 <= k < |s| ==> s[k] == if k == 0 then s[0] else s[1..][k - 1];
      }
    }
  }

  lemma {:induction false} TrimRightKeeps(s: string)
    ensures TrimRight(s) == s <==> s == "" || !IsSpace(s[|s| - 1])
    ensures TrimRight(s) <= s
    ensures TrimRight(s) == "" <==> Blank(s)
    ensures TrimRight(s) != "" ==> !IsSpace(TrimRight(s)[|TrimRight(s)| - 1])
  {
    if s != "" {
      TrimRightKeeps(s[..|s| - 1]);
      assert Blank(s) <==> IsSpace(s[|s| - 1]) && Blank(s[..|s| - 1]) by {
        assert forall k :: 0 <= k < |s| - 1 ==> s[..|s| - 1][k] == s[k];
      }
    }
  }

  /** Trimming keeps a string exactly if no end is a space, and empties exactly the blank ones. */
  lemma TrimKeeps(s: string)
    ensures Trim(s) == s <==> Trimmed(s)
    ensures Trim(s) == "" <==> Blank(s)
    ensures Trimmed(Trim(s))
  {
    TrimLeftKeeps(s);
    TrimRightKeeps(TrimLeft(s));
    assert TrimLeft(s) != "" ==> !IsSpace(TrimLeft(s)[0]);
  }

  lemma {:induction false} CutAt(a: string, c: char, b: string)
    requires Lacks(a, c)
    ensures Cut(a + [c] + b, c) == Some((a, b))
  {
    var s := a + [c] + b;
    if a == "" {
      assert s[1..] == b;
    } else {
      assert s[1..] == a[1..] + [c] + b;
      CutAt(a[1..], c, b);
      assert [a[0]] + a[1..] == a;
    }
  }

  /** Splitting undoes joining exactly for non-empty lists whose parts lack the separator. */
  lemma {:induction false} SplitOfJoin(parts: seq<string>)
    ensures Split(JoinAll(parts), ',') == parts <==>
              parts != [] && forall k :: 0 <= k < |parts| ==> Lacks(parts[k], ',')
  {
    if |parts| == 1 {
      SplitOne(parts[0]);
      assert parts == [parts[0]];
    } else if |parts| > 1 {
      SplitFirst(parts[0], JoinAll(parts[1..]));
      SplitOfJoin(parts[1..]);
      assert parts == [parts[0]] + parts[1..];
      assert forall k :: 0 <= k < |parts| - 1 ==> parts[1..][k] == parts[k + 1];
      if Split(JoinAll(parts), ',') == parts {
        assert Split(JoinAll(parts), ',')[1..] == parts[1..];
        assert forall k :: 0 <= k < |parts| - 1 ==> Lacks(parts[1..][k], ',');
        forall k | 0 <= k < |parts| ensures Lacks(parts[k], ',') {
          if k > 0 { assert parts[k] == parts[1..][k - 1]; }
        }
      }
    }
  }

  lemma {:induction false} SplitOne(s: string)
    ensures Split(s, ',') == [s] <==> Lacks(s, ',')
    ensures !Lacks(s, ',') ==> |Split(s, ',')| > 1
  {
    if s != "" {
      SplitOne(s[1..]);
      assert [s[0]] + s[1..] == s;
      assert Lacks(s, ',') <==> s[0] != ',' && Lacks(s[1..], ',') by {
        assert forall k :: 0 <= k < |s| - 1 ==> s[1..][k] == s[k + 1];
      }
    }
  }

  lemma {:induction false} SplitFirst(a: string, b: string)
    ensures Lacks(a, ',') ==> Split(a + "," + b, ',') == [a] + Split(b, ',')
    ensures !Lacks(a, ',') ==> |Split(a + "," + b, ',')[0]| < |a|
  {
    var s := a + "," + b;
    if a == "" {
      assert s[1..] == b;
    } else {
      assert s[1..] == a[1..] + "," + b;
      SplitFirst(a[1..], b);
      assert Lacks(a, ',') <==> a[0] != ',' && Lacks(a[1..], ',') by {
        assert forall k :: 0 <= k < |a| - 1 ==> a[1..][k] == a[k + 1];
      }
      if Lacks(a, ',') {
        assert ([a[1..]] + Split(b, ','))[1..] == Split(b, ',');
        assert a == [a[0]] + a[1..];
      }
    }
  }

  // ---------------------------------------------------------------- splitting at depth zero

  function DepthAfter(c: char, depth: nat): nat {
    if c == '(' then depth + 1 else if c == ')' && depth > 0 then depth - 1 else depth
  }

  function SplitFrom(s: string, depth: nat): (r: seq<string>)
    ensures r != []
  {
    if s == "" then [""]
    else if s[0] == ',' && depth == 0 then [""] + SplitFrom(s[1..], 0)
    else
      var r := SplitFrom(s[1..], DepthAfter(s[0], depth));
      [[s[0]] + r[0]] + r[1..]
  }

  /** The rest of a split whose first part began earlier. */
  function Glued(part: string, r: seq<string>): seq<string>
    requires r != []
  {
    [part + r[0]] + r[1..]
  }

  lemma GluedEmpty(r: seq<string>)
    requires r != []
    ensures Glued("", r) == r
  {
    assert "" + r[0] == r[0] && [r[0]] + r[1..] == r;
  }

  /** The part begun at `start`, scanned up to i, and what the rest splits into. */
  function PartsFrom(s: string, start: nat, i: nat, depth: nat): seq<string>
    requires start <= i <= |s|
    decreases |s| - i
  {
    if i == |s| then [s[start..]]
    else if s[i] == ',' && depth == 0 then [s[start..i]] + PartsFrom(s, i + 1, i + 1, 0)
    else PartsFrom(s, start, i + 1, DepthAfter(s[i], depth))
  }

  lemma {:induction false} PartsAreSplit(s: string, start: nat, i: nat, depth: nat)
    requires start <= i <= |s|
    ensures PartsFrom(s, start, i, depth) == Glued(s[start..i], SplitFrom(s[i..], depth))
    decreases |s| - i
  {
    if i == |s| {
      assert s[i..] == "" && s[start..i] + "" == s[start..];
    } else {
      SplitStep(s, start, i, depth);
      if s[i] == ',' && depth == 0 {
        PartsAreSplit(s, i + 1, i + 1, 0);
      } else {
        PartsAreSplit(s, start, i + 1, DepthAfter(s[i], depth));
      }
    }
  }

  lemma AllPartsAreSplit(s: string)
    ensures PartsFrom(s, 0, 0, 0) == SplitFrom(s, 0)
  {
    PartsAreSplit(s, 0, 0, 0);
    GluedEmpty(SplitFrom(s, 0));
    assert s[0..0] == "" && s[0..] == s;
  }

  lemma Regrouped(parts: seq<string>, part: string, more: seq<string>)
    ensures parts + [part] + more == parts + ([part] + more)
  {
  }

  method SplitTopLevel(s: string) returns (parts: seq<string>)
    ensures parts == SplitFrom(s, 0)
  {
    parts := [];
    var depth: nat, start: nat := 0, 0;
    AllPartsAreSplit(s);
    for i := 0 to |s|
      invariant start <= i && parts + PartsFrom(s, start, i, depth) == SplitFrom(s, 0)
    {
      match s[i] {
        case '(' => depth := depth + 1;
        case ')' => if depth > 0 { depth := depth - 1; }
        case ',' =>
          if depth == 0 {
            Regrouped(parts, s[start..i], PartsFrom(s, i + 1, i + 1, 0));
            parts := parts + [s[start..i]];
            start := i + 1;
          }
        case _ =>
      }
    }
    if start <= |s| { parts := parts + [s[start..]]; }
  }

  /** A part goes on with one more character, or ends before a separator. */
  lemma GluedNext(part: string, c: char, r: seq<string>)
    requires r != []
    ensures Glued(part, [[c] + r[0]] + r[1..]) == Glued(part + [c], r)
    ensures Glued(part, [""] + r) == [part] + Glued("", r)
  {
    assert part + ([c] + r[0]) == part + [c] + r[0];
    assert ([[c] + r[0]] + r[1..])[1..] == r[1..];
    assert ([""] + r)[1..] == r && part + "" == part;
    GluedEmpty(r);
  }

  lemma SplitStep(s: string, start: nat, i: nat, depth: nat)
    requires start <= i < |s|
    ensures Glued(s[start..i], SplitFrom(s[i..], depth))
         == if s[i] == ',' && depth == 0 then [s[start..i]] + Glued(s[i + 1..i + 1], SplitFrom(s[i + 1..], 0))
            else Glued(s[start..i + 1], SplitFrom(s[i + 1..], DepthAfter(s[i], depth)))
  {
    assert s[i..][1..] == s[i + 1..] && s[i..][0] == s[i];
    assert s[start..i] + [s[i]] == s[start..i + 1] && s[i + 1..i + 1] == "";
    var next := if s[i] == ',' && depth == 0 then 0 else DepthAfter(s[i], depth);
    GluedNext(s[start..i], s[i], SplitFrom(s[i + 1..], next));
  }

  function DepthOver(s: string, depth: nat): nat {
    if s == "" then depth else DepthOver(s[1..], DepthAfter(s[0], depth))
  }

  /** No comma at depth zero, scanning from this depth. */
  predicate Whole(s: string, depth: nat) {
    s == "" || (!(s[0] == ',' && depth == 0) && Whole(s[1..], DepthAfter(s[0], depth)))
  }

  /** Every term is in one piece, and all but the last close what they open. */
  predicate Separable(terms: seq<string>) {
    terms != [] && Whole(terms[0], 0) && (|terms| > 1 ==> DepthOver(terms[0], 0) == 0 && Separable(terms[1..]))
  }

  lemma {:induction false} SplitWhole(a: string, depth: nat)
    ensures SplitFrom(a, depth) == [a] <==> Whole(a, depth)
    ensures !Whole(a, depth) ==> |SplitFrom(a, depth)| > 1
  {
    if a != "" && !(a[0] == ',' && depth == 0) {
      SplitWhole(a[1..], DepthAfter(a[0], depth));
      assert [a[0]] + a[1..] == a;
    }
  }

  lemma {:induction false} SplitFirstTerm(a: string, b: string, depth: nat)
    ensures Whole(a, depth) && DepthOver(a, depth) == 0 ==> SplitFrom(a + "," + b, depth) == [a] + SplitFrom(b, 0)
    ensures !(Whole(a, depth) && DepthOver(a, depth) == 0) ==> SplitFrom(a + "," + b, depth)[0] != a
  {
    var s := a + "," + b;
    if a == "" {
      assert s[1..] == b;
    } else {
      assert s[1..] == a[1..] + "," + b;
      assert [a[0]] + a[1..] == a;
      if !(a[0] == ',' && depth == 0) {
        SplitFirstTerm(a[1..], b, DepthAfter(a[0], depth));
        var r := SplitFrom(s[1..], DepthAfter(a[0], depth));
        if r[0] != a[1..] { assert ([a[0]] + r[0])[1..] == r[0]; }
        assert ([a[1..]] + SplitFrom(b, 0))[1..] == SplitFrom(b, 0);
      }
    }
  }

  /** Splitting at depth zero undoes joining with commas exactly for separable terms. */
  lemma {:induction false} SplitUndoesJoin(terms: seq<string>)
    ensures SplitFrom(JoinAll(terms), 0) == terms <==> Separable(terms)
  {
    if |terms| == 1 {
      SplitWhole(terms[0], 0);
      assert terms == [terms[0]];
    } else if |terms| > 1 {
      SplitFirstTerm(terms[0], JoinAll(terms[1..]), 0);
      SplitUndoesJoin(terms[1..]);
      assert terms == [terms[0]] + terms[1..];
      if SplitFrom(JoinAll(terms), 0) == terms { assert SplitFrom(JoinAll(terms), 0)[1..] == terms[1..]; }
    }
  }
}
