/** Column filters and OR groups: parsing, printing in the documented form, and exactly which
    conditions survive the trip. */
module Filters {
  import opened Wrappers
  import opened Sql
  import opened Catalog
  import opened Grammar

  function OpName(op: Operator): string {
    match op
    case Eq => "eq" case Neq => "neq" case Gt => "gt" case Gte => "gte" case Lt => "lt" case Lte => "lte"
    case Like => "like" case ILike => "ilike"
  }

  function OpNamed(s: string): Option<Operator> {
    if s == "eq" then Some(Eq) else if s == "neq" then Some(Neq) else if s == "gt" then Some(Gt)
    else if s == "gte" then Some(Gte) else if s == "lt" then Some(Lt) else if s == "lte" then Some(Lte)
    else if s == "like" then Some(Like) else if s == "ilike" then Some(ILike) else None
  }

  /** The value side of a filter; a bare value means equality where that is allowed. */
  function ParseFilter(raw: string, allowBare: bool): Result<Cond, Problem> {
    if IsList(raw) then ParseList(raw)
    else if raw == "is.null" then Ok(Cond("", Is, [], false))
    else if raw == "is.notnull" then Ok(Cond("", Is, [], true))
    else ParseOperator(raw, allowBare)
  }

  predicate IsList(raw: string) { HasPrefix(raw, "in.(") && HasSuffix(raw, ")") }

  function ParseList(raw: string): Result<Cond, Problem>
    requires IsList(raw)
  {
    assert raw[3] == '(' && raw[|raw| - 1..][0] == ')';
    var inner := raw[4..|raw| - 1];
    if Trim(inner) == "" then Err(EmptyIn) else Ok(Cond("", In, TrimAll(Split(inner, ',')), false))
  }

  function ParseOperator(raw: string, allowBare: bool): Result<Cond, Problem> {
    var bare: Result<Cond, Problem> :=
      if allowBare then Ok(Cond("", Compare(Eq), [raw], false)) else Err(NeedsOperator);
    match Cut(raw, '.')
    case None => bare
    case Some(cut) =>
      if OpNamed(cut.0).Some? then Ok(Cond("", Compare(OpNamed(cut.0).value), [cut.1], false))
      else if cut.0 == "in" || cut.0 == "is" then Err(Malformed)
      else bare
  }

  /** Every accepted filter has as many values as its operator takes. */
  lemma FilterIsValid(raw: string, allowBare: bool)
    ensures ParseFilter(raw, allowBare).Ok? ==> ValidCond(ParseFilter(raw, allowBare).value)
  {
    if IsList(raw) {
      assert raw[3] == '(' && raw[|raw| - 1..][0] == ')';
      TrimAllAt(Split(raw[4..|raw| - 1], ','), 0);
    }
  }

  // ---------------------------------------------------------------- printing a filter

  function Print(c: Cond): string
    requires ValidCond(c)
  {
    match c.op
    case Is => if c.notNull then "is.notnull" else "is.null"
    case In => "in.(" + JoinAll(c.values) + ")"
    case Compare(op) => OpName(op) + "." + c.values[0]
  }

  /** Lists of trimmed values without commas, other than the one empty value. */
  predicate Printable(c: Cond) {
    c.op.In? ==> c.values != [""] && forall k :: 0 <= k < |c.values| ==> Trimmed(c.values[k]) && Lacks(c.values[k], ',')
  }

  lemma {:induction false} TrimAllAt(parts: seq<string>, k: nat)
    ensures |TrimAll(parts)| == |parts|
    ensures k < |parts| ==> TrimAll(parts)[k] == Trim(parts[k])
  {
    if parts != [] { TrimAllAt(parts[1..], if k > 0 then k - 1 else 0); }
  }

  lemma TrimLacks(s: string, c: char)
    requires Lacks(s, c)
    ensures Lacks(Trim(s), c)
  {
    TrimLeftIsSuffix(s);
    TrimRightKeeps(TrimLeft(s));
    var l := TrimLeft(s);
    assert forall k :: 0 <= k < |l| ==> l[k] == s[|s| - |l| + k];
    assert forall k :: 0 <= k < |Trim(s)| ==> Trim(s)[k] == l[k];
  }

  lemma {:induction false} TrimLeftIsSuffix(s: string)
    ensures |TrimLeft(s)| <= |s| && TrimLeft(s) == s[|s| - |TrimLeft(s)|..]
  {
    if s != "" && IsSpace(s[0]) { TrimLeftIsSuffix(s[1..]); }
  }

  lemma {:induction false} SplitLacks(s: string, k: nat)
    ensures k < |Split(s, ',')| ==> Lacks(Split(s, ',')[k], ',')
  {
    if s != "" {
      SplitLacks(s[1..], 0);
      SplitLacks(s[1..], if s[0] == ',' && k > 0 then k - 1 else k);
    }
  }

  lemma {:induction false} JoinIsBlank(values: seq<string>)
    requires values != [] && forall k :: 0 <= k < |values| ==> Trimmed(values[k])
    ensures Blank(JoinAll(values)) <==> values == [""]
  {
    var s := JoinAll(values);
    if |values| > 1 {
      assert s[|values[0]|] == ',';
    } else {
      assert s == values[0] && values == [values[0]];
      if s != "" { assert !IsSpace(s[0]); }
    }
  }

  lemma PrintableListIsParsed(values: seq<string>)
    requires values != [] && values != [""]
    requires forall k :: 0 <= k < |values| ==> Trimmed(values[k]) && Lacks(values[k], ',')
    ensures Trim(JoinAll(values)) != "" && TrimAll(Split(JoinAll(values), ',')) == values
  {
    JoinIsBlank(values);
    TrimKeeps(JoinAll(values));
    SplitOfJoin(values);
    TrimAllAt(values, 0);
    forall k | 0 <= k < |values| ensures TrimAll(values)[k] == values[k] {
      TrimAllAt(values, k);
      TrimKeeps(values[k]);
    }
  }

  lemma ListRoundTrip(c: Cond)
    requires ValidCond(c) && c.op.In? && c.col == "" && !c.notNull
    ensures IsList(Print(c)) && (ParseList(Print(c)) == Ok(c) <==> Printable(c))
  {
    if Printable(c) {
      PrintableListIsParsed(c.values);
    } else if ParseList(Print(c)) == Ok(c) {
      ParsedListIsPrintable(JoinAll(c.values), c.values);
    }
  }

  lemma ParsedListIsPrintable(inner: string, values: seq<string>)
    requires values == TrimAll(Split(inner, ',')) && inner == JoinAll(values) && Trim(inner) != ""
    ensures values != [""] && forall k :: 0 <= k < |values| ==> Trimmed(values[k]) && Lacks(values[k], ',')
  {
    var parts := Split(inner, ',');
    TrimKeeps(inner);
    TrimAllAt(parts, 0);
    forall k | 0 <= k < |values| ensures Trimmed(values[k]) && Lacks(values[k], ',') {
      TrimAllAt(parts, k);
      TrimKeeps(parts[k]);
      SplitLacks(inner, k);
      TrimLacks(parts[k], ',');
    }
    assert JoinAll([""]) == "" && Blank("");
  }

  lemma OperatorRoundTrip(c: Cond, allowBare: bool)
    requires ValidCond(c) && c.op.Compare? && c.col == "" && !c.notNull
    ensures ParseFilter(Print(c), allowBare) == Ok(c)
  {
    var op, v, raw := c.op.op, c.values[0], Print(c);
    CutAt(OpName(op), '.', v);
    assert c.values == [v];
    NotSpecial(op, v);
  }

  /** No operator's filter looks like a list or a null test. */
  lemma NotSpecial(op: Operator, v: string)
    ensures var raw := OpName(op) + "." + v;
            !IsList(raw) && raw != "is.null" && raw != "is.notnull"
  {
    var raw := OpName(op) + "." + v;
    assert raw[0] == OpName(op)[0] && raw[1] == OpName(op)[1];
    if op == ILike { assert raw[1] == 'l'; }
  }

  /** A printed filter parses back to its condition exactly if it is printable: always for
      operators and null tests, and for lists unless a value holds a comma or begins or ends
      with a space, or the list is one empty value. */
  lemma FilterRoundTrip(c: Cond, allowBare: bool)
    requires ValidCond(c) && c.col == "" && (c.notNull ==> c.op.Is?)
    ensures ParseFilter(Print(c), allowBare) == Ok(c) <==> Printable(c)
  {
    match c.op
    case In => ListRoundTrip(c);
    case Compare(_) => OperatorRoundTrip(c, allowBare);
    case Is =>
      assert "is.null"[1] == 's' && "is.notnull"[1] == 's';
  }
}
