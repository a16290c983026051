/** JSON arrays as Postgres array literals, and a reader of the array syntax (section 8.15.6
    of the PostgreSQL manual) that gets the array back: null, quoted strings, bare scalars and
    nested arrays kept apart. */
module ArrayLiteral {
  import opened Wrappers

  /** A decoded JSON value; a number is its text. Objects matter only in being refused. */
  datatype Json = Null | Str(s: string) | Bool(b: bool) | Num(text: string) | Arr(items: seq<Json>) | Obj

  predicate HasObject(j: Json) {
    j.Obj? || (j.Arr? && exists k :: 0 <= k < |j.items| && HasObject(j.items[k]))
  }

  predicate IsNumberChar(c: char) { '0' <= c <= '9' || c == '-' || c == '+' || c == '.' || c == 'e' || c == 'E' }

  /** Every number is spelled as JSON spells numbers. */
  predicate GoodNumbers(j: Json) {
    match j
    case Num(t) => t != "" && forall k :: 0 <= k < |t| ==> IsNumberChar(t[k])
    case Arr(items) => forall k :: 0 <= k < |items| ==> GoodNumbers(items[k])
    case _ => true
  }

  // ---------------------------------------------------------------- printing

  const BACKSLASH := '\\'

  function EscapedChar(c: char): string { if c == QUOTE || c == BACKSLASH then [BACKSLASH, c] else [c] }

  function Escaped(s: string): string { if s == "" then "" else EscapedChar(s[0]) + Escaped(s[1..]) }

  function Text(j: Json): string
    decreases j, 0
  {
    match j
    case Null => "NULL"
    case Str(s) => [QUOTE] + Escaped(s) + [QUOTE]
    case Bool(b) => if b then "true" else "false"
    case Num(t) => t
    case Arr(items) => "{" + ItemsText(items) + "}"
    case Obj => ""
  }

  function ItemsText(items: seq<Json>): string
    decreases items, 1
  {
    if items == [] then "" else Text(items[0]) + TextAfter(items[1..])
  }

  function TextAfter(items: seq<Json>): string
    decreases items, 0
  {
    if items == [] then "" else "," + (Text(items[0]) + TextAfter(items[1..]))
  }

  lemma Assoc(a: string, b: string, c: string)
    ensures a + b + c == a + (b + c)
  {
  }

  method QuoteInto(b: string, s: string) returns (out: string)
    ensures out == b + ([QUOTE] + Escaped(s) + [QUOTE])
  {
    out := b + [QUOTE];
    for i := 0 to |s|
      invariant out + Escaped(s[i..]) == b + [QUOTE] + Escaped(s)
    {
      if s[i] == QUOTE || s[i] == BACKSLASH { out := out + [BACKSLASH]; }
      out := out + [s[i]];
    }
    assert s[|s|..] == "" && out + "" == out;
    out := out + [QUOTE];
    assert out == b + ([QUOTE] + Escaped(s) + [QUOTE]);
  }

  predicate AnyObject(items: seq<Json>) { exists k :: 0 <= k < |items| && HasObject(items[k]) }

  /** arrayLiteral: refuses an array with an object anywhere inside, prints any other. */
  method Literal(items: seq<Json>) returns (r: Result<string, ()>)
    ensures r == if AnyObject(items) then Err(()) else Ok(Text(Arr(items)))
    decreases items
  {
    var b := "{";
    for i := 0 to |items|
      invariant forall k :: 0 <= k < i ==> !HasObject(items[k])
      invariant b + (if i == 0 then ItemsText(items) else TextAfter(items[i..])) == "{" + ItemsText(items)
    {
      ItemStep(b, items, i);
      if i > 0 { b := b + ","; }
      var text := LiteralItem(items[i]);
      if text.Err? { return Err(()); }
      b := b + text.value;
    }
    assert items[|items|..] == [] && b + "" == b;
    return Ok(b + "}");
  }

  method LiteralItem(it: Json) returns (r: Result<string, ()>)
    ensures r == if HasObject(it) then Err(()) else Ok(Text(it))
    decreases it
  {
    match it {
      case Null => return Ok("NULL");
      case Str(s) =>
        var quoted := QuoteInto("", s);
        assert quoted == [QUOTE] + Escaped(s) + [QUOTE];
        return Ok(quoted);
      case Bool(v) => return Ok(if v then "true" else "false");
      case Num(t) => return Ok(t);
      case Arr(inner) => r := Literal(inner);
      case Obj => return Err(());
    }
  }

  lemma ItemStep(b: string, items: seq<Json>, i: nat)
    requires i < |items|
    ensures b + (if i == 0 then ItemsText(items) else TextAfter(items[i..]))
         == (if i == 0 then b else b + ",") + Text(items[i]) + TextAfter(items[i + 1..])
  {
    var t, more := Text(items[i]), TextAfter(items[i + 1..]);
    assert items[i..][0] == items[i] && items[i..][1..] == items[i + 1..];
    if i == 0 {
      assert items[0..] == items;
      Assoc(b, t, more);
    } else {
      Assoc(b, ",", t + more);
      Assoc(b + ",", t, more);
    }
  }

  // ---------------------------------------------------------------- reading

  /** What the array syntax can say of an element. */
  datatype Element = NullElement | Quoted(s: string) | Bare(s: string) | Nested(items: seq<Element>)

  /** Up to the closing quote; a backslash makes the next character stand for itself. */
  function ReadQuoted(cs: string): (r: Option<(string, string)>)
    ensures r.Some? ==> |r.value.1| < |cs|
  {
    if cs == "" then None
    else if cs[0] == QUOTE then Some(("", cs[1..]))
    else if cs[0] == BACKSLASH && |cs| < 2 then None
    else
      var skip := if cs[0] == BACKSLASH then 1 else 0;
      var more := ReadQuoted(cs[skip + 1..]);
      if more.None? then None else Some(([cs[skip]] + more.value.0, more.value.1))
  }

  predicate IsBare(c: char) { c != ',' && c != '{' && c != '}' && c != QUOTE && c != BACKSLASH }

  function ReadBare(cs: string): (r: string)
    ensures |r| <= |cs| && r == cs[..|r|]
  {
    if cs == "" || !IsBare(cs[0]) then "" else [cs[0]] + ReadBare(cs[1..])
  }

  function Upper(c: char): char { if 'a' <= c <= 'z' then c - 'a' + 'A' else c }

  /** NULL in any case, without quotes. */
  predicate SpellsNull(s: string) {
    |s| == 4 && Upper(s[0]) == 'N' && Upper(s[1]) == 'U' && Upper(s[2]) == 'L' && Upper(s[3]) == 'L'
  }

  function ReadElement(cs: string): (r: Option<(Element, string)>)
    ensures r.Some? ==> |r.value.1| < |cs|
    decreases |cs|, 0
  {
    if cs == "" then None
    else if cs[0] == '{' then
      if |cs| > 1 && cs[1] == '}' then Some((Nested([]), cs[2..]))
      else
        var items := ReadItems(cs[1..]);
        if items.None? then None else Some((Nested(items.value.0), items.value.1))
    else if cs[0] == QUOTE then
      var q := ReadQuoted(cs[1..]);
      if q.None? then None else Some((Quoted(q.value.0), q.value.1))
    else
      var w := ReadBare(cs);
      if w == "" then None else Some((if SpellsNull(w) then NullElement else Bare(w), cs[|w|..]))
  }

  /** One or more elements with commas between them, up to the closing brace. */
  function ReadItems(cs: string): (r: Option<(seq<Element>, string)>)
    ensures r.Some? ==> |r.value.1| < |cs|
    decreases |cs|, 1
  {
    var first := ReadElement(cs);
    if first.None? || first.value.1 == "" then None
    else
      var e, rest := first.value.0, first.value.1;
      if rest[0] == '}' then Some(([e], rest[1..]))
      else if rest[0] == ',' then
        var more := ReadItems(rest[1..]);
        if more.None? then None else Some(([e] + more.value.0, more.value.1))
      else None
  }

  /** The JSON value an element came from. */
  function Original(e: Element): Json {
    match e
    case NullElement => Null
    case Quoted(s) => Str(s)
    case Bare(s) => if s == "true" then Bool(true) else if s == "false" then Bool(false) else Num(s)
    case Nested(items) => Arr(Originals(items))
  }

  function Originals(items: seq<Element>): seq<Json> {
    if items == [] then [] else [Original(items[0])] + Originals(items[1..])
  }

  // ---------------------------------------------------------------- the round trip

  lemma {:induction false} QuotedRoundTrip(s: string, rest: string)
    ensures ReadQuoted(Escaped(s) + ([QUOTE] + rest)) == Some((s, rest))
  {
    var cs := Escaped(s) + ([QUOTE] + rest);
    if s == "" {
      assert cs == [QUOTE] + rest && cs[1..] == rest;
    } else {
      QuotedRoundTrip(s[1..], rest);
      var tail := Escaped(s[1..]) + ([QUOTE] + rest);
      Assoc(EscapedChar(s[0]), Escaped(s[1..]), [QUOTE] + rest);
      assert s == [s[0]] + s[1..];
    }
  }

  /** What may follow an element. */
  predicate Ends(rest: string) { rest == "" || rest[0] == ',' || rest[0] == '}' }

  lemma {:induction false} BareRoundTrip(w: string, rest: string)
    requires (forall k :: 0 <= k < |w| ==> IsBare(w[k])) && Ends(rest)
    ensures ReadBare(w + rest) == w
  {
    if w == "" {
      assert w + rest == rest;
    } else {
      BareRoundTrip(w[1..], rest);
      assert (w + rest)[1..] == w[1..] + rest;
    }
  }

  /** Free of objects, with numbers spelled as JSON spells them, all the way down. */
  predicate Printable(j: Json)
    decreases j, 0
  {
    match j
    case Obj => false
    case Num(t) => GoodNumbers(j)
    case Arr(items) => AllPrintable(items)
    case _ => true
  }

  predicate AllPrintable(items: seq<Json>)
    decreases items, 0
  {
    items == [] || (Printable(items[0]) && AllPrintable(items[1..]))
  }

  lemma {:induction false} IsPrintable(j: Json)
    requires !HasObject(j) && GoodNumbers(j)
    ensures Printable(j)
    decreases j, 0
  {
    if j.Arr? { ItemsArePrintable(j.items); }
  }

  lemma {:induction false} ItemsArePrintable(items: seq<Json>)
    requires !AnyObject(items) && forall k :: 0 <= k < |items| ==> GoodNumbers(items[k])
    ensures AllPrintable(items)
    decreases items, 0
  {
    if items != [] {
      assert !HasObject(items[0]);
      IsPrintable(items[0]);
      assert forall k :: 0 <= k < |items| - 1 ==> items[1..][k] == items[k + 1];
      ItemsArePrintable(items[1..]);
    }
  }

  /** Reading the text of a value gets that value, whatever follows it in an array. */
  lemma {:induction false} ElementRoundTrip(j: Json, rest: string) returns (e: Element)
    requires Printable(j) && Ends(rest)
    ensures ReadElement(Text(j) + rest) == Some((e, rest)) && Original(e) == j
    decreases j, 0
  {
    match j
    case Null => e := ScalarRoundTrip("NULL", rest);
    case Bool(b) => e := ScalarRoundTrip(if b then "true" else "false", rest);
    case Num(t) => e := NumberRoundTrip(t, rest);
    case Str(s) => e := StringRoundTrip(s, rest);
    case Arr(items) => e := ArrayRoundTrip(items, rest);
  }

  lemma NumberRoundTrip(t: string, rest: string) returns (e: Element)
    requires GoodNumbers(Num(t)) && Ends(rest)
    ensures ReadElement(t + rest) == Some((e, rest)) && Original(e) == Num(t)
  {
    assert IsNumberChar(t[0]);
    e := ScalarRoundTrip(t, rest);
  }

  lemma StringRoundTrip(s: string, rest: string) returns (e: Element)
    ensures ReadElement([QUOTE] + Escaped(s) + [QUOTE] + rest) == Some((e, rest)) && e == Quoted(s)
  {
    QuotedRoundTrip(s, rest);
    assert ([QUOTE] + Escaped(s) + [QUOTE] + rest)[1..] == Escaped(s) + ([QUOTE] + rest);
    e := Quoted(s);
  }

  lemma ScalarRoundTrip(w: string, rest: string) returns (e: Element)
    requires w != "" && (forall k :: 0 <= k < |w| ==> IsBare(w[k])) && Ends(rest)
    ensures e == if SpellsNull(w) then NullElement else Bare(w)
    ensures ReadElement(w + rest) == Some((e, rest))
  {
    BareRoundTrip(w, rest);
    assert (w + rest)[0] == w[0] && (w + rest)[|w|..] == rest;
    e := if SpellsNull(w) then NullElement else Bare(w);
  }

  lemma {:induction false} ArrayRoundTrip(items: seq<Json>, rest: string) returns (e: Element)
    requires AllPrintable(items)
    ensures ReadElement("{" + ItemsText(items) + "}" + rest) == Some((e, rest)) && Original(e) == Arr(items)
    decreases items, 1
  {
    if items == [] {
      e := Nested([]);
    } else {
      var es := ItemsRoundTrip(items, rest);
      BracedItems(ItemsText(items), rest, es);
      e := Nested(es);
    }
  }

  lemma BracedItems(t: string, rest: string, es: seq<Element>)
    requires ReadItems(t + ("}" + rest)) == Some((es, rest)) && (t + ("}" + rest))[0] != '}'
    ensures ReadElement("{" + t + "}" + rest) == Some((Nested(es), rest))
  {
    assert ("{" + t + "}" + rest)[1..] == t + ("}" + rest);
  }

  lemma {:induction false} ItemsRoundTrip(items: seq<Json>, rest: string) returns (es: seq<Element>)
    requires items != [] && AllPrintable(items)
    ensures ReadItems(ItemsText(items) + ("}" + rest)) == Some((es, rest)) && Originals(es) == items
    decreases items, 0
  {
    var t, tail := Text(items[0]), items[1..];
    assert items == [items[0]] + tail;
    if tail == [] {
      var e := ElementRoundTrip(items[0], "}" + rest);
      LastItem(t, rest, e);
      es := [e];
      assert es[1..] == [];
    } else {
      var more := ItemsRoundTrip(tail, rest);
      var e := ElementRoundTrip(items[0], "," + (ItemsText(tail) + ("}" + rest)));
      MoreItems(t, ItemsText(tail), rest, e, more);
      es := [e] + more;
      assert es[1..] == more;
    }
  }

  lemma LastItem(t: string, rest: string, e: Element)
    requires ReadElement(t + ("}" + rest)) == Some((e, "}" + rest))
    ensures ReadItems(t + "" + ("}" + rest)) == Some(([e], rest))
  {
    assert t + "" == t && ("}" + rest)[1..] == rest;
  }

  lemma MoreItems(t: string, tail: string, rest: string, e: Element, more: seq<Element>)
    requires ReadElement(t + ("," + (tail + ("}" + rest)))) == Some((e, "," + (tail + ("}" + rest))))
    requires ReadItems(tail + ("}" + rest)) == Some((more, rest))
    ensures ReadItems(t + ("," + tail) + ("}" + rest)) == Some(([e] + more, rest))
  {
    var after := "," + (tail + ("}" + rest));
    assert t + ("," + tail) + ("}" + rest) == t + after && after[1..] == tail + ("}" + rest);
  }

  /** A reader of the array syntax applied to the literal returns the original array. */
  lemma LiteralIsReadBack(items: seq<Json>) returns (e: Element)
    requires !AnyObject(items) && GoodNumbers(Arr(items))
    ensures ReadElement(Text(Arr(items))) == Some((e, "")) && Original(e) == Arr(items)
  {
    ItemsArePrintable(items);
    e := ArrayRoundTrip(items, "");
    assert Text(Arr(items)) + "" == Text(Arr(items));
  }
}
