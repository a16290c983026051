/** From tokens to SQL text and back: identifiers are quoted, words are separated, and a
    reader of the text finds exactly the tokens that were written. */
module SqlText {
  import opened Wrappers
  import opened Decimal
  import opened Sql

  // ---------------------------------------------------------------- writing

  /** A quote inside an identifier is doubled. */
  function Escaped(s: string): string {
    if s == "" then "" else (if s[0] == QUOTE then [QUOTE, QUOTE] else [s[0]]) + Escaped(s[1..])
  }

  function QuoteIdent(s: string): string { [QUOTE] + Escaped(s) + [QUOTE] }

  function Spelled(k: Keyword): string {
    match k
    case AND => "AND" case OR => "OR" case IN => "IN" case IS => "IS" case NOT => "NOT" case NULL => "NULL"
    case WHERE => "WHERE" case ORDER => "ORDER" case BY => "BY" case ASC => "ASC" case DESC => "DESC"
    case LIMIT => "LIMIT" case OFFSET => "OFFSET" case TRUE => "true" case FALSE => "false"
  }

  function Symbol(op: Operator): string {
    match op
    case Eq => "=" case Neq => "<>" case Gt => ">" case Gte => ">=" case Lt => "<" case Lte => "<="
    case Like => "LIKE" case ILike => "ILIKE"
  }

  function TokenText(t: Token): string {
    match t
    case Ident(name) => QuoteIdent(name)
    case Param(n) => "$" + NatText(n)
    case Key(k) => Spelled(k)
    case Sym(op) => Symbol(op)
    case LParen => "("
    case RParen => ")"
    case Comma => ","
  }

  /** Words are kept apart by a space; parentheses hug what they enclose. */
  function Gap(a: Token, b: Token): string { if a.LParen? || b.RParen? || b.Comma? then "" else " " }

  function TextOf(ts: seq<Token>): string {
    if ts == [] then ""
    else TokenText(ts[0]) + (if |ts| == 1 then "" else Gap(ts[0], ts[1]) + TextOf(ts[1..]))
  }

  lemma TwoTokens(a: Token, b: Token)
    ensures TextOf([a, b]) == TokenText(a) + Gap(a, b) + TokenText(b)
  {
    assert [a, b][1..] == [b];
  }

  lemma ThreeTokens(a: Token, b: Token, c: Token)
    ensures TextOf([a, b, c]) == TokenText(a) + Gap(a, b) + TokenText(b) + Gap(b, c) + TokenText(c)
  {
    assert [a, b, c][1..] == [b, c];
    TwoTokens(b, c);
  }

  /** How a comparison is written, operator by operator. */
  predicate IsWritten(op: Operator, text: string, name: string, place: string) {
    && (op == Eq ==> text == name + " " + "=" + " " + place) && (op == Neq ==> text == name + " " + "<>" + " " + place)
    && (op == Gt ==> text == name + " " + ">" + " " + place) && (op == Gte ==> text == name + " " + ">=" + " " + place)
    && (op == Lt ==> text == name + " " + "<" + " " + place) && (op == Lte ==> text == name + " " + "<=" + " " + place)
    && (op == Like ==> text == name + " " + "LIKE" + " " + place)
    && (op == ILike ==> text == name + " " + "ILIKE" + " " + place)
  }

  lemma ComparisonText(col: string, op: Operator, n: nat)
    ensures IsWritten(op, TextOf([Ident(col), Sym(op), Param(n)]), QuoteIdent(col), "$" + NatText(n))
  {
    ThreeTokens(Ident(col), Sym(op), Param(n));
  }

  // ---------------------------------------------------------------- reading

  /** The inside of a quoted identifier up to its closing quote, and what follows. */
  function ReadIdent(cs: string): (r: Option<(string, string)>)
    ensures r.Some? ==> |r.value.1| < |cs|
  {
    if cs == "" then None
    else if cs[0] == QUOTE then
      if |cs| > 1 && cs[1] == QUOTE then
        var more := ReadIdent(cs[2..]);
        if more.None? then None else Some(([QUOTE] + more.value.0, more.value.1))
      else Some(("", cs[1..]))
    else
      var more := ReadIdent(cs[1..]);
      if more.None? then None else Some(([cs[0]] + more.value.0, more.value.1))
  }

  predicate IsLetter(c: char) { 'A' <= c <= 'Z' || 'a' <= c <= 'z' }

  predicate IsSymbol(c: char) { c == '<' || c == '>' || c == '=' }

  /** The longest run of characters of a kind. */
  function Run(cs: string, p: char -> bool): (r: string)
    ensures |r| <= |cs| && forall k :: 0 <= k < |r| ==> p(r[k])
  {
    if cs == "" || !p(cs[0]) then "" else [cs[0]] + Run(cs[1..], p)
  }

  function Named(w: string): Option<Token> {
    if w == "AND" then Some(Key(AND))
    else if w == "OR" then Some(Key(OR))
    else if w == "IN" then Some(Key(IN))
    else if w == "IS" then Some(Key(IS))
    else if w == "NOT" then Some(Key(NOT))
    else if w == "NULL" then Some(Key(NULL))
    else if w == "WHERE" then Some(Key(WHERE))
    else if w == "ORDER" then Some(Key(ORDER))
    else if w == "BY" then Some(Key(BY))
    else if w == "ASC" then Some(Key(ASC))
    else if w == "DESC" then Some(Key(DESC))
    else if w == "LIMIT" then Some(Key(LIMIT))
    else if w == "OFFSET" then Some(Key(OFFSET))
    else if w == "true" then Some(Key(TRUE))
    else if w == "false" then Some(Key(FALSE))
    else if w == "=" then Some(Sym(Eq))
    else if w == "<>" then Some(Sym(Neq))
    else if w == ">" then Some(Sym(Gt))
    else if w == ">=" then Some(Sym(Gte))
    else if w == "<" then Some(Sym(Lt))
    else if w == "<=" then Some(Sym(Lte))
    else if w == "LIKE" then Some(Sym(Like))
    else if w == "ILIKE" then Some(Sym(ILike))
    else None
  }

  function FirstWord(cs: string): (w: string)
    ensures |w| <= |cs|
  {
    if cs == "" then "" else if IsLetter(cs[0]) then Run(cs, IsLetter) else Run(cs, IsSymbol)
  }

  /** The first token and what follows it. */
  function ReadToken(cs: string): (r: Option<(Token, string)>)
    ensures r.Some? ==> |r.value.1| < |cs|
  {
    if cs == "" then None
    else if cs[0] == QUOTE then
      var r := ReadIdent(cs[1..]);
      if r.None? then None else Some((Ident(r.value.0), r.value.1))
    else if cs[0] == '$' then
      var d := Run(cs[1..], IsDigit);
      if d == "" then None else Some((Param(DigitsVal(d)), cs[1 + |d|..]))
    else if cs[0] == '(' then Some((LParen, cs[1..]))
    else if cs[0] == ')' then Some((RParen, cs[1..]))
    else if cs[0] == ',' then Some((Comma, cs[1..]))
    else
      var w := FirstWord(cs);
      if w == "" || Named(w).None? then None else Some((Named(w).value, cs[|w|..]))
  }

  function Lex(cs: string): Option<seq<Token>>
    decreases |cs|
  {
    if cs == "" then Some([])
    else if cs[0] == ' ' then Lex(cs[1..])
    else
      var t := ReadToken(cs);
      if t.None? then None
      else
        var more := Lex(t.value.1);
        if more.None? then None else Some([t.value.0] + more.value)
  }

  // ---------------------------------------------------------------- the round trip

  /** Quoting is undone by reading, whatever the identifier, before anything but a quote. */
  lemma {:induction false} IdentRoundTrip(s: string, rest: string)
    requires rest == "" || rest[0] != QUOTE
    ensures ReadIdent(Escaped(s) + ([QUOTE] + rest)) == Some((s, rest))
  {
    var cs := Escaped(s) + ([QUOTE] + rest);
    if s == "" {
      assert cs == [QUOTE] + rest;
    } else {
      IdentRoundTrip(s[1..], rest);
      var tail := Escaped(s[1..]) + ([QUOTE] + rest);
      if s[0] == QUOTE {
        assert cs == [QUOTE, QUOTE] + tail && cs[2..] == tail;
      } else {
        assert cs == [s[0]] + tail && cs[1..] == tail;
      }
      assert s == [s[0]] + s[1..];
    }
  }

  lemma {:induction false} RunStops(w: string, p: char -> bool, rest: string)
    requires (forall k :: 0 <= k < |w| ==> p(w[k])) && (rest == "" || !p(rest[0]))
    ensures Run(w + rest, p) == w
  {
    if w == "" {
      assert w + rest == rest;
    } else {
      RunStops(w[1..], p, rest);
      assert (w + rest)[1..] == w[1..] + rest;
    }
  }

  /** A character no word goes on with. */
  predicate Stops(rest: string) { rest == "" || rest[0] == ' ' || rest[0] == ')' || rest[0] == ',' }

  predicate IsWord(w: string) {
    w != "" && ((forall i :: 0 <= i < |w| ==> IsLetter(w[i])) || (forall i :: 0 <= i < |w| ==> IsSymbol(w[i])))
  }

  lemma KeywordsAreNamed(k: Keyword)
    ensures Named(Spelled(k)) == Some(Key(k))
    ensures IsWord(Spelled(k))
  {
  }

  lemma OperatorsAreNamed(op: Operator)
    ensures Named(Symbol(op)) == Some(Sym(op)) && IsWord(Symbol(op))
  {
  }

  lemma WordStops(w: string, rest: string)
    requires IsWord(w) && Stops(rest)
    ensures FirstWord(w + rest) == w && (w + rest)[|w|..] == rest
  {
    if IsLetter(w[0]) {
      RunStops(w, IsLetter, rest);
    } else {
      RunStops(w, IsSymbol, rest);
    }
  }

  lemma WordRoundTrip(w: string, t: Token, rest: string)
    requires IsWord(w) && Named(w) == Some(t) && Stops(rest)
    ensures ReadToken(w + rest) == Some((t, rest))
  {
    WordStops(w, rest);
    assert (w + rest)[0] == w[0];
  }

  lemma QuotedRoundTrip(name: string, rest: string)
    requires Stops(rest)
    ensures ReadToken(QuoteIdent(name) + rest) == Some((Ident(name), rest))
  {
    IdentRoundTrip(name, rest);
    assert (QuoteIdent(name) + rest)[1..] == Escaped(name) + ([QUOTE] + rest);
  }

  lemma AfterDollar(d: string, rest: string)
    ensures ("$" + d + rest)[0] == '$' && ("$" + d + rest)[1..] == d + rest && ("$" + d + rest)[1 + |d|..] == rest
  {
  }

  lemma DigitsRead(d: string, rest: string)
    requires d != "" && AllDigits(d) && Stops(rest)
    ensures ReadToken("$" + d + rest) == Some((Param(DigitsVal(d)), rest))
  {
    AfterDollar(d, rest);
    RunStops(d, IsDigit, rest);
  }

  lemma PlaceholderRoundTrip(n: nat, rest: string)
    requires Stops(rest)
    ensures ReadToken("$" + NatText(n) + rest) == Some((Param(n), rest))
  {
    DigitsRead(NatText(n), rest);
  }

  /** What is written for a token is read as that token, before a space, a comma or a closing
      parenthesis; an opening parenthesis and a comma are read before anything. */
  lemma TokenRoundTrip(t: Token, rest: string)
    requires Stops(rest) || t.LParen? || t.Comma?
    ensures ReadToken(TokenText(t) + rest) == Some((t, rest))
  {
    match t
    case Ident(name) => QuotedRoundTrip(name, rest);
    case Param(n) => PlaceholderRoundTrip(n, rest);
    case Key(k) =>
      KeywordsAreNamed(k);
      WordRoundTrip(Spelled(k), t, rest);
    case Sym(op) =>
      OperatorsAreNamed(op);
      WordRoundTrip(Symbol(op), t, rest);
    case _ =>
      assert (TokenText(t) + rest)[1..] == rest;
  }

  lemma TextIsNotBlank(t: Token)
    ensures TokenText(t) != "" && TokenText(t)[0] != ' '
  {
    match t
    case Key(k) => KeywordsAreNamed(k);
    case Sym(op) => OperatorsAreNamed(op);
    case _ =>
  }

  /** The text of a token list is read back as that list: quoting, numbering and spacing are
      unambiguous for every identifier and every placeholder. */
  lemma {:induction false} LexOfText(ts: seq<Token>)
    ensures Lex(TextOf(ts)) == Some(ts)
  {
    if ts != [] {
      var t := ts[0];
      LexOfText(ts[1..]);
      TextIsNotBlank(t);
      if |ts| == 1 {
        assert TextOf(ts) == TokenText(t) + "" && ts[1..] == [];
        TokenRoundTrip(t, "");
      } else {
        var gap, tail := Gap(t, ts[1]), TextOf(ts[1..]);
        assert TextOf(ts) == TokenText(t) + (gap + tail);
        TailStops(ts);
        TokenRoundTrip(t, gap + tail);
        LexGap(gap, tail);
      }
      assert ts == [t] + ts[1..];
    }
  }

  lemma TailStops(ts: seq<Token>)
    requires |ts| > 1
    ensures Stops(Gap(ts[0], ts[1]) + TextOf(ts[1..])) || ts[0].LParen?
  {
    assert TextOf(ts[1..])[0] == TokenText(ts[1])[0] by { TextIsNotBlank(ts[1]); }
  }

  lemma LexGap(gap: string, tail: string)
    requires gap == "" || gap == " "
    ensures Lex(gap + tail) == Lex(tail)
  {
    if gap == "" {
      assert gap + tail == tail;
    } else {
      assert (gap + tail)[1..] == tail;
    }
  }
}
