/** An independent reader of what follows a statement's WHERE clause: the ORDER BY terms, and the
    limit and offset its placeholders are bound to. */
module Tail {
  import opened Wrappers
  import opened Sql
  import opened Catalog
  import opened Select
  import opened SelectMeaning

  /** The order of a result and the page of it that is returned. */
  datatype Tail = Tail(terms: seq<Order>, limit: nat, offset: nat)

  /** Ascending unless the word says otherwise. */
  function ReadDirection(ts: seq<Token>): (bool, seq<Token>) {
    if StartsWith(ts, Key(DESC)) then (true, ts[1..])
    else if StartsWith(ts, Key(ASC)) then (false, ts[1..])
    else (false, ts)
  }

  function ReadTerms(ts: seq<Token>): Option<(seq<Order>, seq<Token>)>
    decreases |ts|
  {
    if ts == [] || !ts[0].Ident? then None
    else
      var (desc, rest) := ReadDirection(ts[1..]);
      var term := Order(ts[0].name, desc);
      if !StartsWith(rest, Comma) then Some(([term], rest))
      else
        match ReadTerms(rest[1..])
        case None => None
        case Some((more, rest)) => Some(([term] + more, rest))
  }

  /** A word and a placeholder bound to a number that is not negative. */
  function ReadBound(word: Keyword, ts: seq<Token>, args: seq<Arg>): Option<(nat, seq<Token>)> {
    if |ts| < 2 || ts[0] != Key(word) || !ts[1].Param? then None
    else
      var n := ts[1].n;
      if !(1 <= n <= |args|) || !args[n - 1].Number? || args[n - 1].n < 0 then None else Some((args[n - 1].n, ts[2..]))
  }

  function ReadOrder(ts: seq<Token>): Option<(seq<Order>, seq<Token>)> {
    if |ts| >= 2 && ts[0] == Key(ORDER) && ts[1] == Key(BY) then ReadTerms(ts[2..]) else Some(([], ts))
  }

  /** The whole of what follows the WHERE clause. */
  function ReadTail(ts: seq<Token>, args: seq<Arg>): Option<Tail> {
    match ReadOrder(ts)
    case None => None
    case Some((terms, rest)) =>
      match ReadBound(LIMIT, rest, args)
      case None => None
      case Some((limit, rest)) =>
        match ReadBound(OFFSET, rest, args)
        case None => None
        case Some((offset, rest)) => if rest == [] then Some(Tail(terms, limit, offset)) else None
  }

  /** What is left of a statement behind its WHERE clause, whatever row that is read for. */
  function Behind(ts: seq<Token>, env: Env): Option<seq<Token>> {
    if StartsWith(ts, Key(WHERE)) then
      match ReadExpr(ts[1..], env)
      case None => None
      case Some((_, rest)) => Some(rest)
    else Some(ts)
  }

  // ---------------------------------------------------------------- the emitted statement

  /** Nothing that would go on with a term or a list of terms. */
  predicate EndsTerms(rest: seq<Token>) {
    !StartsWith(rest, Comma) && !StartsWith(rest, Key(ASC)) && !StartsWith(rest, Key(DESC))
  }

  function After(terms: seq<Order>, more: Option<(seq<Order>, seq<Token>)>): Option<(seq<Order>, seq<Token>)> {
    match more
    case None => None
    case Some((last, rest)) => Some((terms + last, rest))
  }

  lemma OneTermIsRead(t: Order, rest: seq<Token>)
    requires !StartsWith(rest, Key(ASC)) && !StartsWith(rest, Key(DESC))
    ensures ReadTerms(TermTokens(t) + rest)
         == if StartsWith(rest, Comma) then After([t], ReadTerms(rest[1..])) else Some(([t], rest))
  {
    var ts := TermTokens(t) + rest;
    assert ts[1..] == [ts[1]] + rest && ts[1..][1..] == rest;
  }

  /** One more term behind tokens that read as the terms before it. */
  lemma NextTermIsRead(ts: seq<Token>, before: seq<Order>, t: Order, rest: seq<Token>)
    requires !StartsWith(rest, Key(ASC)) && !StartsWith(rest, Key(DESC))
    requires ReadTerms(ts + ([Comma] + (TermTokens(t) + rest))) == After(before, ReadTerms(TermTokens(t) + rest))
    ensures ReadTerms(ts + [Comma] + TermTokens(t) + rest)
         == if StartsWith(rest, Comma) then After(before + [t], ReadTerms(rest[1..])) else Some((before + [t], rest))
  {
    OneTermIsRead(t, rest);
    assert ts + [Comma] + TermTokens(t) + rest == ts + ([Comma] + (TermTokens(t) + rest));
    if StartsWith(rest, Comma) && ReadTerms(rest[1..]).Some? {
      AppendAssoc(before, [t], ReadTerms(rest[1..]).value.0);
    }
  }

  /** The written terms are read as themselves, and then what follows. */
  lemma {:induction false} TermsAreRead(terms: seq<Order>, k: nat, rest: seq<Token>)
    requires 0 < k <= |terms| && !StartsWith(rest, Key(ASC)) && !StartsWith(rest, Key(DESC))
    ensures ReadTerms(TermsTokens(terms, k) + rest)
         == if StartsWith(rest, Comma) then After(terms[..k], ReadTerms(rest[1..])) else Some((terms[..k], rest))
  {
    var t := terms[k - 1];
    if k == 1 {
      OneTermIsRead(t, rest);
      assert TermsTokens(terms, 1) == TermTokens(t) && terms[..1] == [t];
    } else {
      var next := [Comma] + (TermTokens(t) + rest);
      assert next[1..] == TermTokens(t) + rest;
      TermsAreRead(terms, k - 1, next);
      NextTermIsRead(TermsTokens(terms, k - 1), terms[..k - 1], t, rest);
      assert terms[..k] == terms[..k - 1] + [t];
    }
  }

  lemma OrderWords(ts: seq<Token>, rest: seq<Token>)
    ensures ReadOrder([Key(ORDER), Key(BY)] + ts + rest) == ReadTerms(ts + rest)
  {
    assert ([Key(ORDER), Key(BY)] + ts + rest)[2..] == ts + rest;
  }

  lemma OrderIsRead(terms: seq<Order>, rest: seq<Token>)
    requires EndsTerms(rest) && !StartsWith(rest, Key(ORDER))
    ensures ReadOrder(OrderTokens(terms) + rest) == Some((terms, rest))
  {
    if terms == [] {
      NilAppend(rest);
    } else {
      TermsAreRead(terms, |terms|, rest);
      OrderWords(TermsTokens(terms, |terms|), rest);
      assert terms[..|terms|] == terms;
    }
  }

  lemma PageIsRead(n: nat, args: seq<Arg>, limit: nat, offset: nat)
    requires |args| == n + 2 && args[n] == Number(limit) && args[n + 1] == Number(offset)
    ensures var ts := PageTokens(n);
            && ReadBound(LIMIT, ts, args) == Some((limit, ts[2..]))
            && ReadBound(OFFSET, ts[2..], args) == Some((offset, []))
  {
    assert PageTokens(n)[2..][2..] == [];
  }

  /** Behind its WHERE clause the SELECT says: ordered by the requested terms, completed by the
      tiebreak, with the requested limit and offset. */
  lemma TailIsRead(rel: Relation, p: Request)
    ensures ReadTail(AfterWhere(rel, p), SelectArgs(p)) == Some(Tail(OrderTerms(rel, p), p.limit, p.offset))
  {
    var terms, n := OrderTerms(rel, p), UserCount(p);
    OrderIsRead(terms, PageTokens(n));
    PageIsRead(n, SelectArgs(p), p.limit, p.offset);
  }

  /** The clause ends where the ORDER BY begins, whatever the row. */
  lemma ClauseEnds(rel: Relation, p: Request, row: Row, meaning: Meaning)
    requires ValidRequest(p) && GoodRelation(rel)
    ensures Behind(SelectTokens(rel, p), Env(row, SelectArgs(p), meaning)) == Some(AfterWhere(rel, p))
  {
    var env, preds, rest := Env(row, SelectArgs(p), meaning), Preds(rel, p, 0), AfterWhere(rel, p);
    var w := WhereTokens(preds);
    AppendAssoc(w, OrderTokens(OrderTerms(rel, p)), PageTokens(UserCount(p)));
    if preds == [] {
      NilAppend(rest);
    } else {
      var vs := PredsReadAs(rel, p, env);
      AndedReadAs(preds, vs, env, rest);
      AppendAssoc([Key(WHERE)], Join(preds, Key(AND)), rest);
    }
  }
}
