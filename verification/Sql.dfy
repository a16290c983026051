/** The fragment of SQL the query compiler writes: tokens, and an independent reader that
    evaluates a WHERE expression with SQL's precedence and three-valued logic. */
module Sql {
  import opened Wrappers

  datatype Keyword = AND | OR | IN | IS | NOT | NULL | WHERE | ORDER | BY | ASC | DESC | LIMIT | OFFSET | TRUE | FALSE

  datatype Operator = Eq | Neq | Gt | Gte | Lt | Lte | Like | ILike

  /** LIKE and ILIKE are operators spelled as words. */
  datatype Token = Ident(name: string) | Param(n: nat) | Key(k: Keyword) | Sym(op: Operator) | LParen | RParen | Comma

  datatype Tri = True | False | Unknown

  function And(a: Tri, b: Tri): Tri {
    if a == False || b == False then False else if a == True && b == True then True else Unknown
  }

  function Or(a: Tri, b: Tri): Tri {
    if a == True || b == True then True else if a == False && b == False then False else Unknown
  }

  function Truth(b: bool): Tri { if b then True else False }

  /** A row gives each column a cell or NULL. */
  type Row = map<string, Option<string>>

  function Cell(row: Row, col: string): Option<string> { if col in row then row[col] else None }

  /** A bound argument. */
  datatype Arg = Text(s: string) | Number(n: int)

  /** What an operator of a column's type makes of a cell and an argument. */
  type Meaning = (Operator, string, string, string) -> bool

  datatype Env = Env(row: Row, args: seq<Arg>, meaning: Meaning)

  // ---------------------------------------------------------------- reading an expression

  predicate StartsWith(ts: seq<Token>, t: Token) { ts != [] && ts[0] == t }

  /** A placeholder stands for its argument, a boolean literal for itself. */
  function Operand(t: Token, env: Env): Option<string> {
    match t
    case Param(n) => if 1 <= n <= |env.args| && env.args[n - 1].Text? then Some(env.args[n - 1].s) else None
    case Key(k) => if k == TRUE then Some("true") else if k == FALSE then Some("false") else None
    case _ => None
  }

  /** The operands of a list, up to its closing parenthesis. */
  function ReadList(ts: seq<Token>, env: Env): (r: Option<(seq<string>, seq<Token>)>)
    ensures r.Some? ==> |r.value.1| < |ts|
  {
    if |ts| < 2 || Operand(ts[0], env).None? then None
    else if ts[1].RParen? then Some(([Operand(ts[0], env).value], ts[2..]))
    else if ts[1].Comma? then
      var more := ReadList(ts[2..], env);
      if more.None? then None else Some(([Operand(ts[0], env).value] + more.value.0, more.value.1))
    else None
  }

  function Compare(env: Env, op: Operator, col: string, arg: string): Tri {
    match Cell(env.row, col)
    case None => Unknown
    case Some(cell) => Truth(env.meaning(op, col, cell, arg))
  }

  /** x IN (a, b) is x = a OR x = b. */
  function AnyEqual(env: Env, col: string, args: seq<string>): Tri {
    if args == [] then False else Or(Compare(env, Eq, col, args[0]), AnyEqual(env, col, args[1..]))
  }

  /** What follows a column: a NULL test, a list, or an operator and its operand. */
  function ReadTest(col: string, ts: seq<Token>, env: Env): (r: Option<(Tri, seq<Token>)>)
    ensures r.Some? ==> |r.value.1| < |ts|
  {
    if |ts| >= 2 && ts[0] == Key(IS) && ts[1] == Key(NULL) then Some((Truth(Cell(env.row, col).None?), ts[2..]))
    else if |ts| >= 3 && ts[0] == Key(IS) && ts[1] == Key(NOT) && ts[2] == Key(NULL) then
      Some((Truth(Cell(env.row, col).Some?), ts[3..]))
    else if |ts| >= 2 && ts[0] == Key(IN) && ts[1].LParen? then
      var list := ReadList(ts[2..], env);
      if list.None? then None else Some((AnyEqual(env, col, list.value.0), list.value.1))
    else if |ts| >= 2 && ts[0].Sym? && Operand(ts[1], env).Some? then
      Some((Compare(env, ts[0].op, col, Operand(ts[1], env).value), ts[2..]))
    else None
  }

  function ReadFactor(ts: seq<Token>, env: Env): (r: Option<(Tri, seq<Token>)>)
    ensures r.Some? ==> |r.value.1| < |ts|
    decreases |ts|, 0
  {
    if ts == [] then None
    else if ts[0].LParen? then
      var inner := ReadExpr(ts[1..], env);
      if inner.Some? && StartsWith(inner.value.1, RParen) then Some((inner.value.0, inner.value.1[1..])) else None
    else if ts[0].Ident? then ReadTest(ts[0].name, ts[1..], env)
    else None
  }

  function ReadConj(ts: seq<Token>, env: Env): (r: Option<(Tri, seq<Token>)>)
    ensures r.Some? ==> |r.value.1| < |ts|
    decreases |ts|, 1
  {
    var first := ReadFactor(ts, env);
    if first.Some? && StartsWith(first.value.1, Key(AND)) then
      var more := ReadConj(first.value.1[1..], env);
      if more.None? then None else Some((And(first.value.0, more.value.0), more.value.1))
    else first
  }

  /** AND binds tighter than OR. */
  function ReadExpr(ts: seq<Token>, env: Env): (r: Option<(Tri, seq<Token>)>)
    ensures r.Some? ==> |r.value.1| < |ts|
    decreases |ts|, 2
  {
    var first := ReadConj(ts, env);
    if first.Some? && StartsWith(first.value.1, Key(OR)) then
      var more := ReadExpr(first.value.1[1..], env);
      if more.None? then None else Some((Or(first.value.0, more.value.0), more.value.1))
    else first
  }

  // ---------------------------------------------------------------- joining

  function Join(parts: seq<seq<Token>>, sep: Token): seq<Token> {
    if parts == [] then [] else if |parts| == 1 then parts[0] else parts[0] + [sep] + Join(parts[1..], sep)
  }

  /** The tokens read as one factor of this value wherever they stand. */
  ghost predicate ReadsAs(part: seq<Token>, v: Tri, env: Env) {
    forall rest :: ReadFactor(part + rest, env) == Some((v, rest))
  }

  ghost predicate ReadUpTo(parts: seq<seq<Token>>, vs: seq<Tri>, env: Env, k: nat)
    requires k <= |parts| == |vs|
  {
    k == 0 || (ReadUpTo(parts, vs, env, k - 1) && ReadsAs(parts[k - 1], vs[k - 1], env))
  }

  ghost predicate AllReadAs(parts: seq<seq<Token>>, vs: seq<Tri>, env: Env) {
    |parts| == |vs| && ReadUpTo(parts, vs, env, |parts|)
  }

  lemma {:induction false} ReadAt(parts: seq<seq<Token>>, vs: seq<Tri>, env: Env, k: nat, i: nat)
    requires i < k <= |parts| == |vs| && ReadUpTo(parts, vs, env, k)
    ensures ReadsAs(parts[i], vs[i], env)
  {
    if i < k - 1 { ReadAt(parts, vs, env, k - 1, i); }
  }

  lemma {:induction false} ReadAll(parts: seq<seq<Token>>, vs: seq<Tri>, env: Env, k: nat)
    requires k <= |parts| == |vs|
    requires forall i :: 0 <= i < k ==> ReadsAs(parts[i], vs[i], env)
    ensures ReadUpTo(parts, vs, env, k)
  {
    if k > 0 { ReadAll(parts, vs, env, k - 1); }
  }

  lemma AllReadAsAppend(p1: seq<seq<Token>>, v1: seq<Tri>, p2: seq<seq<Token>>, v2: seq<Tri>, env: Env)
    requires AllReadAs(p1, v1, env) && AllReadAs(p2, v2, env)
    ensures AllReadAs(p1 + p2, v1 + v2, env)
  {
    forall i | 0 <= i < |p1 + p2| ensures ReadsAs((p1 + p2)[i], (v1 + v2)[i], env) {
      if i < |p1| { ReadAt(p1, v1, env, |p1|, i); } else { ReadAt(p2, v2, env, |p2|, i - |p1|); }
    }
    ReadAll(p1 + p2, v1 + v2, env, |p1 + p2|);
  }

  lemma AllReadAsTail(parts: seq<seq<Token>>, vs: seq<Tri>, env: Env)
    requires parts != [] && AllReadAs(parts, vs, env)
    ensures ReadsAs(parts[0], vs[0], env) && AllReadAs(parts[1..], vs[1..], env)
  {
    ReadAt(parts, vs, env, |parts|, 0);
    forall i | 0 <= i < |parts| - 1 ensures ReadsAs(parts[1..][i], vs[1..][i], env) {
      ReadAt(parts, vs, env, |parts|, i + 1);
    }
    ReadAll(parts[1..], vs[1..], env, |parts| - 1);
  }

  function AndAll(vs: seq<Tri>): Tri { if vs == [] then True else And(vs[0], AndAll(vs[1..])) }

  function OrAll(vs: seq<Tri>): Tri { if vs == [] then False else Or(vs[0], OrAll(vs[1..])) }

  lemma {:induction false} AndAllIsAll(vs: seq<Tri>)
    ensures AndAll(vs) == True <==> forall i :: 0 <= i < |vs| ==> vs[i] == True
  {
    if vs != [] {
      AndAllIsAll(vs[1..]);
      assert forall i :: 0 <= i < |vs| - 1 ==> vs[1..][i] == vs[i + 1];
      assert (forall i :: 0 <= i < |vs| ==> vs[i] == True) ==> forall i :: 0 <= i < |vs[1..]| ==> vs[1..][i] == True;
      assert vs == [vs[0]] + vs[1..];
    }
  }

  lemma {:induction false} OrAllIsSome(vs: seq<Tri>)
    ensures OrAll(vs) == True <==> exists i :: 0 <= i < |vs| && vs[i] == True
  {
    if vs != [] {
      OrAllIsSome(vs[1..]);
      assert forall i :: 0 <= i < |vs| - 1 ==> vs[1..][i] == vs[i + 1];
      if OrAll(vs[1..]) == True {
        var i :| 0 <= i < |vs[1..]| && vs[1..][i] == True;
        assert vs[i + 1] == True;
      }
      if i :| 0 <= i < |vs| && vs[i] == True && i > 0 { assert vs[1..][i - 1] == True; }
    }
  }

  function Tail(sep: Token, more: seq<Token>, rest: seq<Token>): seq<Token> { [sep] + (more + rest) }

  lemma TailFacts(part: seq<Token>, sep: Token, more: seq<Token>, rest: seq<Token>)
    ensures part + [sep] + more + rest == part + Tail(sep, more, rest)
    ensures StartsWith(Tail(sep, more, rest), sep) && Tail(sep, more, rest)[1..] == more + rest
  {
  }

  lemma AndStep(part: seq<Token>, v: Tri, more: seq<Token>, w: Tri, env: Env, rest: seq<Token>)
    requires ReadsAs(part, v, env) && ReadConj(more + rest, env) == Some((w, rest))
    ensures ReadConj(part + [Key(AND)] + more + rest, env) == Some((And(v, w), rest))
  {
    TailFacts(part, Key(AND), more, rest);
    assert ReadFactor(part + Tail(Key(AND), more, rest), env) == Some((v, Tail(Key(AND), more, rest)));
  }

  /** Factors joined by AND read as their conjunction, up to what follows. */
  lemma {:induction false} AndedReadAs(parts: seq<seq<Token>>, vs: seq<Tri>, env: Env, rest: seq<Token>)
    requires parts != [] && AllReadAs(parts, vs, env) && !StartsWith(rest, Key(AND))
    ensures ReadConj(Join(parts, Key(AND)) + rest, env) == Some((AndAll(vs), rest))
  {
    AllReadAsTail(parts, vs, env);
    if |parts| == 1 {
    } else {
      AndedReadAs(parts[1..], vs[1..], env, rest);
      AndStep(parts[0], vs[0], Join(parts[1..], Key(AND)), AndAll(vs[1..]), env, rest);
    }
  }

  lemma OrStep(part: seq<Token>, v: Tri, more: seq<Token>, w: Tri, env: Env, rest: seq<Token>)
    requires ReadsAs(part, v, env) && ReadExpr(more + rest, env) == Some((w, rest))
    ensures ReadExpr(part + [Key(OR)] + more + rest, env) == Some((Or(v, w), rest))
  {
    TailFacts(part, Key(OR), more, rest);
  }

  /** Factors joined by OR read as their disjunction, up to what follows. */
  lemma {:induction false} OredReadAs(parts: seq<seq<Token>>, vs: seq<Tri>, env: Env, rest: seq<Token>)
    requires parts != [] && AllReadAs(parts, vs, env) && !StartsWith(rest, Key(AND)) && !StartsWith(rest, Key(OR))
    ensures ReadExpr(Join(parts, Key(OR)) + rest, env) == Some((OrAll(vs), rest))
  {
    AllReadAsTail(parts, vs, env);
    if |parts| == 1 {
    } else {
      OredReadAs(parts[1..], vs[1..], env, rest);
      OrStep(parts[0], vs[0], Join(parts[1..], Key(OR)), OrAll(vs[1..]), env, rest);
    }
  }

  /** In parentheses, a disjunction is one factor. */
  lemma GroupReadsAs(parts: seq<seq<Token>>, vs: seq<Tri>, env: Env)
    requires parts != [] && AllReadAs(parts, vs, env)
    ensures ReadsAs([LParen] + Join(parts, Key(OR)) + [RParen], OrAll(vs), env)
  {
    forall rest ensures ReadFactor([LParen] + Join(parts, Key(OR)) + [RParen] + rest, env) == Some((OrAll(vs), rest)) {
      OredReadAs(parts, vs, env, [RParen] + rest);
      Parenthesised(Join(parts, Key(OR)), OrAll(vs), env, rest);
    }
  }

  lemma Parenthesised(inner: seq<Token>, v: Tri, env: Env, rest: seq<Token>)
    requires ReadExpr(inner + ([RParen] + rest), env) == Some((v, [RParen] + rest))
    ensures ReadFactor([LParen] + inner + [RParen] + rest, env) == Some((v, rest))
  {
    var ts := [LParen] + inner + [RParen] + rest;
    assert ts[1..] == inner + ([RParen] + rest);
    assert ([RParen] + rest)[1..] == rest;
  }

  // ---------------------------------------------------------------- placeholders

  /** The placeholders of a token list, left to right. */
  function Params(ts: seq<Token>): seq<nat> {
    if ts == [] then [] else Params(ts[..|ts| - 1]) + if ts[|ts| - 1].Param? then [ts[|ts| - 1].n] else []
  }

  /** lo + 1 .. hi */
  function Upto(lo: nat, hi: nat): seq<nat> {
    if hi <= lo then [] else Upto(lo, hi - 1) + [hi]
  }

  lemma {:induction false} ParamsAppend(a: seq<Token>, b: seq<Token>)
    ensures Params(a + b) == Params(a) + Params(b)
  {
    if b == [] {
      assert a + b == a;
    } else {
      assert (a + b)[..|a + b| - 1] == a + b[..|b| - 1];
      ParamsAppend(a, b[..|b| - 1]);
    }
  }
}
