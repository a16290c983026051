/** The query compiler: builders that write SQL tokens and collect arguments, statement by
    statement as functions of the request. */
module Select {
  import opened Sql
  import opened Catalog

  datatype Statement = Statement(tokens: seq<Token>, args: seq<Arg>)

  // ---------------------------------------------------------------- what is written
  // `k` says how many elements of a list are written, `n` how many placeholders came before

  function ArgsOf(values: seq<string>, k: nat): (r: seq<Arg>)
    requires k <= |values|
    ensures |r| == k
  {
    if k == 0 then [] else ArgsOf(values, k - 1) + [Text(values[k - 1])]
  }

  function Placeholders(n: nat, k: nat): seq<seq<Token>> {
    if k == 0 then [] else Placeholders(n, k - 1) + [[Param(n + k)]]
  }

  function CondTokens(c: Cond, n: nat): seq<Token> {
    match c.op
    case Is => if c.notNull then [Ident(c.col), Key(IS), Key(NOT), Key(NULL)] else [Ident(c.col), Key(IS), Key(NULL)]
    case In => [Ident(c.col), Key(IN), LParen] + Join(Placeholders(n, |c.values|), Comma) + [RParen]
    case Compare(op) => [Ident(c.col), Sym(op), Param(n + 1)]
  }

  function ArgCount(c: Cond): nat { if c.op.Is? then 0 else |c.values| }

  function CondArgs(c: Cond): (r: seq<Arg>)
    ensures |r| == ArgCount(c)
  {
    if c.op.Is? then [] else ArgsOf(c.values, |c.values|)
  }

  function CondsCount(conds: seq<Cond>, k: nat): nat
    requires k <= |conds|
  {
    if k == 0 then 0 else CondsCount(conds, k - 1) + ArgCount(conds[k - 1])
  }

  function CondsArgs(conds: seq<Cond>, k: nat): (r: seq<Arg>)
    requires k <= |conds|
    ensures |r| == CondsCount(conds, k)
  {
    if k == 0 then [] else CondsArgs(conds, k - 1) + CondArgs(conds[k - 1])
  }

  function CondsPreds(conds: seq<Cond>, k: nat, n: nat): seq<seq<Token>>
    requires k <= |conds|
  {
    if k == 0 then [] else CondsPreds(conds, k - 1, n) + [CondTokens(conds[k - 1], n + CondsCount(conds, k - 1))]
  }

  function GroupTokens(group: seq<Cond>, n: nat): seq<Token> {
    [LParen] + Join(CondsPreds(group, |group|, n), Key(OR)) + [RParen]
  }

  function GroupsCount(groups: seq<seq<Cond>>, k: nat): nat
    requires k <= |groups|
  {
    if k == 0 then 0 else GroupsCount(groups, k - 1) + CondsCount(groups[k - 1], |groups[k - 1]|)
  }

  function GroupsArgs(groups: seq<seq<Cond>>, k: nat): (r: seq<Arg>)
    requires k <= |groups|
    ensures |r| == GroupsCount(groups, k)
  {
    if k == 0 then [] else GroupsArgs(groups, k - 1) + CondsArgs(groups[k - 1], |groups[k - 1]|)
  }

  function GroupsPreds(groups: seq<seq<Cond>>, k: nat, n: nat): seq<seq<Token>>
    requires k <= |groups|
  {
    if k == 0 then [] else GroupsPreds(groups, k - 1, n) + [GroupTokens(groups[k - 1], n + GroupsCount(groups, k - 1))]
  }

  function IsOn(p: Request, key: string): bool { key in p.toggles && p.toggles[key] }

  function OffPreds(toggles: seq<Toggle>, k: nat, p: Request): seq<seq<Token>>
    requires k <= |toggles|
  {
    if k == 0 then []
    else OffPreds(toggles, k - 1, p) + if IsOn(p, toggles[k - 1].key) then [] else [toggles[k - 1].whenOff]
  }

  function UserCount(p: Request): nat { CondsCount(p.conds, |p.conds|) + GroupsCount(p.groups, |p.groups|) }

  function UserArgs(p: Request): (r: seq<Arg>)
    ensures |r| == UserCount(p)
  {
    CondsArgs(p.conds, |p.conds|) + GroupsArgs(p.groups, |p.groups|)
  }

  function UserPreds(p: Request, n: nat): seq<seq<Token>> {
    CondsPreds(p.conds, |p.conds|, n) + GroupsPreds(p.groups, |p.groups|, n + CondsCount(p.conds, |p.conds|))
  }

  function FixedPreds(rel: Relation, p: Request): seq<seq<Token>> {
    rel.forced + OffPreds(rel.toggles, |rel.toggles|, p)
  }

  function Preds(rel: Relation, p: Request, n: nat): seq<seq<Token>> { UserPreds(p, n) + FixedPreds(rel, p) }

  function WhereTokens(preds: seq<seq<Token>>): seq<Token> {
    if preds == [] then [] else [Key(WHERE)] + Join(preds, Key(AND))
  }

  // ---------------------------------------------------------------- ORDER BY

  predicate HasTerm(terms: seq<Order>, col: string) { exists k :: 0 <= k < |terms| && terms[k].col == col }

  function Ascending(cols: seq<string>, k: nat): seq<Order>
    requires k <= |cols|
  {
    if k == 0 then [] else Ascending(cols, k - 1) + [Order(cols[k - 1], false)]
  }

  function BaseTerms(rel: Relation, p: Request): seq<Order> {
    if p.order != [] then p.order else if rel.defaultOrder != [] then rel.defaultOrder else Ascending(rel.pk, |rel.pk|)
  }

  function WithTiebreak(terms: seq<Order>, tiebreak: seq<string>, k: nat): seq<Order>
    requires k <= |tiebreak|
  {
    if k == 0 then terms
    else
      var before := WithTiebreak(terms, tiebreak, k - 1);
      if HasTerm(before, tiebreak[k - 1]) then before else before + [Order(tiebreak[k - 1], false)]
  }

  function OrderTerms(rel: Relation, p: Request): seq<Order> {
    WithTiebreak(BaseTerms(rel, p), rel.tiebreak, |rel.tiebreak|)
  }

  function TermTokens(t: Order): seq<Token> { [Ident(t.col), if t.desc then Key(DESC) else Key(ASC)] }

  function TermsTokens(terms: seq<Order>, k: nat): seq<Token>
    requires k <= |terms|
  {
    if k == 0 then [] else TermsTokens(terms, k - 1) + (if k == 1 then [] else [Comma]) + TermTokens(terms[k - 1])
  }

  function OrderTokens(terms: seq<Order>): seq<Token> {
    if terms == [] then [] else [Key(ORDER), Key(BY)] + TermsTokens(terms, |terms|)
  }

  /** Every tiebreak column is ordered by, the requested terms come first and unchanged, and
      no column is added twice. */
  lemma {:induction false} TiebreakIsOrdered(terms: seq<Order>, tiebreak: seq<string>, n: nat)
    requires n <= |tiebreak|
    ensures var all := WithTiebreak(terms, tiebreak, n);
            && terms <= all
            && (forall k :: 0 <= k < n ==> HasTerm(all, tiebreak[k]))
            && (forall i, j :: 0 <= i < j < |all| && |terms| <= j ==> all[i].col != all[j].col)
            && (forall k :: |terms| <= k < |all| ==> all[k].col in tiebreak && !all[k].desc)
  {
    if n > 0 {
      var before, all := WithTiebreak(terms, tiebreak, n - 1), WithTiebreak(terms, tiebreak, n);
      TiebreakIsOrdered(terms, tiebreak, n - 1);
      forall k | 0 <= k < n ensures HasTerm(all, tiebreak[k]) {
        if k < n - 1 {
          assert HasTerm(before, tiebreak[k]);
          var i :| 0 <= i < |before| && before[i].col == tiebreak[k];
          assert all[i].col == tiebreak[k];
        } else if !HasTerm(before, tiebreak[k]) {
          assert all[|before|].col == tiebreak[k];
        }
      }
    }
  }

  lemma {:induction false} AscendingAt(cols: seq<string>, k: nat)
    requires k <= |cols|
    ensures |Ascending(cols, k)| == k && forall i :: 0 <= i < k ==> Ascending(cols, k)[i] == Order(cols[i], false)
  {
    if k > 0 { AscendingAt(cols, k - 1); }
  }

  /** The requested term comes first, without one the relation's default order, without that its
      key ascending; what follows are missing tiebreak columns, ascending, and none is missing then. */
  lemma TermsAreAsked(rel: Relation, p: Request)
    ensures var terms := OrderTerms(rel, p);
            && (p.order != [] ==> p.order <= terms)
            && (p.order == [] && rel.defaultOrder != [] ==> rel.defaultOrder <= terms)
            && (p.order == [] && rel.defaultOrder == [] ==>
                  |rel.pk| <= |terms| && forall k :: 0 <= k < |rel.pk| ==> terms[k] == Order(rel.pk[k], false))
    ensures var terms := OrderTerms(rel, p);
            var asked := if p.order != [] then |p.order|
                         else if rel.defaultOrder != [] then |rel.defaultOrder| else |rel.pk|;
            && (forall k :: 0 <= k < |rel.tiebreak| ==> HasTerm(terms, rel.tiebreak[k]))
            && (forall k :: asked <= k < |terms| ==>
                  && !terms[k].desc && terms[k].col in rel.tiebreak
                  && forall i :: 0 <= i < k ==> terms[i].col != terms[k].col)
  {
    TiebreakIsOrdered(BaseTerms(rel, p), rel.tiebreak, |rel.tiebreak|);
    AscendingAt(rel.pk, |rel.pk|);
  }

  function PageTokens(n: nat): seq<Token> { [Key(LIMIT), Param(n + 1), Key(OFFSET), Param(n + 2)] }

  // ---------------------------------------------------------------- the builders

  lemma AppendAssoc<T>(a: seq<T>, b: seq<T>, c: seq<T>)
    ensures a + b + c == a + (b + c)
  {
  }

  lemma NilAppend<T>(a: seq<T>)
    ensures [] + a == a
  {
  }

  lemma CondsStep(conds: seq<Cond>, k: nat, n: nat, at: nat)
    requires 0 < k <= |conds| && at == n + CondsCount(conds, k - 1)
    ensures CondsPreds(conds, k, n) == CondsPreds(conds, k - 1, n) + [CondTokens(conds[k - 1], at)]
  {
  }

  lemma GroupsStep(groups: seq<seq<Cond>>, i: nat, n: nat, at: nat)
    requires i < |groups| && at == n + GroupsCount(groups, i)
    ensures GroupsPreds(groups, i + 1, n) == GroupsPreds(groups, i, n) + [GroupTokens(groups[i], at)]
  {
  }

  lemma UserParts(p: Request, args: seq<Arg>, n: nat)
    requires n == |args|
    ensures var bound := args + CondsArgs(p.conds, |p.conds|);
            && UserPreds(p, n) == CondsPreds(p.conds, |p.conds|, n) + GroupsPreds(p.groups, |p.groups|, |bound|)
            && args + UserArgs(p) == bound + GroupsArgs(p.groups, |p.groups|)
  {
    AppendAssoc(args, CondsArgs(p.conds, |p.conds|), GroupsArgs(p.groups, |p.groups|));
  }

  /** A statement under construction. */
  class Builder {
    var tokens: seq<Token>
    var args: seq<Arg>

    constructor ()
      ensures tokens == [] && args == []
    {
      tokens, args := [], [];
    }

    method Bind(word: Token, arg: Arg)
      modifies this
      ensures args == old(args) + [arg] && tokens == old(tokens) + [word, Param(|old(args)| + 1)]
    {
      tokens := tokens + [word];
      args := args + [arg];
      tokens := tokens + [Param(|args|)];
    }

    method WritePage(limit: nat, offset: nat)
      modifies this
      ensures tokens == old(tokens) + PageTokens(|old(args)|)
      ensures args == old(args) + [Number(limit), Number(offset)]
    {
      Bind(Key(LIMIT), Number(limit));
      Bind(Key(OFFSET), Number(offset));
    }

    method Predicate(c: Cond) returns (ts: seq<Token>)
      requires ValidCond(c)
      modifies this`args
      ensures ts == CondTokens(c, |old(args)|)
      ensures args == old(args) + CondArgs(c)
    {
      match c.op {
        case Is =>
          if c.notNull { return [Ident(c.col), Key(IS), Key(NOT), Key(NULL)]; }
          return [Ident(c.col), Key(IS), Key(NULL)];
        case In =>
          var places := [];
          for i := 0 to |c.values|
            invariant places == Placeholders(|old(args)|, i)
            invariant args == old(args) + ArgsOf(c.values, i)
          {
            args := args + [Text(c.values[i])];
            places := places + [[Param(|args|)]];
          }
          return [Ident(c.col), Key(IN), LParen] + Join(places, Comma) + [RParen];
        case Compare(op) =>
          args := args + [Text(c.values[0])];
          assert ArgsOf(c.values, 1) == ArgsOf(c.values, 0) + [Text(c.values[0])];
          return [Ident(c.col), Sym(op), Param(|args|)];
      }
    }

    /** The conditions of a list, one predicate each. */
    method Predicates(conds: seq<Cond>) returns (preds: seq<seq<Token>>)
      requires ValidConds(conds)
      modifies this`args
      ensures preds == CondsPreds(conds, |conds|, |old(args)|)
      ensures args == old(args) + CondsArgs(conds, |conds|)
    {
      preds := [];
      for i := 0 to |conds|
        invariant preds == CondsPreds(conds, i, |old(args)|)
        invariant args == old(args) + CondsArgs(conds, i)
      {
        AppendAssoc(old(args), CondsArgs(conds, i), CondArgs(conds[i]));
        CondsStep(conds, i + 1, |old(args)|, |args|);
        var ts := Predicate(conds[i]);
        preds := preds + [ts];
      }
    }

    /** A parenthesised disjunction. */
    method GroupPredicate(group: seq<Cond>) returns (ts: seq<Token>)
      requires ValidConds(group)
      modifies this`args
      ensures ts == GroupTokens(group, |old(args)|)
      ensures args == old(args) + CondsArgs(group, |group|)
    {
      var parts := Predicates(group);
      ts := [LParen] + Join(parts, Key(OR)) + [RParen];
    }

    /** One parenthesised disjunction per OR group. */
    method GroupPredicates(groups: seq<seq<Cond>>) returns (preds: seq<seq<Token>>)
      requires forall k :: 0 <= k < |groups| ==> ValidConds(groups[k])
      modifies this`args
      ensures preds == GroupsPreds(groups, |groups|, |old(args)|)
      ensures args == old(args) + GroupsArgs(groups, |groups|)
    {
      preds := [];
      for i := 0 to |groups|
        invariant preds == GroupsPreds(groups, i, |old(args)|)
        invariant args == old(args) + GroupsArgs(groups, i)
      {
        AppendAssoc(old(args), GroupsArgs(groups, i), CondsArgs(groups[i], |groups[i]|));
        GroupsStep(groups, i, |old(args)|, |args|);
        var ts := GroupPredicate(groups[i]);
        preds := preds + [ts];
      }
    }

    method UserPredicates(p: Request) returns (preds: seq<seq<Token>>)
      requires ValidRequest(p)
      modifies this`args
      ensures preds == UserPreds(p, |old(args)|)
      ensures args == old(args) + UserArgs(p)
    {
      UserParts(p, args, |args|);
      var conds := Predicates(p.conds);
      var groups := GroupPredicates(p.groups);
      preds := conds + groups;
    }

    /** The predicates a relation adds: the forced ones and those of the toggles that are off. */
    method FixedPredicates(rel: Relation, p: Request) returns (preds: seq<seq<Token>>)
      ensures preds == FixedPreds(rel, p)
    {
      preds := rel.forced;
      for i := 0 to |rel.toggles|
        invariant preds == rel.forced + OffPreds(rel.toggles, i, p)
      {
        if !IsOn(p, rel.toggles[i].key) { preds := preds + [rel.toggles[i].whenOff]; }
      }
    }

    method WriteWhere(rel: Relation, p: Request)
      requires ValidRequest(p)
      modifies this
      ensures tokens == old(tokens) + WhereTokens(Preds(rel, p, |old(args)|))
      ensures args == old(args) + UserArgs(p)
    {
      var user := UserPredicates(p);
      var fixed := FixedPredicates(rel, p);
      var preds := user + fixed;
      if preds == [] { return; }
      tokens := tokens + ([Key(WHERE)] + Join(preds, Key(AND)));
    }

    method WriteOrderBy(rel: Relation, p: Request)
      modifies this`tokens
      ensures tokens == old(tokens) + OrderTokens(OrderTerms(rel, p))
    {
      var terms := Terms(rel, p);
      if terms == [] { return; }
      var b := [Key(ORDER), Key(BY)];
      for i := 0 to |terms|
        invariant b == [Key(ORDER), Key(BY)] + TermsTokens(terms, i)
      {
        if i > 0 { b := b + [Comma]; }
        b := b + [Ident(terms[i].col), if terms[i].desc then Key(DESC) else Key(ASC)];
      }
      tokens := tokens + b;
    }
  }

  method Present(terms: seq<Order>, col: string) returns (present: bool)
    ensures present == HasTerm(terms, col)
  {
    for k := 0 to |terms|
      invariant forall j :: 0 <= j < k ==> terms[j].col != col
    {
      if terms[k].col == col { return true; }
    }
    return false;
  }

  method Terms(rel: Relation, p: Request) returns (terms: seq<Order>)
    ensures terms == OrderTerms(rel, p)
  {
    if p.order != [] {
      terms := p.order;
    } else if rel.defaultOrder != [] {
      terms := rel.defaultOrder;
    } else {
      terms := [];
      for i := 0 to |rel.pk|
        invariant terms == Ascending(rel.pk, i)
      {
        terms := terms + [Order(rel.pk[i], false)];
      }
    }
    ghost var base := terms;
    for i := 0 to |rel.tiebreak|
      invariant terms == WithTiebreak(base, rel.tiebreak, i)
    {
      var present := Present(terms, rel.tiebreak[i]);
      if !present { terms := terms + [Order(rel.tiebreak[i], false)]; }
    }
  }

  /** The projection and the FROM clause come before these tokens and hold no placeholder. */
  function SelectTokens(rel: Relation, p: Request): seq<Token> {
    WhereTokens(Preds(rel, p, 0)) + OrderTokens(OrderTerms(rel, p)) + PageTokens(UserCount(p))
  }

  method BuildSelect(rel: Relation, p: Request) returns (st: Statement)
    requires ValidRequest(p)
    ensures st == Statement(SelectTokens(rel, p), UserArgs(p) + [Number(p.limit), Number(p.offset)])
  {
    var b := new Builder();
    b.WriteWhere(rel, p);
    NilAppend(WhereTokens(Preds(rel, p, 0)));
    NilAppend(UserArgs(p));
    b.WriteOrderBy(rel, p);
    b.WritePage(p.limit, p.offset);
    st := Statement(b.tokens, b.args);
  }

  method BuildCount(rel: Relation, p: Request) returns (st: Statement)
    requires ValidRequest(p)
    ensures st == Statement(WhereTokens(Preds(rel, p, 0)), UserArgs(p))
  {
    var b := new Builder();
    b.WriteWhere(rel, p);
    NilAppend(WhereTokens(Preds(rel, p, 0)));
    NilAppend(UserArgs(p));
    st := Statement(b.tokens, b.args);
  }
}
