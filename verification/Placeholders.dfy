/** Placeholders of a compiled statement: $1, $2, ... each once and in order, one per
    argument. */
module Placeholders {
  import opened Wrappers
  import opened Sql
  import opened Catalog
  import opened Select

  /** Numbering goes on from n: every placeholder is one more than the one before; the result
      is the last number used. */
  function Numbered(ts: seq<Token>, n: nat): Option<nat> {
    if ts == [] then Some(n)
    else
      var before, t := Numbered(ts[..|ts| - 1], n), ts[|ts| - 1];
      if before.Some? && t.Param? then if t.n == before.value + 1 then Some(t.n) else None
      else before
  }

  /** Numbered on exactly if the placeholders are n + 1, ..., m. */
  lemma {:induction false} NumberedIsUpto(ts: seq<Token>, n: nat, m: nat)
    ensures Numbered(ts, n) == Some(m) <==> n <= m && Params(ts) == Upto(n, m)
    ensures Numbered(ts, n) == Some(m) ==> |Params(ts)| == m - n
  {
    if ts != [] {
      var init, t := ts[..|ts| - 1], ts[|ts| - 1];
      if t.Param? {
        if m > 0 { NumberedIsUpto(init, n, m - 1); }
        if Numbered(init, n).Some? { NumberedIsUpto(init, n, Numbered(init, n).value); }
        if n < m && Params(ts) == Upto(n, m) {
          assert Params(ts)[..|Params(ts)| - 1] == Params(init);
          assert Upto(n, m)[..|Upto(n, m)| - 1] == Upto(n, m - 1);
        }
      } else {
        NumberedIsUpto(init, n, m);
      }
    }
  }

  lemma {:induction false} NumberedAppend(a: seq<Token>, b: seq<Token>, n: nat)
    ensures Numbered(a + b, n) == if Numbered(a, n).Some? then Numbered(b, Numbered(a, n).value) else None
  {
    if b == [] {
      assert a + b == a;
    } else {
      assert (a + b)[..|a + b| - 1] == a + b[..|b| - 1];
      NumberedAppend(a, b[..|b| - 1], n);
    }
  }

  lemma Two(t: Token, u: Token, n: nat)
    requires !t.Param?
    ensures Numbered([t, u], n) == Numbered([u], n)
  {
    NumberedAppend([t], [u], n);
    assert [t] + [u] == [t, u];
  }

  lemma Three(t: Token, u: Token, v: Token, n: nat)
    requires !t.Param? && !u.Param?
    ensures Numbered([t, u, v], n) == Numbered([v], n)
  {
    Two(u, v, n);
    NumberedAppend([t], [u, v], n);
    assert [t] + [u, v] == [t, u, v];
  }

  /** The same through a list of predicates joined by a separator. */
  function NumberedParts(parts: seq<seq<Token>>, n: nat): Option<nat> {
    if parts == [] then Some(n)
    else
      var first := Numbered(parts[0], n);
      if first.Some? then NumberedParts(parts[1..], first.value) else None
  }

  lemma {:induction false} JoinNumbered(parts: seq<seq<Token>>, sep: Token, n: nat)
    requires !sep.Param?
    ensures Numbered(Join(parts, sep), n) == NumberedParts(parts, n)
  {
    if |parts| == 1 {
      assert parts[1..] == [];
    } else if parts != [] {
      NumberedAppend(parts[0], [sep], n);
      NumberedAppend(parts[0] + [sep], Join(parts[1..], sep), n);
      if Numbered(parts[0], n).Some? {
        JoinNumbered(parts[1..], sep, Numbered(parts[0], n).value);
      }
    }
  }

  lemma {:induction false} PartsAppend(a: seq<seq<Token>>, b: seq<seq<Token>>, n: nat)
    ensures NumberedParts(a + b, n)
         == if NumberedParts(a, n).Some? then NumberedParts(b, NumberedParts(a, n).value) else None
  {
    if a == [] {
      assert a + b == b;
    } else {
      assert (a + b)[1..] == a[1..] + b;
      if Numbered(a[0], n).Some? { PartsAppend(a[1..], b, Numbered(a[0], n).value); }
    }
  }

  lemma OneMorePart(all: seq<seq<Token>>, init: seq<seq<Token>>, part: seq<Token>, n: nat, at: nat, m: nat)
    requires all == init + [part] && NumberedParts(init, n) == Some(at) && Numbered(part, at) == Some(m)
    ensures NumberedParts(all, n) == Some(m)
  {
    PartsSnoc(init, part, n);
  }

  lemma PartsSnoc(a: seq<seq<Token>>, part: seq<Token>, n: nat)
    ensures NumberedParts(a + [part], n)
         == if NumberedParts(a, n).Some? then Numbered(part, NumberedParts(a, n).value) else None
  {
    PartsAppend(a, [part], n);
    assert [part][1..] == [];
  }

  // ---------------------------------------------------------------- what the compiler writes

  lemma {:induction false} ListNumbered(n: nat, k: nat)
    ensures NumberedParts(Select.Placeholders(n, k), n) == Some(n + k)
  {
    if k > 0 {
      ListNumbered(n, k - 1);
      PartsSnoc(Select.Placeholders(n, k - 1), [Param(n + k)], n);
    }
  }

  lemma WrapNumbered(before: seq<Token>, ts: seq<Token>, after: seq<Token>, n: nat, m: nat)
    requires Numbered(before, n) == Some(n) && Numbered(ts, n) == Some(m) && Numbered(after, m) == Some(m)
    ensures Numbered(before + ts + after, n) == Some(m)
  {
    NumberedAppend(before, ts, n);
    NumberedAppend(before + ts, after, n);
  }

  lemma CondNumbered(c: Cond, n: nat)
    requires ValidCond(c)
    ensures Numbered(CondTokens(c, n), n) == Some(n + ArgCount(c))
  {
    match c.op
    case Is =>
      Two(Key(NOT), Key(NULL), n);
      Two(Ident(c.col), Key(IS), n);
      Three(Ident(c.col), Key(IS), Key(NULL), n);
      NumberedAppend([Ident(c.col), Key(IS)], [Key(NOT), Key(NULL)], n);
      assert [Ident(c.col), Key(IS)] + [Key(NOT), Key(NULL)] == [Ident(c.col), Key(IS), Key(NOT), Key(NULL)];
    case In =>
      var list := Select.Placeholders(n, |c.values|);
      Three(Ident(c.col), Key(IN), LParen, n);
      ListNumbered(n, |c.values|);
      JoinNumbered(list, Comma, n);
      WrapNumbered([Ident(c.col), Key(IN), LParen], Join(list, Comma), [RParen], n, n + |c.values|);
    case Compare(op) =>
      Three(Ident(c.col), Sym(op), Param(n + 1), n);
  }

  lemma {:induction false} CondsNumbered(conds: seq<Cond>, k: nat, n: nat)
    requires k <= |conds| && ValidConds(conds)
    ensures NumberedParts(CondsPreds(conds, k, n), n) == Some(n + CondsCount(conds, k))
  {
    if k > 0 {
      var at := n + CondsCount(conds, k - 1);
      CondsNumbered(conds, k - 1, n);
      CondNumbered(conds[k - 1], at);
      CondsStep(conds, k, n, at);
      assert CondsCount(conds, k) == CondsCount(conds, k - 1) + ArgCount(conds[k - 1]);
      OneMorePart(CondsPreds(conds, k, n), CondsPreds(conds, k - 1, n), CondTokens(conds[k - 1], at), n, at,
        at + ArgCount(conds[k - 1]));
    }
  }

  lemma GroupNumbered(group: seq<Cond>, n: nat)
    requires ValidConds(group)
    ensures Numbered(GroupTokens(group, n), n) == Some(n + CondsCount(group, |group|))
  {
    var m := n + CondsCount(group, |group|);
    CondsNumbered(group, |group|, n);
    JoinNumbered(CondsPreds(group, |group|, n), Key(OR), n);
    WrapNumbered([LParen], Join(CondsPreds(group, |group|, n), Key(OR)), [RParen], n, m);
  }

  lemma OneMoreGroup(groups: seq<seq<Cond>>, k: nat, n: nat, at: nat)
    requires 0 < k <= |groups| && at == n + GroupsCount(groups, k - 1)
    requires NumberedParts(GroupsPreds(groups, k - 1, n), n) == Some(at)
    requires Numbered(GroupTokens(groups[k - 1], at), at) == Some(at + CondsCount(groups[k - 1], |groups[k - 1]|))
    ensures NumberedParts(GroupsPreds(groups, k, n), n) == Some(n + GroupsCount(groups, k))
  {
    GroupsStep(groups, k - 1, n, at);
    OneMorePart(GroupsPreds(groups, k, n), GroupsPreds(groups, k - 1, n), GroupTokens(groups[k - 1], at), n, at,
                at + CondsCount(groups[k - 1], |groups[k - 1]|));
  }

  lemma {:induction false} GroupsNumbered(groups: seq<seq<Cond>>, k: nat, n: nat)
    requires k <= |groups| && forall i :: 0 <= i < |groups| ==> ValidConds(groups[i])
    ensures NumberedParts(GroupsPreds(groups, k, n), n) == Some(n + GroupsCount(groups, k))
  {
    if k > 0 {
      var at := n + GroupsCount(groups, k - 1);
      GroupsNumbered(groups, k - 1, n);
      GroupNumbered(groups[k - 1], at);
      OneMoreGroup(groups, k, n, at);
    }
  }

  /** The catalog's predicates bind nothing. */
  ghost predicate BindNothing(preds: seq<seq<Token>>) { forall k :: 0 <= k < |preds| ==> Params(preds[k]) == [] }

  lemma {:induction false} NothingNumbered(preds: seq<seq<Token>>, n: nat)
    requires BindNothing(preds)
    ensures NumberedParts(preds, n) == Some(n)
  {
    if preds != [] {
      NumberedIsUpto(preds[0], n, n);
      NothingNumbered(preds[1..], n);
    }
  }

  lemma UserNumbered(p: Request)
    requires ValidRequest(p)
    ensures NumberedParts(UserPreds(p, 0), 0) == Some(UserCount(p))
  {
    var n := CondsCount(p.conds, |p.conds|);
    CondsNumbered(p.conds, |p.conds|, 0);
    GroupsNumbered(p.groups, |p.groups|, n);
    PartsAppend(CondsPreds(p.conds, |p.conds|, 0), GroupsPreds(p.groups, |p.groups|, n), 0);
  }

  lemma WhereNumbered(rel: Relation, p: Request)
    requires ValidRequest(p) && BindNothing(FixedPreds(rel, p))
    ensures Numbered(WhereTokens(Preds(rel, p, 0)), 0) == Some(UserCount(p))
  {
    var preds := Preds(rel, p, 0);
    UserNumbered(p);
    NothingNumbered(FixedPreds(rel, p), UserCount(p));
    PartsAppend(UserPreds(p, 0), FixedPreds(rel, p), 0);
    JoinNumbered(preds, Key(AND), 0);
    NumberedAppend([Key(WHERE)], Join(preds, Key(AND)), 0);
  }

  lemma {:induction false} TermsNumbered(terms: seq<Order>, k: nat, n: nat)
    requires k <= |terms|
    ensures Numbered(TermsTokens(terms, k), n) == Some(n)
  {
    if k > 0 {
      var t := terms[k - 1];
      var comma: seq<Token> := if k == 1 then [] else [Comma];
      TermsNumbered(terms, k - 1, n);
      Two(Ident(t.col), if t.desc then Key(DESC) else Key(ASC), n);
      NumberedAppend(TermsTokens(terms, k - 1), comma, n);
      NumberedAppend(TermsTokens(terms, k - 1) + comma, TermTokens(t), n);
    }
  }

  lemma OrderNumbered(terms: seq<Order>, n: nat)
    ensures Numbered(OrderTokens(terms), n) == Some(n)
  {
    TermsNumbered(terms, |terms|, n);
    Two(Key(ORDER), Key(BY), n);
    NumberedAppend([Key(ORDER), Key(BY)], TermsTokens(terms, |terms|), n);
  }

  lemma PageNumbered(n: nat)
    ensures Numbered(PageTokens(n), n) == Some(n + 2)
  {
    Two(Key(LIMIT), Param(n + 1), n);
    Two(Key(OFFSET), Param(n + 2), n + 1);
    NumberedAppend([Key(LIMIT), Param(n + 1)], [Key(OFFSET), Param(n + 2)], n);
    assert [Key(LIMIT), Param(n + 1)] + [Key(OFFSET), Param(n + 2)] == PageTokens(n);
  }

  /** A SELECT's placeholders are 1, 2, ... from left to right, one per argument, the last two
      being the limit and the offset; a count's are the same without those two. */
  lemma StatementsAreNumbered(rel: Relation, p: Request)
    requires ValidRequest(p) && BindNothing(FixedPreds(rel, p))
    ensures Params(SelectTokens(rel, p)) == Upto(0, UserCount(p) + 2)
    ensures Params(WhereTokens(Preds(rel, p, 0))) == Upto(0, UserCount(p))
  {
    SelectNumbered(rel, p);
    WhereNumbered(rel, p);
    NumberedIsUpto(SelectTokens(rel, p), 0, UserCount(p) + 2);
    NumberedIsUpto(WhereTokens(Preds(rel, p, 0)), 0, UserCount(p));
  }

  lemma SelectNumbered(rel: Relation, p: Request)
    requires ValidRequest(p) && BindNothing(FixedPreds(rel, p))
    ensures Numbered(SelectTokens(rel, p), 0) == Some(UserCount(p) + 2)
  {
    var n := UserCount(p);
    WhereNumbered(rel, p);
    OrderNumbered(OrderTerms(rel, p), n);
    PageNumbered(n);
    NumberedAppend(WhereTokens(Preds(rel, p, 0)), OrderTokens(OrderTerms(rel, p)), 0);
    NumberedAppend(WhereTokens(Preds(rel, p, 0)) + OrderTokens(OrderTerms(rel, p)), PageTokens(n), 0);
  }
}
