/** The compiled WHERE clause means what the request asked for: read back with SQL's
    precedence and three-valued logic it selects exactly the rows that satisfy every
    condition, every OR group, the forced predicates and the toggles that are off; and every
    placeholder stands once, in order, for its own argument. */
module SelectMeaning {
  import opened Wrappers
  import opened Sql
  import opened Catalog
  import opened Select

  // ---------------------------------------------------------------- what a request asks for

  /** A condition on a row, without SQL: NULL satisfies nothing but is.null. */
  predicate Holds(c: Cond, row: Row, meaning: Meaning) {
    var cell := Cell(row, c.col);
    match c.op
    case Is => cell.Some? == c.notNull
    case In => cell.Some? && exists k :: 0 <= k < |c.values| && meaning(Eq, c.col, cell.value, c.values[k])
    case Compare(op) => cell.Some? && c.values != [] && meaning(op, c.col, cell.value, c.values[0])
  }

  ghost predicate HoldsAll(conds: seq<Cond>, row: Row, meaning: Meaning) {
    forall k :: 0 <= k < |conds| ==> Holds(conds[k], row, meaning)
  }

  ghost predicate HoldsSome(group: seq<Cond>, row: Row, meaning: Meaning) {
    exists k :: 0 <= k < |group| && Holds(group[k], row, meaning)
  }

  ghost predicate HoldsGroups(groups: seq<seq<Cond>>, row: Row, meaning: Meaning) {
    forall k :: 0 <= k < |groups| ==> HoldsSome(groups[k], row, meaning)
  }

  /** What a predicate of the catalog says of a row; it binds no argument. */
  function RawValue(raw: seq<Token>, row: Row, meaning: Meaning): Tri {
    match ReadFactor(raw, Env(row, [], meaning))
    case Some(r) => if r.1 == [] then r.0 else Unknown
    case None => Unknown
  }

  predicate Said(raw: seq<Token>, row: Row, meaning: Meaning) { RawValue(raw, row, meaning) == True }

  /** The catalog's predicate is one factor without placeholders, whatever surrounds it. */
  ghost predicate SelfContained(raw: seq<Token>) {
    && Params(raw) == []
    && forall row, args, meaning :: ReadsAs(raw, RawValue(raw, row, meaning), Env(row, args, meaning))
  }

  ghost predicate GoodRelation(rel: Relation) {
    && (forall k :: 0 <= k < |rel.forced| ==> SelfContained(rel.forced[k]))
    && (forall k :: 0 <= k < |rel.toggles| ==> SelfContained(rel.toggles[k].whenOff))
  }

  ghost predicate SaidAll(preds: seq<seq<Token>>, row: Row, meaning: Meaning) {
    forall k :: 0 <= k < |preds| ==> Said(preds[k], row, meaning)
  }

  ghost predicate Selected(rel: Relation, p: Request, row: Row, meaning: Meaning) {
    && HoldsAll(p.conds, row, meaning)
    && HoldsGroups(p.groups, row, meaning)
    && SaidAll(rel.forced, row, meaning)
    && SaidWhenOff(rel.toggles, |rel.toggles|, p, row, meaning)
  }

  // ---------------------------------------------------------------- one condition

  /** The arguments from position n on are these. */
  ghost predicate Bound(args: seq<Arg>, n: nat, a: seq<Arg>) {
    n + |a| <= |args| && forall i :: 0 <= i < |a| ==> args[n + i] == a[i]
  }

  lemma BoundSplits(args: seq<Arg>, n: nat, a: seq<Arg>, b: seq<Arg>)
    requires Bound(args, n, a + b)
    ensures Bound(args, n, a) && Bound(args, n + |a|, b)
  {
    assert forall i :: 0 <= i < |a| ==> (a + b)[i] == a[i];
    assert forall i :: 0 <= i < |b| ==> (a + b)[|a| + i] == b[i];
  }

  lemma {:induction false} ArgsOfAt(values: seq<string>, k: nat, i: nat)
    requires i < k <= |values|
    ensures ArgsOf(values, k)[i] == Text(values[i])
  {
    if i < k - 1 { ArgsOfAt(values, k - 1, i); }
  }

  /** The condition's own values are bound from position n on. */
  ghost predicate ValuesBound(args: seq<Arg>, n: nat, c: Cond) {
    c.op.Is? || (n + |c.values| <= |args| && forall i :: 0 <= i < |c.values| ==> args[n + i] == Text(c.values[i]))
  }

  lemma BoundValues(args: seq<Arg>, n: nat, c: Cond)
    requires Bound(args, n, CondArgs(c))
    ensures ValuesBound(args, n, c)
  {
    if !c.op.Is? {
      forall i | 0 <= i < |c.values| ensures args[n + i] == Text(c.values[i]) {
        ArgsOfAt(c.values, |c.values|, i);
        assert CondArgs(c)[i] == Text(c.values[i]);
      }
    }
  }

  lemma {:induction false} PlaceholderAt(n: nat, k: nat, i: nat)
    requires i < k
    ensures |Placeholders(n, k)| == k && Placeholders(n, k)[i] == [Param(n + 1 + i)]
  {
    if i < k - 1 {
      PlaceholderAt(n, k - 1, i);
    } else if k > 1 {
      PlaceholderAt(n, k - 1, 0);
    }
  }

  /** Placeholders that stand for these values. */
  ghost predicate Stand(parts: seq<seq<Token>>, values: seq<string>, env: Env) {
    |parts| == |values| && forall i :: 0 <= i < |parts| ==>
      |parts[i]| == 1 && Operand(parts[i][0], env) == Some(values[i])
  }

  lemma {:induction false} ListReads(parts: seq<seq<Token>>, values: seq<string>, env: Env, rest: seq<Token>)
    requires parts != [] && Stand(parts, values, env)
    ensures ReadList(Join(parts, Comma) + ([RParen] + rest), env) == Some((values, rest))
  {
    var ts := Join(parts, Comma) + ([RParen] + rest);
    if |parts| == 1 {
      assert ts[2..] == rest;
      assert values == [values[0]];
    } else {
      ListReads(parts[1..], values[1..], env, rest);
      assert ts[0] == parts[0][0] && ts[1] == Comma;
      assert ts[2..] == Join(parts[1..], Comma) + ([RParen] + rest);
      assert values == [values[0]] + values[1..];
    }
  }

  function CondValue(c: Cond, env: Env): Tri
    requires ValidCond(c)
  {
    match c.op
    case Is => Truth(Cell(env.row, c.col).Some? == c.notNull)
    case In => AnyEqual(env, c.col, c.values)
    case Compare(op) => Sql.Compare(env, op, c.col, c.values[0])
  }

  lemma {:induction false} AnyEqualIsSome(env: Env, col: string, values: seq<string>)
    ensures AnyEqual(env, col, values) == True <==>
      (Cell(env.row, col).Some? && exists k ::
         0 <= k < |values| && env.meaning(Eq, col, Cell(env.row, col).value, values[k]))
  {
    if values != [] {
      AnyEqualIsSome(env, col, values[1..]);
      assert forall k :: 0 <= k < |values| - 1 ==> values[1..][k] == values[k + 1];
      var cell := Cell(env.row, col);
      if cell.Some? {
        if k :| 0 <= k < |values| && env.meaning(Eq, col, cell.value, values[k]) && k > 0 {
          assert env.meaning(Eq, col, cell.value, values[1..][k - 1]);
        }
      }
    }
  }

  lemma CondValueIsHolds(c: Cond, env: Env)
    requires ValidCond(c)
    ensures CondValue(c, env) == True <==> Holds(c, env.row, env.meaning)
  {
    AnyEqualIsSome(env, c.col, c.values);
  }

  lemma InReadsAs(c: Cond, n: nat, env: Env)
    requires ValidCond(c) && c.op.In? && ValuesBound(env.args, n, c)
    ensures ReadsAs(CondTokens(c, n), CondValue(c, env), env)
  {
    var parts := Placeholders(n, |c.values|);
    PlaceholderAt(n, |c.values|, 0);
    forall i | 0 <= i < |parts| ensures |parts[i]| == 1 && Operand(parts[i][0], env) == Some(c.values[i]) {
      PlaceholderAt(n, |c.values|, i);
    }
    forall rest ensures ReadFactor(CondTokens(c, n) + rest, env) == Some((CondValue(c, env), rest)) {
      ListReads(parts, c.values, env, rest);
      InTokens(c, n, rest);
    }
  }

  lemma InTokens(c: Cond, n: nat, rest: seq<Token>)
    requires c.op.In?
    ensures var ts := CondTokens(c, n) + rest;
            && |ts| >= 3 && ts[0] == Ident(c.col) && ts[1..][0] == Key(IN) && ts[1..][1] == LParen
            && ts[1..][2..] == Join(Placeholders(n, |c.values|), Comma) + ([RParen] + rest)
  {
  }

  lemma CondReadsAs(c: Cond, n: nat, env: Env) returns (v: Tri)
    requires ValidCond(c) && ValuesBound(env.args, n, c)
    ensures AllReadAs([CondTokens(c, n)], [v], env)
    ensures v == True <==> Holds(c, env.row, env.meaning)
  {
    TestReadsAs(c, n, env);
    CondValueIsHolds(c, env);
    v := CondValue(c, env);
  }

  lemma TestReadsAs(c: Cond, n: nat, env: Env)
    requires ValidCond(c) && ValuesBound(env.args, n, c)
    ensures ReadsAs(CondTokens(c, n), CondValue(c, env), env)
  {
    match c.op
    case In => InReadsAs(c, n, env);
    case Is =>
      forall rest ensures ReadFactor(CondTokens(c, n) + rest, env) == Some((CondValue(c, env), rest)) {
        var ts := CondTokens(c, n) + rest;
        if c.notNull { assert ts[1..][3..] == rest; } else { assert ts[1..][2..] == rest; }
      }
    case Compare(op) =>
      forall rest ensures ReadFactor(CondTokens(c, n) + rest, env) == Some((CondValue(c, env), rest)) {
        var ts := CondTokens(c, n) + rest;
        assert ts[1..][2..] == rest;
      }
  }

  /** The form of every predicate the views declare. */
  lemma NullTestIsSelfContained(col: string)
    ensures SelfContained([Ident(col), Key(IS), Key(NULL)])
    ensures forall row, meaning :: Said([Ident(col), Key(IS), Key(NULL)], row, meaning) <==> Cell(row, col).None?
  {
    var raw := [Ident(col), Key(IS), Key(NULL)];
    assert Params(raw) == [] by {
      assert raw[..2][..1] == [Ident(col)];
      assert Params(raw[..2]) == Params(raw[..2][..1]);
    }
    forall row, args, meaning, rest
      ensures ReadFactor(raw + rest, Env(row, args, meaning)) == Some((Truth(Cell(row, col).None?), rest))
    {
      assert (raw + rest)[1..][2..] == rest;
    }
    forall row, meaning ensures RawValue(raw, row, meaning) == Truth(Cell(row, col).None?) {
      assert raw + [] == raw;
      assert ReadFactor(raw + [], Env(row, [], meaning)) == Some((Truth(Cell(row, col).None?), []));
    }
  }

  /** A disjunction without parentheses is not: after it, AND would bind its last half only. */
  lemma BareDisjunctionIsNot(a: string, b: string)
    ensures !SelfContained([Ident(a), Key(IS), Key(NULL), Key(OR), Ident(b), Key(IS), Key(NULL)])
  {
    var raw := [Ident(a), Key(IS), Key(NULL), Key(OR), Ident(b), Key(IS), Key(NULL)];
    var env := Env(map[], [], (_, _, _, _) => false);
    assert raw[1..][2..] == [Key(OR), Ident(b), Key(IS), Key(NULL)] && raw + [] == raw;
    assert ReadFactor(raw + [], env) == Some((True, [Key(OR), Ident(b), Key(IS), Key(NULL)]));
    assert !ReadsAs(raw, RawValue(raw, env.row, env.meaning), env);
  }

  // ---------------------------------------------------------------- lists of predicates

  // the first k elements, one at a time

  predicate AllUpTo(conds: seq<Cond>, k: nat, row: Row, meaning: Meaning)
    requires k <= |conds|
  {
    k == 0 || (AllUpTo(conds, k - 1, row, meaning) && Holds(conds[k - 1], row, meaning))
  }

  predicate SomeUpTo(conds: seq<Cond>, k: nat, row: Row, meaning: Meaning)
    requires k <= |conds|
  {
    k > 0 && (SomeUpTo(conds, k - 1, row, meaning) || Holds(conds[k - 1], row, meaning))
  }

  predicate GroupsUpTo(groups: seq<seq<Cond>>, k: nat, row: Row, meaning: Meaning)
    requires k <= |groups|
  {
    k == 0 || (GroupsUpTo(groups, k - 1, row, meaning) && SomeUpTo(groups[k - 1], |groups[k - 1]|, row, meaning))
  }

  lemma {:induction false} UpToConds(conds: seq<Cond>, k: nat, row: Row, meaning: Meaning)
    requires k <= |conds|
    ensures AllUpTo(conds, k, row, meaning) <==> HoldsAll(conds[..k], row, meaning)
    ensures SomeUpTo(conds, k, row, meaning) <==> HoldsSome(conds[..k], row, meaning)
  {
    if k > 0 {
      UpToConds(conds, k - 1, row, meaning);
      assert conds[..k][k - 1] == conds[k - 1] && conds[..k][..k - 1] == conds[..k - 1];
      assert forall i :: 0 <= i < k - 1 ==> conds[..k][i] == conds[..k - 1][i];
    }
  }

  lemma {:induction false} UpToGroups(groups: seq<seq<Cond>>, k: nat, row: Row, meaning: Meaning)
    requires k <= |groups|
    ensures GroupsUpTo(groups, k, row, meaning) <==> forall i :: 0 <= i < k ==> HoldsSome(groups[i], row, meaning)
  {
    if k > 0 {
      UpToGroups(groups, k - 1, row, meaning);
      UpToConds(groups[k - 1], |groups[k - 1]|, row, meaning);
      assert groups[k - 1][..|groups[k - 1]|] == groups[k - 1];
    }
  }

  predicate GoodGroups(groups: seq<seq<Cond>>, k: nat)
    requires k <= |groups|
  {
    k == 0 || (GoodGroups(groups, k - 1) && groups[k - 1] != [] && ValidConds(groups[k - 1]))
  }

  lemma {:induction false} GroupsAreGood(groups: seq<seq<Cond>>, k: nat)
    requires k <= |groups| && forall i :: 0 <= i < |groups| ==> groups[i] != [] && ValidConds(groups[i])
    ensures GoodGroups(groups, k)
  {
    if k > 0 { GroupsAreGood(groups, k - 1); }
  }

  lemma CondsAppend(conds: seq<Cond>, k: nat, n: nat, at: nat, env: Env, init: seq<Tri>, v: Tri)
    requires 0 < k <= |conds| && at == n + CondsCount(conds, k - 1)
    requires AllReadAs(CondsPreds(conds, k - 1, n), init, env) && AllReadAs([CondTokens(conds[k - 1], at)], [v], env)
    ensures AllReadAs(CondsPreds(conds, k, n), init + [v], env)
  {
    CondsStep(conds, k, n, at);
    AllReadAsAppend(CondsPreds(conds, k - 1, n), init, [CondTokens(conds[k - 1], at)], [v], env);
  }

  /** Each condition finds its own arguments from its own position on. */
  ghost predicate CondsBound(args: seq<Arg>, conds: seq<Cond>, k: nat, n: nat)
    requires k <= |conds|
  {
    k == 0 || (CondsBound(args, conds, k - 1, n) && ValuesBound(args, n + CondsCount(conds, k - 1), conds[k - 1]))
  }

  ghost predicate GroupsBound(args: seq<Arg>, groups: seq<seq<Cond>>, k: nat, n: nat)
    requires k <= |groups|
  {
    k == 0 || (GroupsBound(args, groups, k - 1, n)
               && CondsBound(args, groups[k - 1], |groups[k - 1]|, n + GroupsCount(groups, k - 1)))
  }

  lemma {:induction false} BoundConds(args: seq<Arg>, conds: seq<Cond>, k: nat, n: nat)
    requires k <= |conds| && Bound(args, n, CondsArgs(conds, k))
    ensures CondsBound(args, conds, k, n)
  {
    if k > 0 {
      BoundSplits(args, n, CondsArgs(conds, k - 1), CondArgs(conds[k - 1]));
      BoundValues(args, n + CondsCount(conds, k - 1), conds[k - 1]);
      BoundConds(args, conds, k - 1, n);
    }
  }

  lemma LastGroupBound(args: seq<Arg>, groups: seq<seq<Cond>>, k: nat, n: nat)
    requires 0 < k <= |groups| && Bound(args, n, GroupsArgs(groups, k))
    ensures Bound(args, n, GroupsArgs(groups, k - 1))
    ensures CondsBound(args, groups[k - 1], |groups[k - 1]|, n + GroupsCount(groups, k - 1))
  {
    BoundSplits(args, n, GroupsArgs(groups, k - 1), CondsArgs(groups[k - 1], |groups[k - 1]|));
    BoundConds(args, groups[k - 1], |groups[k - 1]|, n + GroupsCount(groups, k - 1));
  }

  lemma {:induction false} BoundGroups(args: seq<Arg>, groups: seq<seq<Cond>>, k: nat, n: nat)
    requires k <= |groups| && Bound(args, n, GroupsArgs(groups, k))
    ensures GroupsBound(args, groups, k, n)
  {
    if k > 0 {
      LastGroupBound(args, groups, k, n);
      BoundGroups(args, groups, k - 1, n);
    }
  }

  lemma {:induction false} CondsReadAs(conds: seq<Cond>, k: nat, n: nat, env: Env) returns (vs: seq<Tri>)
    requires k <= |conds| && ValidConds(conds) && CondsBound(env.args, conds, k, n)
    ensures AllReadAs(CondsPreds(conds, k, n), vs, env)
    ensures AndAll(vs) == True <==> AllUpTo(conds, k, env.row, env.meaning)
    ensures OrAll(vs) == True <==> SomeUpTo(conds, k, env.row, env.meaning)
  {
    if k == 0 {
      vs := [];
    } else {
      var at := n + CondsCount(conds, k - 1);
      var init := CondsReadAs(conds, k - 1, n, env);
      var v := CondReadsAs(conds[k - 1], at, env);
      CondsAppend(conds, k, n, at, env, init, v);
      AndAllSnoc(init, v);
      OrAllSnoc(init, v);
      vs := init + [v];
    }
  }

  lemma OneGroupReadsAs(group: seq<Cond>, n: nat, env: Env) returns (v: Tri)
    requires group != [] && ValidConds(group) && CondsBound(env.args, group, |group|, n)
    ensures AllReadAs([GroupTokens(group, n)], [v], env)
    ensures v == True <==> SomeUpTo(group, |group|, env.row, env.meaning)
  {
    var vs := CondsReadAs(group, |group|, n, env);
    GroupReadsAs(CondsPreds(group, |group|, n), vs, env);
    v := OrAll(vs);
  }

  lemma {:induction false} GroupsReadAs(groups: seq<seq<Cond>>, k: nat, n: nat, env: Env) returns (vs: seq<Tri>)
    requires k <= |groups| && GoodGroups(groups, k) && GroupsBound(env.args, groups, k, n)
    ensures AllReadAs(GroupsPreds(groups, k, n), vs, env)
    ensures AndAll(vs) == True <==> GroupsUpTo(groups, k, env.row, env.meaning)
  {
    if k == 0 {
      vs := [];
    } else {
      var at := n + GroupsCount(groups, k - 1);
      var init := GroupsReadAs(groups, k - 1, n, env);
      var v := OneGroupReadsAs(groups[k - 1], at, env);
      GroupsAppend(groups, k, n, at, env, init, v);
      AndAllSnoc(init, v);
      vs := init + [v];
    }
  }

  lemma AndAllSnoc(vs: seq<Tri>, v: Tri)
    ensures AndAll(vs + [v]) == True <==> AndAll(vs) == True && v == True
  {
    AndAllAppend(vs, [v]);
  }

  lemma OrAllSnoc(vs: seq<Tri>, v: Tri)
    ensures OrAll(vs + [v]) == True <==> OrAll(vs) == True || v == True
  {
    OrAllIsSome(vs);
    OrAllIsSome(vs + [v]);
    assert (vs + [v])[|vs|] == v;
    assert forall i :: 0 <= i < |vs| ==> (vs + [v])[i] == vs[i];
  }

  lemma GroupsAppend(groups: seq<seq<Cond>>, k: nat, n: nat, at: nat, env: Env, init: seq<Tri>, v: Tri)
    requires 0 < k <= |groups| && at == n + GroupsCount(groups, k - 1)
    requires AllReadAs(GroupsPreds(groups, k - 1, n), init, env)
    requires AllReadAs([GroupTokens(groups[k - 1], at)], [v], env)
    ensures AllReadAs(GroupsPreds(groups, k, n), init + [v], env)
  {
    GroupsStep(groups, k - 1, n, at);
    AllReadAsAppend(GroupsPreds(groups, k - 1, n), init, [GroupTokens(groups[k - 1], at)], [v], env);
  }

  lemma {:induction false} CatalogReadAs(preds: seq<seq<Token>>, env: Env) returns (vs: seq<Tri>)
    requires forall k :: 0 <= k < |preds| ==> SelfContained(preds[k])
    ensures AllReadAs(preds, vs, env)
    ensures AndAll(vs) == True <==> SaidAll(preds, env.row, env.meaning)
  {
    if preds == [] {
      vs := [];
    } else {
      var last := |preds| - 1;
      var init := CatalogReadAs(preds[..last], env);
      var v := RawReadsAs(preds[last], env);
      AllReadAsAppend(preds[..last], init, [preds[last]], [v], env);
      AndAllAppend(init, [v]);
      assert preds == preds[..last] + [preds[last]];
      vs := init + [v];
    }
  }

  ghost predicate SaidWhenOff(toggles: seq<Toggle>, k: nat, p: Request, row: Row, meaning: Meaning)
    requires k <= |toggles|
  {
    forall i :: 0 <= i < k && !IsOn(p, toggles[i].key) ==> Said(toggles[i].whenOff, row, meaning)
  }

  /** Where a predicate of an off toggle stands in the written list. */
  lemma {:induction false} OffPredsAre(toggles: seq<Toggle>, k: nat, p: Request, i: nat) returns (j: nat)
    requires k <= |toggles| && i < |OffPreds(toggles, k, p)|
    ensures j < k && !IsOn(p, toggles[j].key) && OffPreds(toggles, k, p)[i] == toggles[j].whenOff
  {
    if i < |OffPreds(toggles, k - 1, p)| {
      j := OffPredsAre(toggles, k - 1, p, i);
    } else {
      j := k - 1;
    }
  }

  lemma {:induction false} OffPredsHave(toggles: seq<Toggle>, k: nat, p: Request, j: nat) returns (i: nat)
    requires j < k <= |toggles| && !IsOn(p, toggles[j].key)
    ensures i < |OffPreds(toggles, k, p)| && OffPreds(toggles, k, p)[i] == toggles[j].whenOff
  {
    if j < k - 1 {
      i := OffPredsHave(toggles, k - 1, p, j);
    } else {
      i := |OffPreds(toggles, k - 1, p)|;
    }
  }

  lemma OffPredsSay(toggles: seq<Toggle>, p: Request, row: Row, meaning: Meaning)
    ensures SaidAll(OffPreds(toggles, |toggles|, p), row, meaning) <==> SaidWhenOff(toggles, |toggles|, p, row, meaning)
  {
    var off := OffPreds(toggles, |toggles|, p);
    if SaidAll(off, row, meaning) {
      forall j | 0 <= j < |toggles| && !IsOn(p, toggles[j].key) ensures Said(toggles[j].whenOff, row, meaning) {
        var i := OffPredsHave(toggles, |toggles|, p, j);
      }
    }
    if SaidWhenOff(toggles, |toggles|, p, row, meaning) {
      forall i | 0 <= i < |off| ensures Said(off[i], row, meaning) {
        var j := OffPredsAre(toggles, |toggles|, p, i);
      }
    }
  }

  lemma FixedAreSelfContained(rel: Relation, p: Request)
    requires GoodRelation(rel)
    ensures forall i :: 0 <= i < |FixedPreds(rel, p)| ==> SelfContained(FixedPreds(rel, p)[i])
  {
    forall i | 0 <= i < |FixedPreds(rel, p)| ensures SelfContained(FixedPreds(rel, p)[i]) {
      if i >= |rel.forced| {
        var j := OffPredsAre(rel.toggles, |rel.toggles|, p, i - |rel.forced|);
        assert SelfContained(rel.toggles[j].whenOff);
      }
    }
  }

  lemma SaidAllAppend(a: seq<seq<Token>>, b: seq<seq<Token>>, row: Row, meaning: Meaning)
    ensures SaidAll(a + b, row, meaning) <==> SaidAll(a, row, meaning) && SaidAll(b, row, meaning)
  {
    assert forall i :: 0 <= i < |a| ==> (a + b)[i] == a[i];
    assert forall i :: 0 <= i < |b| ==> (a + b)[|a| + i] == b[i];
  }

  lemma RawReadsAs(raw: seq<Token>, env: Env) returns (v: Tri)
    requires SelfContained(raw)
    ensures AllReadAs([raw], [v], env) && AndAll([v]) == v
    ensures v == True <==> Said(raw, env.row, env.meaning)
  {
    v := RawValue(raw, env.row, env.meaning);
    assert env == Env(env.row, env.args, env.meaning);
    assert ReadsAs(raw, v, Env(env.row, env.args, env.meaning));
    assert [v][1..] == [];
  }

  lemma AndAllAppend(a: seq<Tri>, b: seq<Tri>)
    ensures AndAll(a + b) == True <==> AndAll(a) == True && AndAll(b) == True
  {
    AndAllIsAll(a);
    AndAllIsAll(b);
    AndAllIsAll(a + b);
    assert forall i :: 0 <= i < |a| ==> (a + b)[i] == a[i];
    assert forall i :: 0 <= i < |b| ==> (a + b)[|a| + i] == b[i];
  }

  lemma AllCondsRead(p: Request, env: Env) returns (vs: seq<Tri>)
    requires ValidRequest(p) && Bound(env.args, 0, CondsArgs(p.conds, |p.conds|))
    ensures AllReadAs(CondsPreds(p.conds, |p.conds|, 0), vs, env)
    ensures AndAll(vs) == True <==> HoldsAll(p.conds, env.row, env.meaning)
  {
    BoundConds(env.args, p.conds, |p.conds|, 0);
    UpToConds(p.conds, |p.conds|, env.row, env.meaning);
    assert p.conds[..|p.conds|] == p.conds;
    vs := CondsReadAs(p.conds, |p.conds|, 0, env);
  }

  lemma AllGroupsRead(p: Request, n: nat, env: Env) returns (vs: seq<Tri>)
    requires ValidRequest(p) && Bound(env.args, n, GroupsArgs(p.groups, |p.groups|))
    ensures AllReadAs(GroupsPreds(p.groups, |p.groups|, n), vs, env)
    ensures AndAll(vs) == True <==> HoldsGroups(p.groups, env.row, env.meaning)
  {
    BoundGroups(env.args, p.groups, |p.groups|, n);
    GroupsAreGood(p.groups, |p.groups|);
    UpToGroups(p.groups, |p.groups|, env.row, env.meaning);
    vs := GroupsReadAs(p.groups, |p.groups|, n, env);
  }

  lemma UserReadAs(p: Request, env: Env) returns (vs: seq<Tri>)
    requires ValidRequest(p) && Bound(env.args, 0, UserArgs(p))
    ensures AllReadAs(UserPreds(p, 0), vs, env)
    ensures AndAll(vs) == True <==>
      HoldsAll(p.conds, env.row, env.meaning) && HoldsGroups(p.groups, env.row, env.meaning)
  {
    var n := CondsCount(p.conds, |p.conds|);
    assert
      && Bound(env.args, 0, CondsArgs(p.conds, |p.conds|))
      && Bound(env.args, n, GroupsArgs(p.groups, |p.groups|)) by {
      BoundSplits(env.args, 0, CondsArgs(p.conds, |p.conds|), GroupsArgs(p.groups, |p.groups|));
    }
    var v1 := AllCondsRead(p, env);
    var v2 := AllGroupsRead(p, n, env);
    AllReadAsAppend(CondsPreds(p.conds, |p.conds|, 0), v1, GroupsPreds(p.groups, |p.groups|, n), v2, env);
    AndAllAppend(v1, v2);
    vs := v1 + v2;
  }

  lemma FixedReadAs(rel: Relation, p: Request, env: Env) returns (vs: seq<Tri>)
    requires GoodRelation(rel)
    ensures AllReadAs(FixedPreds(rel, p), vs, env)
    ensures AndAll(vs) == True <==>
      (SaidAll(rel.forced, env.row, env.meaning)
       && SaidWhenOff(rel.toggles, |rel.toggles|, p, env.row, env.meaning))
  {
    OffPredsSay(rel.toggles, p, env.row, env.meaning);
    SaidAllAppend(rel.forced, OffPreds(rel.toggles, |rel.toggles|, p), env.row, env.meaning);
    FixedAreSelfContained(rel, p);
    vs := CatalogReadAs(FixedPreds(rel, p), env);
  }

  lemma PredsReadAs(rel: Relation, p: Request, env: Env) returns (vs: seq<Tri>)
    requires ValidRequest(p) && GoodRelation(rel) && Bound(env.args, 0, UserArgs(p))
    ensures AllReadAs(Preds(rel, p, 0), vs, env)
    ensures AndAll(vs) == True <==> Selected(rel, p, env.row, env.meaning)
  {
    var v1 := UserReadAs(p, env);
    var v2 := FixedReadAs(rel, p, env);
    AllReadAsAppend(UserPreds(p, 0), v1, FixedPreds(rel, p), v2, env);
    AndAllAppend(v1, v2);
    vs := v1 + v2;
  }

  /** What the tokens from WHERE on say of a row: everything is selected without a clause,
      otherwise the expression must be read to its end and be true. */
  predicate WhereSays(ts: seq<Token>, rest: seq<Token>, env: Env) {
    if StartsWith(ts, Key(WHERE)) then
      var r := ReadExpr(ts[1..], env);
      r.Some? && r.value == (True, rest)
    else ts == rest
  }

  /** Whatever follows the clause (an ORDER BY, a LIMIT or nothing), the rows it selects are
      exactly those the request asks for. */
  lemma WhereIsTheFilter(rel: Relation, p: Request, env: Env, rest: seq<Token>)
    requires ValidRequest(p) && GoodRelation(rel) && Bound(env.args, 0, UserArgs(p))
    requires !StartsWith(rest, Key(AND)) && !StartsWith(rest, Key(OR)) && !StartsWith(rest, Key(WHERE))
    ensures WhereSays(WhereTokens(Preds(rel, p, 0)) + rest, rest, env) <==> Selected(rel, p, env.row, env.meaning)
  {
    var vs := PredsReadAs(rel, p, env);
    PredsMean(Preds(rel, p, 0), vs, env, rest);
  }

  lemma PredsMean(preds: seq<seq<Token>>, vs: seq<Tri>, env: Env, rest: seq<Token>)
    requires AllReadAs(preds, vs, env)
    requires !StartsWith(rest, Key(AND)) && !StartsWith(rest, Key(OR)) && !StartsWith(rest, Key(WHERE))
    ensures WhereSays(WhereTokens(preds) + rest, rest, env) <==> AndAll(vs) == True
  {
    if preds == [] {
      NilAppend(rest);
    } else {
      AndedReadAs(preds, vs, env, rest);
      AppendAssoc([Key(WHERE)], Join(preds, Key(AND)), rest);
    }
  }

  // ---------------------------------------------------------------- whole statements

  /** The rows of a table a statement's clause selects. */
  function Matching(table: seq<Row>, ts: seq<Token>, rest: seq<Token>, args: seq<Arg>, meaning: Meaning): seq<Row> {
    if table == [] then []
    else
      var row := table[|table| - 1];
      Matching(table[..|table| - 1], ts, rest, args, meaning)
      + if WhereSays(ts, rest, Env(row, args, meaning)) then [row] else []
  }

  function SelectArgs(p: Request): seq<Arg> { UserArgs(p) + [Number(p.limit), Number(p.offset)] }

  function AfterWhere(rel: Relation, p: Request): seq<Token> {
    OrderTokens(OrderTerms(rel, p)) + PageTokens(UserCount(p))
  }

  /** What BuildSelect and BuildCount emit selects a row exactly if the request does. */
  lemma StatementsSelect(rel: Relation, p: Request, row: Row, meaning: Meaning)
    requires ValidRequest(p) && GoodRelation(rel)
    ensures WhereSays(SelectTokens(rel, p), AfterWhere(rel, p), Env(row, SelectArgs(p), meaning)) <==>
      Selected(rel, p, row, meaning)
    ensures WhereSays(WhereTokens(Preds(rel, p, 0)), [], Env(row, UserArgs(p), meaning)) <==>
      Selected(rel, p, row, meaning)
  {
    var w := WhereTokens(Preds(rel, p, 0));
    AppendAssoc(w, OrderTokens(OrderTerms(rel, p)), PageTokens(UserCount(p)));
    WhereIsTheFilter(rel, p, Env(row, SelectArgs(p), meaning), AfterWhere(rel, p));
    WhereIsTheFilter(rel, p, Env(row, UserArgs(p), meaning), []);
    assert w + [] == w;
  }

  /** The count counts the rows the SELECT returns without its limit and offset. */
  lemma {:induction false} CountIsOfSelect(rel: Relation, p: Request, table: seq<Row>, meaning: Meaning)
    requires ValidRequest(p) && GoodRelation(rel)
    ensures Matching(table, WhereTokens(Preds(rel, p, 0)), [], UserArgs(p), meaning)
         == Matching(table, SelectTokens(rel, p), AfterWhere(rel, p), SelectArgs(p), meaning)
  {
    if table != [] {
      CountIsOfSelect(rel, p, table[..|table| - 1], meaning);
      StatementsSelect(rel, p, table[|table| - 1], meaning);
    }
  }
}
