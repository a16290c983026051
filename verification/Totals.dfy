/** The desktop's exact sums: sumDecimals over decimal strings and totalsByCurrency. */
module Totals {
  import opened Wrappers
  import opened Decimal

  // ------------------------------------------------------------ decimal text

  predicate HasSign(v: string) { v != "" && v[0] in {'-', '+'} }

  /** The text without its sign. */
  function Unsigned(v: string): string { if HasSign(v) then v[1..] else v }

  predicate StartsNegative(v: string) { v != "" && v[0] == '-' }

  /** Digits around at most one point, after an optional sign: the text of a NUMERIC. */
  predicate IsDecimalText(v: string) {
    AllDigits(WholePart(Unsigned(v))) && AllDigits(FracPart(Unsigned(v)))
  }

  ghost function TextValue(v: string): real
    requires IsDecimalText(v)
  {
    var t := Unsigned(v);
    DigitsConcat(WholePart(t), FracPart(t));
    Scaled(Signed(StartsNegative(v), DigitsVal(WholePart(t) + FracPart(t))), |FracPart(t)|)
  }

  predicate Acceptable(v: Option<string>) { v.Some? ==> IsDecimalText(v.value) }

  /** A missing amount counts for nothing. */
  ghost function Amount(v: Option<string>): real
    requires Acceptable(v)
  {
    if v.None? || v.value == "" then 0.0 else TextValue(v.value)
  }

  ghost predicate AllAcceptable(vs: seq<Option<string>>) {
    forall k :: 0 <= k < |vs| ==> Acceptable(vs[k])
  }

  ghost function Amounts(vs: seq<Option<string>>): (xs: seq<real>)
    requires AllAcceptable(vs)
  {
    seq(|vs|, k requires 0 <= k < |vs| => Amount(vs[k]))
  }

  ghost function SumOf(vs: seq<Option<string>>): real
    requires AllAcceptable(vs)
  {
    SumReals(Amounts(vs))
  }

  // ------------------------------------------------------------ padding

  /** Zeros in front, up to the width. */
  function PadStart(s: string, width: nat): (p: string)
    requires AllDigits(s)
    ensures AllDigits(p) && |p| >= width && DigitsVal(p) == DigitsVal(s)
  {
    if |s| >= width then s else PrependZeros(s, width - |s|); Zeros(width - |s|) + s
  }

  // ------------------------------------------------------------ sumDecimals

  predicate Present(v: Option<string>) { v.Some? && v.value != "" }

  function FractionLength(v: Option<string>): nat {
    if Present(v) then |FracPart(v.value)| else 0
  }

  /** The most fractional digits any present value has. */
  function MaxScale(vs: seq<Option<string>>): nat {
    if vs == [] then 0
    else
      var m, f := MaxScale(vs[..|vs| - 1]), FractionLength(vs[|vs| - 1]);
      if f > m then f else m
  }

  lemma {:induction false} MaxScaleBounds(vs: seq<Option<string>>, k: nat)
    requires k < |vs|
    ensures FractionLength(vs[k]) <= MaxScale(vs)
  {
    if k < |vs| - 1 { MaxScaleBounds(vs[..|vs| - 1], k); }
  }

  /** The digits with the fraction filled up to the scale, as an integer with the text's sign. */
  function AtScale(v: string, scale: nat): int
    requires IsDecimalText(v) && |FracPart(v)| <= scale
  {
    PiecesInt(StartsNegative(v), WholePart(Unsigned(v)), FracPart(Unsigned(v)), scale)
  }

  lemma AtScaleIsExact(v: string, scale: nat)
    requires IsDecimalText(v) && |FracPart(v)| <= scale
    ensures Scaled(AtScale(v, scale), scale) == TextValue(v)
  {
    PiecesValue(StartsNegative(v), WholePart(Unsigned(v)), FracPart(Unsigned(v)), scale);
  }

  /** The text of total * 10^-scale: sign, at least one whole digit, exactly scale digits. */
  function Fixed(total: int, scale: nat): string {
    FixedText(total < 0, PadStart(NatText(if total < 0 then -total else total), scale + 1), scale)
  }

  function FixedText(neg: bool, digits: string, scale: nat): string
    requires scale < |digits|
  {
    (if neg then "-" else "") + Pointed(digits, scale)
  }

  function Pointed(digits: string, scale: nat): string
    requires scale < |digits|
  {
    if scale > 0 then digits[..|digits| - scale] + "." + digits[|digits| - scale..] else digits
  }

  lemma PointedParts(digits: string, scale: nat)
    requires scale < |digits| && AllDigits(digits)
    ensures var t, w := Pointed(digits, scale), |digits| - scale;
            t != "" && !HasSign(t) && WholePart(t) == digits[..w] && FracPart(t) == digits[w..]
  {
    var t, w := Pointed(digits, scale), |digits| - scale;
    assert t[0] == digits[0];
    FindIs(t, IsDot, w);
  }

  lemma FixedParts(neg: bool, digits: string, scale: nat)
    requires scale < |digits| && AllDigits(digits)
    ensures var v := FixedText(neg, digits, scale);
            v != "" && Unsigned(v) == Pointed(digits, scale) && (StartsNegative(v) <==> neg) && (HasSign(v) <==> neg)
  {
    PointedParts(digits, scale);
    var v, t := FixedText(neg, digits, scale), Pointed(digits, scale);
    if neg { assert v[1..] == t; } else { assert v == t; }
  }

  lemma FixedTextParts(neg: bool, digits: string, scale: nat)
    requires scale < |digits| && AllDigits(digits)
    ensures var v := FixedText(neg, digits, scale);
            && IsDecimalText(v) && WholePart(Unsigned(v)) + FracPart(Unsigned(v)) == digits
            && |FracPart(Unsigned(v))| == |FracPart(v)| == scale && Unsigned(v) != "" && !HasSign(Unsigned(v))
  {
    FixedParts(neg, digits, scale);
    PointedParts(digits, scale);
  }

  lemma FixedTextValue(neg: bool, digits: string, scale: nat)
    requires scale < |digits| && AllDigits(digits)
    ensures IsDecimalText(FixedText(neg, digits, scale))
    ensures TextValue(FixedText(neg, digits, scale)) == Scaled(Signed(neg, DigitsVal(digits)), scale)
  {
    FixedTextParts(neg, digits, scale);
    FixedParts(neg, digits, scale);
  }

  /** The text of a value with exactly scale fractional digits, minus its only sign. */
  ghost predicate Prints(v: string, value: real, scale: nat) {
    && v != "" && IsDecimalText(v) && TextValue(v) == value && |FracPart(v)| == scale
    && (StartsNegative(v) <==> value < 0.0) && (HasSign(v) ==> StartsNegative(v))
    && Unsigned(v) != "" && !HasSign(Unsigned(v))
  }

  lemma FixedPrints(total: int, scale: nat)
    ensures Prints(Fixed(total, scale), Scaled(total, scale), scale)
  {
    var digits := PadStart(NatText(if total < 0 then -total else total), scale + 1);
    FixedParts(total < 0, digits, scale);
    FixedTextParts(total < 0, digits, scale);
    FixedTextValue(total < 0, digits, scale);
    assert Signed(total < 0, DigitsVal(digits)) == total;
    ZeroValue(scale);
    ScaledOrder(total, 0, scale);
  }

  /** What the second loop adds for one value. */
  function Contribution(v: Option<string>, scale: nat): int
    requires Acceptable(v) && FractionLength(v) <= scale
  {
    if Present(v) then AtScale(v.value, scale) else 0
  }

  function Contributions(vs: seq<Option<string>>, scale: nat): (ns: seq<int>)
    requires AllAcceptable(vs) && MaxScale(vs) <= scale
  {
    seq(|vs|, k requires 0 <= k < |vs| => MaxScaleBounds(vs, k); Contribution(vs[k], scale))
  }

  /** The integers add up to the exact sum. */
  lemma ContributionsAreExact(vs: seq<Option<string>>, scale: nat)
    requires AllAcceptable(vs) && MaxScale(vs) <= scale
    ensures Scaled(SumInts(Contributions(vs, scale)), scale) == SumOf(vs)
  {
    var ns, xs := Contributions(vs, scale), Amounts(vs);
    forall k | 0 <= k < |ns| ensures Scaled(ns[k], scale) == xs[k] {
      MaxScaleBounds(vs, k);
      ContributionIsExact(vs[k], scale);
    }
    SumsAreExact(ns, xs, scale);
  }

  lemma ContributionIsExact(v: Option<string>, scale: nat)
    requires Acceptable(v) && FractionLength(v) <= scale
    ensures Scaled(Contribution(v, scale), scale) == Amount(v)
  {
    if Present(v) { AtScaleIsExact(v.value, scale); } else { ZeroValue(scale); }
  }

  method CommonScale(values: seq<Option<string>>) returns (scale: nat)
    ensures scale == MaxScale(values)
  {
    scale := 0;
    for i := 0 to |values|
      invariant scale == MaxScale(values[..i])
    {
      assert values[..i + 1][..i] == values[..i];
      if Present(values[i]) {
        var frac := FracPart(values[i].value);
        if frac != "" && |frac| > scale { scale := |frac|; }
      }
    }
    assert values[..|values|] == values;
  }

  /** The text of the exact sum, with as many fractional digits as the finest input. */
  function SumText(values: seq<Option<string>>): string
    requires AllAcceptable(values)
  {
    var scale := MaxScale(values);
    Fixed(SumInts(Contributions(values, scale)), scale)
  }

  lemma SumTextPrints(values: seq<Option<string>>)
    requires AllAcceptable(values)
    ensures Prints(SumText(values), SumOf(values), MaxScale(values))
  {
    var scale := MaxScale(values);
    ContributionsAreExact(values, scale);
    FixedPrints(SumInts(Contributions(values, scale)), scale);
  }

  lemma NextContribution(values: seq<Option<string>>, scale: nat, i: nat)
    requires AllAcceptable(values) && scale == MaxScale(values) && i < |values|
    ensures var ns := Contributions(values, scale);
            i < |ns| && SumInts(ns[..i + 1]) == SumInts(ns[..i]) + ns[i]
  {
    var ns := Contributions(values, scale);
    assert ns[..i + 1][..i] == ns[..i];
  }

  method AddUp(values: seq<Option<string>>, scale: nat) returns (total: int)
    requires AllAcceptable(values) && scale == MaxScale(values)
    ensures total == SumInts(Contributions(values, scale))
  {
    total := 0;
    ghost var ns := Contributions(values, scale);
    for i := 0 to |values|
      invariant |ns| == |values| && total == SumInts(ns[..i])
    {
      MaxScaleBounds(values, i);
      NextContribution(values, scale, i);
      var c := Contribution(values[i], scale);
      assert c == ns[i];
      total := total + c;
    }
    assert ns[..|values|] == ns;
  }

  method SumDecimals(values: seq<Option<string>>) returns (out: string)
    requires AllAcceptable(values)
    ensures out == SumText(values)
    ensures Prints(out, SumOf(values), MaxScale(values))
  {
    var scale := CommonScale(values);
    var total := AddUp(values, scale);
    out := Fixed(total, scale);
    SumTextPrints(values);
  }

  // ------------------------------------------------------------ totalsByCurrency

  datatype Account = Account(iso: Option<string>, unofficial: Option<string>, kind: string, balance: Option<string>)

  datatype CurrencyTotals = CurrencyTotals(currency: string, assets: string, liabilities: string, net: string,
    accounts: nat)

  const LIABILITY_TYPES: set<string> := {"credit", "loan"}

  function CurrencyOf(a: Account): string {
    if a.iso.Some? then a.iso.value else if a.unofficial.Some? then a.unofficial.value else "CAD"
  }

  predicate IsLiability(a: Account) { a.kind in LIABILITY_TYPES }

  datatype Group = Group(assets: seq<Option<string>>, liabilities: seq<Option<string>>, n: nat)

  function Joined(g: Group, a: Account): Group {
    if a.balance.None? then g.(n := g.n + 1)
    else if IsLiability(a) then g.(n := g.n + 1, liabilities := g.liabilities + [a.balance])
    else g.(n := g.n + 1, assets := g.assets + [a.balance])
  }

  /** The accounts of one currency, in order. */
  function GroupOf(accounts: seq<Account>, c: string): Group {
    if accounts == [] then Group([], [], 0)
    else
      var g, a := GroupOf(accounts[..|accounts| - 1], c), accounts[|accounts| - 1];
      if CurrencyOf(a) == c then Joined(g, a) else g
  }

  ghost predicate Readable(accounts: seq<Account>) {
    forall k :: 0 <= k < |accounts| ==> Acceptable(accounts[k].balance)
  }

  /** Its ISO code, without one its unofficial code, without either Canadian dollars. */
  predicate InCurrency(a: Account, c: string) {
    || a.iso == Some(c) || (a.iso.None? && a.unofficial == Some(c))
    || (a.iso.None? && a.unofficial.None? && c == "CAD")
  }

  predicate Owed(a: Account) { a.kind == "credit" || a.kind == "loan" }

  /** What the accounts of one currency are worth, on one side of the balance sheet. */
  ghost function Worth(accounts: seq<Account>, c: string, liabilities: bool): real
    requires Readable(accounts)
  {
    if accounts == [] then 0.0
    else
      var a := accounts[|accounts| - 1];
      Worth(accounts[..|accounts| - 1], c, liabilities)
      + if InCurrency(a, c) && Owed(a) == liabilities then Amount(a.balance) else 0.0
  }

  function CountOf(accounts: seq<Account>, c: string): nat {
    if accounts == [] then 0
    else CountOf(accounts[..|accounts| - 1], c) + if InCurrency(accounts[|accounts| - 1], c) then 1 else 0
  }

  /** A group holds what its currency is worth and how many accounts it has. */
  ghost predicate Holds(g: Group, accounts: seq<Account>, c: string)
    requires Readable(accounts)
  {
    && AllAcceptable(g.assets) && AllAcceptable(g.liabilities)
    && SumOf(g.assets) == Worth(accounts, c, false)
    && SumOf(g.liabilities) == Worth(accounts, c, true)
    && g.n == CountOf(accounts, c)
  }

  lemma {:induction false} GroupHolds(accounts: seq<Account>, c: string)
    requires Readable(accounts)
    ensures Holds(GroupOf(accounts, c), accounts, c)
  {
    if accounts != [] {
      var init, a := accounts[..|accounts| - 1], accounts[|accounts| - 1];
      GroupHolds(init, c);
      JoinedHolds(GroupOf(init, c), init, a, c);
      assert accounts == init + [a];
    }
  }

  lemma JoinedHolds(g: Group, init: seq<Account>, a: Account, c: string)
    requires Readable(init) && Acceptable(a.balance) && Holds(g, init, c)
    ensures Readable(init + [a]) && Holds(if CurrencyOf(a) == c then Joined(g, a) else g, init + [a], c)
  {
    assert (init + [a])[..|init|] == init;
    SumSnoc(g.assets, a.balance);
    SumSnoc(g.liabilities, a.balance);
  }

  lemma SumSnoc(vs: seq<Option<string>>, v: Option<string>)
    requires AllAcceptable(vs) && Acceptable(v)
    ensures AllAcceptable(vs + [v]) && SumOf(vs + [v]) == SumOf(vs) + Amount(v)
  {
    assert Amounts(vs + [v]) == Amounts(vs) + [Amount(v)];
    assert (Amounts(vs) + [Amount(v)])[..|vs|] == Amounts(vs);
  }

  /** The text with its minus sign taken away, or one put in front. */
  function Flip(v: string): string { if StartsNegative(v) then v[1..] else "-" + v }

  lemma OppositesCancel(n: int, scale: nat)
    ensures Scaled(Signed(true, n), scale) == -Scaled(Signed(false, n), scale)
  {
    ScaledSum(n, -n, scale);
    ZeroValue(scale);
  }

  lemma FlipNegates(v: string, value: real, scale: nat)
    requires Prints(v, value, scale)
    ensures IsDecimalText(Flip(v)) && Flip(v) != "" && TextValue(Flip(v)) == -value
  {
    var t, neg := Unsigned(v), StartsNegative(v);
    OppositesCancel(DigitsVal(WholePart(t) + FracPart(t)), |FracPart(t)|);
  }

  /** The row of one currency: exact sides, net worth their exact difference. */
  ghost predicate IsTotalOf(r: CurrencyTotals, accounts: seq<Account>)
    requires Readable(accounts)
  {
    var assets, liabilities := Worth(accounts, r.currency, false), Worth(accounts, r.currency, true);
    && IsDecimalText(r.assets) && TextValue(r.assets) == assets
    && IsDecimalText(r.liabilities) && TextValue(r.liabilities) == liabilities
    && IsDecimalText(r.net) && TextValue(r.net) == assets - liabilities
    && r.accounts == CountOf(accounts, r.currency)
  }

  lemma PairSum(v: string, w: string)
    requires IsDecimalText(v) && IsDecimalText(w) && v != "" && w != ""
    ensures SumOf([Some(v), Some(w)]) == TextValue(v) + TextValue(w)
  {
    SumSnoc([], Some(v));
    SumSnoc([Some(v)], Some(w));
    assert [] + [Some(v)] == [Some(v)];
    assert [Some(v)] + [Some(w)] == [Some(v), Some(w)];
  }

  function NetText(assets: string, liabilities: string): string
    requires IsDecimalText(assets) && IsDecimalText(Flip(liabilities))
  {
    SumText([Some(assets), Some(Flip(liabilities))])
  }

  lemma NetIsExact(assets: string, liabilities: string, owed: real, scale: nat)
    requires IsDecimalText(assets) && assets != "" && Prints(liabilities, owed, scale)
    ensures IsDecimalText(Flip(liabilities))
    ensures var net := NetText(assets, liabilities); IsDecimalText(net) && TextValue(net) == TextValue(assets) - owed
  {
    FlipNegates(liabilities, owed, scale);
    PairSum(assets, Flip(liabilities));
    SumTextPrints([Some(assets), Some(Flip(liabilities))]);
  }

  /** The row made of one group. */
  function TotalOf(c: string, g: Group): CurrencyTotals
    requires AllAcceptable(g.assets) && AllAcceptable(g.liabilities)
  {
    SumTextPrints(g.assets);
    SumTextPrints(g.liabilities);
    var assets, liabilities := SumText(g.assets), SumText(g.liabilities);
    NetIsExact(assets, liabilities, SumOf(g.liabilities), MaxScale(g.liabilities));
    CurrencyTotals(c, assets, liabilities, NetText(assets, liabilities), g.n)
  }

  lemma TotalFacts(c: string, g: Group)
    requires AllAcceptable(g.assets) && AllAcceptable(g.liabilities)
    ensures var t := TotalOf(c, g);
            && IsDecimalText(t.assets) && TextValue(t.assets) == SumOf(g.assets)
            && IsDecimalText(t.liabilities) && TextValue(t.liabilities) == SumOf(g.liabilities)
            && IsDecimalText(t.net) && TextValue(t.net) == SumOf(g.assets) - SumOf(g.liabilities)
  {
    SumTextPrints(g.assets);
    SumTextPrints(g.liabilities);
    NetIsExact(SumText(g.assets), SumText(g.liabilities), SumOf(g.liabilities), MaxScale(g.liabilities));
  }

  lemma TotalIsExact(accounts: seq<Account>, c: string, g: Group)
    requires Readable(accounts) && Holds(g, accounts, c)
    ensures IsTotalOf(TotalOf(c, g), accounts)
  {
    TotalFacts(c, g);
  }

  ghost predicate Descending(rows: seq<CurrencyTotals>) {
    forall i, j :: 0 <= i < j < |rows| ==> rows[i].accounts >= rows[j].accounts
  }

  /** The rows with this many accounts, in order. */
  function WithCount(rows: seq<CurrencyTotals>, n: nat): seq<CurrencyTotals> {
    if rows == [] then [] else WithCount(rows[..|rows| - 1], n) + IfCount(rows[|rows| - 1], n)
  }

  function IfCount(r: CurrencyTotals, n: nat): seq<CurrencyTotals> { if r.accounts == n then [r] else [] }

  /** Sorting moves no row past another with as many accounts. */
  ghost predicate SameTies(a: seq<CurrencyTotals>, b: seq<CurrencyTotals>) {
    forall n :: WithCount(a, n) == WithCount(b, n)
  }

  /** Insertion by descending account count, ties in the order they came. */
  function Inserted(rows: seq<CurrencyTotals>, r: CurrencyTotals): seq<CurrencyTotals> {
    if rows == [] then [r]
    else if rows[|rows| - 1].accounts >= r.accounts then rows + [r]
    else Inserted(rows[..|rows| - 1], r) + [rows[|rows| - 1]]
  }

  lemma {:induction false} InsertedKeeps(rows: seq<CurrencyTotals>, r: CurrencyTotals)
    ensures |Inserted(rows, r)| == |rows| + 1
    ensures multiset(Inserted(rows, r)) == multiset(rows) + multiset{r}
    ensures forall x :: x in Inserted(rows, r) <==> x == r || x in rows
  {
    if rows == [] {
      assert multiset([r]) == multiset{r};
    } else {
      var init, last := rows[..|rows| - 1], rows[|rows| - 1];
      assert rows == init + [last];
      InsertedKeeps(init, r);
    }
  }

  lemma OneMoreCounted(rows: seq<CurrencyTotals>, r: CurrencyTotals, n: nat)
    ensures WithCount(rows + [r], n) == WithCount(rows, n) + IfCount(r, n)
  {
    assert (rows + [r])[..|rows|] == rows;
  }

  lemma EitherOrder(rows: seq<CurrencyTotals>, q: CurrencyTotals, r: CurrencyTotals, n: nat)
    requires q.accounts != r.accounts
    ensures rows + IfCount(q, n) + IfCount(r, n) == rows + IfCount(r, n) + IfCount(q, n)
  {
  }

  lemma {:induction false} InsertedIsStable(rows: seq<CurrencyTotals>, r: CurrencyTotals, n: nat)
    ensures WithCount(Inserted(rows, r), n) == WithCount(rows, n) + IfCount(r, n)
  {
    if rows == [] || rows[|rows| - 1].accounts >= r.accounts {
      OneMoreCounted(rows, r, n);
      assert [] + [r] == [r];
    } else {
      var init, last := rows[..|rows| - 1], rows[|rows| - 1];
      InsertedIsStable(init, r, n);
      OneMoreCounted(Inserted(init, r), last, n);
      EitherOrder(WithCount(init, n), last, r, n);
    }
  }

  lemma StaysStable(sorted: seq<CurrencyTotals>, rows: seq<CurrencyTotals>, r: CurrencyTotals)
    requires SameTies(sorted, rows)
    ensures SameTies(Inserted(sorted, r), rows + [r])
  {
    forall n: nat ensures WithCount(Inserted(sorted, r), n) == WithCount(rows + [r], n) {
      InsertedIsStable(sorted, r, n);
      OneMoreCounted(rows, r, n);
    }
  }

  lemma {:induction false} InsertedSorts(rows: seq<CurrencyTotals>, r: CurrencyTotals)
    requires Descending(rows)
    ensures Descending(Inserted(rows, r))
  {
    if rows != [] && rows[|rows| - 1].accounts < r.accounts {
      var init, last := rows[..|rows| - 1], rows[|rows| - 1];
      InsertedKeeps(init, r);
      InsertedSorts(init, r);
      var s := Inserted(init, r);
      forall i | 0 <= i < |s| ensures s[i].accounts >= last.accounts {
        assert s[i] in s;
      }
    }
  }

  /** The currencies in order of first appearance. */
  function Currencies(accounts: seq<Account>): seq<string> {
    if accounts == [] then []
    else
      var before, c := Currencies(accounts[..|accounts| - 1]), CurrencyOf(accounts[|accounts| - 1]);
      if c in before then before else before + [c]
  }

  /** The state of the grouping loop after some accounts: every currency seen has its group. */
  ghost predicate Grouped(accounts: seq<Account>, keys: seq<string>, groups: map<string, Group>) {
    && keys == Currencies(accounts) && Distinct(keys)
    && (forall c :: c in keys <==> c in groups)
    && (forall c :: c in keys ==> groups[c] == GroupOf(accounts, c) && groups[c].n > 0)
    && (forall c :: c !in keys ==> GroupOf(accounts, c) == Group([], [], 0))
  }

  method GroupAccounts(accounts: seq<Account>) returns (keys: seq<string>, groups: map<string, Group>)
    ensures Grouped(accounts, keys, groups)
  {
    keys, groups := [], map[];
    for i := 0 to |accounts|
      invariant Grouped(accounts[..i], keys, groups)
    {
      assert accounts[..i + 1][..i] == accounts[..i];
      var a := accounts[i];
      var c := CurrencyOf(a);
      var g := if c in groups then groups[c] else Group([], [], 0);
      if c !in groups { keys := keys + [c]; }
      groups := groups[c := Joined(g, a)];
    }
    assert accounts[..|accounts|] == accounts;
  }

  lemma {:induction false} GroupCounts(accounts: seq<Account>, c: string)
    ensures GroupOf(accounts, c).n == CountOf(accounts, c)
  {
    if accounts != [] { GroupCounts(accounts[..|accounts| - 1], c); }
  }

  /** One exact row for each currency that occurs, in order of first appearance. */
  ghost predicate OneRowEach(rows: seq<CurrencyTotals>, accounts: seq<Account>)
    requires Readable(accounts)
  {
    && (forall i, j :: 0 <= i < j < |rows| ==> rows[i].currency != rows[j].currency)
    && |rows| == |Currencies(accounts)|
    && (forall i :: 0 <= i < |rows| ==> rows[i].currency == Currencies(accounts)[i])
    && (forall r :: r in rows ==> IsTotalOf(r, accounts) && r.accounts > 0)
    && (forall c :: CountOf(accounts, c) > 0 ==> exists k :: 0 <= k < |rows| && rows[k].currency == c)
  }

  method SortByAccounts(rows: seq<CurrencyTotals>) returns (sorted: seq<CurrencyTotals>)
    ensures Descending(sorted) && multiset(sorted) == multiset(rows) && SameTies(sorted, rows)
  {
    sorted := [];
    for i := 0 to |rows|
      invariant Descending(sorted) && multiset(sorted) == multiset(rows[..i]) && SameTies(sorted, rows[..i])
    {
      StaysStable(sorted, rows[..i], rows[i]);
      assert rows[..i + 1] == rows[..i] + [rows[i]];
      InsertedSorts(sorted, rows[i]);
      InsertedKeeps(sorted, rows[i]);
      sorted := Inserted(sorted, rows[i]);
    }
    assert rows[..|rows|] == rows;
  }

  /** One exact row per currency in use, the currency with more accounts first, and among those
      with as many the one that appeared first. */
  method TotalsByCurrency(accounts: seq<Account>) returns (out: seq<CurrencyTotals>)
    requires Readable(accounts)
    ensures Descending(out)
    ensures exists rows :: OneRowEach(rows, accounts) && multiset(out) == multiset(rows) && SameTies(out, rows)
  {
    var keys, groups := GroupAccounts(accounts);
    forall k | 0 <= k < |keys| ensures Holds(groups[keys[k]], accounts, keys[k]) {
      GroupHolds(accounts, keys[k]);
    }
    var rows := seq(|keys|, k requires 0 <= k < |keys| => TotalOf(keys[k], groups[keys[k]]));
    forall k | 0 <= k < |rows| ensures IsTotalOf(rows[k], accounts) && rows[k].accounts > 0 {
      TotalIsExact(accounts, keys[k], groups[keys[k]]);
    }
    forall c | CountOf(accounts, c) > 0 ensures exists k :: 0 <= k < |rows| && rows[k].currency == c {
      GroupCounts(accounts, c);
      assert c in keys;
      var k :| 0 <= k < |keys| && keys[k] == c;
      assert rows[k].currency == c;
    }
    assert OneRowEach(rows, accounts);
    out := SortByAccounts(rows);
  }

  // ------------------------------------------------------------ nothing lost, nothing twice

  /** Accounts and worth added up over some currencies. */
  ghost function CountIn(accounts: seq<Account>, cs: seq<string>): nat {
    if cs == [] then 0 else CountIn(accounts, cs[..|cs| - 1]) + CountOf(accounts, cs[|cs| - 1])
  }

  ghost function WorthIn(accounts: seq<Account>, cs: seq<string>): real
    requires Readable(accounts)
  {
    if cs == [] then 0.0
    else WorthIn(accounts, cs[..|cs| - 1])
         + Worth(accounts, cs[|cs| - 1], false) + Worth(accounts, cs[|cs| - 1], true)
  }

  ghost function Balances(accounts: seq<Account>): real
    requires Readable(accounts)
  {
    if accounts == [] then 0.0
    else Balances(accounts[..|accounts| - 1]) + Amount(accounts[|accounts| - 1].balance)
  }

  /** One account counts once if its currency is listed, and otherwise not at all. */
  lemma {:induction false} OneAccount(accounts: seq<Account>, cs: seq<string>)
    requires Readable(accounts) && accounts != [] && Distinct(cs)
    ensures var init, a := accounts[..|accounts| - 1], accounts[|accounts| - 1];
            && CountIn(accounts, cs) == CountIn(init, cs) + (if CurrencyOf(a) in cs then 1 else 0)
            && WorthIn(accounts, cs) == WorthIn(init, cs) + (if CurrencyOf(a) in cs then Amount(a.balance) else 0.0)
  {
    if cs != [] {
      var c, cs' := cs[|cs| - 1], cs[..|cs| - 1];
      OneAccount(accounts, cs');
      assert cs == cs' + [c];
      assert c !in cs';
    }
  }

  /** Every account, and every non-null balance, is in exactly one group. */
  lemma {:induction false} NothingLost(accounts: seq<Account>, cs: seq<string>)
    requires Readable(accounts) && Distinct(cs)
    requires forall a :: a in accounts ==> CurrencyOf(a) in cs
    ensures CountIn(accounts, cs) == |accounts| && WorthIn(accounts, cs) == Balances(accounts)
  {
    if accounts == [] {
      NoAccounts(cs);
    } else {
      OneAccount(accounts, cs);
      NothingLost(accounts[..|accounts| - 1], cs);
    }
  }

  lemma {:induction false} NoAccounts(cs: seq<string>)
    ensures CountIn([], cs) == 0 && WorthIn([], cs) == 0.0
  {
    if cs != [] { NoAccounts(cs[..|cs| - 1]); }
  }
}
