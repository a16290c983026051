/** A whole query string: what Parse accepts, and that an accepted request is safe to compile. */
module Requests {
  import opened Wrappers
  import opened Decimal
  import opened Catalog
  import opened Grammar
  import opened Filters
  import opened Parser

  /** Decoded query values: the list of values of every key present. */
  type Query = map<string, seq<string>>

  const RESERVED := {"select", "order_by", "order", "limit", "offset", "count", "or"}

  predicate ValidQuery(q: Query) { forall key :: key in q ==> q[key] != [] }

  /** The filter and toggle keys in the order they are visited, each once. */
  ghost predicate Visits(q: Query, keys: seq<string>) {
    && (forall key :: key in keys <==> key in q && key !in RESERVED)
    && Distinct(keys)
  }

  function Single(q: Query, key: string): Result<Option<string>, Problem>
    requires ValidQuery(q)
  {
    if key !in q then Ok(None) else if |q[key]| > 1 then Err(Repeated) else Ok(Some(q[key][0]))
  }

  function LowerChar(c: char): char { if 'A' <= c <= 'Z' then c - 'A' + 'a' else c }

  function Lower(s: string): string { seq(|s|, i requires 0 <= i < |s| => LowerChar(s[i])) }

  const MAX_INT := 0x7FFF_FFFF_FFFF_FFFF

  /** A decimal integer with an optional sign, as far as it fits 64 bits. */
  function Atoi(s: string): Option<int> {
    var sign := if s != "" && (s[0] == '-' || s[0] == '+') then 1 else 0;
    var digits := s[sign..];
    if digits == "" || !AllDigits(digits) then None
    else
      var n: int := if s[0] == '-' then -(DigitsVal(digits) as int) else DigitsVal(digits);
      if -MAX_INT - 1 <= n <= MAX_INT then Some(n) else None
  }

  function ToggleValue(v: string): Option<bool> {
    var l := Lower(v);
    if l == "1" || l == "true" || l == "yes" || l == "on" then Some(true)
    else if l == "0" || l == "false" || l == "no" || l == "off" then Some(false)
    else None
  }

  // ---------------------------------------------------------------- projection and order

  type Lookups = string -> Result<Column, Problem>

  /** The first k names of a select list: trimmed, exposed, none twice. */
  function SelectedNames(parts: seq<string>, k: nat, look: Lookups): Result<seq<string>, Problem>
    requires k <= |parts|
  {
    if k == 0 then Ok([])
    else
      var before := SelectedNames(parts, k - 1, look);
      if before.Err? then before
      else
        var name := Trim(parts[k - 1]);
        if look(name).Err? then Err(look(name).error)
        else if name in before.value then Err(BadSelect)
        else Ok(before.value + [name])
  }

  function ParsedSelect(v: string, look: Lookups): Result<seq<string>, Problem> {
    if Trim(v) == "" then Err(BadSelect) else SelectedNames(Split(v, ','), |Split(v, ',')|, look)
  }

  lemma {:induction false} SelectErrorStays(parts: seq<string>, i: nat, k: nat, look: Lookups)
    requires i <= k <= |parts| && SelectedNames(parts, i, look).Err?
    ensures SelectedNames(parts, k, look) == SelectedNames(parts, i, look)
  {
    if i < k { SelectErrorStays(parts, i, k - 1, look); }
  }

  method ParseSelect(v: string, look: Lookups) returns (r: Result<seq<string>, Problem>)
    ensures r == ParsedSelect(v, look)
    ensures r.Ok? ==> r.value != [] && Distinct(r.value) && forall k :: 0 <= k < |r.value| ==> look(r.value[k]).Ok?
  {
    if Trim(v) == "" { return Err(BadSelect); }
    var parts := Split(v, ',');
    var out: seq<string> := [];
    for i := 0 to |parts|
      invariant |out| == i && SelectedNames(parts, i, look) == Ok(out)
      invariant Distinct(out) && forall k :: 0 <= k < |out| ==> look(out[k]).Ok?
    {
      var name := Trim(parts[i]);
      if look(name).Err? || name in out {
        SelectErrorStays(parts, i + 1, |parts|, look);
        return SelectedNames(parts, i + 1, look);
      }
      out := out + [name];
    }
    return Ok(out);
  }

  function ParsedOrder(q: Query, look: Lookups): Result<seq<Order>, Problem>
    requires ValidQuery(q)
  {
    var col, dir := Single(q, "order_by"), Single(q, "order");
    if col.Err? then Err(col.error)
    else if col.value.Some? && look(col.value.value).Err? then Err(look(col.value.value).error)
    else if dir.Err? then Err(dir.error)
    else if dir.value.None? then Ok(if col.value.None? then [] else [Order(col.value.value, false)])
    else if col.value.None? then Err(BadOrder)
    else
      var l := Lower(dir.value.value);
      if l == "asc" then Ok([Order(col.value.value, false)])
      else if l == "desc" then Ok([Order(col.value.value, true)])
      else Err(BadOrder)
  }

  function ParsedNumber(q: Query, key: string, absent: nat, lo: int, hi: int, bad: Problem): Result<nat, Problem>
    requires ValidQuery(q) && 0 <= lo
  {
    match Single(q, key)
    case Err(p) => Err(p)
    case Ok(None) => Ok(absent)
    case Ok(Some(v)) =>
      var n := Atoi(v);
      if n.None? || n.value < lo || n.value > hi then Err(bad) else Ok(n.value)
  }

  function ParsedCount(q: Query): Result<bool, Problem>
    requires ValidQuery(q)
  {
    match Single(q, "count")
    case Err(p) => Err(p)
    case Ok(None) => Ok(false)
    case Ok(Some(v)) =>
      if Lower(v) == "exact" then Ok(true) else if v == "" || Lower(v) == "none" then Ok(false) else Err(BadCount)
  }

  // ---------------------------------------------------------------- groups and filters

  /** Every element is parsed, in order, or the problem is that of the first bad one. */
  ghost predicate ParsesAll<T, U>(xs: seq<T>, parse: T -> Result<U, Problem>, r: Result<seq<U>, Problem>) {
    match r
    case Ok(ys) => |ys| == |xs| && forall i :: 0 <= i < |xs| ==> parse(xs[i]) == Ok(ys[i])
    case Err(p) => exists k :: 0 <= k < |xs| && parse(xs[k]) == Err(p) && forall i :: 0 <= i < k ==> parse(xs[i]).Ok?
  }

  type Groups = string -> Result<seq<Cond>, Problem>

  predicate GoodGroup(group: seq<Cond>, rel: Relation, o: Options) { group != [] && AllAccepted(group, rel, o) }

  method ParseGroups(raws: seq<string>, parse: Groups) returns (r: Result<seq<seq<Cond>>, Problem>)
    ensures ParsesAll(raws, parse, r)
  {
    var groups: seq<seq<Cond>> := [];
    for i := 0 to |raws|
      invariant |groups| == i && forall k :: 0 <= k < i ==> parse(raws[k]) == Ok(groups[k])
    {
      var group := parse(raws[i]);
      if group.Err? { return Err(group.error); }
      groups := groups + [group.value];
    }
    return Ok(groups);
  }

  lemma GroupIsGood(raw: string, rel: Relation, o: Options)
    ensures ParsedGroup(raw, rel, o).Ok? ==> GoodGroup(ParsedGroup(raw, rel, o).value, rel, o)
  {
    if HasPrefix(raw, "(") && HasSuffix(raw, ")") && |raw| >= 2 {
      var terms := SplitFrom(raw[1..|raw| - 1], 0);
      TermsAreAccepted(terms, |terms|, rel, o);
    }
  }

  function GroupReader(rel: Relation, o: Options): Groups { raw => ParsedGroup(raw, rel, o) }

  lemma GroupsAreGood(raws: seq<string>, rel: Relation, o: Options, groups: seq<seq<Cond>>)
    requires ParsesAll(raws, GroupReader(rel, o), Ok(groups))
    ensures forall i :: 0 <= i < |groups| ==> GoodGroup(groups[i], rel, o)
  {
    forall i | 0 <= i < |groups| ensures GoodGroup(groups[i], rel, o) {
      assert GroupReader(rel, o)(raws[i]) == Ok(groups[i]);
      GroupIsGood(raws[i], rel, o);
    }
  }

  /** One filter value of a column. */
  function ColumnCond(key: string, v: string, rel: Relation, o: Options): Result<Cond, Problem> {
    match ExposedColumn(rel, key)
    case Err(p) => Err(p)
    case Ok(column) => Parser.Named(ParseFilter(v, true), key, column, o)
  }

  lemma ColumnCondIsAccepted(key: string, v: string, rel: Relation, o: Options)
    ensures ColumnCond(key, v, rel, o).Ok? ==>
              ColumnCond(key, v, rel, o).value.col == key && Accepted(ColumnCond(key, v, rel, o).value, rel, o)
  {
    FilterIsValid(v, true);
  }

  type Columns = (string, string) -> Result<Cond, Problem>

  function ColumnReader(rel: Relation, o: Options): Columns { (key, v) => ColumnCond(key, v, rel, o) }

  /** One condition per value of a repeated key. */
  method ParseColumn(key: string, values: seq<string>, parse: Columns) returns (r: Result<seq<Cond>, Problem>)
    ensures ParsesAll(values, v => parse(key, v), r)
  {
    var conds: seq<Cond> := [];
    for i := 0 to |values|
      invariant |conds| == i && forall k :: 0 <= k < i ==> parse(key, values[k]) == Ok(conds[k])
    {
      var c := parse(key, values[i]);
      if c.Err? {
        assert (v => parse(key, v))(values[i]) == Err(c.error);
        return Err(c.error);
      }
      conds := conds + [c.value];
    }
    return Ok(conds);
  }

  // ---------------------------------------------------------------- everything else in the query

  function ToggleKeys(rel: Relation): set<string> { set t | t in rel.toggles :: t.key }

  function AllOff(toggles: set<string>): map<string, bool> { map key | key in toggles :: false }

  /** The place of a filter value: the number of its key, and its number among the key's. */
  datatype Place = Place(key: nat, value: nat)

  predicate IsPlace(q: Query, keys: seq<string>, k: nat, toggles: set<string>, at: Place) {
    at.key < k && at.key < |keys| && keys[at.key] in q && keys[at.key] !in toggles && at.value < |q[keys[at.key]]|
  }

  predicate Precedes(a: Place, b: Place) { a.key < b.key || (a.key == b.key && a.value < b.value) }

  /** The conditions are those of the filter values of the first k keys, one each, in order. */
  ghost predicate ComeFrom(q: Query, keys: seq<string>, k: nat, toggles: set<string>, parse: Columns,
                           conds: seq<Cond>, places: seq<Place>) {
    && |places| == |conds|
    && (forall j :: 0 <= j < |places| ==>
          && IsPlace(q, keys, k, toggles, places[j])
          && parse(keys[places[j].key], q[keys[places[j].key]][places[j].value]) == Ok(conds[j]))
    && (forall at :: IsPlace(q, keys, k, toggles, at) ==> at in places)
    && (forall i, j :: 0 <= i < j < |places| ==> Precedes(places[i], places[j]))
  }

  ghost predicate OnePerValue(q: Query, keys: seq<string>, toggles: set<string>, parse: Columns, conds: seq<Cond>) {
    exists places: seq<Place> :: ComeFrom(q, keys, |keys|, toggles, parse, conds, places)
  }

  lemma ToggleAddsNothing(q: Query, keys: seq<string>, k: nat, toggles: set<string>, parse: Columns, conds: seq<Cond>,
                          places: seq<Place>)
    requires k < |keys| && keys[k] in toggles && ComeFrom(q, keys, k, toggles, parse, conds, places)
    ensures ComeFrom(q, keys, k + 1, toggles, parse, conds, places)
  {
    forall at | IsPlace(q, keys, k + 1, toggles, at) ensures at in places { assert IsPlace(q, keys, k, toggles, at); }
  }

  function PlacesOf(k: nat, n: nat): seq<Place> { seq(n, i requires 0 <= i < n => Place(k, i)) }

  lemma ColumnAddsItsValues(q: Query, keys: seq<string>, k: nat, toggles: set<string>, parse: Columns,
    conds: seq<Cond>, places: seq<Place>,
                            more: seq<Cond>)
    requires k < |keys| && keys[k] in q && keys[k] !in toggles && ComeFrom(q, keys, k, toggles, parse, conds, places)
    requires |more| == |q[keys[k]]| && forall i :: 0 <= i < |more| ==> parse(keys[k], q[keys[k]][i]) == Ok(more[i])
    ensures ComeFrom(q, keys, k + 1, toggles, parse, conds + more, places + PlacesOf(k, |more|))
  {
    var here := PlacesOf(k, |more|);
    forall at | IsPlace(q, keys, k + 1, toggles, at) ensures at in places + here {
      if at.key < k { assert IsPlace(q, keys, k, toggles, at); } else { assert here[at.value] == at; }
    }
    forall j | 0 <= j < |places| ensures IsPlace(q, keys, k + 1, toggles, places[j]) {
      assert IsPlace(q, keys, k, toggles, places[j]);
    }
  }

  /** Each toggle is on exactly if it is among the keys with an on value. */
  ghost predicate AreSet(q: Query, keys: seq<string>, toggles: set<string>, on: map<string, bool>) {
    && on.Keys == toggles
    && forall key :: key in toggles ==>
         (on[key] <==> key in keys && key in q && q[key] != [] && ToggleValue(q[key][0]) == Some(true))
  }

  /** A toggle that is repeated or neither on nor off, or a column with a bad value. */
  ghost predicate IsBad(q: Query, key: string, toggles: set<string>, parse: Columns)
    requires ValidQuery(q) && key in q
  {
    if key in toggles then |q[key]| > 1 || ToggleValue(q[key][0]).None?
    else exists i :: 0 <= i < |q[key]| && parse(key, q[key][i]).Err?
  }

  /** The first problem of a bad key. */
  ghost predicate HasProblem(q: Query, key: string, toggles: set<string>, parse: Columns, p: Problem)
    requires ValidQuery(q) && key in q
  {
    if key in toggles then IsBad(q, key, toggles, parse) && p == if |q[key]| > 1 then Repeated else BadToggle
    else ParsesAll(q[key], v => parse(key, v), Err(p))
  }

  predicate Present(q: Query, keys: seq<string>) { forall n :: 0 <= n < |keys| ==> keys[n] in q }

  /** The problem is the first one of the first bad key. */
  ghost predicate FirstProblem(q: Query, keys: seq<string>, toggles: set<string>, parse: Columns, p: Problem)
    requires ValidQuery(q) && Present(q, keys)
  {
    exists n ::
      && 0 <= n < |keys| && HasProblem(q, keys[n], toggles, parse, p)
      && forall m :: 0 <= m < n ==> !IsBad(q, keys[m], toggles, parse)
  }

  /** One toggle, on or off. */
  method ParseToggle(q: Query, key: string) returns (r: Result<bool, Problem>)
    requires ValidQuery(q) && key in q
    ensures r == if |q[key]| > 1 then Err(Repeated)
                 else if ToggleValue(q[key][0]).None? then Err(BadToggle) else Ok(ToggleValue(q[key][0]).value)
  {
    var v := Single(q, key);
    if v.Err? { return Err(v.error); }
    var on := ToggleValue(v.value.value);
    return if on.None? then Err(BadToggle) else Ok(on.value);
  }

  /** All keys that are not reserved: toggles are set, columns add their conditions. */
  method ParseKeys(q: Query, keys: seq<string>, toggles: set<string>, parse: Columns)
    returns (r: Result<(seq<Cond>, map<string, bool>), Problem>)
    requires ValidQuery(q) && Present(q, keys) && Distinct(keys)
    ensures match r
            case Err(p) => FirstProblem(q, keys, toggles, parse, p)
            case Ok((conds, on)) =>
              && OnePerValue(q, keys, toggles, parse, conds) && AreSet(q, keys, toggles, on)
              && forall n :: 0 <= n < |keys| ==> !IsBad(q, keys[n], toggles, parse)
  {
    var conds: seq<Cond> := [];
    var on := AllOff(toggles);
    ghost var places: seq<Place> := [];
    for i := 0 to |keys|
      invariant ComeFrom(q, keys, i, toggles, parse, conds, places) && AreSet(q, keys[..i], toggles, on)
      invariant forall n :: 0 <= n < i ==> !IsBad(q, keys[n], toggles, parse)
    {
      var key := keys[i];
      assert keys[..i + 1] == keys[..i] + [key];
      if key in toggles {
        var one := ParseToggle(q, key);
        if one.Err? {
          assert HasProblem(q, keys[i], toggles, parse, one.error);
          return Err(one.error);
        }
        on := on[key := one.value];
        ToggleAddsNothing(q, keys, i, toggles, parse, conds, places);
      } else {
        var more := ParseColumn(key, q[key], parse);
        if more.Err? {
          assert HasProblem(q, keys[i], toggles, parse, more.error);
          return Err(more.error);
        }
        ColumnAddsItsValues(q, keys, i, toggles, parse, conds, places, more.value);
        conds, places := conds + more.value, places + PlacesOf(i, |more.value|);
      }
    }
    assert keys[..|keys|] == keys;
    return Ok((conds, on));
  }

  lemma ValuesAreAccepted(q: Query, keys: seq<string>, toggles: set<string>, rel: Relation, o: Options,
                          conds: seq<Cond>)
    requires OnePerValue(q, keys, toggles, ColumnReader(rel, o), conds)
    ensures AllAccepted(conds, rel, o)
  {
    var places: seq<Place> :| ComeFrom(q, keys, |keys|, toggles, ColumnReader(rel, o), conds, places);
    forall j | 0 <= j < |conds| ensures Accepted(conds[j], rel, o) {
      var key := keys[places[j].key];
      assert ColumnReader(rel, o)(key, q[key][places[j].value]) == Ok(conds[j]);
      ColumnCondIsAccepted(key, q[key][places[j].value], rel, o);
    }
  }

  // ---------------------------------------------------------------- the whole request

  function Looker(rel: Relation): Lookups { name => ExposedColumn(rel, name) }

  function SelectOf(q: Query, rel: Relation): Result<seq<string>, Problem>
    requires ValidQuery(q)
  {
    match Single(q, "select")
    case Err(p) => Err(p)
    case Ok(None) => Ok([])
    case Ok(Some(v)) => ParsedSelect(v, Looker(rel))
  }

  function RawGroups(q: Query): seq<string> { if "or" in q then q["or"] else [] }

  /** Every part of the request is what its parameters say, and no parameter is left out. */
  ghost predicate IsParse(q: Query, keys: seq<string>, rel: Relation, o: Options, p: Request)
    requires ValidQuery(q)
  {
    && SelectOf(q, rel) == Ok(p.select) && ParsedOrder(q, Looker(rel)) == Ok(p.order)
    && ParsedNumber(q, "limit", o.defaultLimit, 1, o.maxLimit, BadLimit) == Ok(p.limit)
    && ParsedNumber(q, "offset", 0, 0, MAX_INT, BadOffset) == Ok(p.offset)
    && ParsedCount(q) == Ok(p.count) && ParsesAll(RawGroups(q), GroupReader(rel, o), Ok(p.groups))
    && OnePerValue(q, keys, ToggleKeys(rel), ColumnReader(rel, o), p.conds)
    && AreSet(q, keys, ToggleKeys(rel), p.toggles)
  }

  /** Some part cannot be parsed. */
  ghost predicate Rejected(q: Query, rel: Relation, o: Options)
    requires ValidQuery(q)
  {
    || SelectOf(q, rel).Err? || ParsedOrder(q, Looker(rel)).Err?
    || ParsedNumber(q, "limit", o.defaultLimit, 1, o.maxLimit, BadLimit).Err?
    || ParsedNumber(q, "offset", 0, 0, MAX_INT, BadOffset).Err?
    || ParsedCount(q).Err? || (exists i :: 0 <= i < |RawGroups(q)| && GroupReader(rel, o)(RawGroups(q)[i]).Err?)
    || exists key :: key in q && key !in RESERVED && IsBad(q, key, ToggleKeys(rel), ColumnReader(rel, o))
  }

  /** What the compiler may rely on: only exposed columns are named, values and types fit the
      operators, no group is empty, and the page is within bounds. */
  ghost predicate Safe(p: Request, rel: Relation, o: Options) {
    && (forall k :: 0 <= k < |p.select| ==> ExposedColumn(rel, p.select[k]).Ok?) && Distinct(p.select)
    && AllAccepted(p.conds, rel, o) && (forall k :: 0 <= k < |p.groups| ==> GoodGroup(p.groups[k], rel, o))
    && |p.order| <= 1 && (forall k :: 0 <= k < |p.order| ==> ExposedColumn(rel, p.order[k].col).Ok?)
    && 1 <= p.limit <= o.maxLimit
  }

  lemma SafeIsValid(p: Request, rel: Relation, o: Options)
    requires Safe(p, rel, o)
    ensures ValidRequest(p)
  {
    forall k | 0 <= k < |p.groups| ensures p.groups[k] != [] && ValidConds(p.groups[k]) {
      assert GoodGroup(p.groups[k], rel, o);
    }
  }

  method ParseProjection(q: Query, rel: Relation) returns (r: Result<seq<string>, Problem>)
    requires ValidQuery(q)
    ensures r == SelectOf(q, rel)
    ensures r.Ok? ==> Distinct(r.value) && forall k :: 0 <= k < |r.value| ==> ExposedColumn(rel, r.value[k]).Ok?
  {
    var v := Single(q, "select");
    match v {
      case Err(p) => return Err(p);
      case Ok(None) => return Ok([]);
      case Ok(Some(s)) => r := ParseSelect(s, Looker(rel));
    }
  }

  lemma NothingRejected(q: Query, keys: seq<string>, rel: Relation, o: Options, p: Request)
    requires ValidQuery(q) && Visits(q, keys) && IsParse(q, keys, rel, o, p)
    requires forall n :: 0 <= n < |keys| ==> !IsBad(q, keys[n], ToggleKeys(rel), ColumnReader(rel, o))
    ensures !Rejected(q, rel, o)
  {
    forall key | key in q && key !in RESERVED ensures !IsBad(q, key, ToggleKeys(rel), ColumnReader(rel, o)) {
      assert key in keys;
    }
  }

  lemma ParsedIsSafe(q: Query, keys: seq<string>, rel: Relation, o: Options, p: Request)
    requires ValidQuery(q) && IsParse(q, keys, rel, o, p) && 1 <= o.defaultLimit <= o.maxLimit
    requires Distinct(p.select) && forall k :: 0 <= k < |p.select| ==> ExposedColumn(rel, p.select[k]).Ok?
    ensures Safe(p, rel, o)
  {
    GroupsAreGood(RawGroups(q), rel, o, p.groups);
    ValuesAreAccepted(q, keys, ToggleKeys(rel), rel, o, p.conds);
  }

  /** The keys may come in any order; only the order of the conditions depends on it. */
  method Parse(q: Query, keys: seq<string>, rel: Relation, o: Options) returns (r: Result<Request, Problem>)
    requires ValidQuery(q) && Visits(q, keys) && 1 <= o.defaultLimit <= o.maxLimit
    ensures r.Err? <==> Rejected(q, rel, o)
    ensures r.Ok? ==> IsParse(q, keys, rel, o, r.value) && Safe(r.value, rel, o)
  {
    var select := ParseProjection(q, rel);
    if select.Err? { return Err(select.error); }
    var order := ParsedOrder(q, Looker(rel));
    if order.Err? { return Err(order.error); }
    var limit := ParsedNumber(q, "limit", o.defaultLimit, 1, o.maxLimit, BadLimit);
    if limit.Err? { return Err(limit.error); }
    var offset := ParsedNumber(q, "offset", 0, 0, MAX_INT, BadOffset);
    if offset.Err? { return Err(offset.error); }
    var count := ParsedCount(q);
    if count.Err? { return Err(count.error); }
    var groups := ParseGroups(RawGroups(q), GroupReader(rel, o));
    if groups.Err? { return Err(groups.error); }
    var rest := ParseKeys(q, keys, ToggleKeys(rel), ColumnReader(rel, o));
    if rest.Err? { return Err(rest.error); }
    var p := Request(select.value, rest.value.0, groups.value, order.value, limit.value, offset.value, count.value,
      rest.value.1);
    ParsedIsSafe(q, keys, rel, o, p);
    NothingRejected(q, keys, rel, o, p);
    return Ok(p);
  }
}
