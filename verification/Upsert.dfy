/** The upsert builder: which columns a JSON row writes, with which bound values and which
    conflict clause, and what the statement does to a table. */
module Upsert {
  import opened Wrappers
  import opened Catalog
  import opened ArrayLiteral

  type JsonRow = map<string, Json>

  /** Encoding of a value as JSON text. */
  type Marshal = Json -> string

  datatype Conflict = Plain | Nothing | Update(sets: seq<string>)

  /** INSERT of columns and text parameters; a conflict is on the primary key. */
  datatype Insert = Insert(cols: seq<string>, args: seq<Option<string>>, key: seq<string>, conflict: Conflict)

  datatype Refusal = UnknownColumn | NothingWritable | BadValue

  /** normalizeArg: scalars as their text, arrays as literals or JSON by the column's type. */
  function Normalized(v: Json, isArray: bool, marshal: Marshal): Result<Option<string>, ()> {
    match v
    case Null => Ok(None)
    case Str(s) => Ok(Some(s))
    case Bool(b) => Ok(Some(if b then "true" else "false"))
    case Num(t) => Ok(Some(t))
    case Arr(items) =>
      if !isArray then Ok(Some(marshal(v))) else if AnyObject(items) then Err(()) else Ok(Some(Text(v)))
    case Obj => Ok(Some(marshal(v)))
  }

  /** The text of a value for a column, kind by kind: NULL has none, scalars are their own text, an
      array is a literal in an array column and JSON elsewhere. */
  predicate IsTextOf(v: Json, isArray: bool, marshal: Marshal, text: Option<string>) {
    && (v.Null? ==> text.None?)
    && (v.Str? ==> text == Some(v.s))
    && (v.Num? ==> text == Some(v.text))
    && (v == Bool(true) ==> text == Some("true")) && (v == Bool(false) ==> text == Some("false"))
    && (v.Arr? && isArray ==> text == Some(Text(v)))
    && (v.Obj? || (v.Arr? && !isArray) ==> text == Some(marshal(v)))
  }

  /** A value without a text: an array that holds an object somewhere, for an array column. */
  predicate HasNoText(v: Json, isArray: bool) { v.Arr? && isArray && AnyObject(v.items) }

  lemma TextIsRight(v: Json, isArray: bool, marshal: Marshal)
    ensures Normalized(v, isArray, marshal).Err? <==> HasNoText(v, isArray)
    ensures Normalized(v, isArray, marshal).Ok? ==>
              IsTextOf(v, isArray, marshal, Normalized(v, isArray, marshal).value)
  {
  }

  predicate Writes(c: Column, row: JsonRow) { c.name in row && c.writable }

  /** The first k columns' supplied and writable ones, in ordinal order. */
  function Written(columns: seq<Column>, k: nat, row: JsonRow): seq<Column>
    requires k <= |columns|
  {
    if k == 0 then []
    else Written(columns, k - 1, row) + if Writes(columns[k - 1], row) then [columns[k - 1]] else []
  }

  function Names(cols: seq<Column>): (r: seq<string>)
    ensures |r| == |cols| && forall i :: 0 <= i < |cols| ==> r[i] == cols[i].name
  {
    seq(|cols|, i requires 0 <= i < |cols| => cols[i].name)
  }

  predicate HasAllOf(cols: seq<string>, names: seq<string>) { forall k :: 0 <= k < |names| ==> names[k] in cols }

  /** The written columns outside the key. */
  function NonKey(cols: seq<string>, k: nat, pk: seq<string>): seq<string>
    requires k <= |cols|
  {
    if k == 0 then [] else NonKey(cols, k - 1, pk) + if cols[k - 1] in pk then [] else [cols[k - 1]]
  }

  /** The statement for a row: all and only the supplied writable columns, each with its own
      value; a conflict clause exactly if the whole key is written, which updates every other
      written column and does nothing if there is none. */
  ghost predicate IsUpsert(rel: Relation, row: JsonRow, marshal: Marshal, st: Insert) {
    var cols := Written(rel.columns, |rel.columns|, row);
    && cols != [] && st.cols == Names(cols) && st.key == rel.pk && |st.args| == |cols|
    && (forall i :: 0 <= i < |cols| ==>
        && cols[i].name in row && Normalized(row[cols[i].name], cols[i].isArray, marshal) == Ok(st.args[i])
        && IsTextOf(row[cols[i].name], cols[i].isArray, marshal, st.args[i]))
    && st.conflict == if rel.pk == [] || !HasAllOf(st.cols, rel.pk) then Plain
                      else if NonKey(st.cols, |st.cols|, rel.pk) == [] then Nothing
                      else Update(NonKey(st.cols, |st.cols|, rel.pk))
  }

  method HasAll(cols: seq<string>, names: seq<string>) returns (all: bool)
    ensures all == HasAllOf(cols, names)
  {
    for i := 0 to |names|
      invariant forall j :: 0 <= j < i ==> names[j] in cols
    {
      var found := false;
      var k := 0;
      while k < |cols| && !found
        invariant 0 <= k <= |cols| && (found ==> names[i] in cols) && (!found ==> names[i] !in cols[..k])
      {
        found := cols[k] == names[i];
        k := k + 1;
      }
      if !found { return false; }
    }
    return true;
  }

  lemma {:induction false} WrittenAre(columns: seq<Column>, k: nat, row: JsonRow)
    requires k <= |columns|
    ensures forall c :: c in Written(columns, k, row) ==> Writes(c, row) && c in columns[..k]
    ensures forall c :: c in columns[..k] && Writes(c, row) ==> c in Written(columns, k, row)
  {
    if k > 0 {
      WrittenAre(columns, k - 1, row);
      assert columns[..k] == columns[..k - 1] + [columns[k - 1]];
    }
  }

  method ConflictOf(cols: seq<string>, pk: seq<string>) returns (conflict: Conflict)
    ensures conflict == if pk == [] || !HasAllOf(cols, pk) then Plain
                        else if NonKey(cols, |cols|, pk) == [] then Nothing else Update(NonKey(cols, |cols|, pk))
  {
    var whole := HasAll(cols, pk);
    if pk == [] || !whole { return Plain; }
    var sets: seq<string> := [];
    for i := 0 to |cols|
      invariant sets == NonKey(cols, i, pk)
    {
      if cols[i] !in pk { sets := sets + [cols[i]]; }
    }
    return if sets == [] then Nothing else Update(sets);
  }

  /** A written column whose value has no text. */
  predicate IsBad(c: Column, row: JsonRow, marshal: Marshal) {
    Writes(c, row) && Normalized(row[c.name], c.isArray, marshal).Err?
  }

  lemma NoneIsBad(columns: seq<Column>, row: JsonRow, marshal: Marshal, cols: seq<Column>, args: seq<Option<string>>)
    requires cols == Written(columns, |columns|, row) && |args| == |cols|
    requires forall i :: 0 <= i < |cols| ==>
        cols[i].name in row && Normalized(row[cols[i].name], cols[i].isArray, marshal) == Ok(args[i])
    ensures forall k :: 0 <= k < |columns| ==> !IsBad(columns[k], row, marshal)
  {
    WrittenAre(columns, |columns|, row);
    forall k | 0 <= k < |columns| ensures !IsBad(columns[k], row, marshal) {
      if Writes(columns[k], row) {
        assert columns[..|columns|] == columns;
        assert columns[k] in cols;
        var j :| 0 <= j < |cols| && cols[j] == columns[k];
      }
    }
  }

  /** The columns the row writes. */
  method Supplied(columns: seq<Column>, row: JsonRow) returns (cols: seq<Column>)
    ensures cols == Written(columns, |columns|, row)
    ensures forall c :: c in cols <==> c in columns && c.name in row && c.writable
  {
    cols := [];
    for i := 0 to |columns|
      invariant cols == Written(columns, i, row)
    {
      if Writes(columns[i], row) { cols := cols + [columns[i]]; }
    }
    WrittenAre(columns, |columns|, row);
    assert columns[..|columns|] == columns;
  }

  /** The bound values, or the first column whose value has no text. */
  method Arguments(cols: seq<Column>, row: JsonRow, marshal: Marshal) returns (r: Result<seq<Option<string>>, nat>)
    requires forall c :: c in cols ==> c.name in row
    ensures r.Ok? ==> |r.value| == |cols|
    ensures r.Ok? ==> forall j :: 0 <= j < |cols| ==>
        cols[j].name in row && Normalized(row[cols[j].name], cols[j].isArray, marshal) == Ok(r.value[j])
    ensures r.Err? ==>
              && r.error < |cols| && cols[r.error].name in row
              && Normalized(row[cols[r.error].name], cols[r.error].isArray, marshal).Err?
              && forall j :: 0 <= j < r.error ==>
                   cols[j].name in row && Normalized(row[cols[j].name], cols[j].isArray, marshal).Ok?
  {
    var args: seq<Option<string>> := [];
    for i := 0 to |cols|
      invariant |args| == i
      invariant forall j :: 0 <= j < i ==>
          cols[j].name in row && Normalized(row[cols[j].name], cols[j].isArray, marshal) == Ok(args[j])
    {
      assert cols[i] in cols;
      var v := Normalized(row[cols[i].name], cols[i].isArray, marshal);
      if v.Err? { return Err(i); }
      args := args + [v.value];
    }
    return Ok(args);
  }

  /** Refused exactly for an unknown column, for nothing to write, or for a value that has no
      text. */
  method BuildUpsert(rel: Relation, row: JsonRow, marshal: Marshal) returns (r: Result<Insert, Refusal>)
    ensures r == Err(UnknownColumn) <==> exists key :: key in row && !Exposed(rel, key)
    ensures r == Err(NothingWritable) ==> forall k :: 0 <= k < |rel.columns| ==> !Writes(rel.columns[k], row)
    ensures r == Err(BadValue) ==> exists k :: 0 <= k < |rel.columns| && IsBad(rel.columns[k], row, marshal)
    ensures r.Ok? ==> exists k :: 0 <= k < |rel.columns| && Writes(rel.columns[k], row)
    ensures r.Ok? ==> forall k :: 0 <= k < |rel.columns| ==> !IsBad(rel.columns[k], row, marshal)
    ensures r == Err(BadValue) ==>
              exists k :: 0 <= k < |rel.columns| && Writes(rel.columns[k], row)
                          && HasNoText(row[rel.columns[k].name], rel.columns[k].isArray)
    ensures r.Ok? ==> IsUpsert(rel, row, marshal, r.value)
  {
    if key :| key in row && !Exposed(rel, key) { return Err(UnknownColumn); }
    var cols := Supplied(rel.columns, row);
    if cols == [] { return Err(NothingWritable); }
    var args := Arguments(cols, row, marshal);
    if args.Err? {
      assert cols[args.error] in cols;
      TextIsRight(row[cols[args.error].name], cols[args.error].isArray, marshal);
      return Err(BadValue);
    }
    forall i | 0 <= i < |cols| ensures IsTextOf(row[cols[i].name], cols[i].isArray, marshal, args.value[i]) {
      TextIsRight(row[cols[i].name], cols[i].isArray, marshal);
    }
    NoneIsBad(rel.columns, row, marshal, cols, args.value);
    assert cols[0] in cols;
    var conflict := ConflictOf(Names(cols), rel.pk);
    return Ok(Insert(Names(cols), args.value, rel.pk, conflict));
  }

  // ---------------------------------------------------------------- what the statement does

  type Cells = map<string, Option<string>>

  /** Rows by the values of their key columns. */
  type Rows = map<seq<Option<string>>, Cells>

  function Position(cols: seq<string>, name: string): (i: nat)
    ensures name in cols ==> i < |cols| && cols[i] == name
  {
    if cols == [] || cols[0] == name then 0 else 1 + Position(cols[1..], name)
  }

  /** The value bound to a written column, as EXCLUDED sees it. */
  function Bound(st: Insert, col: string): Option<string>
    requires |st.args| == |st.cols| && col in st.cols
  {
    st.args[Position(st.cols, col)]
  }

  function KeyOf(st: Insert): seq<Option<string>>
    requires |st.args| == |st.cols| && HasAllOf(st.cols, st.key)
  {
    seq(|st.key|, i requires 0 <= i < |st.key| => Bound(st, st.key[i]))
  }

  /** Columns outside the statement keep their cell. */
  function Assigned(cells: Cells, st: Insert, cols: seq<string>): Cells
    requires |st.args| == |st.cols| && forall c :: c in cols ==> c in st.cols
  {
    map c | c in cells.Keys + (set x | x in cols) :: if c in cols then Bound(st, c) else cells[c]
  }

  ghost predicate Executable(st: Insert) {
    && |st.args| == |st.cols| && HasAllOf(st.cols, st.key) && !st.conflict.Plain?
    && (st.conflict.Update? ==> forall c :: c in st.conflict.sets <==> c in st.cols && c !in st.key)
    && (st.conflict.Nothing? ==> forall c :: c in st.cols ==> c in st.key)
  }

  /** The row an upsert leaves where it found this one, or none. */
  function RowAfter(was: Option<Cells>, st: Insert, defaults: Cells): Cells
    requires |st.args| == |st.cols|
    requires st.conflict.Update? ==> forall c :: c in st.conflict.sets ==> c in st.cols
  {
    match was
    case None => Assigned(defaults, st, st.cols)
    case Some(row) => if st.conflict.Update? then Assigned(row, st, st.conflict.sets) else row
  }

  function Found(t: Rows, key: seq<Option<string>>): Option<Cells> { if key in t then Some(t[key]) else None }

  function Executed(t: Rows, st: Insert, defaults: Cells): Rows
    requires |st.args| == |st.cols| && HasAllOf(st.cols, st.key)
    requires st.conflict.Update? ==> forall c :: c in st.conflict.sets ==> c in st.cols
  {
    t[KeyOf(st) := RowAfter(Found(t, KeyOf(st)), st, defaults)]
  }

  /** The row's key columns hold these values. */
  ghost predicate HasKey(row: Cells, key: seq<string>, values: seq<Option<string>>) {
    |values| == |key| && forall i :: 0 <= i < |key| ==> key[i] in row && row[key[i]] == values[i]
  }

  /** Rows sit under the values of their own key columns. */
  ghost predicate Keyed(t: Rows, key: seq<string>) {
    forall k :: k in t ==> HasKey(t[k], key, k)
  }

  lemma {:induction false} NonKeyIs(cols: seq<string>, k: nat, pk: seq<string>)
    requires k <= |cols|
    ensures forall c :: c in NonKey(cols, k, pk) <==> c in cols[..k] && c !in pk
  {
    if k > 0 {
      NonKeyIs(cols, k - 1, pk);
      assert cols[..k] == cols[..k - 1] + [cols[k - 1]];
    }
  }

  lemma BuiltIsExecutable(rel: Relation, row: JsonRow, marshal: Marshal, st: Insert)
    requires IsUpsert(rel, row, marshal, st) && !st.conflict.Plain?
    ensures Executable(st)
  {
    NonKeyIs(st.cols, |st.cols|, rel.pk);
    assert st.cols[..|st.cols|] == st.cols;
    if st.conflict.Nothing? {
      forall c | c in st.cols ensures c in st.key {
        assert c !in NonKey(st.cols, |st.cols|, rel.pk);
      }
    }
  }

  /** What an upsert does to one cell: a written column holds its value, any other holds what
      the row had, or its default in a new row. */
  ghost predicate CellIs(row: Cells, base: Cells, st: Insert, c: string)
    requires |st.args| == |st.cols|
  {
    if c in st.cols then c in row && row[c] == Bound(st, c)
    else (c in row <==> c in base) && (c in base ==> row[c] == base[c])
  }

  ghost predicate CellsAre(row: Cells, base: Cells, st: Insert)
    requires |st.args| == |st.cols|
  {
    forall c :: CellIs(row, base, st, c)
  }

  /** What the statement starts from. */
  function Base(was: Option<Cells>, defaults: Cells): Cells { if was.Some? then was.value else defaults }

  lemma RowTwice(was: Option<Cells>, st: Insert, defaults: Cells)
    requires Executable(st) && (was.Some? ==> HasKey(was.value, st.key, KeyOf(st)))
    ensures RowAfter(Some(RowAfter(was, st, defaults)), st, defaults) == RowAfter(was, st, defaults)
  {
    var once := RowAfter(was, st, defaults);
    var twice := RowAfter(Some(once), st, defaults);
  }

  /** An upsert leaves every written column with the value it was given, every other column of
      an existing row as it was and of a new row at its default, and every other row alone. */
  lemma UpsertStores(t: Rows, st: Insert, defaults: Cells)
    requires Executable(st) && Keyed(t, st.key)
    ensures var key, t' := KeyOf(st), Executed(t, st, defaults);
            && t'.Keys == t.Keys + {key} && Keyed(t', st.key)
            && CellsAre(t'[key], Base(Found(t, key), defaults), st)
            && (forall k :: k in t && k != key ==> t'[k] == t[k])
  {
    var was := Found(t, KeyOf(st));
    forall c ensures CellIs(RowAfter(was, st, defaults), Base(was, defaults), st, c) {
    }
  }

  /** Doing it again changes nothing. */
  lemma UpsertTwice(t: Rows, st: Insert, defaults: Cells)
    requires Executable(st) && Keyed(t, st.key)
    ensures Executed(Executed(t, st, defaults), st, defaults) == Executed(t, st, defaults)
  {
    RowTwice(Found(t, KeyOf(st)), st, defaults);
  }
}
