/** What the query layer knows about a relation, and a parsed request over it. */
module Catalog {
  import opened Sql

  datatype Column = Column(name: string, denied: bool, textLike: bool, writable: bool, isArray: bool)

  datatype Order = Order(col: string, desc: bool)

  /** A toggle adds its predicate while it is off. */
  datatype Toggle = Toggle(key: string, whenOff: seq<Token>)

  datatype Relation = Relation(columns: seq<Column>, pk: seq<string>, tiebreak: seq<string>, defaultOrder: seq<Order>,
                               forced: seq<seq<Token>>, toggles: seq<Toggle>)

  datatype Op = Compare(op: Operator) | In | Is

  datatype Cond = Cond(col: string, op: Op, values: seq<string>, notNull: bool)

  datatype Request = Request(select: seq<string>, conds: seq<Cond>, groups: seq<seq<Cond>>, order: seq<Order>,
                             limit: nat, offset: nat, count: bool, toggles: map<string, bool>)

  predicate Exposed(rel: Relation, name: string) {
    exists k :: 0 <= k < |rel.columns| && rel.columns[k].name == name && !rel.columns[k].denied
  }

  predicate DistinctNames(columns: seq<Column>) {
    forall i, j :: 0 <= i < j < |columns| ==> columns[i].name != columns[j].name
  }

  /** As many values as the operator takes. */
  predicate ValidCond(c: Cond) {
    match c.op
    case Compare(_) => |c.values| == 1
    case In => c.values != []
    case Is => c.values == []
  }

  predicate ValidConds(conds: seq<Cond>) { forall k :: 0 <= k < |conds| ==> ValidCond(conds[k]) }

  predicate ValidRequest(p: Request) {
    && ValidConds(p.conds)
    && (forall k :: 0 <= k < |p.groups| ==> p.groups[k] != [] && ValidConds(p.groups[k]))
    && |p.order| <= 1
  }
}
