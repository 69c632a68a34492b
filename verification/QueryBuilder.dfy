/** Rendering and building as the source does it: one text buffer and one parameter list that grow
    together. Ghost arguments name the text still to come. */
module QueryBuilder {
  import opened Values
  import opened Digits
  import opened Names
  import opened Query
  import QueryProof

  datatype Direction = Asc | Desc

  datatype Select = Select(count: bool, conditions: seq<Where>, order: seq<(string, Direction)>,
                           limit: Option<nat>, offset: Option<nat>)

  /** What an entity tells the builder about its table. */
  datatype Entity = Entity(table: string, columnList: string, columns: seq<string>)

  // ---- The text after the condition ----

  function DirectionText(d: Direction): string {
    match d case Asc => " ASC" case Desc => " DESC"
  }

  function OrderText(order: seq<(string, Direction)>, k: string): string {
    if order == [] then k
    else if |order| == 1 then Quoted(order[0].0, DirectionText(order[0].1) + k)
    else Quoted(order[0].0, DirectionText(order[0].1) + ([','] + ([' '] + OrderText(order[1..], k))))
  }

  function LimitText(word: string, n: Option<nat>, k: string): string {
    if n.None? then k else WordText(word, [' '] + (Decimal(n.value) + k))
  }

  function TailText(s: Select): string {
    var limits := LimitText("LIMIT", s.limit, LimitText("OFFSET", s.offset, ""));
    if s.order == [] then limits else WordText("ORDER", WordText("BY", [' '] + OrderText(s.order, limits)))
  }

  function HeadText(e: Entity, s: Select): string {
    "SELECT " + (if s.count then "COUNT(*)" else e.columnList) + " FROM \"" + e.table + "\""
  }

  /** What follows the head: the condition, if there is one, and the tail. */
  function RestText(s: Select): string {
    var w := WhereOf(s.conditions);
    if w.None? then TailText(s) else WordText("WHERE", [' '] + TextOf(w.value, 0, TailText(s)))
  }

  function BoundParams(s: Select): seq<Value> {
    var w := WhereOf(s.conditions);
    if w.None? then [] else ParamsOf(w.value)
  }

  function ColumnsOf(e: Expr): seq<string> {
    match e
    case And(a, b) => ColumnsOf(a) + ColumnsOf(b)
    case Or(a, b) => ColumnsOf(a) + ColumnsOf(b)
    case _ => [e.col]
  }

  /** Every column the query mentions is a column of the entity. */
  predicate Known(e: Entity, s: Select) {
    (WhereOf(s.conditions).Some? ==> AllIn(ColumnsOf(WhereOf(s.conditions).value), e.columns)) &&
    forall i :: 0 <= i < |s.order| ==> s.order[i].0 in e.columns
  }

  predicate AllIn(names: seq<string>, columns: seq<string>) {
    forall i :: 0 <= i < |names| ==> names[i] in columns
  }

  lemma JoinDone(e: Expr, w: string, sql0: string, sql: string, params0: seq<Value>, params: seq<Value>,
                 kb: string, m: nat, k: string)
    requires (e.And? && w == "AND") || (e.Or? && w == "OR")
    requires m == |params0| + |ParamsOf(e.left)| && kb == TextOf(e.right, m, [')'] + k)
    requires sql + k == sql0 + (['('] + TextOf(e.left, |params0|, WordText(w, [' '] + kb)))
    requires params == params0 + ParamsOf(e.left) + ParamsOf(e.right)
    ensures sql + k == sql0 + TextOf(e, |params0|, k) && params == params0 + ParamsOf(e)
  {
    QueryProof.NodeText(e, w, |params0|, m, k);
    ParamsJoined(e);
    Regrouped(params0, ParamsOf(e.left), ParamsOf(e.right));
  }

  lemma ParamsJoined(e: Expr)
    requires e.And? || e.Or?
    ensures ParamsOf(e) == ParamsOf(e.left) + ParamsOf(e.right)
  {
  }

  lemma Regrouped(a: seq<Value>, b: seq<Value>, c: seq<Value>)
    ensures a + b + c == a + (b + c)
  {
  }

  class Buffer {
    var sql: string
    var params: seq<Value>

    constructor (start: string)
      ensures sql == start && params == []
    {
      sql, params := start, [];
    }

    method Push(s: string, ghost k: string)
      modifies this`sql
      ensures sql + k == old(sql) + (s + k)
    {
      sql := sql + s;
    }

    method PushQuoted(name: string, ghost k: string)
      modifies this`sql
      ensures sql + k == old(sql) + Quoted(name, k)
    {
      sql := sql + "\"" + name + "\"";
      assert sql + k == old(sql) + (['"'] + (name + (['"'] + k)));
    }

    method PushWord(w: string, ghost k: string)
      modifies this`sql
      ensures sql + k == old(sql) + WordText(w, k)
    {
      sql := sql + " " + w;
      assert sql + k == old(sql) + ([' '] + (w + k));
    }

    method PushPlaceholder(n: nat, ghost k: string)
      modifies this`sql
      ensures sql + k == old(sql) + Placeholder(n, k)
    {
      sql := sql + "?" + Decimal(n);
      assert sql + k == old(sql) + (['?'] + (Decimal(n) + k));
    }

    method PushList(first: nat, last: nat, ghost k: string)
      requires first <= last
      modifies this`sql
      ensures sql + k == old(sql) + ListText(first, last, k)
    {
      ghost var start := sql;
      var i := first;
      while i < last
        invariant first <= i <= last
        invariant sql + ListText(i, last, k) == start + ListText(first, last, k)
      {
        ghost var rest := ListText(i + 1, last, k);
        PushPlaceholder(i, [','] + ([' '] + rest));
        Push([','], [' '] + rest);
        Push([' '], rest);
        i := i + 1;
      }
      PushPlaceholder(last, [')'] + k);
      Push([')'], k);
    }

    method RenderCmp(e: Expr, ghost k: string)
      requires e.Cmp?
      modifies this
      ensures sql + k == old(sql) + TextOf(e, |old(params)|, k) && params == old(params) + ParamsOf(e)
    {
      params := params + [e.value];
      ghost var k1 := Placeholder(|params|, k);
      PushQuoted(e.col, WordText(OpText(e.op), [' '] + k1));
      PushWord(OpText(e.op), [' '] + k1);
      Push([' '], k1);
      PushPlaceholder(|params|, k);
    }

    method RenderLike(e: Expr, ghost k: string)
      requires e.LikeEscaped?
      modifies this
      ensures sql + k == old(sql) + TextOf(e, |old(params)|, k) && params == old(params) + ParamsOf(e)
    {
      ghost var n := |params|;
      params := params + [Text(e.pattern)];
      var patternIndex := |params|;
      params := params + [Text([e.escape])];
      var escapeIndex := |params|;
      ghost var k3 := Placeholder(n + 2, k);
      ghost var k2 := WordText("ESCAPE", [' '] + k3);
      ghost var k1 := Placeholder(n + 1, k2);
      PushQuoted(e.col, WordText("LIKE", [' '] + k1));
      PushWord("LIKE", [' '] + k1);
      Push([' '], k1);
      PushPlaceholder(patternIndex, k2);
      PushWord("ESCAPE", [' '] + k3);
      Push([' '], k3);
      PushPlaceholder(escapeIndex, k);
    }

    method RenderIn(e: Expr, ghost k: string)
      requires e.InList?
      modifies this
      ensures sql + k == old(sql) + TextOf(e, |old(params)|, k) && params == old(params) + ParamsOf(e)
    {
      if e.values == [] {
        Push("0 = 1", k);
        return;
      }
      var start := |params| + 1;
      params := params + e.values;
      ghost var k1 := ListText(start, |params|, k);
      PushQuoted(e.col, WordText("IN", [' '] + (['('] + k1)));
      PushWord("IN", [' '] + (['('] + k1));
      Push([' '], ['('] + k1);
      Push(['('], k1);
      PushList(start, |params|, k);
    }

    method RenderNull(e: Expr, ghost k: string)
      requires e.IsNull?
      modifies this
      ensures sql + k == old(sql) + TextOf(e, |old(params)|, k) && params == old(params) + ParamsOf(e)
    {
      ghost var k1 := WordText("NULL", k);
      PushQuoted(e.col, WordText("IS", if e.negated then WordText("NOT", k1) else k1));
      PushWord("IS", if e.negated then WordText("NOT", k1) else k1);
      if e.negated {
        PushWord("NOT", k1);
      }
      PushWord("NULL", k);
    }

    /** Appends the tree's text and its values; the numbers go on from the values already there. */
    method Render(e: Expr, ghost k: string)
      modifies this
      ensures sql + k == old(sql) + TextOf(e, |old(params)|, k) && params == old(params) + ParamsOf(e)
      decreases e, 2
    {
      match e {
        case Cmp(_, _, _) => RenderCmp(e, k);
        case LikeEscaped(_, _, _) => RenderLike(e, k);
        case InList(_, _) => RenderIn(e, k);
        case IsNull(_, _) => RenderNull(e, k);
        case And(_, _) => RenderJoin(e, "AND", k);
        case Or(_, _) => RenderJoin(e, "OR", k);
      }
    }

    method RenderJoin(e: Expr, w: string, ghost k: string)
      requires (e.And? && w == "AND") || (e.Or? && w == "OR")
      modifies this
      ensures sql + k == old(sql) + TextOf(e, |old(params)|, k) && params == old(params) + ParamsOf(e)
      decreases e, 1
    {
      ghost var sql0, params0 := sql, params;
      ghost var m := |params| + |ParamsOf(e.left)|;
      ghost var kb := TextOf(e.right, m, [')'] + k);
      RenderLeft(e.left, w, kb);
      RenderRight(e.right, k);
      JoinDone(e, w, sql0, sql, params0, params, kb, m, k);
    }

    /** The opening parenthesis, the left side and the joining word. */
    method RenderLeft(a: Expr, w: string, ghost kb: string)
      modifies this
      ensures sql + kb == old(sql) + (['('] + TextOf(a, |old(params)|, WordText(w, [' '] + kb)))
      ensures params == old(params) + ParamsOf(a)
      decreases a, 3
    {
      ghost var ka := WordText(w, [' '] + kb);
      Push(['('], TextOf(a, |params|, ka));
      Render(a, ka);
      PushWord(w, [' '] + kb);
      Push([' '], kb);
    }

    method RenderRight(b: Expr, ghost k: string)
      modifies this
      ensures sql + k == old(sql) + TextOf(b, |old(params)|, [')'] + k)
      ensures params == old(params) + ParamsOf(b)
      decreases b, 3
    {
      Render(b, [')'] + k);
      Push([')'], k);
    }

    method PushDirection(d: Direction, ghost k: string)
      modifies this`sql
      ensures sql + k == old(sql) + (DirectionText(d) + k)
    {
      Push(DirectionText(d), k);
    }

    method PushOrder(order: seq<(string, Direction)>, ghost k: string)
      modifies this`sql
      ensures sql + k == old(sql) + OrderText(order, k)
    {
      ghost var start := sql;
      assert order[0..] == order;
      for i := 0 to |order|
        invariant sql + OrderText(order[i..], k) == start + OrderText(order, k)
      {
        ghost var rest := OrderText(order[i + 1..], k);
        ghost var more := if i + 1 < |order| then [','] + ([' '] + rest) else rest;
        assert order[i..][0] == order[i] && order[i..][1..] == order[i + 1..];
        PushQuoted(order[i].0, DirectionText(order[i].1) + more);
        PushDirection(order[i].1, more);
        if i + 1 < |order| {
          Push([','], [' '] + rest);
          Push([' '], rest);
        }
      }
    }

    method PushLimit(word: string, n: Option<nat>, ghost k: string)
      modifies this`sql
      ensures sql + k == old(sql) + LimitText(word, n, k)
    {
      if n.Some? {
        PushWord(word, [' '] + (Decimal(n.value) + k));
        Push([' '], Decimal(n.value) + k);
        Push(Decimal(n.value), k);
      }
    }

    method PushTail(s: Select)
      modifies this`sql
      ensures sql == old(sql) + TailText(s)
    {
      ghost var offset := LimitText("OFFSET", s.offset, "");
      ghost var limits := LimitText("LIMIT", s.limit, offset);
      if s.order != [] {
        ghost var items := OrderText(s.order, limits);
        PushWord("ORDER", WordText("BY", [' '] + items));
        PushWord("BY", [' '] + items);
        Push([' '], items);
        PushOrder(s.order, limits);
      }
      PushLimit("LIMIT", s.limit, offset);
      PushLimit("OFFSET", s.offset, "");
      assert sql + "" == sql;
    }
  }

  method CheckColumns(e: Entity, s: Select) returns (known: bool)
    ensures known == Known(e, s)
  {
    var w := WhereOf(s.conditions);
    if w.Some? {
      var names := ColumnsOf(w.value);
      for i := 0 to |names|
        invariant forall j :: 0 <= j < i ==> names[j] in e.columns
      {
        if names[i] !in e.columns {
          return false;
        }
      }
    }
    for i := 0 to |s.order|
      invariant forall j :: 0 <= j < i ==> s.order[j].0 in e.columns
    {
      if s.order[i].0 !in e.columns {
        return false;
      }
    }
    known := true;
  }

  /** The SQL text and its parameters, or None if a column is not one of the entity's. */
  method Build(e: Entity, s: Select) returns (r: Option<(string, seq<Value>)>)
    ensures r.Some? <==> Known(e, s)
    ensures r.Some? ==> r.value == (HeadText(e, s) + RestText(s), BoundParams(s))
  {
    var known := CheckColumns(e, s);
    if !known {
      return None;
    }
    var out := new Buffer(HeadText(e, s));
    var w := WhereOf(s.conditions);
    if w.Some? {
      ghost var text := TextOf(w.value, 0, TailText(s));
      out.PushWord("WHERE", [' '] + text);
      out.Push([' '], text);
      out.Render(w.value, TailText(s));
      assert [] + ParamsOf(w.value) == ParamsOf(w.value);
    }
    assert out.params == BoundParams(s) && out.sql + TailText(s) == HeadText(e, s) + RestText(s);
    out.PushTail(s);
    r := Some((out.sql, out.params));
  }

  // ---- The built query keeps its condition ----

  /** The tail never runs into the condition before it. */
  lemma TailFollows(s: Select)
    ensures QueryProof.Follows(TailText(s))
  {
    var offset := LimitText("OFFSET", s.offset, "");
    var limits := LimitText("LIMIT", s.limit, offset);
    LimitFollows("OFFSET", s.offset, "");
    LimitFollows("LIMIT", s.limit, offset);
    if s.order != [] {
      QueryProof.WordReads("ORDER", WordText("BY", [' '] + OrderText(s.order, limits)));
    }
  }

  lemma LimitFollows(word: string, n: Option<nat>, k: string)
    requires QueryProof.Follows(k) && (word == "LIMIT" || word == "OFFSET")
    ensures QueryProof.Follows(LimitText(word, n, k))
  {
    if n.Some? { QueryProof.WordReads(word, [' '] + (Decimal(n.value) + k)); }
  }

  /** The columns of an entity without quotes in its names are never a problem. */
  lemma {:induction false} KnownNamesArePlain(e: Entity, x: Expr)
    requires AllIn(ColumnsOf(x), e.columns) && forall i :: 0 <= i < |e.columns| ==> PlainName(e.columns[i])
    ensures QueryProof.PlainNames(x)
    decreases x
  {
    if x.And? || x.Or? {
      var a, b := ColumnsOf(x.left), ColumnsOf(x.right);
      assert forall i :: 0 <= i < |a| ==> a[i] == (a + b)[i];
      assert forall i :: 0 <= i < |b| ==> b[i] == (a + b)[|a| + i];
      KnownNamesArePlain(e, x.left);
      KnownNamesArePlain(e, x.right);
    } else {
      assert ColumnsOf(x)[0] == x.col;
    }
  }

  /** A query whose condition reads back says, under its bound parameters, what its conditions say from left to
      right, on every row. */
  lemma BuiltQueryMeansItsConditions(g: Engine, s: Select, row: Row)
    requires WhereOf(s.conditions).Some? && QueryProof.PlainNames(WhereOf(s.conditions).value)
    ensures var text := TextOf(WhereOf(s.conditions).value, 0, TailText(s));
            RestText(s) == WordText("WHERE", [' '] + text) &&
            var r := ReadPred(text);
            r.Some? && r.value.1 == TailText(s) &&
            QueryProof.Folded(g, s.conditions, row) == Some(Sql(g, r.value.0, BoundParams(s), row))
  {
    QueryProof.WhereFolds(g, s.conditions, row);
    TailFollows(s);
    ConditionReads(g, s, WhereOf(s.conditions).value, TailText(s), row);
  }

  lemma ConditionReads(g: Engine, s: Select, w: Expr, k: string, row: Row)
    requires WhereOf(s.conditions) == Some(w) && QueryProof.PlainNames(w) && QueryProof.Follows(k)
    ensures var r := ReadPred(TextOf(w, 0, k));
            r.Some? && r.value.1 == k && Sql(g, r.value.0, BoundParams(s), row) == Meaning(g, w, row)
  {
    QueryProof.RenderKeepsMeaning(g, w, [], [], k, row);
    assert [] + ParamsOf(w) + [] == BoundParams(s);
  }
}
