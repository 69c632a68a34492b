/** The whole text of a built query: a reader of SELECT statements, what a statement answers, and that
    the text is read back as the statement that answers what the builder was asked for. */
module QuerySelect {
  import opened Values
  import opened Digits
  import opened Names
  import opened Query
  import opened QueryProof
  import opened QueryBuilder

  /** A SELECT as SQLite parses it. Each ordering term is a column and whether it is descending. */
  datatype Statement = Statement(count: bool, columns: seq<string>, table: string, cond: Option<Pred>,
                                 order: seq<(string, bool)>, limit: Option<nat>, offset: Option<nat>)

  // ---- Reading ----

  function ReadNames(t: string): (r: Option<(seq<string>, string)>)
    ensures r.Some? ==> |r.value.1| < |t|
    decreases |t|
  {
    var t1 :- Expect(t, '"');
    var n :- ReadName(t1);
    match Strip(n.1, ", ")
    case None => Some(([n.0], n.1))
    case Some(t2) =>
      var ns :- ReadNames(t2);
      Some(([n.0] + ns.0, ns.1))
  }

  /** A count, or a list of columns. */
  function ReadResult(t: string): Option<(bool, seq<string>, string)> {
    match Strip(t, "COUNT(*)")
    case Some(t1) => Some((true, [], t1))
    case None =>
      var ns :- ReadNames(t);
      Some((false, ns.0, ns.1))
  }

  function ReadCond(t: string): Option<(Option<Pred>, string)> {
    match Strip(t, " WHERE ")
    case None => Some((None, t))
    case Some(t1) =>
      var p :- ReadPred(t1);
      Some((Some(p.0), p.1))
  }

  /** A term is ascending unless it says DESC. */
  function ReadDirection(t: string): (r: (bool, string))
    ensures |r.1| <= |t|
  {
    if Strip(t, " DESC").Some? then (true, Strip(t, " DESC").value)
    else if Strip(t, " ASC").Some? then (false, Strip(t, " ASC").value)
    else (false, t)
  }

  function ReadTerms(t: string): (r: Option<(seq<(string, bool)>, string)>)
    ensures r.Some? ==> |r.value.1| < |t|
    decreases |t|
  {
    var t1 :- Expect(t, '"');
    var n :- ReadName(t1);
    var d := ReadDirection(n.1);
    match Strip(d.1, ", ")
    case None => Some(([(n.0, d.0)], d.1))
    case Some(t2) =>
      var ns :- ReadTerms(t2);
      Some(([(n.0, d.0)] + ns.0, ns.1))
  }

  function ReadOrder(t: string): Option<(seq<(string, bool)>, string)> {
    match Strip(t, " ORDER BY ")
    case None => Some(([], t))
    case Some(t1) => ReadTerms(t1)
  }

  /** A number after a keyword, if the keyword is there. */
  function ReadNumber(t: string, w: string): Option<(Option<nat>, string)> {
    match Strip(t, w)
    case None => Some((None, t))
    case Some(t1) =>
      if t1 == "" || !IsDigit(t1[0]) then None else
      var n := ReadDigits(t1, 0);
      Some((Some(n.0), n.1))
  }

  /** OFFSET is part of the LIMIT clause: alone it is no SQL. */
  function ReadLimits(t: string): Option<(Option<nat>, Option<nat>, string)> {
    var limit :- ReadNumber(t, " LIMIT ");
    if limit.0.None? then Some((None, None, limit.1)) else
    var offset :- ReadNumber(limit.1, " OFFSET ");
    Some((limit.0, offset.0, offset.1))
  }

  function ReadTail(t: string): Option<(seq<(string, bool)>, Option<nat>, Option<nat>)> {
    var order :- ReadOrder(t);
    var limits :- ReadLimits(order.1);
    if limits.2 == "" then Some((order.0, limits.0, limits.1)) else None
  }

  function ReadSelect(t: string): Option<Statement> {
    var t1 :- Strip(t, "SELECT ");
    var r :- ReadResult(t1);
    var t2 :- Strip(r.2, " FROM \"");
    var table :- ReadName(t2);
    var cond :- ReadCond(table.1);
    var tail :- ReadTail(cond.1);
    Some(Statement(r.0, r.1, table.0, cond.0, tail.0, tail.1, tail.2))
  }

  // ---- What a statement answers ----

  /** The strict order of values under a column's collation. */
  type Before = (Value, Value) -> bool

  /** Whether `a` must come before `b`: the first term that tells them apart decides. */
  predicate SqlBefore(before: Before, order: seq<(string, bool)>, a: Row, b: Row) {
    order != [] &&
    var x, y := Cell(a, order[0].0), Cell(b, order[0].0);
    var (low, high) := if order[0].1 then (y, x) else (x, y);
    before(low, high) || (!before(high, low) && SqlBefore(before, order[1..], a, b))
  }

  function Paged<T>(xs: seq<T>, limit: Option<nat>, offset: Option<nat>): seq<T> {
    var rest := if offset.None? then xs else if offset.value <= |xs| then xs[offset.value..] else [];
    if limit.Some? && limit.value <= |rest| then rest[..limit.value] else rest
  }

  /** A row as it is returned: its cells, or one row with the number of rows. */
  function Shown(count: bool, columns: seq<string>, rows: seq<Row>): seq<seq<Value>> {
    if count then [[Integer(|rows|)]] else
      seq(|rows|, i requires 0 <= i < |rows| =>
        seq(|columns|, j requires 0 <= j < |columns| => Cell(rows[i], columns[j])))
  }

  /** The rows on which the condition is True, in an order that the terms allow. */
  ghost predicate RowsOf(g: Engine, before: Before, st: Statement, params: seq<Value>, table: multiset<Row>,
                         rows: seq<Row>)
  {
    (forall row :: multiset(rows)[row] ==
       if st.cond.None? || Sql(g, st.cond.value, params, row) == True then table[row] else 0) &&
    (forall i, j :: 0 <= i < j < |rows| ==> !SqlBefore(before, st.order, rows[j], rows[i]))
  }

  ghost predicate Answers(g: Engine, before: Before, st: Statement, params: seq<Value>, table: multiset<Row>,
                          out: seq<seq<Value>>)
  {
    exists rows :: RowsOf(g, before, st, params, table, rows) &&
                   out == Paged(Shown(st.count, st.columns, rows), st.limit, st.offset)
  }

  // ---- What the builder was asked for ----

  /** `a` is strictly ahead of `b` in a column: smaller if ascending, greater if descending. */
  predicate Ahead(before: Before, term: (string, Direction), a: Row, b: Row) {
    match term.1
    case Asc => before(Cell(a, term.0), Cell(b, term.0))
    case Desc => before(Cell(b, term.0), Cell(a, term.0))
  }

  /** `a` is ahead of `b` at the `k`-th column, and level with it in the columns before. */
  predicate AheadAt(before: Before, order: seq<(string, Direction)>, a: Row, b: Row, k: nat) {
    k < |order| && Ahead(before, order[k], a, b) &&
    forall i :: 0 <= i < k ==> !Ahead(before, order[i], a, b) && !Ahead(before, order[i], b, a)
  }

  ghost predicate Wanted(g: Engine, s: Select, row: Row) {
    s.conditions == [] || Folded(g, s.conditions, row) == Some(True)
  }

  /** The rows that meet the conditions, in an order that was asked for. */
  ghost predicate RowsAsked(g: Engine, before: Before, s: Select, table: multiset<Row>, rows: seq<Row>) {
    (forall row :: multiset(rows)[row] == if Wanted(g, s, row) then table[row] else 0) &&
    (forall i, j, k: nat :: 0 <= i < j < |rows| ==> !AheadAt(before, s.order, rows[j], rows[i], k))
  }

  ghost predicate Asked(g: Engine, before: Before, e: Entity, s: Select, table: multiset<Row>, out: seq<seq<Value>>) {
    exists rows :: RowsAsked(g, before, s, table, rows) &&
                   out == Paged(Shown(s.count, e.columns, rows), s.limit, s.offset)
  }

  // ---- The text is read back ----

  function NameText(names: seq<string>): string {
    if names == [] then "" else if |names| == 1 then Quoted(names[0], "")
    else Quoted(names[0], ", " + NameText(names[1..]))
  }

  /** An entity as the macro writes it: columns, each in quotes, and no quote in any name. */
  predicate Declared(e: Entity) {
    e.columns != [] && e.columnList == NameText(e.columns) && PlainName(e.table) &&
    forall i :: 0 <= i < |e.columns| ==> PlainName(e.columns[i])
  }

  function TermsOf(order: seq<(string, Direction)>): seq<(string, bool)> {
    seq(|order|, i requires 0 <= i < |order| => (order[i].0, order[i].1.Desc?))
  }

  function StatementOf(e: Entity, s: Select): Statement {
    var w := WhereOf(s.conditions);
    Statement(s.count, if s.count then [] else e.columns, e.table,
              if w.None? then None else Some(PredOf(w.value, 0)), TermsOf(s.order), s.limit, s.offset)
  }

  // ---- Numbers and ordering terms ----

  lemma {:induction false} DecimalStarts(n: nat)
    ensures Decimal(n) != "" && IsDigit(Decimal(n)[0])
  {
    if n >= 10 { DecimalStarts(n / 10); }
  }

  lemma ClauseText(w: string, clause: string, x: string)
    requires clause == " " + w + " "
    ensures WordText(w, [' '] + x) == clause + x
  {
  }

  lemma NumberReads(w: string, clause: string, n: Option<nat>, k: string)
    requires clause == " " + w + " " && Ends(k) && (n.None? ==> Strip(k, clause).None?)
    ensures ReadNumber(LimitText(w, n, k), clause) == Some((n, k))
  {
    if n.Some? {
      var digits := Decimal(n.value) + k;
      ClauseText(w, clause, digits);
      Stripped(clause, digits);
      DecimalStarts(n.value);
      DecimalReads(n.value, k);
      assert digits[0] == Decimal(n.value)[0];
      assert ReadDigits(k, n.value) == (n.value, k);
    }
  }

  /** A text of limits begins with the keyword of its first part, or is empty. */
  lemma LimitStarts(w: string, n: Option<nat>, k: string)
    requires |w| > 1
    ensures n.Some? ==> var t := LimitText(w, n, k); |t| > 2 && t[0] == ' ' && t[1] == w[0] && t[2] == w[1]
  {
    if n.Some? { assert LimitText(w, n, k) == [' '] + (w + ([' '] + (Decimal(n.value) + k))); }
  }

  function Limits(s: Select): string {
    LimitText("LIMIT", s.limit, LimitText("OFFSET", s.offset, ""))
  }

  /** Read back in full, except that OFFSET alone is left standing. */
  lemma LimitsRead(s: Select)
    ensures ReadLimits(Limits(s)) ==
            Some(if s.limit.None? then (None, None, LimitText("OFFSET", s.offset, "")) else (s.limit, s.offset, ""))
  {
    var offset := LimitText("OFFSET", s.offset, "");
    LimitStarts("OFFSET", s.offset, "");
    if s.offset.Some? { NotStripped(offset, " LIMIT ", 1); }
    NumberReads("LIMIT", " LIMIT ", s.limit, offset);
    NumberReads("OFFSET", " OFFSET ", s.offset, "");
  }

  lemma DirectionReads(d: Direction, k: string)
    ensures ReadDirection(DirectionText(d) + k) == (d.Desc?, k)
  {
    Stripped(DirectionText(d), k);
    if d.Asc? { NotStripped(" ASC" + k, " DESC", 1); }
  }

  lemma TermReads(name: string, d: Direction, k: string)
    requires PlainName(name)
    ensures var t := Quoted(name, DirectionText(d) + k);
            Expect(t, '"').Some? && ReadName(Expect(t, '"').value) == Some((name, DirectionText(d) + k))
  {
    Expected('"', name + (['"'] + (DirectionText(d) + k)));
    NameReads(name, DirectionText(d) + k);
  }

  lemma LastTermReads(name: string, d: Direction, k: string)
    requires PlainName(name) && Strip(k, ", ").None?
    ensures ReadTerms(Quoted(name, DirectionText(d) + k)) == Some(([(name, d.Desc?)], k))
  {
    TermReads(name, d, k);
    DirectionReads(d, k);
  }

  lemma MoreTermsRead(name: string, d: Direction, rest: string, terms: seq<(string, bool)>, k: string)
    requires PlainName(name) && ReadTerms(rest) == Some((terms, k))
    ensures ReadTerms(Quoted(name, DirectionText(d) + ([','] + ([' '] + rest)))) ==
            Some(([(name, d.Desc?)] + terms, k))
  {
    var more := [','] + ([' '] + rest);
    TermReads(name, d, more);
    DirectionReads(d, more);
    assert more == ", " + rest;
    Stripped(", ", rest);
  }

  lemma {:induction false} TermsRead(order: seq<(string, Direction)>, k: string)
    requires order != [] && Strip(k, ", ").None? && forall i :: 0 <= i < |order| ==> PlainName(order[i].0)
    ensures ReadTerms(OrderText(order, k)) == Some((TermsOf(order), k))
    decreases |order|
  {
    if |order| == 1 {
      LastTermReads(order[0].0, order[0].1, k);
      assert TermsOf(order) == [(order[0].0, order[0].1.Desc?)];
    } else {
      TermsRead(order[1..], k);
      MoreTermsRead(order[0].0, order[0].1, OrderText(order[1..], k), TermsOf(order[1..]), k);
      TermsCons(order);
    }
  }

  lemma TermsCons(order: seq<(string, Direction)>)
    requires order != []
    ensures TermsOf(order) == [(order[0].0, order[0].1.Desc?)] + TermsOf(order[1..])
  {
  }

  lemma LimitsStart(s: Select, w: string)
    requires |w| > 2 && w[0] == ' ' && w[1] != 'L' && !(w[1] == 'O' && w[2] == 'F')
    ensures Strip(Limits(s), w).None?
  {
    var offset := LimitText("OFFSET", s.offset, "");
    LimitStarts("LIMIT", s.limit, offset);
    LimitStarts("OFFSET", s.offset, "");
    if s.limit.Some? {
      NotStripped(Limits(s), w, 1);
    } else if s.offset.Some? {
      if w[1] != 'O' { NotStripped(Limits(s), w, 1); } else { NotStripped(Limits(s), w, 2); }
    }
  }

  lemma OrderReads(s: Select)
    requires forall i :: 0 <= i < |s.order| ==> PlainName(s.order[i].0)
    ensures ReadOrder(TailText(s)) == Some((TermsOf(s.order), Limits(s)))
  {
    if s.order == [] {
      LimitsStart(s, " ORDER BY ");
      assert TermsOf(s.order) == [];
    } else {
      var items := OrderText(s.order, Limits(s));
      assert TailText(s) == " ORDER BY " + items by {
        assert " ORDER BY " == [' '] + ("ORDER" + ([' '] + ("BY" + [' '])));
      }
      Stripped(" ORDER BY ", items);
      LimitsNoComma(s);
      TermsRead(s.order, Limits(s));
    }
  }

  lemma LimitsNoComma(s: Select)
    ensures Strip(Limits(s), ", ").None?
  {
    var offset := LimitText("OFFSET", s.offset, "");
    LimitStarts("LIMIT", s.limit, offset);
    LimitStarts("OFFSET", s.offset, "");
    if s.limit.Some? || s.offset.Some? { NotStripped(Limits(s), ", ", 0); }
  }

  predicate OffsetAlone(s: Select) {
    s.offset.Some? && s.limit.None?
  }

  lemma TailReads(s: Select)
    requires forall i :: 0 <= i < |s.order| ==> PlainName(s.order[i].0)
    ensures ReadTail(TailText(s)) == if OffsetAlone(s) then None else Some((TermsOf(s.order), s.limit, s.offset))
  {
    OrderReads(s);
    LimitsRead(s);
    LimitStarts("OFFSET", s.offset, "");
  }

  lemma TailStarts(s: Select)
    ensures Strip(TailText(s), " WHERE ").None?
  {
    if s.order == [] {
      LimitsStart(s, " WHERE ");
    } else {
      assert TailText(s)[1] == 'O';
      NotStripped(TailText(s), " WHERE ", 1);
    }
  }

  lemma CondReads(s: Select)
    requires WhereOf(s.conditions).Some? ==> PlainNames(WhereOf(s.conditions).value)
    ensures ReadCond(RestText(s)) ==
            var w := WhereOf(s.conditions); Some((if w.None? then None else Some(PredOf(w.value, 0)), TailText(s)))
  {
    var w := WhereOf(s.conditions);
    if w.None? {
      TailStarts(s);
    } else {
      var text := TextOf(w.value, 0, TailText(s));
      ClauseText("WHERE", " WHERE ", text);
      Stripped(" WHERE ", text);
      TailFollows(s);
      TreeReads(w.value, 0, TailText(s));
    }
  }

  // ---- The head ----

  lemma QuotedThen(name: string, x: string, k: string)
    ensures Quoted(name, x) + k == Quoted(name, x + k)
  {
  }

  lemma NameStarts(name: string, tail: string)
    requires PlainName(name) && (tail == "" || tail[0] != '"')
    ensures Expect(Quoted(name, tail), '"').Some?
    ensures ReadName(Expect(Quoted(name, tail), '"').value) == Some((name, tail))
  {
    Expected('"', name + (['"'] + tail));
    NameReads(name, tail);
  }

  lemma LastNameReads(name: string, k: string)
    requires PlainName(name) && Strip(k, ", ").None? && (k == "" || k[0] != '"')
    ensures ReadNames(Quoted(name, "") + k) == Some(([name], k))
  {
    QuotedThen(name, "", k);
    assert "" + k == k;
    NameStarts(name, k);
  }

  lemma MoreNamesRead(name: string, rest: string, names: seq<string>, k: string)
    requires PlainName(name) && ReadNames(rest + k) == Some((names, k))
    ensures ReadNames(Quoted(name, ", " + rest) + k) == Some(([name] + names, k))
  {
    QuotedThen(name, ", " + rest, k);
    assert (", " + rest) + k == ", " + (rest + k);
    NameStarts(name, ", " + (rest + k));
    Stripped(", ", rest + k);
  }

  lemma {:induction false} NamesRead(names: seq<string>, k: string)
    requires names != [] && Strip(k, ", ").None? && forall i :: 0 <= i < |names| ==> PlainName(names[i])
    requires k == "" || k[0] != '"'
    ensures ReadNames(NameText(names) + k) == Some((names, k))
    decreases |names|
  {
    if |names| == 1 {
      LastNameReads(names[0], k);
      assert names == [names[0]];
    } else {
      NamesRead(names[1..], k);
      MoreNamesRead(names[0], NameText(names[1..]), names[1..], k);
      assert names == [names[0]] + names[1..];
    }
  }

  lemma ResultReads(e: Entity, s: Select, k: string)
    requires Declared(e) && Strip(k, ", ").None? && (k == "" || k[0] != '"')
    ensures ReadResult((if s.count then "COUNT(*)" else e.columnList) + k) ==
            Some((s.count, if s.count then [] else e.columns, k))
  {
    if s.count {
      Stripped("COUNT(*)", k);
    } else {
      var t := e.columnList + k;
      assert t[0] == '"';
      NotStripped(t, "COUNT(*)", 0);
      NamesRead(e.columns, k);
    }
  }

  lemma HeadSplits(e: Entity, s: Select, k: string)
    ensures HeadText(e, s) + k ==
            "SELECT " + ((if s.count then "COUNT(*)" else e.columnList) + (" FROM \"" + (e.table + (['"'] + k))))
  {
    assert "\"" == ['"'];
  }

  lemma RestStarts(s: Select)
    ensures RestText(s) == "" || RestText(s)[0] == ' '
  {
    LimitStarts("LIMIT", s.limit, LimitText("OFFSET", s.offset, ""));
    LimitStarts("OFFSET", s.offset, "");
  }

  // ---- The theorem ----

  /** The text of a query on a declared entity is read back as the statement it was built for; if it has an
      OFFSET without a LIMIT, it is not SQL. */
  lemma BuiltTextReads(e: Entity, s: Select)
    requires Declared(e) && Known(e, s)
    ensures ReadSelect(HeadText(e, s) + RestText(s)) == if OffsetAlone(s) then None else Some(StatementOf(e, s))
  {
    var w, rest := WhereOf(s.conditions), RestText(s);
    if w.Some? { KnownNamesArePlain(e, w.value); }
    var t2 := e.table + (['"'] + rest);
    var t1 := " FROM \"" + t2;
    HeadSplits(e, s, rest);
    Stripped("SELECT ", (if s.count then "COUNT(*)" else e.columnList) + t1);
    NotStripped(t1, ", ", 0);
    ResultReads(e, s, t1);
    Stripped(" FROM \"", t2);
    RestStarts(s);
    NameReads(e.table, rest);
    CondReads(s);
    TailReads(s);
  }

  // ---- The answer ----

  /** Comparing term by term from the left finds the first column that tells the rows apart. */
  lemma {:induction false} BeforeIsAhead(before: Before, order: seq<(string, Direction)>, a: Row, b: Row)
    ensures SqlBefore(before, TermsOf(order), a, b) <==> exists k: nat :: AheadAt(before, order, a, b, k)
    decreases |order|
  {
    if order != [] {
      TermsCons(order);
      BeforeIsAhead(before, order[1..], a, b);
      AheadCons(before, order, a, b);
    }
  }

  lemma AheadCons(before: Before, order: seq<(string, Direction)>, a: Row, b: Row)
    requires order != []
    ensures (exists k: nat :: AheadAt(before, order, a, b, k)) <==>
            Ahead(before, order[0], a, b) ||
            (!Ahead(before, order[0], b, a) && exists k: nat :: AheadAt(before, order[1..], a, b, k))
  {
    if k: nat :| AheadAt(before, order, a, b, k) {
      if k > 0 { assert AheadAt(before, order[1..], a, b, k - 1); }
    }
    if Ahead(before, order[0], a, b) {
      assert AheadAt(before, order, a, b, 0);
    } else if k: nat :| AheadAt(before, order[1..], a, b, k) {
      if !Ahead(before, order[0], b, a) {
        assert forall i :: 0 < i <= k ==> order[i] == order[1..][i - 1];
        assert AheadAt(before, order, a, b, k + 1);
      }
    }
  }

  lemma CondMeansWanted(g: Engine, s: Select, row: Row)
    ensures var w := WhereOf(s.conditions);
            Wanted(g, s, row) <==> w.None? || Sql(g, PredOf(w.value, 0), BoundParams(s), row) == True
  {
    WhereFolds(g, s.conditions, row);
    var w := WhereOf(s.conditions);
    if w.Some? {
      assert StandAt(BoundParams(s), 0, ParamsOf(w.value));
      SqlMeans(g, w.value, 0, BoundParams(s), row);
    }
  }

  lemma SameRows(g: Engine, before: Before, e: Entity, s: Select, table: multiset<Row>, rows: seq<Row>)
    ensures RowsOf(g, before, StatementOf(e, s), BoundParams(s), table, rows) <==>
            RowsAsked(g, before, s, table, rows)
  {
    var st := StatementOf(e, s);
    forall row ensures Wanted(g, s, row) <==> st.cond.None? || Sql(g, st.cond.value, BoundParams(s), row) == True {
      CondMeansWanted(g, s, row);
    }
    forall a, b
      ensures SqlBefore(before, st.order, a, b) <==> exists k: nat :: AheadAt(before, s.order, a, b, k)
    {
      BeforeIsAhead(before, s.order, a, b);
    }
  }

  lemma SameAnswers(g: Engine, before: Before, e: Entity, s: Select, table: multiset<Row>, out: seq<seq<Value>>)
    ensures Answers(g, before, StatementOf(e, s), BoundParams(s), table, out) <==>
            Asked(g, before, e, s, table, out)
  {
    forall rows ensures RowsOf(g, before, StatementOf(e, s), BoundParams(s), table, rows) <==>
                        RowsAsked(g, before, s, table, rows)
    {
      SameRows(g, before, e, s, table, rows);
    }
    forall rows ensures Shown(s.count, StatementOf(e, s).columns, rows) == Shown(s.count, e.columns, rows) {
    }
  }

  /** The built text, read as SQL under its parameters, answers exactly what was asked for: the rows that meet
      the conditions, in the order of the columns and directions, cut to the page. A query with an OFFSET and
      no LIMIT has no answer, because its text is not SQL. */
  lemma BuiltQueryAnswersWhatWasAsked(g: Engine, before: Before, e: Entity, s: Select, table: multiset<Row>,
                                      out: seq<seq<Value>>)
    requires Declared(e) && Known(e, s)
    ensures var st := ReadSelect(HeadText(e, s) + RestText(s));
            (st.None? <==> OffsetAlone(s)) &&
            (st.Some? ==> (Answers(g, before, st.value, BoundParams(s), table, out) <==>
                           Asked(g, before, e, s, table, out)))
  {
    BuiltTextReads(e, s);
    SameAnswers(g, before, e, s, table, out);
  }

  // ---- Which queries are refused ----

  predicate Mentions(x: Expr, c: string) {
    match x
    case And(a, b) => Mentions(a, c) || Mentions(b, c)
    case Or(a, b) => Mentions(a, c) || Mentions(b, c)
    case _ => x.col == c
  }

  lemma {:induction false} ColumnsMentioned(x: Expr, c: string)
    ensures c in ColumnsOf(x) <==> Mentions(x, c)
    decreases x
  {
    if x.And? || x.Or? {
      ColumnsMentioned(x.left, c);
      ColumnsMentioned(x.right, c);
    }
  }

  lemma {:induction false} WhereMentions(cs: seq<Where>, c: string)
    ensures (WhereOf(cs).Some? && Mentions(WhereOf(cs).value, c)) <==>
            exists i :: 0 <= i < |cs| && Mentions(cs[i].e, c)
    decreases |cs|
  {
    if cs != [] {
      var front := cs[..|cs| - 1];
      WhereMentions(front, c);
      assert forall i :: 0 <= i < |front| ==> front[i] == cs[i];
    }
  }

  /** A condition or an ordering term names the column. */
  predicate Uses(s: Select, c: string) {
    (exists i :: 0 <= i < |s.conditions| && Mentions(s.conditions[i].e, c)) ||
    (exists i :: 0 <= i < |s.order| && s.order[i].0 == c)
  }

  /** A query is refused exactly if a condition, even one that prints no name, or an ordering term names
      something that is not a column of the entity. */
  lemma KnownIsExact(e: Entity, s: Select)
    ensures Known(e, s) <==> forall c :: Uses(s, c) ==> c in e.columns
  {
    var w := WhereOf(s.conditions);
    forall c
      ensures Uses(s, c) <==>
              (w.Some? && c in ColumnsOf(w.value)) || exists i :: 0 <= i < |s.order| && s.order[i].0 == c
    {
      WhereMentions(s.conditions, c);
      if w.Some? { ColumnsMentioned(w.value, c); }
    }
    if Known(e, s) {
      forall c | Uses(s, c) ensures c in e.columns {
        if w.Some? && c in ColumnsOf(w.value) { var i :| 0 <= i < |ColumnsOf(w.value)| && ColumnsOf(w.value)[i] == c; }
      }
    } else if w.Some? && !AllIn(ColumnsOf(w.value), e.columns) {
      var i :| 0 <= i < |ColumnsOf(w.value)| && ColumnsOf(w.value)[i] !in e.columns;
      assert Uses(s, ColumnsOf(w.value)[i]);
    } else {
      var i :| 0 <= i < |s.order| && s.order[i].0 !in e.columns;
      assert Uses(s, s.order[i].0);
    }
  }
}
