/** Row filters of live queries, and why a change that matches none may be skipped. */
module Filter {
  import opened Values

  datatype Predicate =
    | Eq(column: string, value: Value)
    | Neq(column: string, value: Value)
    | IsNull(column: string)
    | IsNotNull(column: string)

  /** Groups are ORed; the predicates inside one group are ANDed. */
  datatype RowFilter = RowFilter(table: string, groups: seq<seq<Predicate>>)

  /** One changed row: no `before` is an INSERT, no `after` a DELETE. */
  datatype Change = Change(table: string, before: Option<Row>, after: Option<Row>)

  predicate Matches(p: Predicate, row: Row) {
    match p
    case Eq(c, v) => c in row && v != Null && row[c] != Null && row[c] == v
    case Neq(c, v) => c in row && v != Null && row[c] != Null && row[c] != v
    case IsNull(c) => c in row && row[c] == Null
    case IsNotNull(c) => c in row && row[c] != Null
  }

  predicate MatchesGroup(g: seq<Predicate>, row: Row) {
    forall i :: 0 <= i < |g| ==> Matches(g[i], row)
  }

  predicate MatchesRow(f: RowFilter, row: Row) {
    exists i :: 0 <= i < |f.groups| && MatchesGroup(f.groups[i], row)
  }

  predicate MatchesChange(f: RowFilter, c: Change) {
    SameName(f.table, c.table) &&
    ((c.before.Some? && MatchesRow(f, c.before.value)) || (c.after.Some? && MatchesRow(f, c.after.value)))
  }

  predicate AnyFilterMatches(fs: seq<RowFilter>, c: Change) {
    exists i :: 0 <= i < |fs| && MatchesChange(fs[i], c)
  }

  // ---- The predicate as SQL evaluates it ----

  /** SQL resolves a column by name without regard to ASCII case. */
  ghost function Lookup(row: Row, column: string): Option<Value> {
    if exists k :: k in row && SameName(k, column) then
      var k :| k in row && SameName(k, column);
      Some(row[k])
    else None
  }

  function Compare(equal: bool, cell: Value, v: Value): Tri {
    if cell == Null || v == Null then Unknown else Truth(SqlEqual(cell, v) == equal)
  }

  ghost function SqlPredicate(p: Predicate, row: Row): Tri {
    match Lookup(row, p.column)
    case None => Unknown
    case Some(cell) =>
      match p
      case Eq(_, v) => Compare(true, cell, v)
      case Neq(_, v) => Compare(false, cell, v)
      case IsNull(_) => Truth(cell == Null)
      case IsNotNull(_) => Truth(cell != Null)
  }

  ghost function SqlGroup(g: seq<Predicate>, row: Row): Tri {
    if g == [] then True else And3(SqlPredicate(g[0], row), SqlGroup(g[1..], row))
  }

  ghost function SqlWhere(groups: seq<seq<Predicate>>, row: Row): Tri {
    if groups == [] then False else Or3(SqlGroup(groups[0], row), SqlWhere(groups[1..], row))
  }

  /** Among the columns, the only one that SQL takes for `c` is spelled like it. */
  predicate Spelled(c: string, columns: set<string>) {
    forall k <- columns :: SameName(k, c) ==> k == c
  }

  /** The cell is the number `v`, stored in the other class: SQL finds them equal, the filter does not. */
  predicate IsTwin(cell: Value, v: Value) {
    cell != v && SqlEqual(cell, v)
  }

  predicate Compares(p: Predicate) {
    p.Eq? || p.Neq?
  }

  /** SQL and the filter see the same cell, and it is not the twin of the value it is compared with;
      or the value is NULL, and neither ever finds it equal or different. */
  predicate SameView(p: Predicate, row: Row) {
    (Compares(p) && p.value == Null) ||
    (Spelled(p.column, row.Keys) && (Compares(p) && p.column in row ==> !IsTwin(row[p.column], p.value)))
  }

  predicate SameViews(groups: seq<seq<Predicate>>, row: Row) {
    forall i, j :: 0 <= i < |groups| && 0 <= j < |groups[i]| ==> SameView(groups[i][j], row)
  }

  ghost predicate Agrees(p: Predicate, row: Row) {
    Matches(p, row) <==> SqlPredicate(p, row) == True
  }

  lemma SameViewAgrees(p: Predicate, row: Row)
    requires SameView(p, row)
    ensures Agrees(p, row)
  {
  }

  lemma {:induction false} GroupIsConjunction(g: seq<Predicate>, row: Row)
    requires SameViews([g], row)
    ensures MatchesGroup(g, row) <==> SqlGroup(g, row) == True
  {
    if g != [] {
      assert [g][0] == g;
      assert g[0] == [g][0][0];
      assert forall j :: 0 <= j < |g[1..]| ==> g[1..][j] == [g][0][j + 1];
      assert SameViews([g[1..]], row);
      GroupIsConjunction(g[1..], row);
      SameViewAgrees(g[0], row);
      assert MatchesGroup(g, row) <==> Matches(g[0], row) && MatchesGroup(g[1..], row) by {
        assert forall j :: 0 < j < |g| ==> g[j] == g[1..][j - 1];
      }
    }
  }

  /** A row matches exactly when the OR of ANDs is True, never when it is Unknown. */
  lemma {:induction false} MatchIsSqlTrue(f: RowFilter, row: Row)
    requires SameViews(f.groups, row)
    ensures MatchesRow(f, row) <==> SqlWhere(f.groups, row) == True
    decreases |f.groups|
  {
    if f.groups != [] {
      var g, rest := f.groups[0], RowFilter(f.table, f.groups[1..]);
      assert forall i :: 0 < i < |f.groups| ==> f.groups[i] == rest.groups[i - 1];
      assert SameViews(rest.groups, row);
      assert SameViews([g], row);
      GroupIsConjunction(g, row);
      MatchIsSqlTrue(rest, row);
      assert MatchesRow(f, row) <==> MatchesGroup(g, row) || MatchesRow(rest, row) by {
        if MatchesRow(rest, row) {
          var i :| 0 <= i < |rest.groups| && MatchesGroup(rest.groups[i], row);
          assert MatchesGroup(f.groups[i + 1], row);
        }
      }
    }
  }

  // ---- Exactly which filters agree with SQL ----

  predicate UsesOnly(groups: seq<seq<Predicate>>, ps: set<Predicate>) {
    forall i, j :: 0 <= i < |groups| && 0 <= j < |groups[i]| ==> groups[i][j] in ps
  }

  /** Every filter made of the predicates matches exactly the rows on which SQL says True. */
  ghost predicate AlwaysSqlTrue(ps: set<Predicate>, columns: set<string>) {
    forall f: RowFilter, row: Row :: UsesOnly(f.groups, ps) && row.Keys == columns ==>
      (MatchesRow(f, row) <==> SqlWhere(f.groups, row) == True)
  }

  predicate IsWhole(r: real) {
    r == r.Floor as real
  }

  /** A number that the other numeric class can store as well. */
  predicate HasTwin(v: Value) {
    v.Integer? || (v.Real? && IsWhole(v.r))
  }

  function Twin(v: Value): Value
    requires HasTwin(v)
  {
    if v.Integer? then Real(v.i as real) else Integer(v.r.Floor)
  }

  /** A comparison with NULL matches nothing in SQL and in the filter; otherwise the name must have the
      spelling of the column that SQL takes it for, and a compared value must have no twin. */
  predicate Exact(p: Predicate, columns: set<string>) {
    (Compares(p) && p.value == Null) ||
    (Spelled(p.column, columns) && (Compares(p) && p.column in columns ==> !HasTwin(p.value)))
  }

  /** Filters over the predicates agree with SQL on all rows of a table if and only if each predicate
      is spelled exactly and compares with no number that has a twin. */
  lemma AgreementIsExact(ps: set<Predicate>, columns: set<string>)
    requires forall k, k' :: k in columns && k' in columns && SameName(k, k') ==> k == k'
    ensures AlwaysSqlTrue(ps, columns) <==> forall p <- ps :: Exact(p, columns)
  {
    if forall p <- ps :: Exact(p, columns) {
      forall f: RowFilter, row: Row | UsesOnly(f.groups, ps) && row.Keys == columns
        ensures MatchesRow(f, row) <==> SqlWhere(f.groups, row) == True
      {
        ExactAgrees(f, row, ps);
      }
    } else {
      var p :| p in ps && !Exact(p, columns);
      var row := Disagreement(p, columns);
      var f := RowFilter("t", [[p]]);
      OnePredicate(p, row);
      assert UsesOnly(f.groups, ps);
    }
  }

  lemma TwinIsWhole(i: int, r: real)
    requires i as real == r
    ensures IsWhole(r)
  {
  }

  lemma ExactIsSameView(p: Predicate, row: Row)
    requires Exact(p, row.Keys)
    ensures SameView(p, row)
  {
    if Compares(p) && p.value.Real? && p.column in row && row[p.column].Integer? {
      if row[p.column].i as real == p.value.r { TwinIsWhole(row[p.column].i, p.value.r); }
    }
  }

  lemma ExactAgrees(f: RowFilter, row: Row, ps: set<Predicate>)
    requires UsesOnly(f.groups, ps) && forall p <- ps :: Exact(p, row.Keys)
    ensures MatchesRow(f, row) <==> SqlWhere(f.groups, row) == True
  {
    forall i, j | 0 <= i < |f.groups| && 0 <= j < |f.groups[i]| ensures SameView(f.groups[i][j], row) {
      ExactIsSameView(f.groups[i][j], row);
    }
    MatchIsSqlTrue(f, row);
  }

  lemma OnePredicate(p: Predicate, row: Row)
    ensures MatchesRow(RowFilter("t", [[p]]), row) <==> Matches(p, row)
    ensures SqlWhere([[p]], row) == True <==> SqlPredicate(p, row) == True
  {
    var g, gs := [p], [[p]];
    assert g[0] == p && g[1..] == [] && gs[0] == g && gs[1..] == [];
    assert MatchesGroup(g, row) <==> Matches(p, row);
    assert RowFilter("t", gs).groups[0] == g;
    assert SqlGroup(g, row) == And3(SqlPredicate(p, row), True);
    assert SqlWhere(gs, row) == Or3(SqlGroup(g, row), False);
  }

  /** A cell on which SQL says True. */
  function TrueCell(p: Predicate): Value
    requires Compares(p) ==> p.value != Null
  {
    match p
    case Eq(_, v) => v
    case Neq(_, v) => if v.Text? then Integer(0) else Text("")
    case IsNull(_) => Null
    case IsNotNull(_) => Text("")
  }

  /** A row that SQL selects and the filter misses, or the other way about. */
  lemma Disagreement(p: Predicate, columns: set<string>) returns (row: Row)
    requires !Exact(p, columns) && forall k, k' :: k in columns && k' in columns && SameName(k, k') ==> k == k'
    ensures row.Keys == columns && !Agrees(p, row)
  {
    if Spelled(p.column, columns) {
      row := map k <- columns :: Twin(p.value);
      NumericTwinIsMissed(p, row);
    } else {
      row := map k <- columns :: TrueCell(p);
      CaseVariantIsMissed(p, row);
    }
  }

  /** A number stored in the other class is found by SQL and missed by an equality filter; an
      inequality filter finds it although SQL does not. */
  lemma NumericTwinIsMissed(p: Predicate, row: Row)
    requires Compares(p) && p.column in row && Spelled(p.column, row.Keys) && HasTwin(p.value) &&
             row[p.column] == Twin(p.value)
    ensures p.Eq? ==> SqlPredicate(p, row) == True && !Matches(p, row)
    ensures p.Neq? ==> SqlPredicate(p, row) == False && Matches(p, row)
  {
  }

  /** A column spelled in another case is found by SQL and missed by the filter. */
  lemma CaseVariantIsMissed(p: Predicate, row: Row)
    requires !Spelled(p.column, row.Keys) && (Compares(p) ==> p.value != Null)
    requires forall k, k' :: k in row && k' in row && SameName(k, k') ==> k == k'
    requires forall k <- row.Keys :: row[k] == TrueCell(p)
    ensures SqlPredicate(p, row) == True && !Matches(p, row)
  {
    assert p.column !in row;
  }

  // ---- Tables as multisets of rows, keyed by lower-case name ----

  type Db = map<string, multiset<Row>>

  function Content(db: Db, t: string): multiset<Row> {
    if t in db then db[t] else multiset{}
  }

  function One(r: Option<Row>): multiset<Row> {
    if r.None? then multiset{} else multiset{r.value}
  }

  /** Some of the recorded changes, applied to table `t` in order, turn its rows `m` into `m'`.
      The others are stale: they were undone by a rollback. */
  ghost predicate Replays(cs: seq<Change>, t: string, m: multiset<Row>, m': multiset<Row>) {
    if cs == [] then m == m' else (
      Replays(cs[1..], t, m, m') || (Applies(cs[0], t, m) && Replays(cs[1..], t, Changed(cs[0], m), m'))
    )
  }

  predicate Applies(c: Change, t: string, m: multiset<Row>) {
    Lower(c.table) == t && One(c.before) <= m
  }

  function Changed(c: Change, m: multiset<Row>): multiset<Row> {
    m - One(c.before) + One(c.after)
  }

  /** The rows of table `t` that some filter of the set selects. */
  predicate Selected(fs: seq<RowFilter>, t: string, row: Row) {
    exists i :: 0 <= i < |fs| && Lower(fs[i].table) == t && MatchesRow(fs[i], row)
  }

  lemma UnmatchedChangeKeepsRow(fs: seq<RowFilter>, c: Change, t: string, m: multiset<Row>, row: Row)
    requires !AnyFilterMatches(fs, c) && Applies(c, t, m) && Selected(fs, t, row)
    ensures m[row] == Changed(c, m)[row]
  {
  }

  /** Skipping is sound: when no recorded change matches a filter of the set, the
      multiset of rows selected by the set is the same before and after. */
  lemma {:induction false} SkippedChangesKeepSelection(fs: seq<RowFilter>, cs: seq<Change>, t: string,
                                    m: multiset<Row>, m': multiset<Row>)
    requires Replays(cs, t, m, m')
    requires forall i :: 0 <= i < |cs| ==> !AnyFilterMatches(fs, cs[i])
    ensures forall row :: Selected(fs, t, row) ==> m[row] == m'[row]
  {
    if cs != [] {
      assert !AnyFilterMatches(fs, cs[0]);
      if Replays(cs[1..], t, m, m') {
        SkippedChangesKeepSelection(fs, cs[1..], t, m, m');
      } else {
        SkippedChangesKeepSelection(fs, cs[1..], t, Changed(cs[0], m), m');
        forall row | Selected(fs, t, row) ensures m[row] == Changed(cs[0], m)[row] {
          UnmatchedChangeKeepsRow(fs, cs[0], t, m, row);
        }
      }
    }
  }
}
