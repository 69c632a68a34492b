/** Where the diff falls short: for each condition of `DiffCorrect.DiffIsCorrect`, good schemas and a
    database of the old one on which it fails, although nothing is listed for review. */
module DiffLimits {
  import opened Values
  import opened SqlText
  import opened Snapshot
  import opened Diff
  import opened Catalog
  import opened DiffColumns
  import opened DiffStages
  import opened DiffCorrect

  // ---- Schemas of one table ----

  function OneTable(t: TableSnapshot): SchemaSnapshot {
    SchemaSnapshot(1, [t], [])
  }

  lemma CreateTableIsNoIndex(rest: string)
    ensures IndexName("CREATE" + (" TABLE" + rest)) == None
  {
    CreateKeyword(" TABLE" + rest);
    SpaceThen("TABLE" + rest);
    assert " TABLE" + rest == " " + ("TABLE" + rest);
    OtherKeyword(" TABLE" + rest, "UNIQUE", 'T');
    OtherKeyword(" TABLE" + rest, "INDEX", 'T');
  }

  /** A table made by one CREATE TABLE statement, which reads as the columns listed. */
  ghost predicate MadeBy(e: Engine, t: TableSnapshot, rest: string, columns: map<string, Def>) {
    t.ddl == ["CREATE" + (" TABLE" + rest)] && e.read(t.ddl[0]) == TableObject(t.name, columns) &&
    DistinctColumns(t) && ColumnsMatch(t, columns)
  }

  lemma NoEntries(e: Engine, t: TableSnapshot, rest: string, columns: map<string, Def>)
    requires MadeBy(e, t, rest, columns)
    ensures IndexEntries(t.ddl) == []
  {
    CreateTableIsNoIndex(rest);
    assert t.ddl[1..] == [];
  }

  lemma OneTableIsGood(e: Engine, t: TableSnapshot, rest: string, columns: map<string, Def>)
    requires MadeBy(e, t, rest, columns)
    ensures GoodSchema(e, OneTable(t))
  {
    CreateTableIsNoIndex(rest);
    NoEntries(e, t, rest, columns);
    TableIsGood(e, t);
    NoIndexes(OneTable(t));
  }

  lemma TableIsGood(e: Engine, t: TableSnapshot)
    requires |t.ddl| == 1 && IndexName(t.ddl[0]).None? && IndexEntries(t.ddl) == [] && DistinctColumns(t)
    requires var o := e.read(t.ddl[0]); o.TableObject? && o.table == t.name && ColumnsMatch(t, o.columns)
    ensures GoodTable(e, t)
  {
  }

  lemma NoIndexes(s: SchemaSnapshot)
    requires forall j :: 0 <= j < |s.tables| ==> IndexEntries(s.tables[j].ddl) == []
    ensures DistinctEntries(s) && EntriesAreNotTables(s)
  {
  }

  function OneTableCat(t: TableSnapshot, columns: map<string, Def>, rows: seq<Row>): Cat {
    Cat(map[Lower(t.name) := Tab(columns, rows)], map[], map[])
  }

  lemma OneTableIsDescribed(e: Engine, t: TableSnapshot, rest: string, columns: map<string, Def>, rows: seq<Row>)
    requires MadeBy(e, t, rest, columns)
    ensures Describes(OneTable(t), OneTableCat(t, columns, rows))
  {
    var s := OneTable(t);
    NoEntries(e, t, rest, columns);
    assert s.tables[0] == t;
    assert AllBuilt(s, {}) && IndexesAre(s, {}, map[]);
  }

  /** What the diff of two such schemas leaves to review is what it leaves of the one table. */
  lemma OneTableReview(ot: TableSnapshot, nt: TableSnapshot)
    requires ot.name == nt.name && TablePlan(ot, nt).review == []
    ensures DiffPlan(OneTable(ot), OneTable(nt)).review == []
    ensures FindTable(OneTable(ot).tables, nt.name) == Some(ot)
  {
    var before, after := OneTable(ot), OneTable(nt);
    assert before.tables == [ot] && after.tables == [nt];
    UpToReviews(after.tables, NewOf(before), 1);
    UpToReviews(before.tables, GoneOf(after), 1);
    UpToReviews(after.tables, KeptOf(before), 1);
  }

  // ---- Plain columns ----

  function Plain(defaultSql: Option<string>): Def {
    Def("TEXT", false, false, defaultSql, None, None)
  }

  function Named(name: string, from: Option<string>): ColumnSnapshot {
    ColumnSnapshot(name, Plain(None), from)
  }

  /** With differing numbers of columns and no indexes, only the columns can be left to review. */
  lemma OnlyColumns(ot: TableSnapshot, nt: TableSnapshot)
    requires |ot.columns| != |nt.columns| && IndexEntries(ot.ddl) == [] && IndexEntries(nt.ddl) == []
    requires ColumnsUpTo(ot, nt, |nt.columns|).review == [] && DropsUpTo(ot, nt, |ot.columns|).review == []
    ensures TablePlan(ot, nt).review == []
  {
  }

  // ---- The three conditions ----

  /** Everything `DiffIsCorrect` asks for. */
  ghost predicate Unreviewed(e: Engine, before: SchemaSnapshot, after: SchemaSnapshot, c: Cat) {
    GoodSchema(e, before) && GoodSchema(e, after) && Describes(before, c) && DiffPlan(before, after).review == []
  }

  const OLD := " t (before)"
  const NEW := " t (after)"

  function Table(rest: string, columns: seq<ColumnSnapshot>): TableSnapshot {
    TableSnapshot("t", columns, ["CREATE" + (" TABLE" + rest)], false, false)
  }

  function ColumnMap(cs: seq<ColumnSnapshot>): map<string, Def> {
    if cs == [] then map[] else ColumnMap(cs[..|cs| - 1])[Lower(cs[|cs| - 1].name) := cs[|cs| - 1].def]
  }

  ghost predicate IsColumnMap(cs: seq<ColumnSnapshot>, m: map<string, Def>) {
    (forall i :: 0 <= i < |cs| ==> Lower(cs[i].name) in m && m[Lower(cs[i].name)] == cs[i].def) &&
    forall k <- m.Keys :: exists i :: 0 <= i < |cs| && Lower(cs[i].name) == k
  }

  predicate DistinctNames(cs: seq<ColumnSnapshot>) {
    forall i, j :: 0 <= i < j < |cs| ==> Lower(cs[i].name) != Lower(cs[j].name)
  }

  lemma DistinctPrefix(cs: seq<ColumnSnapshot>)
    requires cs != [] && DistinctNames(cs)
    ensures DistinctNames(cs[..|cs| - 1])
    ensures forall c <- cs[..|cs| - 1] :: Lower(c.name) != Lower(cs[|cs| - 1].name)
  {
  }

  lemma OneMoreColumn(cs: seq<ColumnSnapshot>, c: ColumnSnapshot, m: map<string, Def>)
    requires IsColumnMap(cs, m) && forall d <- cs :: Lower(d.name) != Lower(c.name)
    ensures IsColumnMap(cs + [c], m[Lower(c.name) := c.def])
  {
    var ds := cs + [c];
    assert ds[|cs|] == c && forall i :: 0 <= i < |cs| ==> ds[i] == cs[i];
  }

  lemma {:induction false} ColumnMapHas(cs: seq<ColumnSnapshot>)
    requires DistinctNames(cs)
    ensures IsColumnMap(cs, ColumnMap(cs))
  {
    if cs != [] {
      var rest, last := cs[..|cs| - 1], cs[|cs| - 1];
      DistinctPrefix(cs);
      ColumnMapHas(rest);
      OneMoreColumn(rest, last, ColumnMap(rest));
      assert rest + [last] == cs;
    }
  }

  /** Reads the two CREATE TABLE statements, and takes no DEFAULT expression for a constant. */
  function Reading(os: seq<ColumnSnapshot>, ns: seq<ColumnSnapshot>): Engine {
    Engine(text => TableObject("t", if text == "CREATE" + (" TABLE" + OLD) then ColumnMap(os) else ColumnMap(ns)),
           text => None)
  }

  lemma TextsDiffer()
    ensures "CREATE" + (" TABLE" + OLD) != "CREATE" + (" TABLE" + NEW)
  {
    assert ("CREATE" + (" TABLE" + OLD))[16] == OLD[4] != NEW[4] == ("CREATE" + (" TABLE" + NEW))[16];
  }

  lemma ReadsBoth(os: seq<ColumnSnapshot>, ns: seq<ColumnSnapshot>)
    requires DistinctColumns(Table(OLD, os)) && DistinctColumns(Table(NEW, ns))
    ensures MadeBy(Reading(os, ns), Table(OLD, os), OLD, ColumnMap(os))
    ensures MadeBy(Reading(os, ns), Table(NEW, ns), NEW, ColumnMap(ns))
  {
    TextsDiffer();
    assert DistinctNames(os) && DistinctNames(ns);
    ColumnMapMatches(OLD, os);
    ColumnMapMatches(NEW, ns);
  }

  lemma ColumnMapMatches(rest: string, cs: seq<ColumnSnapshot>)
    requires DistinctNames(cs)
    ensures ColumnsMatch(Table(rest, cs), ColumnMap(cs))
  {
    ColumnMapHas(cs);
    MapMatches(Table(rest, cs), ColumnMap(cs));
  }

  lemma MapMatches(t: TableSnapshot, m: map<string, Def>)
    requires IsColumnMap(t.columns, m)
    ensures ColumnsMatch(t, m)
  {
  }

  /** Two tables whose columns leave nothing to review, made by their statements. */
  lemma TwoTables(os: seq<ColumnSnapshot>, ns: seq<ColumnSnapshot>, rows: seq<Row>)
    returns (e: Engine, before: SchemaSnapshot, after: SchemaSnapshot, c: Cat)
    requires var ot, nt := Table(OLD, os), Table(NEW, ns);
             DistinctColumns(ot) && DistinctColumns(nt) && |os| != |ns| &&
             ColumnsUpTo(ot, nt, |ns|).review == [] && DropsUpTo(ot, nt, |os|).review == []
    ensures before == OneTable(Table(OLD, os)) && after == OneTable(Table(NEW, ns))
    ensures e == Reading(os, ns) && c == OneTableCat(Table(OLD, os), ColumnMap(os), rows)
    ensures Unreviewed(e, before, after, c)
    ensures IndexEntries(before.tables[0].ddl) == [] && IndexEntries(after.tables[0].ddl) == []
  {
    var ot, nt := Table(OLD, os), Table(NEW, ns);
    e, before, after, c := Reading(os, ns), OneTable(ot), OneTable(nt), OneTableCat(ot, ColumnMap(os), rows);
    ReadsBoth(os, ns);
    OneTableIsGood(e, ot, OLD, ColumnMap(os));
    OneTableIsGood(e, nt, NEW, ColumnMap(ns));
    OneTableIsDescribed(e, ot, OLD, ColumnMap(os), rows);
    NoEntries(e, ot, OLD, ColumnMap(os));
    NoEntries(e, nt, NEW, ColumnMap(ns));
    OnlyColumns(ot, nt);
    OneTableReview(ot, nt);
  }

  lemma OneKeptTable(ot: TableSnapshot, nt: TableSnapshot)
    requires ot.name == nt.name
    ensures NoCaseClashes(OneTable(ot), OneTable(nt)) <==> NoCaseClash(ot, nt)
    ensures HintsAllTake(OneTable(ot), OneTable(nt)) <==> HintsTake(ot, nt)
  {
    var before, after := OneTable(ot), OneTable(nt);
    assert before.tables[0] == ot && after.tables[0] == nt;
    assert FindTable(before.tables, nt.name) == Some(ot);
  }

  lemma ShortNames()
    ensures Lower("a") == "a" && Lower("b") == "b" && Lower("x") == "x" && Lower("A") == "a"
  {
  }

  lemma FoundInOne(a: ColumnSnapshot, name: string)
    ensures FindColumn([a], name) == if a.name == name then Some(a) else None
  {
    assert [a][1..] == [];
  }

  lemma FoundInTwo(a: ColumnSnapshot, b: ColumnSnapshot, name: string)
    ensures FindColumn([a, b], name) == if a.name == name then Some(a) else if b.name == name then Some(b) else None
  {
    assert [a, b][1..] == [b];
    FoundInOne(b, name);
  }

  // ---- A hint that renames nothing ----

  /** Column `b` exists and is kept, but carries a hint on `a`, which is gone: `a` is neither renamed
      nor listed, the plan is empty and warns of nothing, and the database is not the new schema. */
  lemma IdleHintHidesDrop() returns (e: Engine, before: SchemaSnapshot, after: SchemaSnapshot, c: Cat)
    ensures Unreviewed(e, before, after, c) && DiffPlan(before, after) == NOTHING && !Describes(after, c)
  {
    var a, b, b' := Named("a", None), Named("b", None), Named("b", Some("a"));
    var os, ns := [a, b], [b'];
    var ot, nt := Table(OLD, os), Table(NEW, ns);
    ShortNames();
    IdleHintColumns(ot, nt, a, b, b');
    e, before, after, c := TwoTables(os, ns, []);
    IdleHintPlan(ot, nt);
    ColumnMapHas(os);
    assert os[0] == a && "a" in c.tables[Lower("t")].columns;
    NotDescribed(nt, c, "a");
  }

  lemma NotDescribed(nt: TableSnapshot, c: Cat, key: string)
    requires Lower(nt.name) in c.tables && key in c.tables[Lower(nt.name)].columns && !Names(nt, key)
    ensures !Describes(OneTable(nt), c)
  {
    assert OneTable(nt).tables[0] == nt;
  }

  lemma IdleHintColumns(ot: TableSnapshot, nt: TableSnapshot, a: ColumnSnapshot, b: ColumnSnapshot, b': ColumnSnapshot)
    requires ot.columns == [a, b] && nt.columns == [b'] && b'.name == b.name != a.name && b.def == b'.def
    requires b'.renamedFrom == Some(a.name)
    ensures ColumnsUpTo(ot, nt, 1) == NOTHING && DropsUpTo(ot, nt, 2) == NOTHING
  {
    FoundInTwo(a, b, b'.name);
    FoundInOne(b', a.name);
    FoundInOne(b', b.name);
    assert ColumnsUpTo(ot, nt, 1) == Then(NOTHING, NOTHING) == NOTHING;
    assert nt.columns[0] == b' && RenamedAway(nt, a.name);
    assert DropOf(nt)(a) == NOTHING && DropOf(nt)(b) == NOTHING;
    UpToOne(ot.columns, DropOf(nt));
    assert DropsUpTo(ot, nt, 2) == Then(DropsUpTo(ot, nt, 1), DropOf(nt)(ot.columns[1])) == NOTHING;
  }

  lemma UpToOne<T>(items: seq<T>, f: T -> Plan)
    requires items != [] && f(items[0]) == NOTHING
    ensures UpTo(items, f, 1) == NOTHING
  {
    assert UpTo(items, f, 1) == Then(UpTo(items, f, 0), f(items[0])) == Then(NOTHING, NOTHING) == NOTHING;
  }

  lemma IdleHintPlan(ot: TableSnapshot, nt: TableSnapshot)
    requires ot.name == nt.name && |ot.columns| != |nt.columns| && IndexEntries(ot.ddl) == [] &&
             IndexEntries(nt.ddl) == []
    requires ColumnsUpTo(ot, nt, |nt.columns|) == NOTHING && DropsUpTo(ot, nt, |ot.columns|) == NOTHING
    ensures DiffPlan(OneTable(ot), OneTable(nt)) == NOTHING
  {
    var before, after := OneTable(ot), OneTable(nt);
    EmptyTablePlan(ot, nt);
    assert before.tables == [ot] && after.tables == [nt];
    assert FindTable(before.tables, nt.name) == Some(ot) && FindTable(after.tables, ot.name) == Some(nt);
    UpToOne(after.tables, NewOf(before));
    UpToOne(before.tables, GoneOf(after));
    UpToOne(after.tables, KeptOf(before));
    assert TriggerDiff(before, after) == NOTHING;
  }

  lemma EmptyTablePlan(ot: TableSnapshot, nt: TableSnapshot)
    requires |ot.columns| != |nt.columns| && IndexEntries(ot.ddl) == [] && IndexEntries(nt.ddl) == []
    requires ColumnsUpTo(ot, nt, |nt.columns|) == NOTHING && DropsUpTo(ot, nt, |ot.columns|) == NOTHING
    ensures TablePlan(ot, nt) == NOTHING
  {
  }

  // ---- A default that existing rows do not take ----

  /** A new nullable column whose default is no constant stops the run as soon as the table has a row. */
  lemma DefaultStopsRun() returns (e: Engine, before: SchemaSnapshot, after: SchemaSnapshot, c: Cat)
    ensures Unreviewed(e, before, after, c) && NoCaseClashes(before, after) && HintsAllTake(before, after)
    ensures ExecAll(e, c, DiffPlan(before, after).safe) == None
  {
    ShortNames();
    var row: Row := map["a" := Null];
    e, before, after, c := DefaultStops(Named("a", None), ColumnSnapshot("b", Plain(Some("random()")), None), [row]);
  }

  lemma DefaultStops(a: ColumnSnapshot, b: ColumnSnapshot, rows: seq<Row>)
    returns (e: Engine, before: SchemaSnapshot, after: SchemaSnapshot, c: Cat)
    requires Lower(a.name) != Lower(b.name) && b.renamedFrom.None? && rows != []
    requires b.def.defaultSql.Some? && !b.def.pk && b.def.generated.None? && !b.def.notNull
    ensures Unreviewed(e, before, after, c) && NoCaseClashes(before, after) && HintsAllTake(before, after)
    ensures ExecAll(e, c, DiffPlan(before, after).safe) == None
  {
    var os, ns := [a], [a, b];
    var ot, nt := Table(OLD, os), Table(NEW, ns);
    DefaultColumns(ot, nt, a, b);
    e, before, after, c := TwoTables(os, ns, rows);
    OneKeptTable(ot, nt);
    DefaultMisfits(e, ot, nt, c, b);
  }

  lemma DefaultMisfits(e: Engine, ot: TableSnapshot, nt: TableSnapshot, c: Cat, b: ColumnSnapshot)
    requires ot.name == nt.name && Lower(nt.name) in c.tables && c.tables[Lower(nt.name)].rows != []
    requires ColumnsUpTo(ot, nt, |nt.columns|) == Safely(AddColumn(nt.name, b.name, b.def)) && !FillsRows(e, b.def)
    requires Unreviewed(e, OneTable(ot), OneTable(nt), c)
    ensures ExecAll(e, c, DiffPlan(OneTable(ot), OneTable(nt)).safe) == None
  {
    var before, after := OneTable(ot), OneTable(nt);
    assert after.tables[0] == nt && FindTable(before.tables, nt.name) == Some(ot);
    var ss := ColumnsUpTo(ot, nt, |nt.columns|).safe;
    assert ss[0] == AddColumn(nt.name, b.name, b.def);
    assert !DefaultsFitTable(e, before, after, c, 0);
    DiffIsCorrect(e, before, after, c);
  }

  lemma DefaultColumns(ot: TableSnapshot, nt: TableSnapshot, a: ColumnSnapshot, b: ColumnSnapshot)
    requires ot.columns == [a] && nt.columns == [a, b] && Lower(a.name) != Lower(b.name) && b.renamedFrom.None?
    requires !b.def.pk && b.def.generated.None? && !b.def.notNull
    ensures ColumnsUpTo(ot, nt, 2) == Safely(AddColumn(nt.name, b.name, b.def)) && DropsUpTo(ot, nt, 1).review == []
    ensures NoCaseClash(ot, nt) && HintsTake(ot, nt)
  {
    FoundInOne(a, a.name);
    FoundInOne(a, b.name);
    FoundInTwo(a, b, a.name);
    assert ColumnsUpTo(ot, nt, 1) == Then(NOTHING, NOTHING) == NOTHING;
    AddedLast(ot, nt, b);
    NoDrops(ot, nt, 1);
  }

  lemma AddedLast(ot: TableSnapshot, nt: TableSnapshot, b: ColumnSnapshot)
    requires |nt.columns| == 2 && nt.columns[1] == b && !HasColumn(ot, b.name) && b.renamedFrom.None?
    requires !b.def.pk && b.def.generated.None? && !b.def.notNull && ColumnsUpTo(ot, nt, 1) == NOTHING
    ensures ColumnsUpTo(ot, nt, 2) == Safely(AddColumn(nt.name, b.name, b.def))
  {
    var add := Safely(AddColumn(nt.name, b.name, b.def));
    assert ColumnPlan(ot, nt, b, TakenUpTo(ot, nt, 1)) == Then(NOTHING, add) == add;
    assert ColumnsUpTo(ot, nt, 2) == Then(NOTHING, add) == add;
  }

  // ---- A new column that differs from an old one in case only ----

  /** Column `A` is renamed to `x`, and a new column `a` comes before `x`: adding `a` fails, because `A`
      is still there. */
  lemma CaseClashStopsRun() returns (e: Engine, before: SchemaSnapshot, after: SchemaSnapshot, c: Cat)
    ensures Unreviewed(e, before, after, c) && DefaultsFit(e, before, after, c) && HintsAllTake(before, after)
    ensures ExecAll(e, c, DiffPlan(before, after).safe) == None
  {
    var o, a, x := Named("A", None), Named("a", None), Named("x", Some("A"));
    var os, ns := [o], [a, x];
    var ot, nt := Table(OLD, os), Table(NEW, ns);
    ShortNames();
    ClashColumns(ot, nt, o, a, x);
    e, before, after, c := TwoTables(os, ns, []);
    OneKeptTable(ot, nt);
    assert DefaultsFit(e, before, after, c);
    DiffIsCorrect(e, before, after, c);
  }

  predicate Clashing(ot: TableSnapshot, nt: TableSnapshot, o: ColumnSnapshot, a: ColumnSnapshot, x: ColumnSnapshot) {
    ot.columns == [o] && nt.columns == [a, x] && o.name != a.name && o.name != x.name &&
    Lower(o.name) == Lower(a.name) && a.renamedFrom.None? && x.renamedFrom == Some(o.name) &&
    o.def == a.def == x.def == Plain(None)
  }

  lemma ClashColumns(ot: TableSnapshot, nt: TableSnapshot, o: ColumnSnapshot, a: ColumnSnapshot, x: ColumnSnapshot)
    requires Clashing(ot, nt, o, a, x)
    ensures ColumnsUpTo(ot, nt, 2).review == [] && DropsUpTo(ot, nt, 1).review == []
    ensures !NoCaseClash(ot, nt) && HintsTake(ot, nt)
  {
    ClashPlans(ot, nt, o, a, x);
    FoundInOne(o, a.name);
    FoundInOne(o, x.name);
    FoundInTwo(a, x, o.name);
    assert nt.columns[0] == a && nt.columns[1] == x && ot.columns[0] == o;
    assert !FreeAt(ot, nt, 0);
    assert TakenByNew(ot, nt, o.name) && RenamedAway(nt, o.name);
    NoDrops(ot, nt, 1);
  }

  lemma ClashPlans(ot: TableSnapshot, nt: TableSnapshot, o: ColumnSnapshot, a: ColumnSnapshot, x: ColumnSnapshot)
    requires Clashing(ot, nt, o, a, x)
    ensures ColumnsUpTo(ot, nt, 2).review == [] && TakenUpTo(ot, nt, 1) == {}
  {
    FoundInOne(o, a.name);
    FoundInOne(o, x.name);
    FoundInOne(o, o.name);
    FoundInTwo(a, x, o.name);
    assert ColumnPlan(ot, nt, a, {}) == Then(NOTHING, Safely(AddColumn(nt.name, a.name, a.def)));
    assert ColumnsUpTo(ot, nt, 1) == Then(NOTHING, ColumnPlan(ot, nt, a, {}));
    assert Consumes(ot, nt, x, {}) && ColumnPlan(ot, nt, x, {}) == Safely(RenameColumn(nt.name, o.name, x.name));
  }
}
