/** SQLite's schema catalog with its rows, and what each safe statement does to it. Names are keyed
    by their lower-case form, because SQLite compares them without case. */
module Catalog {
  import opened Values
  import opened SqlText
  import opened Snapshot
  import opened Diff

  /** What SQLite reads in a CREATE statement; `keys` are the columns an index needs. */
  datatype Object =
    | TableObject(table: string, columns: map<string, Def>)
    | IndexObject(index: string, table: string, keys: set<string>)
    | TriggerObject(trigger: string, table: string)
    | NoObject

  /** SQLite's parser, as an oracle: CREATE statements, and the value of a DEFAULT expression when it
      is a constant. */
  datatype Engine = Engine(read: string -> Object, constant: string -> Option<Value>)

  datatype Tab = Tab(columns: map<string, Def>, rows: seq<Row>)

  datatype Index = Index(table: string, text: string)

  datatype Cat = Cat(tables: map<string, Tab>, indexes: map<string, Index>, triggers: map<string, string>)

  /** The value an added column has in existing rows. */
  function Fill(e: Engine, d: Def): Value {
    if d.defaultSql.None? then Null
    else if e.constant(d.defaultSql.value).None? then Null
    else e.constant(d.defaultSql.value).value
  }

  /** Existing rows accept only a constant default, and only a non-NULL one under NOT NULL. */
  predicate FillsRows(e: Engine, d: Def) {
    (d.defaultSql.Some? ==> e.constant(d.defaultSql.value).Some?) && (d.notNull ==> Fill(e, d) != Null)
  }

  function FilledRows(rows: seq<Row>, column: string, v: Value): (r: seq<Row>)
    ensures |r| == |rows| && forall i :: 0 <= i < |rows| ==> r[i] == rows[i][column := v]
  {
    if rows == [] then [] else [rows[0][column := v]] + FilledRows(rows[1..], column, v)
  }

  function RenamedKey<T>(m: map<string, T>, a: string, b: string): map<string, T> {
    if a in m then (m - {a})[b := m[a]] else m
  }

  function RenamedRows(rows: seq<Row>, a: string, b: string): (r: seq<Row>)
    ensures |r| == |rows| && forall i :: 0 <= i < |rows| ==> r[i] == RenamedKey(rows[i], a, b)
  {
    if rows == [] then [] else [RenamedKey(rows[0], a, b)] + RenamedRows(rows[1..], a, b)
  }

  function Added(e: Engine, t: Tab, column: string, d: Def): Option<Tab> {
    if column in t.columns || d.pk || d.generated.Some? || (t.rows != [] && !FillsRows(e, d)) then None
    else Some(Tab(t.columns[column := d], FilledRows(t.rows, column, Fill(e, d))))
  }

  function Renamed(t: Tab, a: string, b: string): Option<Tab> {
    if a !in t.columns || (b in t.columns && a != b) then None
    else Some(Tab(RenamedKey(t.columns, a, b), RenamedRows(t.rows, a, b)))
  }

  function Created(e: Engine, c: Cat, text: string): Option<Cat> {
    match e.read(text)
    case TableObject(t, columns) =>
      if Lower(t) in c.tables || Lower(t) in c.indexes then None
      else Some(c.(tables := c.tables[Lower(t) := Tab(columns, [])]))
    case IndexObject(i, t, keys) =>
      if Lower(i) in c.indexes || Lower(i) in c.tables || Lower(t) !in c.tables then None
      else if !(keys <= c.tables[Lower(t)].columns.Keys) then None
      else Some(c.(indexes := c.indexes[Lower(i) := Index(Lower(t), Normalized(text))]))
    case TriggerObject(n, t) =>
      if Lower(n) in c.triggers || Lower(t) !in c.tables then None
      else Some(c.(triggers := c.triggers[Lower(n) := Normalized(text)]))
    case NoObject => None
  }

  /** A column statement changes one table. */
  function Altered(e: Engine, t: Tab, s: Stmt): Option<Tab>
    requires s.AddColumn? || s.RenameColumn?
  {
    match s
    case AddColumn(_, column, d) => Added(e, t, Lower(column), d)
    case RenameColumn(_, a, b) => Renamed(t, Lower(a), Lower(b))
  }

  function Exec(e: Engine, c: Cat, s: Stmt): Option<Cat> {
    match s
    case Ddl(text) => Created(e, c, text)
    case DropTrigger(n) =>
      if Lower(n) in c.triggers then Some(c.(triggers := c.triggers - {Lower(n)})) else None
    case _ =>
      if Lower(s.table) !in c.tables then None else
      var t := Altered(e, c.tables[Lower(s.table)], s);
      if t.None? then None else Some(c.(tables := c.tables[Lower(s.table) := t.value]))
  }

  function ExecAll(e: Engine, c: Cat, ss: seq<Stmt>): Option<Cat>
    decreases |ss|
  {
    if ss == [] then Some(c) else
    var c' := Exec(e, c, ss[0]);
    if c'.None? then None else ExecAll(e, c'.value, ss[1..])
  }

  lemma {:induction false} ExecAllSplit(e: Engine, c: Cat, a: seq<Stmt>, b: seq<Stmt>)
    ensures var m := ExecAll(e, c, a);
            ExecAll(e, c, a + b) == if m.None? then None else ExecAll(e, m.value, b)
    decreases |a|
  {
    if a == [] {
      assert a + b == b;
    } else {
      assert (a + b)[0] == a[0] && (a + b)[1..] == a[1..] + b;
      var c' := Exec(e, c, a[0]);
      if c'.Some? { ExecAllSplit(e, c'.value, a[1..], b); }
    }
  }

  lemma ExecOne(e: Engine, c: Cat, s: Stmt)
    ensures ExecAll(e, c, [s]) == Exec(e, c, s)
  {
  }

  // ---- What a snapshot says about a catalog ----

  ghost predicate ColumnsMatch(t: TableSnapshot, columns: map<string, Def>) {
    (forall i :: 0 <= i < |t.columns| ==>
       Lower(t.columns[i].name) in columns && columns[Lower(t.columns[i].name)] == t.columns[i].def) &&
    (forall k <- columns.Keys :: Names(t, k))
  }

  predicate Names(t: TableSnapshot, key: string) {
    exists i :: 0 <= i < |t.columns| && Lower(t.columns[i].name) == key
  }

  predicate TableNamed(s: SchemaSnapshot, key: string) {
    exists i :: 0 <= i < |s.tables| && Lower(s.tables[i].name) == key
  }

  /** Index `l` of table `j`. */
  predicate IsEntry(s: SchemaSnapshot, j: nat, l: nat) {
    j < |s.tables| && l < |IndexEntries(s.tables[j].ddl)|
  }

  function EntryKey(s: SchemaSnapshot, j: nat, l: nat): string
    requires IsEntry(s, j, l)
  {
    Lower(IndexEntries(s.tables[j].ddl)[l].0)
  }

  function EntryIndex(s: SchemaSnapshot, j: nat, l: nat): Index
    requires IsEntry(s, j, l)
  {
    Index(Lower(s.tables[j].name), Normalized(IndexEntries(s.tables[j].ddl)[l].1))
  }

  /** Of the indexes of `s`, exactly those in `built` exist, and no others. */
  ghost predicate IndexesAre(s: SchemaSnapshot, built: set<(nat, nat)>, indexes: map<string, Index>) {
    (forall j: nat, l: nat :: IsEntry(s, j, l) ==> EntryIs(s, j, l, (j, l) in built, indexes)) &&
    (forall k <- indexes.Keys :: BuiltKey(s, built, k))
  }

  predicate EntryIs(s: SchemaSnapshot, j: nat, l: nat, there: bool, indexes: map<string, Index>)
    requires IsEntry(s, j, l)
  {
    var k := EntryKey(s, j, l);
    if there then k in indexes && indexes[k] == EntryIndex(s, j, l) else k !in indexes
  }

  ghost predicate BuiltKey(s: SchemaSnapshot, built: set<(nat, nat)>, key: string) {
    exists p <- built :: IsEntry(s, p.0, p.1) && EntryKey(s, p.0, p.1) == key
  }

  ghost predicate AllBuilt(s: SchemaSnapshot, built: set<(nat, nat)>) {
    forall j: nat, l: nat :: IsEntry(s, j, l) ==> (j, l) in built
  }

  ghost predicate TriggersMatch(s: SchemaSnapshot, triggers: map<string, string>) {
    (forall i :: 0 <= i < |s.triggers| ==>
       Lower(s.triggers[i].name) in triggers && triggers[Lower(s.triggers[i].name)] == Normalized(s.triggers[i].sql)) &&
    (forall k <- triggers.Keys :: TriggerNamed(s, k))
  }

  predicate TriggerNamed(s: SchemaSnapshot, key: string) {
    exists i :: 0 <= i < |s.triggers| && Lower(s.triggers[i].name) == key
  }

  /** The catalog has exactly the tables, columns, indexes and triggers of the snapshot, up to column
      order, ASCII case of names and white space outside quotes. */
  ghost predicate Describes(s: SchemaSnapshot, c: Cat) {
    (forall k :: k in c.tables <==> TableNamed(s, k)) &&
    (forall i :: 0 <= i < |s.tables| ==> ColumnsMatch(s.tables[i], c.tables[Lower(s.tables[i].name)].columns)) &&
    (exists built :: AllBuilt(s, built) && IndexesAre(s, built, c.indexes)) &&
    TriggersMatch(s, c.triggers)
  }

  // ---- Well-formed snapshots ----

  predicate DistinctColumns(t: TableSnapshot) {
    forall i, j :: 0 <= i < j < |t.columns| ==> Lower(t.columns[i].name) != Lower(t.columns[j].name)
  }

  /** The first statement creates the table, the others its indexes, on columns it has. */
  ghost predicate GoodTable(e: Engine, t: TableSnapshot) {
    DistinctColumns(t) && t.ddl != [] && IndexName(t.ddl[0]).None? &&
    (var o := e.read(t.ddl[0]); o.TableObject? && o.table == t.name && ColumnsMatch(t, o.columns)) &&
    (forall l :: 1 <= l < |t.ddl| ==> IndexName(t.ddl[l]).Some?) &&
    forall l :: 0 <= l < |IndexEntries(t.ddl)| ==> GoodIndex(e, t, IndexEntries(t.ddl)[l])
  }

  ghost predicate GoodIndex(e: Engine, t: TableSnapshot, entry: (string, string)) {
    var o := e.read(entry.1);
    o.IndexObject? && o.index == entry.0 && o.table == t.name && forall k <- o.keys :: Names(t, k)
  }

  ghost predicate GoodTrigger(e: Engine, s: SchemaSnapshot, t: TriggerSnapshot) {
    var o := e.read(t.sql);
    o.TriggerObject? && o.trigger == t.name && TableNamed(s, Lower(o.table))
  }

  predicate DistinctTables(s: SchemaSnapshot) {
    forall i, j :: 0 <= i < j < |s.tables| ==> Lower(s.tables[i].name) != Lower(s.tables[j].name)
  }

  ghost predicate DistinctEntries(s: SchemaSnapshot) {
    forall j: nat, l: nat, j': nat, l': nat ::
      IsEntry(s, j, l) && IsEntry(s, j', l') && EntryKey(s, j, l) == EntryKey(s, j', l') ==> j == j' && l == l'
  }

  ghost predicate EntriesAreNotTables(s: SchemaSnapshot) {
    forall j: nat, l: nat :: IsEntry(s, j, l) ==> !TableNamed(s, EntryKey(s, j, l))
  }

  predicate DistinctTriggers(s: SchemaSnapshot) {
    forall i, j :: 0 <= i < j < |s.triggers| ==> Lower(s.triggers[i].name) != Lower(s.triggers[j].name)
  }

  /** What SQLite demands of a schema that exists: names unique without case, indexes and tables in
      one name space, and statements that create what the snapshot lists. */
  ghost predicate GoodSchema(e: Engine, s: SchemaSnapshot) {
    DistinctTables(s) && DistinctEntries(s) && EntriesAreNotTables(s) && DistinctTriggers(s) &&
    (forall i :: 0 <= i < |s.tables| ==> GoodTable(e, s.tables[i])) &&
    (forall i :: 0 <= i < |s.triggers| ==> GoodTrigger(e, s, s.triggers[i]))
  }
}
