/** Safe statements keep data: whatever the review list holds, every stored value survives any
    prefix of them, in the column of its own name or of the one rename that took it. */
module DiffData {
  import opened Values
  import opened SqlText
  import opened Snapshot
  import opened Diff
  import opened Catalog
  import opened DiffColumns
  import opened DiffStages
  import opened DiffCorrect

  /** Each row has a value for each column. */
  predicate RowsFit(t: Tab) {
    forall i :: 0 <= i < |t.rows| ==> t.rows[i].Keys == t.columns.Keys
  }

  predicate Fits(c: Cat) {
    forall k <- c.tables.Keys :: RowsFit(c.tables[k])
  }

  function MovedBy(s: Stmt, key: string, column: string): string {
    if s.RenameColumn? && Lower(s.table) == key && Lower(s.source) == column then Lower(s.target) else column
  }

  /** Where a column of table `key` is after the statements. */
  function Moved(ss: seq<Stmt>, key: string, column: string): string {
    if ss == [] then column else Moved(ss[1..], key, MovedBy(ss[0], key, column))
  }

  /** Each value of `t` is found in `t'`, at the place `f` gives its column, and no two share one. */
  ghost predicate Preserves(t: Tab, t': Tab, f: string -> string) {
    |t'.rows| == |t.rows| && MapsInto(t.columns.Keys, t'.columns.Keys, f) &&
    forall i :: 0 <= i < |t.rows| ==> SameValues(t.columns.Keys, t.rows[i], t'.rows[i], f)
  }

  predicate SameValues(keys: set<string>, row: Row, row': Row, f: string -> string) {
    forall x <- keys :: x in row && f(x) in row' && row'[f(x)] == row[x]
  }

  lemma AddPreserves(e: Engine, t: Tab, column: string, d: Def)
    requires RowsFit(t) && Added(e, t, column, d).Some?
    ensures RowsFit(Added(e, t, column, d).value) && Preserves(t, Added(e, t, column, d).value, x => x)
  {
  }

  lemma RenamePreserves(t: Tab, a: string, b: string)
    requires RowsFit(t) && Renamed(t, a, b).Some?
    ensures RowsFit(Renamed(t, a, b).value)
    ensures Preserves(t, Renamed(t, a, b).value, x => if x == a then b else x)
  {
  }

  /** One statement on any table. */
  lemma ExecPreserves(e: Engine, c: Cat, s: Stmt, key: string)
    requires Exec(e, c, s).Some? && key in c.tables && Fits(c)
    ensures var c' := Exec(e, c, s).value;
            key in c'.tables && Preserves(c.tables[key], c'.tables[key], x => MovedBy(s, key, x))
  {
    var c' := Exec(e, c, s).value;
    var t := c.tables[key];
    assert RowsFit(t);
    if s.AddColumn? && Lower(s.table) == key {
      AddPreserves(e, t, Lower(s.column), s.def);
      SameMap(t, c'.tables[key], x => x, x => MovedBy(s, key, x));
    } else if s.RenameColumn? && Lower(s.table) == key {
      RenamePreserves(t, Lower(s.source), Lower(s.target));
      SameMap(t, c'.tables[key], x => if x == Lower(s.source) then Lower(s.target) else x, x => MovedBy(s, key, x));
    } else {
      assert c'.tables[key] == t;
    }
  }

  lemma SameMap(t: Tab, t': Tab, f: string -> string, g: string -> string)
    requires Preserves(t, t', f) && forall x :: f(x) == g(x)
    ensures Preserves(t, t', g)
  {
  }

  lemma ExecFits(e: Engine, c: Cat, s: Stmt)
    requires Exec(e, c, s).Some? && Fits(c)
    ensures Fits(Exec(e, c, s).value)
  {
  }

  predicate MapsInto(a: set<string>, b: set<string>, f: string -> string) {
    (forall x <- a :: f(x) in b) && (forall x <- a, y <- a :: f(x) == f(y) ==> x == y)
  }

  lemma PreservesTwice(t: Tab, t1: Tab, t2: Tab, f: string -> string, g: string -> string, h: string -> string)
    requires Preserves(t, t1, f) && Preserves(t1, t2, g) && forall x :: h(x) == g(f(x))
    ensures Preserves(t, t2, h)
  {
  }

  lemma {:induction false} RunPreserves(e: Engine, c: Cat, ss: seq<Stmt>, key: string)
    requires ExecAll(e, c, ss).Some? && key in c.tables && Fits(c)
    ensures var c' := ExecAll(e, c, ss).value;
            key in c'.tables && Preserves(c.tables[key], c'.tables[key], x => Moved(ss, key, x))
    decreases |ss|
  {
    var t := c.tables[key];
    var f := x => Moved(ss, key, x);
    if ss == [] {
      assert RowsFit(t);
      forall i | 0 <= i < |t.rows| ensures SameValues(t.columns.Keys, t.rows[i], t.rows[i], f) {}
    } else {
      var c1 := Exec(e, c, ss[0]).value;
      ExecPreserves(e, c, ss[0], key);
      ExecFits(e, c, ss[0]);
      RunPreserves(e, c1, ss[1..], key);
      var t2 := ExecAll(e, c, ss).value.tables[key];
      PreservesTwice(t, c1.tables[key], t2, x => MovedBy(ss[0], key, x), x => Moved(ss[1..], key, x), f);
    }
  }

  // ---- No column moves twice ----

  predicate SameTable(s: Stmt, s': Stmt) {
    s.RenameColumn? && s'.RenameColumn? && Lower(s.table) == Lower(s'.table)
  }

  /** Two renames of one table differ in source and in target. */
  predicate Apart(s: Stmt, s': Stmt) {
    SameTable(s, s') ==> Lower(s.source) != Lower(s'.source) && Lower(s.target) != Lower(s'.target)
  }

  predicate AllApart(ss: seq<Stmt>) {
    forall i, j :: 0 <= i < j < |ss| ==> Apart(ss[i], ss[j])
  }

  /** The second rename takes what the first one made. */
  predicate Onward(s: Stmt, s': Stmt) {
    SameTable(s, s') && Lower(s.target) == Lower(s'.source)
  }

  predicate NoneOnward(ss: seq<Stmt>) {
    forall i, j :: 0 <= i < j < |ss| ==> !Onward(ss[i], ss[j])
  }

  lemma ApartSplit(a: seq<Stmt>, b: seq<Stmt>)
    requires AllApart(a) && AllApart(b) && forall i, j :: 0 <= i < |a| && 0 <= j < |b| ==> Apart(a[i], b[j])
    ensures AllApart(a + b)
  {
  }

  predicate IsRename(s: Stmt, key: string, a: string, b: string) {
    s.RenameColumn? && Lower(s.table) == key && Lower(s.source) == a && Lower(s.target) == b
  }

  /** Without a rename of it, a column stays. */
  lemma {:induction false} NotMoved(ss: seq<Stmt>, key: string, column: string)
    requires forall i :: 0 <= i < |ss| && ss[i].RenameColumn? && Lower(ss[i].table) == key ==>
               Lower(ss[i].source) != column
    ensures Moved(ss, key, column) == column
  {
    if ss != [] { NotMoved(ss[1..], key, column); }
  }

  lemma {:induction false} MovedOnce(ss: seq<Stmt>, key: string, column: string)
    requires NoneOnward(ss)
    ensures Moved(ss, key, column) == column ||
            exists i :: 0 <= i < |ss| && IsRename(ss[i], key, column, Moved(ss, key, column))
  {
    if ss != [] {
      var rest := ss[1..];
      var next := MovedBy(ss[0], key, column);
      if next == column {
        MovedOnce(rest, key, column);
        if Moved(rest, key, column) != column {
          var i :| 0 <= i < |rest| && IsRename(rest[i], key, column, Moved(rest, key, column));
          assert ss[i + 1] == rest[i];
        }
      } else {
        forall i | 0 <= i < |rest| && rest[i].RenameColumn? && Lower(rest[i].table) == key
          ensures Lower(rest[i].source) != next
        {
          assert !Onward(ss[0], ss[i + 1]);
        }
        NotMoved(rest, key, next);
        assert IsRename(ss[0], key, column, Moved(ss, key, column));
      }
    }
  }

  // ---- The diff renames each column once ----

  /** A rename of the plan takes an old column that is gone to a new column that was not there. */
  ghost predicate TakesTo(ot: TableSnapshot, nt: TableSnapshot, k: nat, s: Stmt)
    requires k <= |nt.columns|
  {
    AltersTable(s, nt.name) &&
    (s.RenameColumn? ==> (
       s.source in TakenUpTo(ot, nt, k) && HasColumn(ot, s.source) && !HasColumn(nt, s.source) &&
       exists j :: 0 <= j < k && nt.columns[j].name == s.target
     ))
  }

  lemma {:induction false} ColumnRenames(ot: TableSnapshot, nt: TableSnapshot, k: nat)
    requires k <= |nt.columns| && DistinctColumns(ot) && DistinctColumns(nt)
    ensures forall i :: 0 <= i < |ColumnsUpTo(ot, nt, k).safe| ==> TakesTo(ot, nt, k, ColumnsUpTo(ot, nt, k).safe[i])
    ensures AllApart(ColumnsUpTo(ot, nt, k).safe)
    decreases k
  {
    if k > 0 {
      var n := k - 1;
      assert n + 1 == k;
      ColumnRenames(ot, nt, n);
      NextRename(ot, nt, n, ColumnsUpTo(ot, nt, n).safe);
    }
  }

  lemma NextRename(ot: TableSnapshot, nt: TableSnapshot, k: nat, ss: seq<Stmt>)
    requires k < |nt.columns| && DistinctColumns(ot) && DistinctColumns(nt)
    requires ss == ColumnsUpTo(ot, nt, k).safe && AllApart(ss)
    requires forall i :: 0 <= i < |ss| ==> TakesTo(ot, nt, k, ss[i])
    ensures var ss' := ColumnsUpTo(ot, nt, k + 1).safe;
            AllApart(ss') && forall i :: 0 <= i < |ss'| ==> TakesTo(ot, nt, k + 1, ss'[i])
  {
    var more := ColumnPlan(ot, nt, nt.columns[k], TakenUpTo(ot, nt, k)).safe;
    OneRename(ot, nt, k);
    forall i | 0 <= i < |ss| ensures TakesTo(ot, nt, k + 1, ss[i]) { TakesToMore(ot, nt, k, ss[i]); }
    forall i, j | 0 <= i < |ss| && 0 <= j < |more|
      ensures Apart(ss[i], more[j])
    {
      RenamesApart(ot, nt, k, ss[i], more[j]);
    }
    ApartSplit(ss, more);
  }

  lemma TakesToMore(ot: TableSnapshot, nt: TableSnapshot, k: nat, s: Stmt)
    requires k < |nt.columns| && TakesTo(ot, nt, k, s)
    ensures TakesTo(ot, nt, k + 1, s)
  {
  }

  /** One column: nothing, an ADD COLUMN, or the rename of a source not taken before. */
  lemma PlanShape(ot: TableSnapshot, nt: TableSnapshot, c: ColumnSnapshot, taken: set<string>)
    ensures var more := ColumnPlan(ot, nt, c, taken).safe;
            more == [] || more == [AddColumn(nt.name, c.name, c.def)] ||
            (Consumes(ot, nt, c, taken) && more == [RenameColumn(nt.name, c.renamedFrom.value, c.name)])
  {
    if Consumes(ot, nt, c, taken) { FoundColumn(ot.columns, c.renamedFrom.value); }
  }

  lemma OneRename(ot: TableSnapshot, nt: TableSnapshot, k: nat)
    requires k < |nt.columns|
    ensures var more := ColumnPlan(ot, nt, nt.columns[k], TakenUpTo(ot, nt, k)).safe;
            AllApart(more) && forall j :: 0 <= j < |more| ==>
              NewRename(ot, nt, k, more[j]) && TakesTo(ot, nt, k + 1, more[j])
  {
    var c, taken := nt.columns[k], TakenUpTo(ot, nt, k);
    PlanShape(ot, nt, c, taken);
    if Consumes(ot, nt, c, taken) { RenameShape(ot, nt, k); }
    OneStatement(ot, nt, k, ColumnPlan(ot, nt, c, taken).safe);
  }

  lemma OneStatement(ot: TableSnapshot, nt: TableSnapshot, k: nat, more: seq<Stmt>)
    requires k < |nt.columns| && |more| <= 1
    requires more != [] ==> AltersTable(more[0], nt.name)
    requires more != [] && more[0].RenameColumn? ==>
               NewRename(ot, nt, k, more[0]) && TakesTo(ot, nt, k + 1, more[0])
    ensures AllApart(more) && forall j :: 0 <= j < |more| ==>
              NewRename(ot, nt, k, more[j]) && TakesTo(ot, nt, k + 1, more[j])
  {
  }

  lemma RenameShape(ot: TableSnapshot, nt: TableSnapshot, k: nat)
    requires k < |nt.columns| && Consumes(ot, nt, nt.columns[k], TakenUpTo(ot, nt, k))
    ensures var s := RenameColumn(nt.name, nt.columns[k].renamedFrom.value, nt.columns[k].name);
            NewRename(ot, nt, k, s) && TakesTo(ot, nt, k + 1, s)
  {
    assert TakenUpTo(ot, nt, k + 1) == TakenUpTo(ot, nt, k) + {nt.columns[k].renamedFrom.value};
  }

  predicate NewRename(ot: TableSnapshot, nt: TableSnapshot, k: nat, s: Stmt)
    requires k < |nt.columns|
  {
    s.RenameColumn? ==>
      s.source !in TakenUpTo(ot, nt, k) && s.target == nt.columns[k].name && HasColumn(ot, s.source) &&
        !HasColumn(nt, s.source)
  }

  lemma RenamesApart(ot: TableSnapshot, nt: TableSnapshot, k: nat, s: Stmt, s': Stmt)
    requires k < |nt.columns| && DistinctColumns(ot) && DistinctColumns(nt)
    requires TakesTo(ot, nt, k, s) && NewRename(ot, nt, k, s')
    ensures Apart(s, s')
  {
    if SameTable(s, s') {
      var i := Position(ot, s.source);
      var i' := Position(ot, s'.source);
      var j :| 0 <= j < k && nt.columns[j].name == s.target;
    }
  }

  predicate GoodNames(before: SchemaSnapshot, after: SchemaSnapshot) {
    DistinctTables(after) &&
    (forall i :: 0 <= i < |before.tables| ==> DistinctColumns(before.tables[i])) &&
    forall j :: 0 <= j < |after.tables| ==> DistinctColumns(after.tables[j])
  }

  predicate RenamesIn(ss: seq<Stmt>, table: string) {
    forall i :: 0 <= i < |ss| && ss[i].RenameColumn? ==> ss[i].table == table
  }

  lemma ApartWithDdl(a: seq<Stmt>, b: seq<Stmt>, table: string)
    requires AllApart(a) && AllAlter(a, table) && NoRenames(b)
    ensures AllApart(a + b) && RenamesIn(a + b, table)
  {
  }

  lemma IndexesDoNotRename(ois: seq<(string, string)>, nis: seq<(string, string)>)
    ensures NoRenames(IndexesUpTo(ois, nis, |nis|).safe)
  {
    forall j | 0 <= j < |nis| ensures NoRenames(IndexOf(ois)(nis[j]).safe) {
      assert IndexOf(ois)(nis[j]) == IndexPlan(ois, nis[j]);
    }
    OnlyDdl(nis, IndexOf(ois), |nis|);
  }

  lemma TableRenames(ot: TableSnapshot, nt: TableSnapshot)
    requires DistinctColumns(ot) && DistinctColumns(nt)
    ensures AllApart(TablePlan(ot, nt).safe) && RenamesIn(TablePlan(ot, nt).safe, nt.name)
  {
    TableStatements(ot, nt);
    ColumnRenames(ot, nt, |nt.columns|);
    ColumnStatements(ot, nt, |nt.columns|);
    IndexesDoNotRename(IndexEntries(ot.ddl), IndexEntries(nt.ddl));
    ApartWithDdl(ColumnsUpTo(ot, nt, |nt.columns|).safe,
                 IndexesUpTo(IndexEntries(ot.ddl), IndexEntries(nt.ddl), |IndexEntries(nt.ddl)|).safe, nt.name);
  }

  lemma KeptRenames(before: SchemaSnapshot, after: SchemaSnapshot, j: nat)
    requires j < |after.tables| && GoodNames(before, after)
    ensures AllApart(KeptOf(before)(after.tables[j]).safe) &&
            RenamesIn(KeptOf(before)(after.tables[j]).safe, after.tables[j].name)
  {
    var nt := after.tables[j];
    if Kept(before, nt) {
      FoundTable(before.tables, nt.name);
      TableRenames(FindTable(before.tables, nt.name).value, nt);
    } else {
      assert KeptOf(before)(nt) == NOTHING;
    }
  }

  predicate NoRenames(ss: seq<Stmt>) {
    forall i :: 0 <= i < |ss| ==> !ss[i].RenameColumn?
  }

  lemma {:induction false} OnlyDdl<T>(items: seq<T>, f: T -> Plan, k: nat)
    requires k <= |items| && forall j :: 0 <= j < k ==> NoRenames(f(items[j]).safe)
    ensures NoRenames(UpTo(items, f, k).safe)
  {
    if k > 0 { OnlyDdl(items, f, k - 1); }
  }

  /** The renames of the first `k` tables are apart, and each is on one of those tables. */
  predicate ApartAmong(after: SchemaSnapshot, k: nat, ss: seq<Stmt>)
    requires k <= |after.tables|
  {
    AllApart(ss) && forall i :: 0 <= i < |ss| && ss[i].RenameColumn? ==> AmongTables(after, k, ss[i].table)
  }

  lemma {:induction false} EachApart(after: SchemaSnapshot, f: TableSnapshot -> Plan, k: nat)
    requires k <= |after.tables| && DistinctTables(after)
    requires forall j :: 0 <= j < k ==>
               AllApart(f(after.tables[j]).safe) && RenamesIn(f(after.tables[j]).safe, after.tables[j].name)
    ensures ApartAmong(after, k, UpTo(after.tables, f, k).safe)
    decreases k
  {
    if k > 0 {
      var n := k - 1;
      assert n + 1 == k;
      EachApart(after, f, n);
      NextTableApart(after, n, UpTo(after.tables, f, n), f(after.tables[n]));
    }
  }

  lemma TablesApart(before: SchemaSnapshot, after: SchemaSnapshot)
    requires GoodNames(before, after)
    ensures ApartAmong(after, |after.tables|, KeptTablesUpTo(before, after, |after.tables|).safe)
  {
    forall j | 0 <= j < |after.tables|
      ensures AllApart(KeptOf(before)(after.tables[j]).safe)
      ensures RenamesIn(KeptOf(before)(after.tables[j]).safe, after.tables[j].name)
    {
      KeptRenames(before, after, j);
    }
    EachApart(after, KeptOf(before), |after.tables|);
  }

  predicate AmongTables(after: SchemaSnapshot, k: nat, table: string)
    requires k <= |after.tables|
  {
    exists j :: 0 <= j < k && after.tables[j].name == table
  }

  lemma NextTableApart(after: SchemaSnapshot, k: nat, a: Plan, b: Plan)
    requires k < |after.tables| && DistinctTables(after) && ApartAmong(after, k, a.safe)
    requires AllApart(b.safe) && RenamesIn(b.safe, after.tables[k].name)
    ensures ApartAmong(after, k + 1, Then(a, b).safe)
  {
    forall i, j | 0 <= i < |a.safe| && 0 <= j < |b.safe| ensures Apart(a.safe[i], b.safe[j]) {
    }
    ApartSplit(a.safe, b.safe);
  }

  /** No column of a table is renamed twice by the diff, whatever else it changes. */
  lemma PlanApart(before: SchemaSnapshot, after: SchemaSnapshot)
    requires GoodNames(before, after)
    ensures AllApart(DiffPlan(before, after).safe)
  {
    PlanParts(before, after);
    TablesApart(before, after);
    var a := NewTablesUpTo(before, after, |after.tables|).safe;
    var b := KeptTablesUpTo(before, after, |after.tables|).safe;
    var t := TriggerDiff(before, after).safe;
    OnlyDdl(after.tables, NewOf(before), |after.tables|);
    TriggersDoNotRename(before, after);
    NoRenamesApart(a, b);
    NoRenamesApart(t, b);
    ApartSplit(a, b);
    ApartSplit(a + b, t);
  }

  lemma NoRenamesApart(a: seq<Stmt>, b: seq<Stmt>)
    requires NoRenames(a)
    ensures AllApart(a)
    ensures forall i, j :: 0 <= i < |a| && 0 <= j < |b| ==> Apart(a[i], b[j]) && Apart(b[j], a[i])
  {
  }

  lemma TriggersDoNotRename(before: SchemaSnapshot, after: SchemaSnapshot)
    ensures NoRenames(TriggerDiff(before, after).safe)
  {
    OnlyDdl(before.triggers, TriggerDropOf(after), |before.triggers|);
    OnlyDdl(after.triggers, TriggerOf(before), |after.triggers|);
  }

  // ---- A rename that ran does not take what an earlier one made ----

  predicate RenamesFrom(s: Stmt, key: string, column: string) {
    s.RenameColumn? && Lower(s.table) == key && Lower(s.source) == column
  }

  predicate HasKey(c: Cat, key: string, column: string) {
    key in c.tables && column in c.tables[key].columns
  }

  lemma StaysThere(e: Engine, c: Cat, s: Stmt, key: string, column: string)
    requires Exec(e, c, s).Some? && HasKey(c, key, column) && !RenamesFrom(s, key, column)
    ensures HasKey(Exec(e, c, s).value, key, column)
  {
  }

  /** SQLite renames no column to the name of another one. */
  lemma NotOnto(e: Engine, c: Cat, s: Stmt, column: string)
    requires s.RenameColumn? && Exec(e, c, s).Some? && HasKey(c, Lower(s.table), column) && Lower(s.source) != column
    ensures Lower(s.target) != column
  {
  }

  lemma ApartTail(ss: seq<Stmt>)
    requires ss != [] && AllApart(ss)
    ensures AllApart(ss[1..])
  {
    var rest := ss[1..];
    forall i, j | 0 <= i < j < |rest| ensures Apart(rest[i], rest[j]) {
      assert rest[i] == ss[i + 1] && rest[j] == ss[j + 1];
    }
  }

  /** So an old column that waits to be renamed keeps its name from being a target. */
  lemma {:induction false} WaitingIsNoTarget(e: Engine, c: Cat, ss: seq<Stmt>, i: nat, j: nat)
    requires ExecAll(e, c, ss).Some? && i < j < |ss| && AllApart(ss) && SameTable(ss[i], ss[j])
    requires HasKey(c, Lower(ss[j].table), Lower(ss[j].source))
    ensures !Onward(ss[i], ss[j])
    decreases |ss|
  {
    var key, column := Lower(ss[j].table), Lower(ss[j].source);
    if i == 0 {
      assert Apart(ss[0], ss[j]);
      NotOnto(e, c, ss[0], column);
    } else {
      var rest := ss[1..];
      assert rest[i - 1] == ss[i] && rest[j - 1] == ss[j];
      ApartTail(ss);
      assert Apart(ss[0], ss[j]);
      StaysThere(e, c, ss[0], key, column);
      WaitingIsNoTarget(e, Exec(e, c, ss[0]).value, rest, i - 1, j - 1);
    }
  }

  /** Each rename of the statements takes a column that the catalog has. */
  predicate SourcesThere(c: Cat, ss: seq<Stmt>) {
    forall i :: 0 <= i < |ss| && ss[i].RenameColumn? ==> HasKey(c, Lower(ss[i].table), Lower(ss[i].source))
  }

  lemma {:induction false} FromSome<T>(items: seq<T>, f: T -> Plan, k: nat, s: Stmt) returns (j: nat)
    requires k <= |items| && s in UpTo(items, f, k).safe
    ensures j < k && s in f(items[j]).safe
  {
    j := k - 1;
    if s !in f(items[j]).safe { j := FromSome(items, f, j, s); }
  }

  lemma TableSource(ot: TableSnapshot, nt: TableSnapshot, s: Stmt)
    requires DistinctColumns(ot) && DistinctColumns(nt) && s.RenameColumn? && s in TablePlan(ot, nt).safe
    ensures s.table == nt.name && HasColumn(ot, s.source)
  {
    TableStatements(ot, nt);
    ColumnRenames(ot, nt, |nt.columns|);
    IndexesDoNotRename(IndexEntries(ot.ddl), IndexEntries(nt.ddl));
    var a := ColumnsUpTo(ot, nt, |nt.columns|).safe;
    assert s in a;
    var i :| 0 <= i < |a| && a[i] == s;
    assert TakesTo(ot, nt, |nt.columns|, a[i]);
  }

  lemma RenameIsKept(before: SchemaSnapshot, after: SchemaSnapshot, s: Stmt)
    requires s.RenameColumn? && s in DiffPlan(before, after).safe
    ensures s in KeptTablesUpTo(before, after, |after.tables|).safe
  {
    PlanParts(before, after);
    OnlyDdl(after.tables, NewOf(before), |after.tables|);
    TriggersDoNotRename(before, after);
  }

  lemma PlanSource(before: SchemaSnapshot, after: SchemaSnapshot, c: Cat, s: Stmt)
    requires GoodNames(before, after) && Describes(before, c) && s.RenameColumn? && s in DiffPlan(before, after).safe
    ensures HasKey(c, Lower(s.table), Lower(s.source))
  {
    RenameIsKept(before, after, s);
    var j := FromSome(after.tables, KeptOf(before), |after.tables|, s);
    KeptSource(before, after.tables[j], c, s);
  }

  lemma KeptSource(before: SchemaSnapshot, nt: TableSnapshot, c: Cat, s: Stmt)
    requires s.RenameColumn? && s in KeptOf(before)(nt).safe && DistinctColumns(nt) && Describes(before, c)
    requires forall i :: 0 <= i < |before.tables| ==> DistinctColumns(before.tables[i])
    ensures HasKey(c, Lower(s.table), Lower(s.source))
  {
    assert Kept(before, nt);
    FoundTable(before.tables, nt.name);
    var ot := FindTable(before.tables, nt.name).value;
    TableSource(ot, nt, s);
    KeptColumnThere(before, c, ot, s.source);
  }

  lemma KeptColumnThere(before: SchemaSnapshot, c: Cat, ot: TableSnapshot, name: string)
    requires Describes(before, c) && ot in before.tables && HasColumn(ot, name)
    ensures HasKey(c, Lower(ot.name), Lower(name))
  {
    var i :| 0 <= i < |before.tables| && before.tables[i] == ot;
    var h := Position(ot, name);
    assert TableNamed(before, Lower(ot.name));
  }

  lemma PlanSources(before: SchemaSnapshot, after: SchemaSnapshot, c: Cat)
    requires GoodNames(before, after) && Describes(before, c)
    ensures SourcesThere(c, DiffPlan(before, after).safe)
  {
    var ss := DiffPlan(before, after).safe;
    forall i | 0 <= i < |ss| && ss[i].RenameColumn? ensures HasKey(c, Lower(ss[i].table), Lower(ss[i].source)) {
      PlanSource(before, after, c, ss[i]);
    }
  }

  lemma RunIsNotOnward(e: Engine, c: Cat, ss: seq<Stmt>)
    requires ExecAll(e, c, ss).Some? && AllApart(ss) && SourcesThere(c, ss)
    ensures NoneOnward(ss)
  {
    forall i, j | 0 <= i < j < |ss| ensures !Onward(ss[i], ss[j]) {
      if SameTable(ss[i], ss[j]) { WaitingIsNoTarget(e, c, ss, i, j); }
    }
  }

  /** After any prefix of the safe statements that ran on a database of the old schema, every value of
      every table is there: in the column of its own name, or in the target of the one rename of that
      column. No two columns share a place, and nothing is asked of the review list. */
  lemma SafePrefixKeepsData(e: Engine, before: SchemaSnapshot, after: SchemaSnapshot, c: Cat, k: nat, key: string)
    requires GoodNames(before, after) && Describes(before, c) && Fits(c) && key in c.tables
    requires k <= |DiffPlan(before, after).safe| && ExecAll(e, c, DiffPlan(before, after).safe[..k]).Some?
    ensures var ss := DiffPlan(before, after).safe[..k];
            var c' := ExecAll(e, c, ss).value;
            key in c'.tables && Preserves(c.tables[key], c'.tables[key], x => Moved(ss, key, x))
    ensures var ss := DiffPlan(before, after).safe[..k];
            forall x :: Moved(ss, key, x) == x || exists i :: 0 <= i < k && IsRename(ss[i], key, x, Moved(ss, key, x))
    ensures AllApart(DiffPlan(before, after).safe) && NoneOnward(DiffPlan(before, after).safe[..k])
  {
    PlanApart(before, after);
    PlanSources(before, after, c);
    PrefixKeepsData(e, c, DiffPlan(before, after).safe, k, key);
  }

  lemma PrefixKeepsData(e: Engine, c: Cat, all: seq<Stmt>, k: nat, key: string)
    requires AllApart(all) && SourcesThere(c, all) && Fits(c) && key in c.tables
    requires k <= |all| && ExecAll(e, c, all[..k]).Some?
    ensures var ss := all[..k];
            var c' := ExecAll(e, c, ss).value;
            key in c'.tables && Preserves(c.tables[key], c'.tables[key], x => Moved(ss, key, x))
    ensures var ss := all[..k];
            forall x :: Moved(ss, key, x) == x || exists i :: 0 <= i < k && IsRename(ss[i], key, x, Moved(ss, key, x))
    ensures NoneOnward(all[..k])
  {
    var ss := all[..k];
    RunPreserves(e, c, ss, key);
    RunIsNotOnward(e, c, ss);
    forall x ensures Moved(ss, key, x) == x || exists i :: 0 <= i < k && IsRename(ss[i], key, x, Moved(ss, key, x)) {
      MovedOnce(ss, key, x);
    }
  }
}
