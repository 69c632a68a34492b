/** What running a table's column statements does to its columns: each new column is there, and an
    old column stays exactly if no hint took it. */
module DiffColumns {
  import opened Values
  import opened SqlText
  import opened Snapshot
  import opened Diff
  import opened Catalog

  predicate AltersTable(s: Stmt, table: string) {
    (s.AddColumn? || s.RenameColumn?) && s.table == table
  }

  predicate AllAlter(ss: seq<Stmt>, table: string) {
    forall i :: 0 <= i < |ss| ==> AltersTable(ss[i], table)
  }

  function AlteredAll(e: Engine, t: Tab, ss: seq<Stmt>, table: string): Option<Tab>
    requires AllAlter(ss, table)
    decreases |ss|
  {
    if ss == [] then Some(t) else
    assert AltersTable(ss[0], table);
    var t' := Altered(e, t, ss[0]);
    if t'.None? then None else AlteredAll(e, t'.value, ss[1..], table)
  }

  /** Statements on one table only change that table. */
  lemma {:induction false} AlteredInPlace(e: Engine, c: Cat, ss: seq<Stmt>, table: string)
    requires Lower(table) in c.tables && AllAlter(ss, table)
    ensures var t := AlteredAll(e, c.tables[Lower(table)], ss, table);
            ExecAll(e, c, ss) == if t.None? then None else Some(c.(tables := c.tables[Lower(table) := t.value]))
    decreases |ss|
  {
    var key := Lower(table);
    if ss == [] {
      assert c.tables[key := c.tables[key]] == c.tables;
    } else {
      assert AltersTable(ss[0], table);
      var t := Altered(e, c.tables[key], ss[0]);
      if t.Some? {
        var c' := c.(tables := c.tables[key := t.value]);
        assert Exec(e, c, ss[0]) == Some(c');
        AlteredInPlace(e, c', ss[1..], table);
        var r := AlteredAll(e, t.value, ss[1..], table);
        if r.Some? { assert c'.tables[key := r.value] == c.tables[key := r.value]; }
      }
    }
  }

  lemma {:induction false} AlteredAllSplit(e: Engine, t: Tab, a: seq<Stmt>, s: Stmt, table: string)
    requires AllAlter(a, table) && AltersTable(s, table)
    ensures AllAlter(a + [s], table)
    ensures var m := AlteredAll(e, t, a, table);
            AlteredAll(e, t, a + [s], table) == if m.None? then None else Altered(e, m.value, s)
    decreases |a|
  {
    if a == [] {
      assert a + [s] == [s] && [s][1..] == [];
    } else {
      assert (a + [s])[0] == a[0] && (a + [s])[1..] == a[1..] + [s];
      assert AltersTable(a[0], table);
      var t' := Altered(e, t, a[0]);
      if t'.Some? { AlteredAllSplit(e, t'.value, a[1..], s, table); }
    }
  }

  lemma {:induction false} ColumnStatements(ot: TableSnapshot, nt: TableSnapshot, k: nat)
    requires k <= |nt.columns|
    ensures AllAlter(ColumnsUpTo(ot, nt, k).safe, nt.name)
    decreases k
  {
    if k > 0 {
      var n := k - 1;
      assert n + 1 == k;
      ColumnStatements(ot, nt, n);
      OneColumnStatement(ot, nt, nt.columns[n], TakenUpTo(ot, nt, n));
    }
  }

  lemma OneColumnStatement(ot: TableSnapshot, nt: TableSnapshot, c: ColumnSnapshot, taken: set<string>)
    ensures AllAlter(ColumnPlan(ot, nt, c, taken).safe, nt.name)
  {
  }

  // ---- Names ----

  /** The source compares column names exactly, SQLite without case: the statement of new column `k`
      finds its name free if every old column that SQLite takes for it has been renamed by then. */
  predicate FreeAt(ot: TableSnapshot, nt: TableSnapshot, k: nat)
    requires k < |nt.columns|
  {
    forall i :: 0 <= i < |ot.columns| && Lower(ot.columns[i].name) == Lower(nt.columns[k].name) ==>
      ot.columns[i].name in TakenUpTo(ot, nt, k + 1)
  }

  predicate FreeUpTo(ot: TableSnapshot, nt: TableSnapshot, k: nat)
    requires k <= |nt.columns|
  {
    forall j :: 0 <= j < k && !HasColumn(ot, nt.columns[j].name) ==> FreeAt(ot, nt, j)
  }

  /** No new column meets an old one that differs from it in case only and is still there. */
  predicate NoCaseClash(ot: TableSnapshot, nt: TableSnapshot) {
    FreeUpTo(ot, nt, |nt.columns|)
  }

  lemma {:induction false} TakenGrows(ot: TableSnapshot, nt: TableSnapshot, j: nat, k: nat)
    requires j <= k <= |nt.columns|
    ensures TakenUpTo(ot, nt, j) <= TakenUpTo(ot, nt, k)
    decreases k
  {
    if j < k { TakenGrows(ot, nt, j, k - 1); }
  }

  lemma {:induction false} TakenIsGone(ot: TableSnapshot, nt: TableSnapshot, k: nat)
    requires k <= |nt.columns|
    ensures forall x <- TakenUpTo(ot, nt, k) :: HasColumn(ot, x) && !HasColumn(nt, x)
  {
    if k > 0 { TakenIsGone(ot, nt, k - 1); }
  }

  /** A source that is still there has no new column of its name yet. */
  lemma SourceIsAlone(ot: TableSnapshot, nt: TableSnapshot, k: nat, i: nat, j: nat)
    requires j < k <= |nt.columns| && i < |ot.columns| && DistinctColumns(ot) && FreeUpTo(ot, nt, k)
    requires !HasColumn(nt, ot.columns[i].name) && ot.columns[i].name !in TakenUpTo(ot, nt, k)
    ensures Lower(nt.columns[j].name) != Lower(ot.columns[i].name)
  {
    FoundColumn(nt.columns, ot.columns[i].name);
    if HasColumn(ot, nt.columns[j].name) {
      var h := Position(ot, nt.columns[j].name);
    } else if Lower(nt.columns[j].name) == Lower(ot.columns[i].name) {
      var n := j + 1;
      assert FreeAt(ot, nt, j) && ot.columns[i].name in TakenUpTo(ot, nt, n);
      TakenGrows(ot, nt, n, k);
    }
  }

  // ---- The columns after `k` new columns were handled ----

  predicate OldStays(ot: TableSnapshot, taken: set<string>, columns: map<string, Def>) {
    forall i :: 0 <= i < |ot.columns| && ot.columns[i].name !in taken ==>
      Lower(ot.columns[i].name) in columns && columns[Lower(ot.columns[i].name)] == ot.columns[i].def
  }

  predicate NewThere(nt: TableSnapshot, k: nat, columns: map<string, Def>)
    requires k <= |nt.columns|
  {
    forall j :: 0 <= j < k ==>
      Lower(nt.columns[j].name) in columns && columns[Lower(nt.columns[j].name)] == nt.columns[j].def
  }

  predicate Known(ot: TableSnapshot, nt: TableSnapshot, k: nat, taken: set<string>, key: string)
    requires k <= |nt.columns|
  {
    (exists i :: 0 <= i < |ot.columns| && ot.columns[i].name !in taken && Lower(ot.columns[i].name) == key) ||
    (exists j :: 0 <= j < k && Lower(nt.columns[j].name) == key)
  }

  ghost predicate MixedWith(ot: TableSnapshot, nt: TableSnapshot, k: nat, taken: set<string>, columns: map<string, Def>)
    requires k <= |nt.columns|
  {
    OldStays(ot, taken, columns) && NewThere(nt, k, columns) &&
    forall key <- columns.Keys :: Known(ot, nt, k, taken, key)
  }

  ghost predicate Mixed(ot: TableSnapshot, nt: TableSnapshot, k: nat, columns: map<string, Def>)
    requires k <= |nt.columns|
  {
    MixedWith(ot, nt, k, TakenUpTo(ot, nt, k), columns)
  }

  lemma KnownGrows(ot: TableSnapshot, nt: TableSnapshot, k: nat, taken: set<string>, taken': set<string>, key: string)
    requires k < |nt.columns| && Known(ot, nt, k, taken, key) && taken <= taken'
    requires forall i :: 0 <= i < |ot.columns| && ot.columns[i].name in taken' - taken ==>
               Lower(ot.columns[i].name) != key
    ensures Known(ot, nt, k + 1, taken', key)
  {
  }

  lemma KeepStep(ot: TableSnapshot, nt: TableSnapshot, k: nat, i: nat, taken: set<string>, columns: map<string, Def>)
    requires k < |nt.columns| && i < |ot.columns| && MixedWith(ot, nt, k, taken, columns)
    requires ot.columns[i].name == nt.columns[k].name && ot.columns[i].def == nt.columns[k].def
    requires ot.columns[i].name !in taken
    ensures MixedWith(ot, nt, k + 1, taken, columns)
  {
  }

  /** The old columns that SQLite takes for new column `k` are all among `taken`. */
  predicate OldFree(ot: TableSnapshot, nt: TableSnapshot, k: nat, taken: set<string>)
    requires k < |nt.columns|
  {
    forall i :: 0 <= i < |ot.columns| && Lower(ot.columns[i].name) == Lower(nt.columns[k].name) ==>
      ot.columns[i].name in taken
  }

  lemma AddStep(ot: TableSnapshot, nt: TableSnapshot, k: nat, taken: set<string>, columns: map<string, Def>)
    requires k < |nt.columns| && MixedWith(ot, nt, k, taken, columns)
    requires OldFree(ot, nt, k, taken) && DistinctColumns(nt)
    ensures Lower(nt.columns[k].name) !in columns
    ensures MixedWith(ot, nt, k + 1, taken, columns[Lower(nt.columns[k].name) := nt.columns[k].def])
  {
  }

  lemma RenameStep(ot: TableSnapshot, nt: TableSnapshot, k: nat, i: nat, taken: set<string>, columns: map<string, Def>)
    requires k < |nt.columns| && i < |ot.columns| && MixedWith(ot, nt, k, taken, columns)
    requires DistinctColumns(ot) && DistinctColumns(nt) && OldFree(ot, nt, k, taken + {ot.columns[i].name})
    requires forall j :: 0 <= j < k ==> Lower(nt.columns[j].name) != Lower(ot.columns[i].name)
    requires ot.columns[i].name !in taken && ot.columns[i].def == nt.columns[k].def
    ensures var a, b := Lower(ot.columns[i].name), Lower(nt.columns[k].name);
            a in columns && (b in columns ==> a == b) &&
            MixedWith(ot, nt, k + 1, taken + {ot.columns[i].name}, RenamedKey(columns, a, b))
  {
    var source := ot.columns[i].name;
    var b := Lower(nt.columns[k].name);
    var columns' := RenamedKey(columns, Lower(source), b);
    RenameKeepsOld(ot, nt, k, i, taken, columns);
    RenameKeepsNew(ot, nt, k, i, columns);
    forall x <- columns'.Keys ensures Known(ot, nt, k + 1, taken + {source}, x) {
      if x != b { KnownGrows(ot, nt, k, taken, taken + {source}, x); }
    }
  }

  lemma RenameKeepsOld(ot: TableSnapshot, nt: TableSnapshot, k: nat, i: nat, taken: set<string>,
                       columns: map<string, Def>)
    requires k < |nt.columns| && i < |ot.columns| && OldStays(ot, taken, columns)
    requires DistinctColumns(ot) && OldFree(ot, nt, k, taken + {ot.columns[i].name})
    ensures var columns' := RenamedKey(columns, Lower(ot.columns[i].name), Lower(nt.columns[k].name));
            OldStays(ot, taken + {ot.columns[i].name}, columns')
  {
  }

  lemma RenameKeepsNew(ot: TableSnapshot, nt: TableSnapshot, k: nat, i: nat, columns: map<string, Def>)
    requires k < |nt.columns| && i < |ot.columns| && NewThere(nt, k, columns) && DistinctColumns(nt)
    requires Lower(ot.columns[i].name) in columns && columns[Lower(ot.columns[i].name)] == nt.columns[k].def
    requires forall j :: 0 <= j < k ==> Lower(nt.columns[j].name) != Lower(ot.columns[i].name)
    ensures NewThere(nt, k + 1, RenamedKey(columns, Lower(ot.columns[i].name), Lower(nt.columns[k].name)))
  {
  }

  // ---- Running the statements ----

  predicate RowsFillable(e: Engine, rows: seq<Row>, ss: seq<Stmt>) {
    rows != [] ==> forall i :: 0 <= i < |ss| && ss[i].AddColumn? ==> FillsRows(e, ss[i].def)
  }

  lemma KeptColumn(ot: TableSnapshot, nt: TableSnapshot, k: nat, columns: map<string, Def>)
    requires k < |nt.columns| && Mixed(ot, nt, k, columns) && HasColumn(ot, nt.columns[k].name)
    requires ColumnPlan(ot, nt, nt.columns[k], TakenUpTo(ot, nt, k)).review == []
    ensures ColumnPlan(ot, nt, nt.columns[k], TakenUpTo(ot, nt, k)).safe == []
    ensures Mixed(ot, nt, k + 1, columns)
  {
    var i := Position(ot, nt.columns[k].name);
    FoundColumn(nt.columns, nt.columns[k].name);
    TakenIsGone(ot, nt, k);
    KeepStep(ot, nt, k, i, TakenUpTo(ot, nt, k), columns);
  }

  lemma RenamedColumn(e: Engine, ot: TableSnapshot, nt: TableSnapshot, k: nat, t: Tab) returns (t': Tab)
    requires k < |nt.columns| && DistinctColumns(ot) && DistinctColumns(nt) && FreeUpTo(ot, nt, k + 1)
    requires Mixed(ot, nt, k, t.columns) && Consumes(ot, nt, nt.columns[k], TakenUpTo(ot, nt, k))
    requires ColumnPlan(ot, nt, nt.columns[k], TakenUpTo(ot, nt, k)).review == []
    ensures var s := RenameColumn(nt.name, nt.columns[k].renamedFrom.value, nt.columns[k].name);
            ColumnPlan(ot, nt, nt.columns[k], TakenUpTo(ot, nt, k)).safe == [s] && Altered(e, t, s) == Some(t')
    ensures |t'.rows| == |t.rows| && Mixed(ot, nt, k + 1, t'.columns)
  {
    var c, taken := nt.columns[k], TakenUpTo(ot, nt, k);
    var i := Position(ot, c.renamedFrom.value);
    forall j | 0 <= j < k ensures Lower(nt.columns[j].name) != Lower(ot.columns[i].name) {
      SourceIsAlone(ot, nt, k, i, j);
    }
    assert FreeAt(ot, nt, k) && TakenUpTo(ot, nt, k + 1) == taken + {ot.columns[i].name};
    RenameStep(ot, nt, k, i, taken, t.columns);
    t' := Renamed(t, Lower(ot.columns[i].name), Lower(c.name)).value;
  }

  lemma AddedColumn(e: Engine, ot: TableSnapshot, nt: TableSnapshot, k: nat, t: Tab) returns (t': Tab)
    requires k < |nt.columns| && DistinctColumns(nt) && FreeUpTo(ot, nt, k + 1) && Mixed(ot, nt, k, t.columns)
    requires !HasColumn(ot, nt.columns[k].name) && !Consumes(ot, nt, nt.columns[k], TakenUpTo(ot, nt, k))
    requires var p := ColumnPlan(ot, nt, nt.columns[k], TakenUpTo(ot, nt, k));
             p.review == [] && RowsFillable(e, t.rows, p.safe)
    ensures var s := AddColumn(nt.name, nt.columns[k].name, nt.columns[k].def);
            ColumnPlan(ot, nt, nt.columns[k], TakenUpTo(ot, nt, k)).safe == [s] && Altered(e, t, s) == Some(t')
    ensures |t'.rows| == |t.rows| && Mixed(ot, nt, k + 1, t'.columns)
  {
    assert FreeAt(ot, nt, k) && TakenUpTo(ot, nt, k + 1) == TakenUpTo(ot, nt, k);
    AddStep(ot, nt, k, TakenUpTo(ot, nt, k), t.columns);
    AddPlanIsOne(nt, nt.columns[k], TakenUpTo(ot, nt, k));
    t' := AddRuns(e, t, nt.columns[k], nt.name);
  }

  /** One column whose name is free: at most one statement, which runs. */
  lemma ColumnRuns(e: Engine, ot: TableSnapshot, nt: TableSnapshot, k: nat, t: Tab, p: Plan) returns (t': Tab)
    requires k < |nt.columns| && DistinctColumns(ot) && DistinctColumns(nt) && FreeUpTo(ot, nt, k + 1)
    requires Mixed(ot, nt, k, t.columns) && p == ColumnPlan(ot, nt, nt.columns[k], TakenUpTo(ot, nt, k))
    requires p.review == [] && RowsFillable(e, t.rows, p.safe)
    ensures OneStep(e, t, t', p.safe, nt.name)
    ensures |t'.rows| == |t.rows| && Mixed(ot, nt, k + 1, t'.columns)
  {
    if HasColumn(ot, nt.columns[k].name) {
      KeptColumn(ot, nt, k, t.columns);
      t' := t;
    } else if Consumes(ot, nt, nt.columns[k], TakenUpTo(ot, nt, k)) {
      t' := RenamedColumn(e, ot, nt, k, t);
    } else {
      t' := AddedColumn(e, ot, nt, k, t);
    }
  }

  /** One column whose name is not free: its statement fails. */
  lemma ColumnStops(e: Engine, ot: TableSnapshot, nt: TableSnapshot, k: nat, t: Tab)
    requires k < |nt.columns| && DistinctColumns(ot) && OldStays(ot, TakenUpTo(ot, nt, k), t.columns)
    requires !HasColumn(ot, nt.columns[k].name) && !FreeAt(ot, nt, k)
    requires ColumnPlan(ot, nt, nt.columns[k], TakenUpTo(ot, nt, k)).review == []
    ensures var ss := ColumnPlan(ot, nt, nt.columns[k], TakenUpTo(ot, nt, k)).safe;
            |ss| == 1 && AltersTable(ss[0], nt.name) && Altered(e, t, ss[0]) == None
  {
    var c, taken := nt.columns[k], TakenUpTo(ot, nt, k);
    var i :| 0 <= i < |ot.columns| && Lower(ot.columns[i].name) == Lower(c.name) &&
             ot.columns[i].name !in TakenUpTo(ot, nt, k + 1);
    assert Lower(c.name) in t.columns;
    if Consumes(ot, nt, c, taken) {
      var h := Position(ot, c.renamedFrom.value);
      assert TakenUpTo(ot, nt, k + 1) == taken + {ot.columns[h].name};
      assert Lower(ot.columns[h].name) != Lower(c.name);
    } else {
      AddPlanIsOne(nt, c, taken);
    }
  }

  predicate OneStep(e: Engine, t: Tab, t': Tab, ss: seq<Stmt>, table: string) {
    if ss == [] then t' == t
    else |ss| == 1 && AltersTable(ss[0], table) && Altered(e, t, ss[0]) == Some(t')
  }

  lemma Position(t: TableSnapshot, name: string) returns (i: nat)
    requires HasColumn(t, name)
    ensures i < |t.columns| && t.columns[i].name == name && FindColumn(t.columns, name) == Some(t.columns[i])
  {
    FoundColumn(t.columns, name);
    i :| 0 <= i < |t.columns| && t.columns[i] == FindColumn(t.columns, name).value;
  }

  lemma AddRuns(e: Engine, t: Tab, c: ColumnSnapshot, table: string) returns (t': Tab)
    requires Lower(c.name) !in t.columns && !c.def.pk && c.def.generated.None?
    requires RowsFillable(e, t.rows, [AddColumn(table, c.name, c.def)])
    ensures Altered(e, t, AddColumn(table, c.name, c.def)) == Some(t')
    ensures |t'.rows| == |t.rows| && t'.columns == t.columns[Lower(c.name) := c.def]
  {
    var ss := [AddColumn(table, c.name, c.def)];
    assert t.rows != [] ==> ss[0].AddColumn? && FillsRows(e, ss[0].def);
    t' := Added(e, t, Lower(c.name), c.def).value;
  }

  lemma AddPlanIsOne(nt: TableSnapshot, c: ColumnSnapshot, taken: set<string>)
    requires Then(HintPlan(nt, c, taken), AddPlan(nt.name, c)).review == []
    ensures Then(HintPlan(nt, c, taken), AddPlan(nt.name, c)).safe == [AddColumn(nt.name, c.name, c.def)]
    ensures !c.def.pk && c.def.generated.None?
  {
  }

  /** With nothing left to review, free names and defaults that existing rows accept, the statements
      run in order, and the columns are the new ones and the old ones that no hint took. */
  lemma {:induction false} ColumnsRun(e: Engine, ot: TableSnapshot, nt: TableSnapshot, t: Tab, k: nat) returns (t': Tab)
    requires k <= |nt.columns| && DistinctColumns(ot) && DistinctColumns(nt) && FreeUpTo(ot, nt, k)
    requires ColumnsMatch(ot, t.columns)
    requires ColumnsUpTo(ot, nt, k).review == [] && RowsFillable(e, t.rows, ColumnsUpTo(ot, nt, k).safe)
    ensures AllAlter(ColumnsUpTo(ot, nt, k).safe, nt.name)
    ensures AlteredAll(e, t, ColumnsUpTo(ot, nt, k).safe, nt.name) == Some(t')
    ensures |t'.rows| == |t.rows| && Mixed(ot, nt, k, t'.columns)
    decreases k
  {
    if k == 0 {
      t' := t;
      OldIsMixed(ot, nt, t.columns);
    } else {
      var n := k - 1;
      assert n + 1 == k;
      FewerColumns(e, ot, nt, t.rows, n);
      var mid := ColumnsRun(e, ot, nt, t, n);
      t' := OneMoreColumn(e, ot, nt, t, n, mid);
      assert AllAlter(ColumnsUpTo(ot, nt, k).safe, nt.name);
      assert AlteredAll(e, t, ColumnsUpTo(ot, nt, k).safe, nt.name) == Some(t');
      assert Mixed(ot, nt, k, t'.columns);
    }
  }

  /** A name that is not free stops the run, whatever follows. */
  lemma ColumnsStop(e: Engine, ot: TableSnapshot, nt: TableSnapshot, t: Tab)
    requires DistinctColumns(ot) && DistinctColumns(nt) && !NoCaseClash(ot, nt) && ColumnsMatch(ot, t.columns)
    requires var all := ColumnsUpTo(ot, nt, |nt.columns|); all.review == [] && RowsFillable(e, t.rows, all.safe)
    ensures var ss := ColumnsUpTo(ot, nt, |nt.columns|).safe;
            AllAlter(ss, nt.name) && AlteredAll(e, t, ss, nt.name) == None
  {
    var k := FirstClash(ot, nt, |nt.columns|);
    var next := k + 1;
    EarlierColumns(e, ot, nt, t.rows, next, |nt.columns|);
    StopsAt(e, ot, nt, t, k);
    StopsForGood(e, ot, nt, t, ColumnsUpTo(ot, nt, next).safe, next);
  }

  lemma StopsAt(e: Engine, ot: TableSnapshot, nt: TableSnapshot, t: Tab, k: nat)
    requires DistinctColumns(ot) && DistinctColumns(nt) && ColumnsMatch(ot, t.columns) && k < |nt.columns|
    requires FreeUpTo(ot, nt, k) && !HasColumn(ot, nt.columns[k].name) && !FreeAt(ot, nt, k)
    requires ColumnsUpTo(ot, nt, k + 1).review == [] && RowsFillable(e, t.rows, ColumnsUpTo(ot, nt, k + 1).safe)
    ensures AllAlter(ColumnsUpTo(ot, nt, k + 1).safe, nt.name)
    ensures AlteredAll(e, t, ColumnsUpTo(ot, nt, k + 1).safe, nt.name) == None
  {
    FewerColumns(e, ot, nt, t.rows, k);
    var mid := ColumnsRun(e, ot, nt, t, k);
    FirstStop(e, ot, nt, t, k, mid);
  }

  lemma StopsForGood(e: Engine, ot: TableSnapshot, nt: TableSnapshot, t: Tab, a: seq<Stmt>, k: nat)
    requires k <= |nt.columns| && a == ColumnsUpTo(ot, nt, k).safe
    requires AllAlter(a, nt.name) && AlteredAll(e, t, a, nt.name) == None
    ensures var ss := ColumnsUpTo(ot, nt, |nt.columns|).safe;
            AllAlter(ss, nt.name) && AlteredAll(e, t, ss, nt.name) == None
  {
    StatementsGrow(ot, nt, a, k, |nt.columns|);
    ColumnStatements(ot, nt, |nt.columns|);
    StoppedPrefix(e, t, a, ColumnsUpTo(ot, nt, |nt.columns|).safe, nt.name);
  }

  lemma {:induction false} FirstClash(ot: TableSnapshot, nt: TableSnapshot, k: nat) returns (n: nat)
    requires k <= |nt.columns| && !FreeUpTo(ot, nt, k)
    ensures n < k && FreeUpTo(ot, nt, n) && !HasColumn(ot, nt.columns[n].name) && !FreeAt(ot, nt, n)
  {
    n := k - 1;
    if !FreeUpTo(ot, nt, n) { n := FirstClash(ot, nt, n); }
  }

  lemma {:induction false} EarlierColumns(e: Engine, ot: TableSnapshot, nt: TableSnapshot, rows: seq<Row>, n: nat,
                                          k: nat)
    requires n <= k <= |nt.columns|
    requires ColumnsUpTo(ot, nt, k).review == [] && RowsFillable(e, rows, ColumnsUpTo(ot, nt, k).safe)
    ensures ColumnsUpTo(ot, nt, n).review == [] && RowsFillable(e, rows, ColumnsUpTo(ot, nt, n).safe)
    decreases k
  {
    if n < k {
      var l := k - 1;
      assert l + 1 == k;
      FewerColumns(e, ot, nt, rows, l);
      EarlierColumns(e, ot, nt, rows, n, l);
    }
  }

  lemma {:induction false} StatementsGrow(ot: TableSnapshot, nt: TableSnapshot, a: seq<Stmt>, n: nat, k: nat)
    requires n <= k <= |nt.columns| && a <= ColumnsUpTo(ot, nt, n).safe
    ensures a <= ColumnsUpTo(ot, nt, k).safe
    decreases k - n
  {
    if n < k {
      var next := n + 1;
      NextStatements(ot, nt, a, n);
      StatementsGrow(ot, nt, a, next, k);
    }
  }

  lemma NextStatements(ot: TableSnapshot, nt: TableSnapshot, a: seq<Stmt>, n: nat)
    requires n < |nt.columns| && a <= ColumnsUpTo(ot, nt, n).safe
    ensures a <= ColumnsUpTo(ot, nt, n + 1).safe
  {
    PrefixOfBoth(a, ColumnsUpTo(ot, nt, n), ColumnPlan(ot, nt, nt.columns[n], TakenUpTo(ot, nt, n)));
  }

  lemma PrefixOfBoth(a: seq<Stmt>, p: Plan, q: Plan)
    requires a <= p.safe
    ensures a <= Then(p, q).safe
  {
  }

  lemma StoppedPrefix(e: Engine, t: Tab, a: seq<Stmt>, ss: seq<Stmt>, table: string)
    requires a <= ss && AllAlter(ss, table) && AllAlter(a, table) && AlteredAll(e, t, a, table) == None
    ensures AlteredAll(e, t, ss, table) == None
  {
    assert ss == a + ss[|a|..];
    StoppedStays(e, t, a, ss[|a|..], table);
  }

  lemma FirstStop(e: Engine, ot: TableSnapshot, nt: TableSnapshot, t: Tab, k: nat, mid: Tab)
    requires k < |nt.columns| && DistinctColumns(ot) && !HasColumn(ot, nt.columns[k].name) && !FreeAt(ot, nt, k)
    requires AllAlter(ColumnsUpTo(ot, nt, k).safe, nt.name)
    requires AlteredAll(e, t, ColumnsUpTo(ot, nt, k).safe, nt.name) == Some(mid)
    requires OldStays(ot, TakenUpTo(ot, nt, k), mid.columns) && ColumnsUpTo(ot, nt, k + 1).review == []
    ensures AllAlter(ColumnsUpTo(ot, nt, k + 1).safe, nt.name)
    ensures AlteredAll(e, t, ColumnsUpTo(ot, nt, k + 1).safe, nt.name) == None
  {
    var a, p := ColumnsUpTo(ot, nt, k), ColumnPlan(ot, nt, nt.columns[k], TakenUpTo(ot, nt, k));
    EmptyReviews(a, p);
    ColumnStops(e, ot, nt, k, mid);
    assert p.safe == [p.safe[0]];
    AlteredAllSplit(e, t, a.safe, p.safe[0], nt.name);
  }

  lemma {:induction false} StoppedStays(e: Engine, t: Tab, a: seq<Stmt>, b: seq<Stmt>, table: string)
    requires AllAlter(a, table) && AllAlter(b, table) && AlteredAll(e, t, a, table) == None
    ensures AllAlter(a + b, table) && AlteredAll(e, t, a + b, table) == None
    decreases |a|
  {
    assert (a + b)[0] == a[0] && (a + b)[1..] == a[1..] + b;
    assert AltersTable(a[0], table);
    var t' := Altered(e, t, a[0]);
    if t'.Some? { StoppedStays(e, t'.value, a[1..], b, table); }
  }

  lemma FewerColumns(e: Engine, ot: TableSnapshot, nt: TableSnapshot, rows: seq<Row>, k: nat)
    requires k < |nt.columns|
    requires ColumnsUpTo(ot, nt, k + 1).review == [] && RowsFillable(e, rows, ColumnsUpTo(ot, nt, k + 1).safe)
    ensures ColumnsUpTo(ot, nt, k).review == [] && RowsFillable(e, rows, ColumnsUpTo(ot, nt, k).safe)
  {
    ColumnsSplit(e, rows, ColumnsUpTo(ot, nt, k), ColumnPlan(ot, nt, nt.columns[k], TakenUpTo(ot, nt, k)));
  }

  lemma OldIsMixed(ot: TableSnapshot, nt: TableSnapshot, columns: map<string, Def>)
    requires ColumnsMatch(ot, columns)
    ensures MixedWith(ot, nt, 0, {}, columns)
  {
  }

  lemma ColumnsSplit(e: Engine, rows: seq<Row>, a: Plan, b: Plan)
    requires Then(a, b).review == [] && RowsFillable(e, rows, Then(a, b).safe)
    ensures a.review == [] && b.review == [] && RowsFillable(e, rows, a.safe) && RowsFillable(e, rows, b.safe)
  {
    FillableSplit(e, rows, a.safe, b.safe);
    assert |a.review + b.review| == 0;
  }

  lemma OneMoreColumn(e: Engine, ot: TableSnapshot, nt: TableSnapshot, t: Tab, k: nat, mid: Tab) returns (t': Tab)
    requires k < |nt.columns| && DistinctColumns(ot) && DistinctColumns(nt) && FreeUpTo(ot, nt, k + 1)
    requires AllAlter(ColumnsUpTo(ot, nt, k).safe, nt.name)
    requires AlteredAll(e, t, ColumnsUpTo(ot, nt, k).safe, nt.name) == Some(mid)
    requires |mid.rows| == |t.rows| && Mixed(ot, nt, k, mid.columns)
    requires ColumnsUpTo(ot, nt, k + 1).review == [] && RowsFillable(e, t.rows, ColumnsUpTo(ot, nt, k + 1).safe)
    ensures AllAlter(ColumnsUpTo(ot, nt, k + 1).safe, nt.name)
    ensures AlteredAll(e, t, ColumnsUpTo(ot, nt, k + 1).safe, nt.name) == Some(t')
    ensures |t'.rows| == |t.rows| && Mixed(ot, nt, k + 1, t'.columns)
  {
    var p := ColumnPlan(ot, nt, nt.columns[k], TakenUpTo(ot, nt, k));
    ColumnsSplit(e, t.rows, ColumnsUpTo(ot, nt, k), p);
    FillableSize(e, t.rows, mid.rows, p.safe);
    t' := ColumnRuns(e, ot, nt, k, mid, p);
    AlteredMore(e, t, mid, t', ColumnsUpTo(ot, nt, k).safe, p.safe, nt.name);
  }

  lemma FillableSplit(e: Engine, rows: seq<Row>, a: seq<Stmt>, b: seq<Stmt>)
    ensures RowsFillable(e, rows, a + b) <==> RowsFillable(e, rows, a) && RowsFillable(e, rows, b)
  {
    assert forall i :: 0 <= i < |a| ==> a[i] == (a + b)[i];
    assert forall i :: 0 <= i < |b| ==> b[i] == (a + b)[|a| + i];
  }

  lemma FillableSize(e: Engine, rows: seq<Row>, rows': seq<Row>, ss: seq<Stmt>)
    requires RowsFillable(e, rows, ss) && |rows| == |rows'|
    ensures RowsFillable(e, rows', ss)
  {
  }

  lemma AlteredMore(e: Engine, t: Tab, mid: Tab, t': Tab, a: seq<Stmt>, b: seq<Stmt>, table: string)
    requires AllAlter(a, table) && AlteredAll(e, t, a, table) == Some(mid)
    requires OneStep(e, mid, t', b, table)
    ensures AllAlter(a + b, table) && AlteredAll(e, t, a + b, table) == Some(t')
  {
    if b == [] {
      assert a + b == a;
    } else {
      assert b == [b[0]];
      AlteredAllSplit(e, t, a, b[0], table);
    }
  }

  // ---- When the columns are exactly the new ones ----

  /** Each old column that is gone but named by some hint is named by the hint of a column that is
      new; otherwise the hint keeps the column out of the destructive list and renames nothing. */
  predicate HintsTake(ot: TableSnapshot, nt: TableSnapshot) {
    forall i :: 0 <= i < |ot.columns| && !HasColumn(nt, ot.columns[i].name) && RenamedAway(nt, ot.columns[i].name) ==>
      TakenByNew(ot, nt, ot.columns[i].name)
  }

  predicate TakenByNew(ot: TableSnapshot, nt: TableSnapshot, name: string) {
    exists j :: 0 <= j < |nt.columns| && !HasColumn(ot, nt.columns[j].name) && nt.columns[j].renamedFrom == Some(name)
  }

  lemma {:induction false} HintIsTaken(ot: TableSnapshot, nt: TableSnapshot, k: nat, name: string)
    requires k <= |nt.columns| && HasColumn(ot, name) && !HasColumn(nt, name)
    ensures name in TakenUpTo(ot, nt, k) <==>
            exists j :: 0 <= j < k && !HasColumn(ot, nt.columns[j].name) && nt.columns[j].renamedFrom == Some(name)
  {
    if k > 0 { HintIsTaken(ot, nt, k - 1, name); }
  }

  lemma NoDrops(ot: TableSnapshot, nt: TableSnapshot, k: nat)
    requires k <= |ot.columns|
    ensures DropsUpTo(ot, nt, k).safe == []
    ensures DropsUpTo(ot, nt, k).review == [] <==>
            forall i :: 0 <= i < k ==> HasColumn(nt, ot.columns[i].name) || RenamedAway(nt, ot.columns[i].name)
  {
    UpToReviews(ot.columns, DropOf(nt), k);
    UpToSafe(ot.columns, DropOf(nt), k);
  }

  /** The hint condition is exactly what makes the final columns the new ones. */
  lemma MixedIsNew(ot: TableSnapshot, nt: TableSnapshot, columns: map<string, Def>)
    requires Mixed(ot, nt, |nt.columns|, columns) && DistinctColumns(ot) && NoCaseClash(ot, nt)
    requires DropsUpTo(ot, nt, |ot.columns|).review == []
    ensures ColumnsMatch(nt, columns) <==> HintsTake(ot, nt)
  {
    if HintsTake(ot, nt) {
      forall key <- columns.Keys ensures Names(nt, key) { KnownIsNew(ot, nt, key); }
    } else {
      var i :| 0 <= i < |ot.columns| && !HasColumn(nt, ot.columns[i].name) && !TakenByNew(ot, nt, ot.columns[i].name);
      LeftIsNotNew(ot, nt, i, columns);
    }
  }

  lemma KnownIsNew(ot: TableSnapshot, nt: TableSnapshot, key: string)
    requires Known(ot, nt, |nt.columns|, TakenUpTo(ot, nt, |nt.columns|), key)
    requires HintsTake(ot, nt) && DropsUpTo(ot, nt, |ot.columns|).review == []
    ensures Names(nt, key)
  {
    var taken := TakenUpTo(ot, nt, |nt.columns|);
    if exists i :: 0 <= i < |ot.columns| && ot.columns[i].name !in taken && Lower(ot.columns[i].name) == key {
      var i :| 0 <= i < |ot.columns| && ot.columns[i].name !in taken && Lower(ot.columns[i].name) == key;
      NoDrops(ot, nt, |ot.columns|);
      OldLeftIsNew(ot, nt, i);
    }
  }

  lemma LeftIsNotNew(ot: TableSnapshot, nt: TableSnapshot, i: nat, columns: map<string, Def>)
    requires i < |ot.columns| && !HasColumn(nt, ot.columns[i].name) && !TakenByNew(ot, nt, ot.columns[i].name)
    requires OldStays(ot, TakenUpTo(ot, nt, |nt.columns|), columns) && DistinctColumns(ot) && NoCaseClash(ot, nt)
    ensures !ColumnsMatch(nt, columns)
  {
    var key := Lower(ot.columns[i].name);
    FoundColumn(ot.columns, ot.columns[i].name);
    HintIsTaken(ot, nt, |nt.columns|, ot.columns[i].name);
    assert key in columns;
    forall j | 0 <= j < |nt.columns| ensures Lower(nt.columns[j].name) != key {
      SourceIsAlone(ot, nt, |nt.columns|, i, j);
    }
    assert !Names(nt, key);
  }

  lemma OldLeftIsNew(ot: TableSnapshot, nt: TableSnapshot, i: nat)
    requires i < |ot.columns| && HintsTake(ot, nt) && ot.columns[i].name !in TakenUpTo(ot, nt, |nt.columns|)
    requires HasColumn(nt, ot.columns[i].name) || RenamedAway(nt, ot.columns[i].name)
    ensures Names(nt, Lower(ot.columns[i].name))
  {
    var name := ot.columns[i].name;
    if HasColumn(nt, name) {
      var j := Position(nt, name);
    } else {
      FoundColumn(ot.columns, name);
      HintIsTaken(ot, nt, |nt.columns|, name);
    }
  }
}
