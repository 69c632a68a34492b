/** Running the index statements of a table: every missing index is created, none clashes. */
module DiffIndexes {
  import opened Values
  import opened SqlText
  import opened Snapshot
  import opened Diff
  import opened Catalog

  /** Table `j` has all the columns it needs, and no table of the catalog clashes with an index. */
  ghost predicate CanIndex(s: SchemaSnapshot, c: Cat, j: nat)
    requires j < |s.tables|
  {
    Lower(s.tables[j].name) in c.tables &&
    (forall k :: Names(s.tables[j], k) ==> k in c.tables[Lower(s.tables[j].name)].columns) &&
    (forall k <- c.tables.Keys :: TableNamed(s, k))
  }

  lemma IndexesGrow(s: SchemaSnapshot, built: set<(nat, nat)>, indexes: map<string, Index>, j: nat, l: nat)
    requires DistinctEntries(s) && IsEntry(s, j, l) && (j, l) !in built && IndexesAre(s, built, indexes)
    ensures IndexesAre(s, built + {(j, l)}, indexes[EntryKey(s, j, l) := EntryIndex(s, j, l)])
  {
    var built', indexes' := built + {(j, l)}, indexes[EntryKey(s, j, l) := EntryIndex(s, j, l)];
    forall j': nat, l': nat | IsEntry(s, j', l') ensures EntryIs(s, j', l', (j', l') in built', indexes') {
      OthersStay(s, built, indexes, j, l, j', l');
    }
    forall k <- indexes'.Keys ensures BuiltKey(s, built', k) {
      if k != EntryKey(s, j, l) {
        assert BuiltKey(s, built, k);
        var p :| p in built && IsEntry(s, p.0, p.1) && EntryKey(s, p.0, p.1) == k;
        assert p in built';
      } else {
        assert (j, l) in built' && IsEntry(s, (j, l).0, (j, l).1);
      }
    }
  }

  lemma OthersStay(s: SchemaSnapshot, built: set<(nat, nat)>, indexes: map<string, Index>, j: nat, l: nat, j': nat,
                   l': nat)
    requires DistinctEntries(s) && IsEntry(s, j, l) && IsEntry(s, j', l')
    requires EntryIs(s, j', l', (j', l') in built, indexes)
    ensures EntryIs(s, j', l', (j', l') in built + {(j, l)}, indexes[EntryKey(s, j, l) := EntryIndex(s, j, l)])
  {
  }

  lemma CreateIndex(e: Engine, s: SchemaSnapshot, c: Cat, built: set<(nat, nat)>, j: nat, l: nat)
    requires DistinctEntries(s) && EntriesAreNotTables(s) && IsEntry(s, j, l) && (j, l) !in built
    requires IndexesAre(s, built, c.indexes) && CanIndex(s, c, j)
    requires GoodIndex(e, s.tables[j], IndexEntries(s.tables[j].ddl)[l])
    ensures Exec(e, c, Ddl(IndexEntries(s.tables[j].ddl)[l].1))
         == Some(c.(indexes := c.indexes[EntryKey(s, j, l) := EntryIndex(s, j, l)]))
  {
  }

  function Built(built: set<(nat, nat)>, j: nat, k: nat): set<(nat, nat)> {
    built + set l: nat | l < k :: (j, l)
  }

  lemma BuiltMore(built: set<(nat, nat)>, j: nat, k: nat)
    ensures Built(built, j, k + 1) == Built(built, j, k) + {(j, k)}
    ensures Built(built, j, 0) == built
  {
  }

  // ---- A kept table ----

  /** Which indexes of a kept table exist before its turn: those the old table has. */
  ghost predicate OldOnes(ois: seq<(string, string)>, nis: seq<(string, string)>, built: set<(nat, nat)>, j: nat) {
    forall l: nat :: l < |nis| ==> ((j, l) in built <==> FindEntry(ois, nis[l].0).Some?)
  }

  lemma OneIndexRuns(e: Engine, s: SchemaSnapshot, c: Cat, built: set<(nat, nat)>, built0: set<(nat, nat)>,
                     j: nat, ois: seq<(string, string)>, k: nat) returns (c': Cat)
    requires DistinctEntries(s) && EntriesAreNotTables(s) && IsEntry(s, j, k)
    requires built == Built(built0, j, k) && OldOnes(ois, IndexEntries(s.tables[j].ddl), built0, j)
    requires IndexesAre(s, built, c.indexes) && CanIndex(s, c, j)
    requires GoodIndex(e, s.tables[j], IndexEntries(s.tables[j].ddl)[k])
    requires IndexPlan(ois, IndexEntries(s.tables[j].ddl)[k]).review == []
    ensures ExecAll(e, c, IndexPlan(ois, IndexEntries(s.tables[j].ddl)[k]).safe) == Some(c')
    ensures c' == c.(indexes := c'.indexes) && IndexesAre(s, Built(built0, j, k + 1), c'.indexes)
  {
    var entry := IndexEntries(s.tables[j].ddl)[k];
    BuiltMore(built0, j, k);
    if FindEntry(ois, entry.0).Some? {
      assert (j, k) in built0;
      assert Built(built0, j, k + 1) == built;
      c' := c;
    } else {
      assert (j, k) !in built;
      c' := OneEntryRuns(e, s, c, built, j, k);
    }
  }

  lemma {:induction false} IndexesRun(e: Engine, s: SchemaSnapshot, c: Cat, built: set<(nat, nat)>, j: nat,
                                      ois: seq<(string, string)>, k: nat) returns (c': Cat)
    requires DistinctEntries(s) && EntriesAreNotTables(s) && j < |s.tables| && GoodTable(e, s.tables[j])
    requires k <= |IndexEntries(s.tables[j].ddl)| && OldOnes(ois, IndexEntries(s.tables[j].ddl), built, j)
    requires IndexesAre(s, built, c.indexes) && CanIndex(s, c, j)
    requires IndexesUpTo(ois, IndexEntries(s.tables[j].ddl), k).review == []
    ensures ExecAll(e, c, IndexesUpTo(ois, IndexEntries(s.tables[j].ddl), k).safe) == Some(c')
    ensures c' == c.(indexes := c'.indexes) && IndexesAre(s, Built(built, j, k), c'.indexes)
    decreases k
  {
    var nis := IndexEntries(s.tables[j].ddl);
    if k == 0 {
      BuiltMore(built, j, 0);
      c' := c;
    } else {
      var n := k - 1;
      assert n + 1 == k;
      var p := IndexPlan(ois, nis[n]);
      EmptyReviews(IndexesUpTo(ois, nis, n), p);
      var mid := IndexesRun(e, s, c, built, j, ois, n);
      assert IsEntry(s, j, n);
      c' := OneIndexRuns(e, s, mid, Built(built, j, n), built, j, ois, n);
      ExecAllSplit(e, c, IndexesUpTo(ois, nis, n).safe, p.safe);
    }
  }

  // ---- A new table ----

  lemma {:induction false} EntriesFollow(ddl: seq<string>)
    requires forall l :: 0 <= l < |ddl| ==> IndexName(ddl[l]).Some?
    ensures |IndexEntries(ddl)| == |ddl|
    ensures forall l :: 0 <= l < |ddl| ==> IndexEntries(ddl)[l].1 == ddl[l]
  {
    if ddl != [] { EntriesFollow(ddl[1..]); }
  }

  lemma NewTableEntries(e: Engine, t: TableSnapshot)
    requires GoodTable(e, t)
    ensures |IndexEntries(t.ddl)| == |t.ddl| - 1
    ensures forall l :: 0 <= l < |t.ddl| - 1 ==> IndexEntries(t.ddl)[l].1 == t.ddl[l + 1]
  {
    EntriesFollow(t.ddl[1..]);
    assert IndexEntries(t.ddl) == [] + IndexEntries(t.ddl[1..]);
  }

  function EntryStmts(nis: seq<(string, string)>, k: nat): seq<Stmt>
    requires k <= |nis|
  {
    if k == 0 then [] else EntryStmts(nis, k - 1) + [Ddl(nis[k - 1].1)]
  }

  lemma {:induction false} EntryStmtsAre(nis: seq<(string, string)>, k: nat)
    requires k <= |nis|
    ensures |EntryStmts(nis, k)| == k && forall l :: 0 <= l < k ==> EntryStmts(nis, k)[l] == Ddl(nis[l].1)
  {
    if k > 0 { EntryStmtsAre(nis, k - 1); }
  }

  lemma {:induction false} EntriesRun(e: Engine, s: SchemaSnapshot, c: Cat, built: set<(nat, nat)>, j: nat, k: nat)
    returns (c': Cat)
    requires DistinctEntries(s) && EntriesAreNotTables(s) && j < |s.tables| && GoodTable(e, s.tables[j])
    requires k <= |IndexEntries(s.tables[j].ddl)| && (forall l: nat :: (j, l) !in built)
    requires IndexesAre(s, built, c.indexes) && CanIndex(s, c, j)
    ensures ExecAll(e, c, EntryStmts(IndexEntries(s.tables[j].ddl), k)) == Some(c')
    ensures c' == c.(indexes := c'.indexes) && IndexesAre(s, Built(built, j, k), c'.indexes)
    decreases k
  {
    var nis := IndexEntries(s.tables[j].ddl);
    BuiltMore(built, j, 0);
    c' := c;
    if k > 0 {
      var n := k - 1;
      assert n + 1 == k;
      var mid := EntriesRun(e, s, c, built, j, n);
      c' := NextEntryRuns(e, s, c, mid, built, j, n);
    }
  }

  lemma NextEntryRuns(e: Engine, s: SchemaSnapshot, c: Cat, mid: Cat, built: set<(nat, nat)>, j: nat, k: nat)
    returns (c': Cat)
    requires DistinctEntries(s) && EntriesAreNotTables(s) && IsEntry(s, j, k) && (j, k) !in built
    requires GoodIndex(e, s.tables[j], IndexEntries(s.tables[j].ddl)[k]) && CanIndex(s, mid, j)
    requires ExecAll(e, c, EntryStmts(IndexEntries(s.tables[j].ddl), k)) == Some(mid)
    requires IndexesAre(s, Built(built, j, k), mid.indexes)
    ensures ExecAll(e, c, EntryStmts(IndexEntries(s.tables[j].ddl), k + 1)) == Some(c')
    ensures c' == mid.(indexes := c'.indexes) && IndexesAre(s, Built(built, j, k + 1), c'.indexes)
  {
    var nis := IndexEntries(s.tables[j].ddl);
    BuiltMore(built, j, k);
    assert (j, k) !in Built(built, j, k);
    c' := OneEntryRuns(e, s, mid, Built(built, j, k), j, k);
    ExecAllSplit(e, c, EntryStmts(nis, k), [Ddl(nis[k].1)]);
  }

  lemma OneEntryRuns(e: Engine, s: SchemaSnapshot, c: Cat, built: set<(nat, nat)>, j: nat, k: nat) returns (c': Cat)
    requires DistinctEntries(s) && EntriesAreNotTables(s) && IsEntry(s, j, k) && (j, k) !in built
    requires IndexesAre(s, built, c.indexes) && CanIndex(s, c, j)
    requires GoodIndex(e, s.tables[j], IndexEntries(s.tables[j].ddl)[k])
    ensures ExecAll(e, c, [Ddl(IndexEntries(s.tables[j].ddl)[k].1)]) == Some(c')
    ensures c' == c.(indexes := c'.indexes) && IndexesAre(s, built + {(j, k)}, c'.indexes)
  {
    CreateIndex(e, s, c, built, j, k);
    IndexesGrow(s, built, c.indexes, j, k);
    ExecOne(e, c, Ddl(IndexEntries(s.tables[j].ddl)[k].1));
    c' := c.(indexes := c.indexes[EntryKey(s, j, k) := EntryIndex(s, j, k)]);
  }

  /** The statements of a new table create it, empty, and all its indexes. */
  lemma NewTableRuns(e: Engine, s: SchemaSnapshot, c: Cat, built: set<(nat, nat)>, j: nat) returns (c': Cat)
    requires DistinctEntries(s) && EntriesAreNotTables(s) && j < |s.tables| && GoodTable(e, s.tables[j])
    requires Lower(s.tables[j].name) !in c.tables && Lower(s.tables[j].name) !in c.indexes
    requires (forall k <- c.tables.Keys :: TableNamed(s, k)) && (forall l: nat :: (j, l) !in built)
    requires IndexesAre(s, built, c.indexes)
    ensures ExecAll(e, c, DdlStmts(s.tables[j].ddl)) == Some(c')
    ensures c'.tables == c.tables[Lower(s.tables[j].name) := Tab(e.read(s.tables[j].ddl[0]).columns, [])]
    ensures c'.triggers == c.triggers
    ensures IndexesAre(s, Built(built, j, |IndexEntries(s.tables[j].ddl)|), c'.indexes)
  {
    var t := s.tables[j];
    var nis := IndexEntries(t.ddl);
    var made := CreateTable(e, s, c, j);
    c' := EntriesRun(e, s, made, built, j, |nis|);
    NewTableStatements(e, t);
    ExecOne(e, c, Ddl(t.ddl[0]));
    ExecAllSplit(e, c, [Ddl(t.ddl[0])], EntryStmts(nis, |nis|));
  }

  lemma CreateTable(e: Engine, s: SchemaSnapshot, c: Cat, j: nat) returns (made: Cat)
    requires j < |s.tables| && GoodTable(e, s.tables[j]) && (forall k <- c.tables.Keys :: TableNamed(s, k))
    requires Lower(s.tables[j].name) !in c.tables && Lower(s.tables[j].name) !in c.indexes
    ensures Exec(e, c, Ddl(s.tables[j].ddl[0])) == Some(made) && CanIndex(s, made, j)
    ensures made == c.(tables := c.tables[Lower(s.tables[j].name) := Tab(e.read(s.tables[j].ddl[0]).columns, [])])
  {
    var t := s.tables[j];
    made := c.(tables := c.tables[Lower(t.name) := Tab(e.read(t.ddl[0]).columns, [])]);
    assert TableNamed(s, Lower(t.name));
    forall k | Names(t, k) ensures k in e.read(t.ddl[0]).columns {
      var i :| 0 <= i < |t.columns| && Lower(t.columns[i].name) == k;
    }
  }

  lemma NewTableStatements(e: Engine, t: TableSnapshot)
    requires GoodTable(e, t)
    ensures DdlStmts(t.ddl) == [Ddl(t.ddl[0])] + EntryStmts(IndexEntries(t.ddl), |IndexEntries(t.ddl)|)
  {
    NewTableEntries(e, t);
    SameStatements(t.ddl, IndexEntries(t.ddl));
  }

  lemma SameStatements(ddl: seq<string>, nis: seq<(string, string)>)
    requires |nis| == |ddl| - 1 && forall l :: 0 <= l < |nis| ==> nis[l].1 == ddl[l + 1]
    ensures DdlStmts(ddl) == [Ddl(ddl[0])] + EntryStmts(nis, |nis|)
  {
    EntryStmtsAre(nis, |nis|);
    var b := [Ddl(ddl[0])] + EntryStmts(nis, |nis|);
    assert forall i :: 0 <= i < |ddl| ==> DdlStmts(ddl)[i] == b[i];
  }
}
