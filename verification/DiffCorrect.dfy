/** A diff with nothing left for a human: its safe statements run in their order, and lead to
    exactly the new schema if and only if the names, the hints and the defaults allow it. */
module DiffCorrect {
  import opened Values
  import opened SqlText
  import opened Snapshot
  import opened Diff
  import opened Catalog
  import opened DiffColumns
  import opened DiffIndexes
  import opened DiffStages
  import DiffTriggers

  // ---- New tables ----

  lemma KeyFree(before: SchemaSnapshot, after: SchemaSnapshot, c0: Cat, c: Cat, kept: nat, k: nat)
    requires k < |after.tables| && Stage(before, after, c0, c, k, kept) && EntriesAreNotTables(after)
    requires !Kept(before, after.tables[k])
    ensures Lower(after.tables[k].name) !in c.tables && Lower(after.tables[k].name) !in c.indexes
    ensures forall l: nat :: (k, l) !in BuiltAt(before, after, k, kept)
  {
    var key := Lower(after.tables[k].name);
    assert TableAt(before, after, c0, c, k, kept, k);
    assert TableNamed(after, key);
  }

  lemma NewTableStep(e: Engine, before: SchemaSnapshot, after: SchemaSnapshot, c0: Cat, c: Cat, k: nat)
    returns (c': Cat)
    requires k < |after.tables| && GoodSchema(e, after) && Stage(before, after, c0, c, k, 0)
    requires !Kept(before, after.tables[k])
    ensures ExecAll(e, c, DdlStmts(after.tables[k].ddl)) == Some(c') && Stage(before, after, c0, c', k + 1, 0)
  {
    KeyFree(before, after, c0, c, 0, k);
    c' := NewTableRuns(e, after, c, BuiltAt(before, after, k, 0), k);
    BuiltGrows(before, after, k, 0, k + 1, 0, k);
    NewTableStage(before, after, c0, c, c', k);
  }

  lemma NewTableStage(before: SchemaSnapshot, after: SchemaSnapshot, c0: Cat, c: Cat, c': Cat, k: nat)
    requires k < |after.tables| && DistinctTables(after) && !Kept(before, after.tables[k])
    requires Stage(before, after, c0, c, k, 0) && c'.triggers == c.triggers
    requires IndexesAre(after, BuiltAt(before, after, k + 1, 0), c'.indexes)
    requires var nt := after.tables[k];
             var key := Lower(nt.name);
             key in c'.tables && c'.tables == c.tables[key := c'.tables[key]] &&
               ColumnsMatch(nt, c'.tables[key].columns)
    ensures Stage(before, after, c0, c', k + 1, 0)
  {
    var n := k + 1;
    forall j | 0 <= j < |after.tables| ensures TableAt(before, after, c0, c', n, 0, j) {
      if j != k {
        assert Lower(after.tables[j].name) != Lower(after.tables[k].name);
        OtherTable(before, after, c0, c, c', k, 0, n, 0, j);
      }
    }
    assert TableNamed(after, Lower(after.tables[k].name));
  }

  lemma SkipNewStep(before: SchemaSnapshot, after: SchemaSnapshot, c0: Cat, c: Cat, k: nat)
    requires k < |after.tables| && Stage(before, after, c0, c, k, 0) && Kept(before, after.tables[k])
    ensures Stage(before, after, c0, c, k + 1, 0)
  {
    var n := k + 1;
    SameBuilt(before, after, k, 0, n, 0, k);
    forall j | 0 <= j < |after.tables| ensures TableAt(before, after, c0, c, n, 0, j) {
      OtherTable(before, after, c0, c, c, k, 0, n, 0, j);
    }
  }

  lemma SameBuilt(before: SchemaSnapshot, after: SchemaSnapshot, news: nat, kept: nat, news': nat, kept': nat, k: nat)
    requires k < |after.tables|
    requires if Kept(before, after.tables[k]) then kept' == kept && news == k && news' == k + 1
             else news' == news && kept == k && kept' == k + 1
    ensures BuiltAt(before, after, news, kept) == BuiltAt(before, after, news', kept')
  {
    var a, b := BuiltAt(before, after, news, kept), BuiltAt(before, after, news', kept');
    forall p | p in a ensures p in b {
      InBuilt(before, after, news', kept', p.0, p.1);
    }
    forall p | p in b ensures p in a {
      InBuilt(before, after, news, kept, p.0, p.1);
    }
  }

  lemma NextNewTable(e: Engine, before: SchemaSnapshot, after: SchemaSnapshot, c0: Cat, c: Cat, k: nat)
    returns (c': Cat)
    requires k < |after.tables| && GoodSchema(e, after) && Stage(before, after, c0, c, k, 0)
    requires ExecAll(e, c0, NewTablesUpTo(before, after, k).safe) == Some(c)
    ensures ExecAll(e, c0, NewTablesUpTo(before, after, k + 1).safe) == Some(c') &&
            Stage(before, after, c0, c', k + 1, 0)
  {
    ExecAllSplit(e, c0, NewTablesUpTo(before, after, k).safe, NewOf(before)(after.tables[k]).safe);
    if Kept(before, after.tables[k]) {
      SkipNewStep(before, after, c0, c, k);
      c' := c;
    } else {
      c' := NewTableStep(e, before, after, c0, c, k);
    }
  }

  lemma {:induction false} NewTablesRun(e: Engine, before: SchemaSnapshot, after: SchemaSnapshot, c0: Cat, k: nat)
    returns (c: Cat)
    requires k <= |after.tables| && GoodSchema(e, after) && Stage(before, after, c0, c0, 0, 0)
    ensures ExecAll(e, c0, NewTablesUpTo(before, after, k).safe) == Some(c) && Stage(before, after, c0, c, k, 0)
    decreases k
  {
    c := c0;
    if k > 0 {
      var n := k - 1;
      assert n + 1 == k;
      var mid := NewTablesRun(e, before, after, c0, n);
      c := NextNewTable(e, before, after, c0, mid, n);
    }
  }

  // ---- Kept tables ----

  /** What a kept table brings along: existing rows accept the defaults of added columns. */
  ghost predicate Ready(e: Engine, before: SchemaSnapshot, after: SchemaSnapshot, c0: Cat, j: nat)
    requires j < |after.tables| && Kept(before, after.tables[j])
  {
    var nt := after.tables[j];
    var ot := FindTable(before.tables, nt.name).value;
    DistinctColumns(ot) && Lower(nt.name) in c0.tables &&
    ColumnsMatch(ot, c0.tables[Lower(nt.name)].columns) &&
    RowsFillable(e, c0.tables[Lower(nt.name)].rows, ColumnsUpTo(ot, nt, |nt.columns|).safe)
  }

  predicate NoClashIn(before: SchemaSnapshot, nt: TableSnapshot)
    requires Kept(before, nt)
  {
    NoCaseClash(FindTable(before.tables, nt.name).value, nt)
  }

  /** In the first `k` tables, no column name clashes with an old one in another case. */
  predicate NoClashUpTo(before: SchemaSnapshot, after: SchemaSnapshot, k: nat)
    requires k <= |after.tables|
  {
    forall j :: 0 <= j < k && Kept(before, after.tables[j]) ==> NoClashIn(before, after.tables[j])
  }

  lemma ConstraintsAreSilent(ot: TableSnapshot, nt: TableSnapshot)
    ensures ConstraintDiff(ot, nt).safe == []
  {
  }

  /** The statements of a kept table are those of its columns, then those of its indexes. */
  lemma TableStatements(ot: TableSnapshot, nt: TableSnapshot)
    ensures TablePlan(ot, nt).safe == ColumnsUpTo(ot, nt, |nt.columns|).safe
              + IndexesUpTo(IndexEntries(ot.ddl), IndexEntries(nt.ddl), |IndexEntries(nt.ddl)|).safe
  {
    var ois, nis := IndexEntries(ot.ddl), IndexEntries(nt.ddl);
    NoDrops(ot, nt, |ot.columns|);
    IndexDropReviews(ois, nis);
    ConstraintsAreSilent(ot, nt);
    SafeParts(ColumnsUpTo(ot, nt, |nt.columns|), DropsUpTo(ot, nt, |ot.columns|),
              IndexesUpTo(ois, nis, |nis|), IndexDropsUpTo(ois, nis, |ois|), ConstraintDiff(ot, nt));
  }

  lemma SafeParts(a: Plan, b: Plan, c: Plan, d: Plan, e: Plan)
    requires b.safe == [] && d.safe == [] && e.safe == []
    ensures Then(Then(Then(a, b), Then(c, d)), e).safe == a.safe + c.safe
  {
  }

  lemma TableReviews(ot: TableSnapshot, nt: TableSnapshot)
    requires TablePlan(ot, nt).review == []
    ensures ColumnsUpTo(ot, nt, |nt.columns|).review == [] && DropsUpTo(ot, nt, |ot.columns|).review == []
    ensures IndexesUpTo(IndexEntries(ot.ddl), IndexEntries(nt.ddl), |IndexEntries(nt.ddl)|).review == []
    ensures ConstraintDiff(ot, nt).review == []
  {
  }

  lemma ColumnPhase(e: Engine, before: SchemaSnapshot, after: SchemaSnapshot, c0: Cat, c: Cat, k: nat) returns (c': Cat)
    requires k < |after.tables| && DistinctColumns(after.tables[k]) && Kept(before, after.tables[k])
    requires Ready(e, before, after, c0, k) && TableAt(before, after, c0, c, |after.tables|, k, k)
    requires NoClashIn(before, after.tables[k])
    requires var ot := FindTable(before.tables, after.tables[k].name).value;
             ColumnsUpTo(ot, after.tables[k], |after.tables[k].columns|).review == []
    ensures var nt := after.tables[k];
            var ot := FindTable(before.tables, nt.name).value;
            ExecAll(e, c, ColumnsUpTo(ot, nt, |nt.columns|).safe) == Some(c') &&
            Lower(nt.name) in c'.tables &&
            c' == c.(tables := c.tables[Lower(nt.name) := c'.tables[Lower(nt.name)]]) &&
            Mixed(ot, nt, |nt.columns|, c'.tables[Lower(nt.name)].columns)
  {
    var nt := after.tables[k];
    var ot := FindTable(before.tables, nt.name).value;
    var t' := ColumnsRun(e, ot, nt, c.tables[Lower(nt.name)], |nt.columns|);
    AlteredInPlace(e, c, ColumnsUpTo(ot, nt, |nt.columns|).safe, nt.name);
    c' := c.(tables := c.tables[Lower(nt.name) := t']);
  }

  lemma OldOnesAre(before: SchemaSnapshot, after: SchemaSnapshot, k: nat)
    requires k < |after.tables| && Kept(before, after.tables[k])
    ensures OldOnes(IndexEntries(FindTable(before.tables, after.tables[k].name).value.ddl),
                    IndexEntries(after.tables[k].ddl), BuiltAt(before, after, |after.tables|, k), k)
  {
  }

  lemma CanIndexKept(after: SchemaSnapshot, ot: TableSnapshot, c: Cat, k: nat)
    requires k < |after.tables| && Lower(after.tables[k].name) in c.tables
    requires Mixed(ot, after.tables[k], |after.tables[k].columns|, c.tables[Lower(after.tables[k].name)].columns)
    requires forall x <- c.tables.Keys :: TableNamed(after, x)
    ensures CanIndex(after, c, k)
  {
  }

  lemma KeptTableStep(e: Engine, before: SchemaSnapshot, after: SchemaSnapshot, c0: Cat, c: Cat, k: nat)
    returns (c': Cat)
    requires k < |after.tables| && GoodSchema(e, after) && Kept(before, after.tables[k])
    requires Ready(e, before, after, c0, k) && Stage(before, after, c0, c, |after.tables|, k)
    requires KeptPlan(before, after.tables[k]).review == [] && NoClashIn(before, after.tables[k])
    ensures ExecAll(e, c, KeptPlan(before, after.tables[k]).safe) == Some(c')
    ensures Stage(before, after, c0, c', |after.tables|, k + 1)
  {
    var nt := after.tables[k];
    var ot := FindTable(before.tables, nt.name).value;
    TableReviews(ot, nt);
    TableStatements(ot, nt);
    var mid := ColumnPhase(e, before, after, c0, c, k);
    CanIndexKept(after, ot, mid, k);
    c' := IndexPhase(e, before, after, mid, k);
    var ois, nis := IndexEntries(ot.ddl), IndexEntries(nt.ddl);
    ExecAllSplit(e, c, ColumnsUpTo(ot, nt, |nt.columns|).safe, IndexesUpTo(ois, nis, |nis|).safe);
    KeptTableStage(before, after, c0, c, c', k);
  }

  lemma IndexPhase(e: Engine, before: SchemaSnapshot, after: SchemaSnapshot, c: Cat, k: nat) returns (c': Cat)
    requires k < |after.tables| && GoodSchema(e, after) && Kept(before, after.tables[k]) && CanIndex(after, c, k)
    requires IndexesAre(after, BuiltAt(before, after, |after.tables|, k), c.indexes)
    requires var ois := IndexEntries(FindTable(before.tables, after.tables[k].name).value.ddl);
             var nis := IndexEntries(after.tables[k].ddl);
             IndexesUpTo(ois, nis, |nis|).review == []
    ensures var ois := IndexEntries(FindTable(before.tables, after.tables[k].name).value.ddl);
            var nis := IndexEntries(after.tables[k].ddl);
            ExecAll(e, c, IndexesUpTo(ois, nis, |nis|).safe) == Some(c')
    ensures c' == c.(indexes := c'.indexes)
    ensures IndexesAre(after, BuiltAt(before, after, |after.tables|, k + 1), c'.indexes)
  {
    var ois := IndexEntries(FindTable(before.tables, after.tables[k].name).value.ddl);
    var nis := IndexEntries(after.tables[k].ddl);
    OldOnesAre(before, after, k);
    c' := IndexesRun(e, after, c, BuiltAt(before, after, |after.tables|, k), k, ois, |nis|);
    BuiltGrows(before, after, |after.tables|, k, |after.tables|, k + 1, k);
  }

  lemma KeptTableStage(before: SchemaSnapshot, after: SchemaSnapshot, c0: Cat, c: Cat, c': Cat, k: nat)
    requires k < |after.tables| && DistinctTables(after) && Kept(before, after.tables[k])
    requires Stage(before, after, c0, c, |after.tables|, k) && c'.triggers == c.triggers
    requires IndexesAre(after, BuiltAt(before, after, |after.tables|, k + 1), c'.indexes)
    requires var nt := after.tables[k];
             var key := Lower(nt.name);
             key in c'.tables && c'.tables == c.tables[key := c'.tables[key]] &&
             Mixed(FindTable(before.tables, nt.name).value, nt, |nt.columns|, c'.tables[key].columns)
    ensures Stage(before, after, c0, c', |after.tables|, k + 1)
  {
    assert TableAt(before, after, c0, c, |after.tables|, k, k);
    var n, next := |after.tables|, k + 1;
    forall j | 0 <= j < n ensures TableAt(before, after, c0, c', n, next, j) {
      if j != k {
        assert Lower(after.tables[j].name) != Lower(after.tables[k].name);
        OtherTable(before, after, c0, c, c', n, k, n, next, j);
      }
    }
  }

  lemma SkipKeptStep(before: SchemaSnapshot, after: SchemaSnapshot, c0: Cat, c: Cat, k: nat)
    requires k < |after.tables| && Stage(before, after, c0, c, |after.tables|, k) && !Kept(before, after.tables[k])
    ensures Stage(before, after, c0, c, |after.tables|, k + 1)
  {
    var n, next := |after.tables|, k + 1;
    SameBuilt(before, after, n, k, n, next, k);
    forall j | 0 <= j < n ensures TableAt(before, after, c0, c, n, next, j) {
      OtherTable(before, after, c0, c, c, n, k, n, next, j);
    }
  }

  ghost predicate AllReady(e: Engine, before: SchemaSnapshot, after: SchemaSnapshot, c0: Cat) {
    forall j :: 0 <= j < |after.tables| && Kept(before, after.tables[j]) ==> Ready(e, before, after, c0, j)
  }

  lemma NextKeptTable(e: Engine, before: SchemaSnapshot, after: SchemaSnapshot, c0: Cat, c1: Cat, c: Cat, k: nat)
    returns (c': Cat)
    requires k < |after.tables| && GoodSchema(e, after) && AllReady(e, before, after, c0)
    requires Stage(before, after, c0, c, |after.tables|, k) && KeptOf(before)(after.tables[k]).review == []
    requires Kept(before, after.tables[k]) ==> NoClashIn(before, after.tables[k])
    requires ExecAll(e, c1, KeptTablesUpTo(before, after, k).safe) == Some(c)
    ensures ExecAll(e, c1, KeptTablesUpTo(before, after, k + 1).safe) == Some(c')
    ensures Stage(before, after, c0, c', |after.tables|, k + 1)
  {
    ExecAllSplit(e, c1, KeptTablesUpTo(before, after, k).safe, KeptOf(before)(after.tables[k]).safe);
    if Kept(before, after.tables[k]) {
      c' := KeptTableStep(e, before, after, c0, c, k);
    } else {
      SkipKeptStep(before, after, c0, c, k);
      c' := c;
    }
  }

  lemma {:induction false} KeptTablesRun(e: Engine, before: SchemaSnapshot, after: SchemaSnapshot, c0: Cat, c1: Cat,
                                         k: nat) returns (c: Cat)
    requires k <= |after.tables| && GoodSchema(e, after) && AllReady(e, before, after, c0)
    requires Stage(before, after, c0, c1, |after.tables|, 0) && NoReview(before, after) && NoClashUpTo(before, after, k)
    ensures ExecAll(e, c1, KeptTablesUpTo(before, after, k).safe) == Some(c)
    ensures Stage(before, after, c0, c, |after.tables|, k)
    decreases k
  {
    c := c1;
    if k > 0 {
      var n := k - 1;
      assert n + 1 == k;
      var mid := KeptTablesRun(e, before, after, c0, c1, n);
      KeptReviews(before, after, n);
      c := NextKeptTable(e, before, after, c0, c1, mid, n);
    }
  }

  // ---- The end of the run ----

  lemma AllTablesThere(before: SchemaSnapshot, after: SchemaSnapshot, c0: Cat, c: Cat)
    requires Stage(before, after, c0, c, |after.tables|, |after.tables|)
    ensures forall k :: k in c.tables <==> TableNamed(after, k)
  {
    forall k | TableNamed(after, k) ensures k in c.tables {
      var j :| 0 <= j < |after.tables| && Lower(after.tables[j].name) == k;
      assert TableAt(before, after, c0, c, |after.tables|, |after.tables|, j);
    }
  }

  lemma AllIndexesThere(before: SchemaSnapshot, after: SchemaSnapshot)
    ensures AllBuilt(after, BuiltAt(before, after, |after.tables|, |after.tables|))
  {
  }

  /** In no kept table a new column meets an old one that differs from it in case only. */
  predicate NoCaseClashes(before: SchemaSnapshot, after: SchemaSnapshot) {
    NoClashUpTo(before, after, |after.tables|)
  }

  /** In each kept table, the hints take what they keep out of the review list. */
  predicate HintsAllTake(before: SchemaSnapshot, after: SchemaSnapshot) {
    forall j :: 0 <= j < |after.tables| && Kept(before, after.tables[j]) ==>
      HintsTake(FindTable(before.tables, after.tables[j].name).value, after.tables[j])
  }

  /** In each kept table that has rows, the defaults of added columns can fill them. */
  ghost predicate DefaultsFit(e: Engine, before: SchemaSnapshot, after: SchemaSnapshot, c: Cat) {
    forall j :: 0 <= j < |after.tables| && Kept(before, after.tables[j]) ==> DefaultsFitTable(e, before, after, c, j)
  }

  ghost predicate DefaultsFitTable(e: Engine, before: SchemaSnapshot, after: SchemaSnapshot, c: Cat, j: nat)
    requires j < |after.tables| && Kept(before, after.tables[j])
  {
    var nt := after.tables[j];
    Lower(nt.name) in c.tables &&
    RowsFillable(e, c.tables[Lower(nt.name)].rows,
                 ColumnsUpTo(FindTable(before.tables, nt.name).value, nt, |nt.columns|).safe)
  }

  lemma PlanParts(before: SchemaSnapshot, after: SchemaSnapshot)
    ensures DiffPlan(before, after).safe == NewTablesUpTo(before, after, |after.tables|).safe
              + KeptTablesUpTo(before, after, |after.tables|).safe + TriggerDiff(before, after).safe
    ensures DiffPlan(before, after).review == [] ==> NoReview(before, after)
  {
    GoneReviews(before, after, |before.tables|);
    FourParts(NewTablesUpTo(before, after, |after.tables|), GoneTablesUpTo(before, after, |before.tables|),
              KeptTablesUpTo(before, after, |after.tables|), TriggerDiff(before, after));
  }

  lemma FourParts(a: Plan, b: Plan, c: Plan, d: Plan)
    requires b.safe == []
    ensures Then(Then(Then(a, b), c), d).safe == a.safe + c.safe + d.safe
    ensures Then(Then(Then(a, b), c), d).review == [] ==> b.review == [] && c.review == []
  {
  }

  lemma KeptFacts(e: Engine, before: SchemaSnapshot, c: Cat, nt: TableSnapshot)
    requires GoodSchema(e, before) && Describes(before, c) && Kept(before, nt)
    ensures var ot := FindTable(before.tables, nt.name).value;
            DistinctColumns(ot) && Lower(nt.name) in c.tables && ColumnsMatch(ot, c.tables[Lower(nt.name)].columns)
  {
    FoundTable(before.tables, nt.name);
    var i :| 0 <= i < |before.tables| && before.tables[i] == FindTable(before.tables, nt.name).value;
    assert TableNamed(before, Lower(nt.name));
    assert GoodTable(e, before.tables[i]);
  }

  lemma EveryoneReady(e: Engine, before: SchemaSnapshot, after: SchemaSnapshot, c: Cat)
    requires GoodSchema(e, before) && Describes(before, c) && DefaultsFit(e, before, after, c)
    ensures AllReady(e, before, after, c)
  {
    forall j | 0 <= j < |after.tables| && Kept(before, after.tables[j]) ensures Ready(e, before, after, c, j) {
      KeptFacts(e, before, c, after.tables[j]);
      assert DefaultsFitTable(e, before, after, c, j);
    }
  }

  lemma ColumnsAtEnd(before: SchemaSnapshot, after: SchemaSnapshot, c0: Cat, c: Cat, j: nat)
    requires Stage(before, after, c0, c, |after.tables|, |after.tables|) && NoReview(before, after)
    requires NoCaseClashes(before, after) &&
             (forall i :: 0 <= i < |before.tables| ==> DistinctColumns(before.tables[i]))
    requires j < |after.tables|
    ensures Lower(after.tables[j].name) in c.tables
    ensures ColumnsMatch(after.tables[j], c.tables[Lower(after.tables[j].name)].columns) <==>
            (Kept(before, after.tables[j]) ==>
              HintsTake(FindTable(before.tables, after.tables[j].name).value, after.tables[j]))
  {
    var nt := after.tables[j];
    assert TableAt(before, after, c0, c, |after.tables|, |after.tables|, j);
    if Kept(before, nt) {
      var ot := FindTable(before.tables, nt.name).value;
      FoundTable(before.tables, nt.name);
      KeptReviews(before, after, j);
      TableReviews(ot, nt);
      MixedIsNew(ot, nt, c.tables[Lower(nt.name)].columns);
    }
  }

  /** At the end only the columns are open to question. */
  lemma OnlyColumnsLeft(before: SchemaSnapshot, after: SchemaSnapshot, c0: Cat, c: Cat, c': Cat)
    requires Stage(before, after, c0, c, |after.tables|, |after.tables|)
    requires c' == c.(triggers := c'.triggers) && TriggersMatch(after, c'.triggers)
    ensures forall j :: 0 <= j < |after.tables| ==> Lower(after.tables[j].name) in c.tables
    ensures Describes(after, c') <==>
            forall j :: 0 <= j < |after.tables| ==>
              ColumnsMatch(after.tables[j], c.tables[Lower(after.tables[j].name)].columns)
  {
    AllTablesThere(before, after, c0, c);
    AllIndexesThere(before, after);
    assert forall j :: 0 <= j < |after.tables| ==> TableNamed(after, Lower(after.tables[j].name));
  }

  lemma DescribesAtEnd(before: SchemaSnapshot, after: SchemaSnapshot, c0: Cat, c: Cat, c': Cat)
    requires Stage(before, after, c0, c, |after.tables|, |after.tables|) && NoReview(before, after)
    requires NoCaseClashes(before, after) &&
             (forall i :: 0 <= i < |before.tables| ==> DistinctColumns(before.tables[i]))
    requires c' == c.(triggers := c'.triggers) && TriggersMatch(after, c'.triggers)
    ensures Describes(after, c') <==> HintsAllTake(before, after)
  {
    OnlyColumnsLeft(before, after, c0, c, c');
    forall j | 0 <= j < |after.tables|
      ensures ColumnsMatch(after.tables[j], c.tables[Lower(after.tables[j].name)].columns) <==>
              (Kept(before, after.tables[j]) ==>
                HintsTake(FindTable(before.tables, after.tables[j].name).value, after.tables[j]))
    {
      ColumnsAtEnd(before, after, c0, c, j);
    }
  }

  lemma PlanRuns(e: Engine, before: SchemaSnapshot, after: SchemaSnapshot, c0: Cat) returns (c': Cat)
    requires GoodSchema(e, before) && GoodSchema(e, after) && Describes(before, c0)
    requires DiffPlan(before, after).review == [] && DefaultsFit(e, before, after, c0) && NoCaseClashes(before, after)
    ensures ExecAll(e, c0, DiffPlan(before, after).safe) == Some(c')
    ensures Describes(after, c') <==> HintsAllTake(before, after)
  {
    PlanParts(before, after);
    EveryoneReady(e, before, after, c0);
    StageAtStart(before, after, c0);
    var n := |after.tables|;
    var c1 := NewTablesRun(e, before, after, c0, n);
    var c2 := KeptTablesRun(e, before, after, c0, c1, n);
    AllTablesThere(before, after, c0, c2);
    c' := DiffTriggers.TriggersRun(e, before, after, c2);
    var a, b, t := NewTablesUpTo(before, after, n).safe, KeptTablesUpTo(before, after, n).safe,
        TriggerDiff(before, after).safe;
    ExecAllSplit(e, c0, a, b);
    ExecAllSplit(e, c0, a + b, t);
    DescribesAtEnd(before, after, c0, c2, c');
  }

  // ---- Defaults that do not fit stop the run ----

  lemma {:induction false} RunFills(e: Engine, c: Cat, ss: seq<Stmt>, i: nat)
    requires ExecAll(e, c, ss).Some? && i < |ss| && ss[i].AddColumn?
    requires Lower(ss[i].table) in c.tables && c.tables[Lower(ss[i].table)].rows != []
    ensures FillsRows(e, ss[i].def)
    decreases |ss|
  {
    if i > 0 {
      var c' := Exec(e, c, ss[0]).value;
      RowsStay(e, c, ss[0], Lower(ss[i].table));
      assert ss[1..][i - 1] == ss[i];
      RunFills(e, c', ss[1..], i - 1);
    }
  }

  lemma RowsStay(e: Engine, c: Cat, s: Stmt, key: string)
    requires Exec(e, c, s).Some? && key in c.tables
    ensures var c' := Exec(e, c, s).value; key in c'.tables && |c'.tables[key].rows| == |c.tables[key].rows|
  {
  }

  lemma TableFills(e: Engine, before: SchemaSnapshot, after: SchemaSnapshot, c: Cat, j: nat)
    requires GoodSchema(e, before) && Describes(before, c) && ExecAll(e, c, DiffPlan(before, after).safe).Some?
    requires j < |after.tables| && Kept(before, after.tables[j])
    ensures DefaultsFitTable(e, before, after, c, j)
  {
    var nt := after.tables[j];
    var ot := FindTable(before.tables, nt.name).value;
    KeptFacts(e, before, c, nt);
    var all, ss := DiffPlan(before, after).safe, ColumnsUpTo(ot, nt, |nt.columns|).safe;
    ColumnStatements(ot, nt, |nt.columns|);
    forall i | 0 <= i < |ss| && ss[i].AddColumn? && c.tables[Lower(nt.name)].rows != []
      ensures FillsRows(e, ss[i].def)
    {
      assert AltersTable(ss[i], nt.name);
      StatementInPlan(before, after, j, ss[i]);
      var h :| 0 <= h < |all| && all[h] == ss[i];
      RunFills(e, c, all, h);
    }
  }

  lemma StatementInPlan(before: SchemaSnapshot, after: SchemaSnapshot, j: nat, s: Stmt)
    requires j < |after.tables| && Kept(before, after.tables[j])
    requires s in ColumnsUpTo(FindTable(before.tables, after.tables[j].name).value, after.tables[j],
                              |after.tables[j].columns|).safe
    ensures s in DiffPlan(before, after).safe
  {
    PlanParts(before, after);
    TableStatements(FindTable(before.tables, after.tables[j].name).value, after.tables[j]);
    assert s in KeptOf(before)(after.tables[j]).safe;
    UpToMember(after.tables, KeptOf(before), |after.tables|, j, s);
  }

  // ---- A column name that clashes stops the run ----

  lemma {:induction false} FirstClashing(before: SchemaSnapshot, after: SchemaSnapshot, k: nat) returns (n: nat)
    requires k <= |after.tables| && !NoClashUpTo(before, after, k)
    ensures n < k && NoClashUpTo(before, after, n)
    ensures Kept(before, after.tables[n]) && !NoClashIn(before, after.tables[n])
  {
    n := k - 1;
    if !NoClashUpTo(before, after, n) { n := FirstClashing(before, after, n); }
  }

  lemma TableStops(e: Engine, before: SchemaSnapshot, after: SchemaSnapshot, c0: Cat, c: Cat, k: nat)
    requires k < |after.tables| && DistinctColumns(after.tables[k]) && Kept(before, after.tables[k])
    requires Ready(e, before, after, c0, k) && TableAt(before, after, c0, c, |after.tables|, k, k)
    requires !NoClashIn(before, after.tables[k]) && KeptPlan(before, after.tables[k]).review == []
    ensures ExecAll(e, c, KeptPlan(before, after.tables[k]).safe) == None
  {
    var nt := after.tables[k];
    var ot := FindTable(before.tables, nt.name).value;
    TableReviews(ot, nt);
    TableStatements(ot, nt);
    ColumnsStop(e, ot, nt, c.tables[Lower(nt.name)]);
    AlteredInPlace(e, c, ColumnsUpTo(ot, nt, |nt.columns|).safe, nt.name);
    ExecAllSplit(e, c, ColumnsUpTo(ot, nt, |nt.columns|).safe,
                 IndexesUpTo(IndexEntries(ot.ddl), IndexEntries(nt.ddl), |IndexEntries(nt.ddl)|).safe);
  }

  lemma {:induction false} StatementsExtend<T>(items: seq<T>, f: T -> Plan, a: seq<Stmt>, n: nat, k: nat)
    requires n <= k <= |items| && a <= UpTo(items, f, n).safe
    ensures a <= UpTo(items, f, k).safe
    decreases k - n
  {
    if n < k {
      var next := n + 1;
      PrefixOfBoth(a, UpTo(items, f, n), f(items[n]));
      assert UpTo(items, f, next) == Then(UpTo(items, f, n), f(items[n]));
      StatementsExtend(items, f, a, next, k);
    }
  }

  lemma StoppedRun(e: Engine, c: Cat, a: seq<Stmt>, ss: seq<Stmt>)
    requires a <= ss && ExecAll(e, c, a) == None
    ensures ExecAll(e, c, ss) == None
  {
    assert ss == a + ss[|a|..];
    ExecAllSplit(e, c, a, ss[|a|..]);
  }

  lemma StoppedItems<T>(e: Engine, c: Cat, items: seq<T>, f: T -> Plan, n: nat)
    requires n <= |items| && ExecAll(e, c, UpTo(items, f, n).safe) == None
    ensures ExecAll(e, c, UpTo(items, f, |items|).safe) == None
  {
    StatementsExtend(items, f, UpTo(items, f, n).safe, n, |items|);
    StoppedRun(e, c, UpTo(items, f, n).safe, UpTo(items, f, |items|).safe);
  }

  /** When table `k` stops, the whole pass stops. */
  lemma StopsAtTable(e: Engine, before: SchemaSnapshot, after: SchemaSnapshot, c1: Cat, c: Cat, k: nat)
    requires k < |after.tables| && ExecAll(e, c1, KeptTablesUpTo(before, after, k).safe) == Some(c)
    requires ExecAll(e, c, KeptPlan(before, after.tables[k]).safe) == None
    ensures ExecAll(e, c1, KeptTablesUpTo(before, after, |after.tables|).safe) == None
  {
    ExecAllSplit(e, c1, KeptTablesUpTo(before, after, k).safe, KeptOf(before)(after.tables[k]).safe);
    StoppedItems(e, c1, after.tables, KeptOf(before), k + 1);
  }

  lemma ClashStops(e: Engine, before: SchemaSnapshot, after: SchemaSnapshot, c0: Cat, c1: Cat, k: nat)
    requires k < |after.tables| && GoodSchema(e, after) && AllReady(e, before, after, c0) && NoReview(before, after)
    requires Stage(before, after, c0, c1, |after.tables|, 0) && NoClashUpTo(before, after, k)
    requires Kept(before, after.tables[k]) && !NoClashIn(before, after.tables[k])
    ensures ExecAll(e, c1, KeptTablesUpTo(before, after, |after.tables|).safe) == None
  {
    var c := KeptTablesRun(e, before, after, c0, c1, k);
    KeptReviews(before, after, k);
    assert TableAt(before, after, c0, c, |after.tables|, k, k);
    TableStops(e, before, after, c0, c, k);
    StopsAtTable(e, before, after, c1, c, k);
  }

  lemma KeptTablesStop(e: Engine, before: SchemaSnapshot, after: SchemaSnapshot, c0: Cat, c1: Cat)
    requires GoodSchema(e, after) && AllReady(e, before, after, c0) && NoReview(before, after)
    requires Stage(before, after, c0, c1, |after.tables|, 0) && !NoCaseClashes(before, after)
    ensures ExecAll(e, c1, KeptTablesUpTo(before, after, |after.tables|).safe) == None
  {
    var k := FirstClashing(before, after, |after.tables|);
    ClashStops(e, before, after, c0, c1, k);
  }

  lemma StopsInside(e: Engine, c: Cat, mid: Cat, a: seq<Stmt>, b: seq<Stmt>, t: seq<Stmt>)
    requires ExecAll(e, c, a) == Some(mid) && ExecAll(e, mid, b) == None
    ensures ExecAll(e, c, a + b + t) == None
  {
    ExecAllSplit(e, c, a, b);
    ExecAllSplit(e, c, a + b, t);
  }

  lemma PlanStops(e: Engine, before: SchemaSnapshot, after: SchemaSnapshot, c0: Cat)
    requires GoodSchema(e, before) && GoodSchema(e, after) && Describes(before, c0)
    requires DiffPlan(before, after).review == [] && DefaultsFit(e, before, after, c0) && !NoCaseClashes(before, after)
    ensures ExecAll(e, c0, DiffPlan(before, after).safe) == None
  {
    PlanParts(before, after);
    EveryoneReady(e, before, after, c0);
    StageAtStart(before, after, c0);
    var c1 := NewTablesRun(e, before, after, c0, |after.tables|);
    KeptTablesStop(e, before, after, c0, c1);
    StopsInside(e, c0, c1, NewTablesUpTo(before, after, |after.tables|).safe,
                KeptTablesUpTo(before, after, |after.tables|).safe, TriggerDiff(before, after).safe);
  }

  // ---- The theorem ----

  /** Between good schemas, a diff that leaves nothing to review runs exactly when the added defaults
      fit the existing rows and no new column meets an old one in another case; it then gives exactly
      the new schema if and only if every hint that keeps a column out of the review list renames it. */
  lemma DiffIsCorrect(e: Engine, before: SchemaSnapshot, after: SchemaSnapshot, c: Cat)
    requires GoodSchema(e, before) && GoodSchema(e, after) && Describes(before, c)
    requires DiffPlan(before, after).review == []
    ensures var r := ExecAll(e, c, DiffPlan(before, after).safe);
            (r.Some? <==> DefaultsFit(e, before, after, c) && NoCaseClashes(before, after)) &&
            (r.Some? ==> (Describes(after, r.value) <==> HintsAllTake(before, after)))
  {
    if !DefaultsFit(e, before, after, c) {
      var j :| 0 <= j < |after.tables| && Kept(before, after.tables[j]) && !DefaultsFitTable(e, before, after, c, j);
      if ExecAll(e, c, DiffPlan(before, after).safe).Some? { TableFills(e, before, after, c, j); }
    } else if NoCaseClashes(before, after) {
      var c' := PlanRuns(e, before, after, c);
    } else {
      PlanStops(e, before, after, c);
    }
  }

  /** Kept tables whose columns agree keep their kind and, if both snapshots list statements, their
      CREATE TABLE text up to white space outside quotes. */
  lemma KeptTableIsUnchanged(before: SchemaSnapshot, after: SchemaSnapshot, j: nat)
    requires DiffPlan(before, after).review == [] && j < |after.tables| && Kept(before, after.tables[j])
    requires SameColumns(FindTable(before.tables, after.tables[j].name).value, after.tables[j])
    ensures var nt := after.tables[j];
            var ot := FindTable(before.tables, nt.name).value;
            ot.strict == nt.strict && ot.withoutRowid == nt.withoutRowid &&
            (ot.ddl != [] && nt.ddl != [] ==> Bodies(ot.ddl) == Bodies(nt.ddl))
  {
    PlanParts(before, after);
    KeptReviews(before, after, j);
    TableReviews(FindTable(before.tables, after.tables[j].name).value, after.tables[j]);
  }
}
