/** The catalog between two steps of a diff that leaves nothing to a human: which tables, columns
    and indexes are old, and which are new already. */
module DiffStages {
  import opened Values
  import opened SqlText
  import opened Snapshot
  import opened Diff
  import opened Catalog
  import opened DiffColumns
  import opened DiffIndexes

  // ---- What an empty review list says ----

  predicate Kept(before: SchemaSnapshot, t: TableSnapshot) {
    FindTable(before.tables, t.name).Some?
  }

  lemma KeptReviews(before: SchemaSnapshot, after: SchemaSnapshot, j: nat)
    requires j < |after.tables| && KeptTablesUpTo(before, after, |after.tables|).review == []
    ensures KeptOf(before)(after.tables[j]).review == []
  {
    UpToReviews(after.tables, KeptOf(before), |after.tables|);
  }

  lemma GoneReviews(before: SchemaSnapshot, after: SchemaSnapshot, k: nat)
    requires k <= |before.tables|
    ensures GoneTablesUpTo(before, after, k).safe == []
    ensures GoneTablesUpTo(before, after, k).review == [] ==>
            forall i :: 0 <= i < k ==> FindTable(after.tables, before.tables[i].name).Some?
  {
    UpToReviews(before.tables, GoneOf(after), k);
    UpToSafe(before.tables, GoneOf(after), k);
  }

  lemma IndexReviews(ois: seq<(string, string)>, nis: seq<(string, string)>, l: nat)
    requires l < |nis| && IndexesUpTo(ois, nis, |nis|).review == []
    ensures IndexOf(ois)(nis[l]).review == []
  {
    UpToReviews(nis, IndexOf(ois), |nis|);
  }

  lemma IndexDropReviews(ois: seq<(string, string)>, nis: seq<(string, string)>)
    ensures IndexDropsUpTo(ois, nis, |ois|).safe == []
    ensures IndexDropsUpTo(ois, nis, |ois|).review == [] ==>
            forall h :: 0 <= h < |ois| ==> FindEntry(nis, ois[h].0).Some?
  {
    UpToReviews(ois, IndexDropOf(nis), |ois|);
    UpToSafe(ois, IndexDropOf(nis), |ois|);
    assert forall h :: 0 <= h < |ois| && IndexDropOf(nis)(ois[h]).review == [] ==> FindEntry(nis, ois[h].0).Some?;
  }

  // ---- Old tables and indexes seen from the new schema ----

  /** The only old table of that name. */
  lemma OldTableFound(before: SchemaSnapshot, i: nat)
    requires i < |before.tables| && DistinctTables(before)
    ensures FindTable(before.tables, before.tables[i].name) == Some(before.tables[i])
  {
    FoundTable(before.tables, before.tables[i].name);
    var h :| 0 <= h < |before.tables| && before.tables[h] == FindTable(before.tables, before.tables[i].name).value;
  }

  predicate OldHas(before: SchemaSnapshot, after: SchemaSnapshot, j: nat, l: nat)
    requires IsEntry(after, j, l)
  {
    var t := after.tables[j];
    Kept(before, t) &&
    FindEntry(IndexEntries(FindTable(before.tables, t.name).value.ddl), IndexEntries(t.ddl)[l].0).Some?
  }

  predicate BuiltIn(before: SchemaSnapshot, after: SchemaSnapshot, news: nat, kept: nat, j: nat, l: nat)
    requires IsEntry(after, j, l)
  {
    OldHas(before, after, j, l) || if Kept(before, after.tables[j]) then j < kept else j < news
  }

  /** The new schema's indexes that exist once `news` new and `kept` old tables were handled. */
  ghost function BuiltAt(before: SchemaSnapshot, after: SchemaSnapshot, news: nat, kept: nat): set<(nat, nat)> {
    set j: nat, l: nat | j < |after.tables| && l < |IndexEntries(after.tables[j].ddl)| &&
      BuiltIn(before, after, news, kept, j, l) :: (j, l)
  }

  ghost predicate NoReview(before: SchemaSnapshot, after: SchemaSnapshot) {
    GoneTablesUpTo(before, after, |before.tables|).review == [] &&
    KeptTablesUpTo(before, after, |after.tables|).review == []
  }

  /** Every old index is still wanted, on the same table and with the same text. */
  lemma OldEntryIsNew(before: SchemaSnapshot, after: SchemaSnapshot, i: nat, h: nat) returns (j: nat, l: nat)
    requires IsEntry(before, i, h) && DistinctTables(before) && NoReview(before, after)
    ensures IsEntry(after, j, l) && EntryKey(after, j, l) == EntryKey(before, i, h) && OldHas(before, after, j, l)
  {
    var ot := before.tables[i];
    GoneReviews(before, after, |before.tables|);
    FoundTable(after.tables, ot.name);
    var nt := FindTable(after.tables, ot.name).value;
    j :| 0 <= j < |after.tables| && after.tables[j] == nt;
    OldTableFound(before, i);
    KeptReviews(before, after, j);
    var ois, nis := IndexEntries(ot.ddl), IndexEntries(nt.ddl);
    IndexDropReviews(ois, nis);
    FoundEntry(nis, ois[h].0);
    l :| 0 <= l < |nis| && nis[l] == (ois[h].0, FindEntry(nis, ois[h].0).value);
    FoundEntry(ois, nis[l].0);
  }

  lemma NewEntryWasOld(before: SchemaSnapshot, after: SchemaSnapshot, j: nat, l: nat) returns (i: nat, h: nat)
    requires IsEntry(after, j, l) && OldHas(before, after, j, l) && NoReview(before, after)
    ensures IsEntry(before, i, h) && EntryKey(after, j, l) == EntryKey(before, i, h)
    ensures EntryIndex(after, j, l) == EntryIndex(before, i, h)
  {
    var nt := after.tables[j];
    FoundTable(before.tables, nt.name);
    var ot := FindTable(before.tables, nt.name).value;
    i :| 0 <= i < |before.tables| && before.tables[i] == ot;
    KeptReviews(before, after, j);
    var ois, nis := IndexEntries(ot.ddl), IndexEntries(nt.ddl);
    IndexReviews(ois, nis, l);
    FoundEntry(ois, nis[l].0);
    h :| 0 <= h < |ois| && ois[h] == (nis[l].0, FindEntry(ois, nis[l].0).value);
  }

  lemma InBuilt(before: SchemaSnapshot, after: SchemaSnapshot, news: nat, kept: nat, j: nat, l: nat)
    requires IsEntry(after, j, l)
    ensures (j, l) in BuiltAt(before, after, news, kept) <==> BuiltIn(before, after, news, kept, j, l)
  {
  }

  lemma IndexesAtStart(before: SchemaSnapshot, after: SchemaSnapshot, c: Cat)
    requires DistinctTables(before) && DistinctEntries(after) && NoReview(before, after) && Describes(before, c)
    ensures IndexesAre(after, BuiltAt(before, after, 0, 0), c.indexes)
  {
    forall j: nat, l: nat | IsEntry(after, j, l)
      ensures EntryIs(after, j, l, (j, l) in BuiltAt(before, after, 0, 0), c.indexes)
    {
      EntryAtStart(before, after, c, j, l);
    }
    forall k <- c.indexes.Keys ensures BuiltKey(after, BuiltAt(before, after, 0, 0), k) {
      KeyAtStart(before, after, c, k);
    }
  }

  lemma KeyAtStart(before: SchemaSnapshot, after: SchemaSnapshot, c: Cat, k: string)
    requires DistinctTables(before) && NoReview(before, after) && Describes(before, c) && k in c.indexes
    ensures BuiltKey(after, BuiltAt(before, after, 0, 0), k)
  {
    var j, l := OldKeyIsNew(before, after, c, k);
    InBuilt(before, after, 0, 0, j, l);
    assert IsEntry(after, (j, l).0, (j, l).1);
  }

  lemma EntryAtStart(before: SchemaSnapshot, after: SchemaSnapshot, c: Cat, j: nat, l: nat)
    requires DistinctTables(before) && DistinctEntries(after) && NoReview(before, after) && Describes(before, c)
    requires IsEntry(after, j, l)
    ensures EntryIs(after, j, l, (j, l) in BuiltAt(before, after, 0, 0), c.indexes)
  {
    InBuilt(before, after, 0, 0, j, l);
    if OldHas(before, after, j, l) {
      var i, h := NewEntryWasOld(before, after, j, l);
      OldEntryThere(before, c, i, h);
    } else if EntryKey(after, j, l) in c.indexes {
      var j', l' := OldKeyIsNew(before, after, c, EntryKey(after, j, l));
    }
  }

  lemma OldEntryThere(before: SchemaSnapshot, c: Cat, i: nat, h: nat)
    requires Describes(before, c) && IsEntry(before, i, h)
    ensures EntryIs(before, i, h, true, c.indexes)
  {
    var built: set<(nat, nat)> :| AllBuilt(before, built) && IndexesAre(before, built, c.indexes);
    assert (i, h) in built;
  }

  lemma OldKeyIsNew(before: SchemaSnapshot, after: SchemaSnapshot, c: Cat, k: string) returns (j: nat, l: nat)
    requires DistinctTables(before) && NoReview(before, after) && Describes(before, c) && k in c.indexes
    ensures IsEntry(after, j, l) && EntryKey(after, j, l) == k && OldHas(before, after, j, l)
  {
    var built: set<(nat, nat)> :| AllBuilt(before, built) && IndexesAre(before, built, c.indexes);
    assert BuiltKey(before, built, k);
    var p: (nat, nat) :| p in built && IsEntry(before, p.0, p.1) && EntryKey(before, p.0, p.1) == k;
    j, l := OldEntryIsNew(before, after, p.0, p.1);
  }

  // ---- The catalog between two tables ----

  ghost predicate TableAt(before: SchemaSnapshot, after: SchemaSnapshot, c0: Cat, c: Cat, news: nat, kept: nat, j: nat)
    requires j < |after.tables|
  {
    var nt := after.tables[j];
    var key := Lower(nt.name);
    var ot := FindTable(before.tables, nt.name);
    if ot.None? then (
      if j < news then key in c.tables && ColumnsMatch(nt, c.tables[key].columns) else key !in c.tables
    ) else (
      key in c.tables && key in c0.tables &&
      if j < kept then Mixed(ot.value, nt, |nt.columns|, c.tables[key].columns) else c.tables[key] == c0.tables[key]
    )
  }

  ghost predicate Stage(before: SchemaSnapshot, after: SchemaSnapshot, c0: Cat, c: Cat, news: nat, kept: nat) {
    (forall j :: 0 <= j < |after.tables| ==> TableAt(before, after, c0, c, news, kept, j)) &&
    (forall k <- c.tables.Keys :: TableNamed(after, k)) &&
    IndexesAre(after, BuiltAt(before, after, news, kept), c.indexes) &&
    c.triggers == c0.triggers
  }

  lemma StageAtStart(before: SchemaSnapshot, after: SchemaSnapshot, c: Cat)
    requires DistinctTables(before) && DistinctTables(after) && DistinctEntries(after)
    requires NoReview(before, after) && Describes(before, c)
    ensures Stage(before, after, c, c, 0, 0)
  {
    GoneReviews(before, after, |before.tables|);
    forall k <- c.tables.Keys ensures TableNamed(after, k) {
      var i :| 0 <= i < |before.tables| && Lower(before.tables[i].name) == k;
      FoundTable(after.tables, before.tables[i].name);
    }
    forall j | 0 <= j < |after.tables| ensures TableAt(before, after, c, c, 0, 0, j) {
      TableAtStart(before, after, c, j);
    }
    IndexesAtStart(before, after, c);
  }

  /** Without a dropped table, nothing stands in the way of a new one. */
  lemma NewNameIsFree(before: SchemaSnapshot, after: SchemaSnapshot, c: Cat, nt: TableSnapshot)
    requires DistinctTables(after) && nt in after.tables && NoReview(before, after) && Describes(before, c)
    requires !Kept(before, nt)
    ensures Lower(nt.name) !in c.tables
  {
    if Lower(nt.name) in c.tables {
      var i :| 0 <= i < |before.tables| && Lower(before.tables[i].name) == Lower(nt.name);
      OldNameIsNew(before, after, nt, i);
      FoundTable(before.tables, nt.name);
    }
  }

  lemma OldNameIsNew(before: SchemaSnapshot, after: SchemaSnapshot, nt: TableSnapshot, i: nat)
    requires DistinctTables(after) && nt in after.tables && NoReview(before, after)
    requires i < |before.tables| && Lower(before.tables[i].name) == Lower(nt.name)
    ensures before.tables[i].name == nt.name
  {
    GoneReviews(before, after, |before.tables|);
    FoundTable(after.tables, before.tables[i].name);
  }

  lemma TableAtStart(before: SchemaSnapshot, after: SchemaSnapshot, c: Cat, j: nat)
    requires DistinctTables(after) && j < |after.tables| && NoReview(before, after) && Describes(before, c)
    ensures TableAt(before, after, c, c, 0, 0, j)
  {
    var nt := after.tables[j];
    if Kept(before, nt) {
      FoundTable(before.tables, nt.name);
      assert TableNamed(before, Lower(nt.name));
    } else {
      NewNameIsFree(before, after, c, nt);
    }
  }

  // ---- One new table ----

  lemma OtherTable(before: SchemaSnapshot, after: SchemaSnapshot, c0: Cat, c: Cat, c': Cat, news: nat, kept: nat,
                   news': nat, kept': nat, j: nat)
    requires j < |after.tables| && TableAt(before, after, c0, c, news, kept, j)
    requires if Kept(before, after.tables[j]) then j < kept <==> j < kept' else j < news <==> j < news'
    requires var key := Lower(after.tables[j].name);
             (key in c.tables <==> key in c'.tables) && (key in c.tables ==> c.tables[key] == c'.tables[key])
    ensures TableAt(before, after, c0, c', news', kept', j)
  {
  }

  lemma BuiltGrows(before: SchemaSnapshot, after: SchemaSnapshot, news: nat, kept: nat, news': nat, kept': nat, k: nat)
    requires k < |after.tables|
    requires if Kept(before, after.tables[k]) then kept == k && kept' == k + 1 && news' == news
             else news == k && news' == k + 1 && kept' == kept
    ensures Built(BuiltAt(before, after, news, kept), k, |IndexEntries(after.tables[k].ddl)|)
         == BuiltAt(before, after, news', kept')
  {
    var n := |IndexEntries(after.tables[k].ddl)|;
    forall p | p in Built(BuiltAt(before, after, news, kept), k, n) ensures p in BuiltAt(before, after, news', kept') {
      assert IsEntry(after, p.0, p.1);
    }
    forall p | p in BuiltAt(before, after, news', kept') ensures p in Built(BuiltAt(before, after, news, kept), k, n) {
      if p.0 != k { assert p in BuiltAt(before, after, news, kept); }
    }
  }
}
