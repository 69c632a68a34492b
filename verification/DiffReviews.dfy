/** What a diff leaves to a human, and what it warns about, said of the two snapshots alone. */
module DiffReviews {
  import opened Values
  import opened SqlText
  import opened Snapshot
  import opened Diff

  // ---- Changed fields ----

  predicate Differs(f: Field, a: Def, b: Def) {
    match f
    case SqlType => a.sqlType != b.sqlType
    case NotNull => a.notNull != b.notNull
    case Pk => a.pk != b.pk
    case Default => a.defaultSql != b.defaultSql
    case Collate => a.collate != b.collate
    case GeneratedExpr => a.generated != b.generated
  }

  /** Exactly the fields that differ are named. */
  lemma FieldsAreExact(f: Field, a: Def, b: Def)
    ensures f in ChangedFields(a, b) <==> Differs(f, a, b)
  {
  }

  // ---- Which hints take ----

  /** Column `k` is new and hints at a source that is gone. */
  predicate Hints(ot: TableSnapshot, nt: TableSnapshot, k: nat, source: string)
    requires k < |nt.columns|
  {
    !HasColumn(ot, nt.columns[k].name) && nt.columns[k].renamedFrom == Some(source) &&
    HasColumn(ot, source) && !HasColumn(nt, source)
  }

  /** It is the first one to do so. */
  predicate FirstHint(ot: TableSnapshot, nt: TableSnapshot, k: nat, source: string)
    requires k < |nt.columns|
  {
    Hints(ot, nt, k, source) && forall i :: 0 <= i < k ==> !Hints(ot, nt, i, source)
  }

  /** Column `k` is new and renames nothing. */
  predicate Added(ot: TableSnapshot, nt: TableSnapshot, k: nat)
    requires k < |nt.columns|
  {
    var c := nt.columns[k];
    !HasColumn(ot, c.name) && (c.renamedFrom.Some? ==> !FirstHint(ot, nt, k, c.renamedFrom.value))
  }

  lemma {:induction false} TakenIsHinted(ot: TableSnapshot, nt: TableSnapshot, k: nat, source: string)
    requires k <= |nt.columns|
    ensures source in TakenUpTo(ot, nt, k) <==> exists i :: 0 <= i < k && Hints(ot, nt, i, source)
  {
    if k > 0 {
      var n := k - 1;
      TakenIsHinted(ot, nt, n, source);
      assert (exists i :: 0 <= i < k && Hints(ot, nt, i, source)) <==>
             (exists i :: 0 <= i < n && Hints(ot, nt, i, source)) || Hints(ot, nt, n, source);
    }
  }

  lemma ConsumesIsFirst(ot: TableSnapshot, nt: TableSnapshot, k: nat)
    requires k < |nt.columns|
    ensures var c := nt.columns[k];
            Consumes(ot, nt, c, TakenUpTo(ot, nt, k)) <==>
            c.renamedFrom.Some? && FirstHint(ot, nt, k, c.renamedFrom.value)
  {
    var c := nt.columns[k];
    if c.renamedFrom.Some? { TakenIsHinted(ot, nt, k, c.renamedFrom.value); }
  }

  // ---- What is listed for review ----

  /** Column `k` of a kept table is why `r` is listed. */
  predicate ColumnListed(ot: TableSnapshot, nt: TableSnapshot, k: nat, r: Review)
    requires k < |nt.columns|
  {
    var c := nt.columns[k];
    match r
    case RedefineColumn(t, n, fields) =>
      var was := FindColumn(ot.columns, n);
      t == nt.name && n == c.name && was.Some? && was.value.def != c.def &&
      fields == ChangedFields(was.value.def, c.def)
    case RenameAndRedefine(t, source, n) =>
      t == nt.name && n == c.name && FirstHint(ot, nt, k, source) && FindColumn(ot.columns, source).value.def != c.def
    case AddGenerated(t, n) => t == nt.name && n == c.name && Added(ot, nt, k) && c.def.generated.Some?
    case AddKey(t, n) => t == nt.name && n == c.name && Added(ot, nt, k) && c.def.generated.None? && c.def.pk
    case AddNotNull(t, n) =>
      t == nt.name && n == c.name && Added(ot, nt, k) && c.def.generated.None? && !c.def.pk &&
      c.def.notNull && c.def.defaultSql.None?
    case _ => false
  }

  /** A column is dropped if the new table neither has it nor hints at it. */
  predicate DropListed(ot: TableSnapshot, nt: TableSnapshot, r: Review) {
    r.DropColumn? && r.table == nt.name && HasColumn(ot, r.column) && !HasColumn(nt, r.column) &&
    forall i :: 0 <= i < |nt.columns| ==> nt.columns[i].renamedFrom != Some(r.column)
  }

  predicate HasIndex(entries: seq<(string, string)>, name: string) {
    exists i :: 0 <= i < |entries| && entries[i].0 == name
  }

  /** The first statement for the index, which is the one that counts. */
  predicate FirstIndex(entries: seq<(string, string)>, i: nat, name: string) {
    i < |entries| && entries[i].0 == name && forall h :: 0 <= h < i ==> entries[h].0 != name
  }

  /** Indexes are compared by name, statements up to white space outside quotes. */
  predicate IndexListed(ois: seq<(string, string)>, nis: seq<(string, string)>, r: Review) {
    match r
    case AddUniqueIndex(text) =>
      IsUniqueIndex(text) && exists j :: 0 <= j < |nis| && nis[j].1 == text && !HasIndex(ois, nis[j].0)
    case RebuildIndex(name, text) =>
      (name, text) in nis &&
      exists i :: 0 <= i < |ois| && FirstIndex(ois, i, name) && Normalized(ois[i].1) != Normalized(text)
    case DropIndex(name) => HasIndex(ois, name) && !HasIndex(nis, name)
    case _ => false
  }

  /** Kind and text are compared only between tables with the same columns. */
  predicate ConstraintListed(ot: TableSnapshot, nt: TableSnapshot, r: Review) {
    var sameKind := ot.strict == nt.strict && ot.withoutRowid == nt.withoutRowid;
    SameColumns(ot, nt) &&
    match r
    case ChangeTableKind(t) => t == nt.name && !sameKind
    case ChangeTableBody(t) =>
      t == nt.name && sameKind && ot.ddl != [] && nt.ddl != [] && Bodies(ot.ddl) != Bodies(nt.ddl)
    case _ => false
  }

  predicate TableListed(ot: TableSnapshot, nt: TableSnapshot, r: Review) {
    (exists k :: 0 <= k < |nt.columns| && ColumnListed(ot, nt, k, r)) ||
    DropListed(ot, nt, r) || IndexListed(IndexEntries(ot.ddl), IndexEntries(nt.ddl), r) || ConstraintListed(ot, nt, r)
  }

  predicate KeptListed(before: SchemaSnapshot, nt: TableSnapshot, r: Review) {
    FindTable(before.tables, nt.name).Some? && TableListed(FindTable(before.tables, nt.name).value, nt, r)
  }

  predicate Listed(before: SchemaSnapshot, after: SchemaSnapshot, r: Review) {
    (r.DropTable? && Dropped(before, after, r.table)) ||
    exists j :: 0 <= j < |after.tables| && KeptListed(before, after.tables[j], r)
  }

  // ---- Proof, part by part ----

  lemma {:induction false} UpToListed<T>(items: seq<T>, f: T -> Plan, k: nat, r: Review)
    requires k <= |items|
    ensures r in UpTo(items, f, k).review <==> exists j :: 0 <= j < k && r in f(items[j]).review
  {
    if k > 0 { UpToListed(items, f, k - 1, r); }
  }

  lemma ColumnPlanLists(ot: TableSnapshot, nt: TableSnapshot, k: nat, r: Review)
    requires k < |nt.columns|
    ensures r in ColumnPlan(ot, nt, nt.columns[k], TakenUpTo(ot, nt, k)).review <==> ColumnListed(ot, nt, k, r)
  {
    var c := nt.columns[k];
    ConsumesIsFirst(ot, nt, k);
    if c.renamedFrom.Some? { FoundColumn(ot.columns, c.renamedFrom.value); }
  }

  lemma OneMoreColumn(ot: TableSnapshot, nt: TableSnapshot, n: nat, r: Review)
    requires n < |nt.columns|
    ensures (exists i :: 0 <= i < n + 1 && ColumnListed(ot, nt, i, r)) <==>
            (exists i :: 0 <= i < n && ColumnListed(ot, nt, i, r)) || ColumnListed(ot, nt, n, r)
  {
  }

  lemma {:induction false} ColumnsList(ot: TableSnapshot, nt: TableSnapshot, k: nat, r: Review)
    requires k <= |nt.columns|
    ensures r in ColumnsUpTo(ot, nt, k).review <==> exists i :: 0 <= i < k && ColumnListed(ot, nt, i, r)
  {
    if k > 0 {
      var n := k - 1;
      ColumnsList(ot, nt, n, r);
      ColumnPlanLists(ot, nt, n, r);
      OneMoreColumn(ot, nt, n, r);
    }
  }

  lemma DropsList(ot: TableSnapshot, nt: TableSnapshot, r: Review)
    ensures r in DropsUpTo(ot, nt, |ot.columns|).review <==> DropListed(ot, nt, r)
  {
    UpToListed(ot.columns, DropOf(nt), |ot.columns|, r);
    if r.DropColumn? {
      FoundColumn(ot.columns, r.column);
      if HasColumn(ot, r.column) {
        var i :| 0 <= i < |ot.columns| && ot.columns[i].name == r.column;
        assert DropOf(nt)(ot.columns[i]) == DropPlan(nt, r.column);
      }
    }
  }

  lemma {:induction false} EntriesAre(ddl: seq<string>, name: string, text: string)
    ensures (name, text) in IndexEntries(ddl) <==> text in ddl && IndexName(text) == Some(name)
  {
    if ddl != [] { EntriesAre(ddl[1..], name, text); }
  }

  function EntryOf(text: string): seq<(string, string)> {
    if IndexName(text).Some? then [(IndexName(text).value, text)] else []
  }

  lemma EntriesCons(text: string, ddl: seq<string>)
    ensures IndexEntries([text] + ddl) == EntryOf(text) + IndexEntries(ddl)
  {
    assert ([text] + ddl)[1..] == ddl;
  }

  /** The entries stand in the order of their statements. */
  lemma {:induction false} EntriesInOrder(a: seq<string>, b: seq<string>)
    ensures IndexEntries(a + b) == IndexEntries(a) + IndexEntries(b)
  {
    if a == [] {
      assert a + b == b;
    } else {
      var tail := a[1..];
      assert a == [a[0]] + tail && a + b == [a[0]] + (tail + b);
      EntriesInOrder(tail, b);
      EntriesCons(a[0], tail + b);
      EntriesCons(a[0], tail);
    }
  }

  lemma {:induction false} EntryIsFirst(entries: seq<(string, string)>, name: string) returns (i: nat)
    requires FindEntry(entries, name).Some?
    ensures FirstIndex(entries, i, name) && FindEntry(entries, name) == Some(entries[i].1)
  {
    if entries[0].0 == name {
      i := 0;
    } else {
      var n := EntryIsFirst(entries[1..], name);
      i := n + 1;
      assert forall h :: 0 < h < i ==> entries[h] == entries[1..][h - 1];
    }
  }

  lemma EntryLists(ois: seq<(string, string)>, nis: seq<(string, string)>, j: nat, r: Review)
    requires j < |nis| && r in IndexPlan(ois, nis[j]).review
    ensures !r.DropIndex? && IndexListed(ois, nis, r)
  {
    FoundEntry(ois, nis[j].0);
    assert nis[j] == (nis[j].0, nis[j].1) && nis[j] in nis;
    if FindEntry(ois, nis[j].0).Some? { var i := EntryIsFirst(ois, nis[j].0); }
  }

  lemma ListedEntry(ois: seq<(string, string)>, nis: seq<(string, string)>, r: Review) returns (j: nat)
    requires !r.DropIndex? && IndexListed(ois, nis, r)
    ensures j < |nis| && r in IndexPlan(ois, nis[j]).review
  {
    if r.AddUniqueIndex? {
      j :| 0 <= j < |nis| && nis[j].1 == r.ddl && !HasIndex(ois, nis[j].0);
      FoundEntry(ois, nis[j].0);
    } else {
      j :| 0 <= j < |nis| && nis[j] == (r.index, r.ddl);
      FoundEntry(ois, r.index);
      var i := EntryIsFirst(ois, r.index);
    }
  }

  lemma NewIndexesList(ois: seq<(string, string)>, nis: seq<(string, string)>, r: Review)
    ensures r in IndexesUpTo(ois, nis, |nis|).review <==> !r.DropIndex? && IndexListed(ois, nis, r)
  {
    UpToListed(nis, IndexOf(ois), |nis|, r);
    if j :| 0 <= j < |nis| && r in IndexOf(ois)(nis[j]).review {
      EntryLists(ois, nis, j, r);
    }
    if !r.DropIndex? && IndexListed(ois, nis, r) {
      var j := ListedEntry(ois, nis, r);
      assert r in IndexOf(ois)(nis[j]).review;
    }
  }

  lemma OldIndexesList(ois: seq<(string, string)>, nis: seq<(string, string)>, r: Review)
    ensures r in IndexDropsUpTo(ois, nis, |ois|).review <==> r.DropIndex? && IndexListed(ois, nis, r)
  {
    UpToListed(ois, IndexDropOf(nis), |ois|, r);
    forall j | 0 <= j < |ois|
      ensures r in IndexDropOf(nis)(ois[j]).review <==> r == DropIndex(ois[j].0) && !HasIndex(nis, ois[j].0)
    {
      FoundEntry(nis, ois[j].0);
    }
  }

  lemma TableLists(ot: TableSnapshot, nt: TableSnapshot, r: Review)
    ensures r in TablePlan(ot, nt).review <==> TableListed(ot, nt, r)
  {
    ColumnsList(ot, nt, |nt.columns|, r);
    DropsList(ot, nt, r);
    NewIndexesList(IndexEntries(ot.ddl), IndexEntries(nt.ddl), r);
    OldIndexesList(IndexEntries(ot.ddl), IndexEntries(nt.ddl), r);
  }

  lemma {:induction false} NoneListed<T>(items: seq<T>, f: T -> Plan, k: nat)
    requires k <= |items| && forall j :: 0 <= j < k ==> f(items[j]).review == []
    ensures UpTo(items, f, k).review == []
  {
    UpToReviews(items, f, k);
  }

  lemma KeptList(before: SchemaSnapshot, after: SchemaSnapshot, r: Review)
    ensures r in KeptTablesUpTo(before, after, |after.tables|).review <==>
            exists j :: 0 <= j < |after.tables| && KeptListed(before, after.tables[j], r)
  {
    UpToListed(after.tables, KeptOf(before), |after.tables|, r);
    forall j | 0 <= j < |after.tables|
      ensures r in KeptOf(before)(after.tables[j]).review <==> KeptListed(before, after.tables[j], r)
    {
      var ot := FindTable(before.tables, after.tables[j].name);
      if ot.Some? { TableLists(ot.value, after.tables[j], r); }
    }
  }

  predicate Dropped(before: SchemaSnapshot, after: SchemaSnapshot, table: string) {
    (exists i :: 0 <= i < |before.tables| && before.tables[i].name == table) &&
    forall j :: 0 <= j < |after.tables| ==> after.tables[j].name != table
  }

  lemma GoneList(before: SchemaSnapshot, after: SchemaSnapshot, r: Review)
    ensures r in GoneTablesUpTo(before, after, |before.tables|).review <==>
            r.DropTable? && Dropped(before, after, r.table)
  {
    UpToListed(before.tables, GoneOf(after), |before.tables|, r);
    forall i | 0 <= i < |before.tables|
      ensures r in GoneOf(after)(before.tables[i]).review <==>
              r == DropTable(before.tables[i].name) && Dropped(before, after, before.tables[i].name)
    {
      FoundTable(after.tables, before.tables[i].name);
    }
  }

  /** The review list of a diff holds exactly what the two snapshots call for. */
  lemma ReviewIsExact(before: SchemaSnapshot, after: SchemaSnapshot, r: Review)
    ensures r in DiffPlan(before, after).review <==> Listed(before, after, r)
  {
    NoneListed(after.tables, NewOf(before), |after.tables|);
    NoneListed(before.triggers, TriggerDropOf(after), |before.triggers|);
    NoneListed(after.triggers, TriggerOf(before), |after.triggers|);
    GoneList(before, after, r);
    KeptList(before, after, r);
  }

  /** So a diff can be run without anybody's help exactly if nothing is called for. */
  lemma NothingToReview(before: SchemaSnapshot, after: SchemaSnapshot)
    ensures DiffPlan(before, after).review == [] <==> forall r :: !Listed(before, after, r)
  {
    var review := DiffPlan(before, after).review;
    forall r ensures r in review <==> Listed(before, after, r) { ReviewIsExact(before, after, r); }
    if review != [] { assert review[0] in review; }
  }

  // ---- What is warned about ----

  /** Column `k` is new, and its hint renames nothing because its source was taken, is still there or never was. */
  predicate HintWarned(ot: TableSnapshot, nt: TableSnapshot, k: nat, w: Warning)
    requires k < |nt.columns|
  {
    var c := nt.columns[k];
    !w.BodyNotCompared? && w.table == nt.name && w.target == c.name && c.renamedFrom == Some(w.source) &&
    !HasColumn(ot, c.name) &&
    match w
    case SourceTaken(_, source, _) => Hints(ot, nt, k, source) && !FirstHint(ot, nt, k, source)
    case SourceStillThere(_, source, _) => HasColumn(nt, source)
    case SourceUnknown(_, source, _) => !HasColumn(nt, source) && !HasColumn(ot, source)
  }

  predicate BodyWarned(ot: TableSnapshot, nt: TableSnapshot, w: Warning) {
    w == BodyNotCompared(nt.name) && SameColumns(ot, nt) && ot.strict == nt.strict &&
    ot.withoutRowid == nt.withoutRowid && (ot.ddl == []) != (nt.ddl == [])
  }

  predicate WarnedOf(before: SchemaSnapshot, nt: TableSnapshot, w: Warning) {
    var ot := FindTable(before.tables, nt.name);
    ot.Some? && ((exists k :: 0 <= k < |nt.columns| && HintWarned(ot.value, nt, k, w)) || BodyWarned(ot.value, nt, w))
  }

  lemma {:induction false} UpToWarned<T>(items: seq<T>, f: T -> Plan, k: nat, w: Warning)
    requires k <= |items|
    ensures w in UpTo(items, f, k).warnings <==> exists j :: 0 <= j < k && w in f(items[j]).warnings
  {
    if k > 0 { UpToWarned(items, f, k - 1, w); }
  }

  lemma ColumnPlanWarns(ot: TableSnapshot, nt: TableSnapshot, k: nat, w: Warning)
    requires k < |nt.columns|
    ensures w in ColumnPlan(ot, nt, nt.columns[k], TakenUpTo(ot, nt, k)).warnings <==> HintWarned(ot, nt, k, w)
  {
    var c := nt.columns[k];
    ConsumesIsFirst(ot, nt, k);
    if c.renamedFrom.Some? { TakenIsHinted(ot, nt, k, c.renamedFrom.value); }
  }

  lemma OneMoreWarned(ot: TableSnapshot, nt: TableSnapshot, n: nat, w: Warning)
    requires n < |nt.columns|
    ensures (exists i :: 0 <= i < n + 1 && HintWarned(ot, nt, i, w)) <==>
            (exists i :: 0 <= i < n && HintWarned(ot, nt, i, w)) || HintWarned(ot, nt, n, w)
  {
  }

  lemma {:induction false} ColumnsWarn(ot: TableSnapshot, nt: TableSnapshot, k: nat, w: Warning)
    requires k <= |nt.columns|
    ensures w in ColumnsUpTo(ot, nt, k).warnings <==> exists i :: 0 <= i < k && HintWarned(ot, nt, i, w)
  {
    if k > 0 {
      var n := k - 1;
      ColumnsWarn(ot, nt, n, w);
      ColumnPlanWarns(ot, nt, n, w);
      OneMoreWarned(ot, nt, n, w);
    }
  }

  lemma TableWarns(ot: TableSnapshot, nt: TableSnapshot, w: Warning)
    ensures w in TablePlan(ot, nt).warnings <==>
            (exists k :: 0 <= k < |nt.columns| && HintWarned(ot, nt, k, w)) || BodyWarned(ot, nt, w)
  {
    var ois, nis := IndexEntries(ot.ddl), IndexEntries(nt.ddl);
    ColumnsWarn(ot, nt, |nt.columns|, w);
    UpToWarned(ot.columns, DropOf(nt), |ot.columns|, w);
    UpToWarned(nis, IndexOf(ois), |nis|, w);
    UpToWarned(ois, IndexDropOf(nis), |ois|, w);
  }

  lemma KeptWarn(before: SchemaSnapshot, after: SchemaSnapshot, w: Warning)
    ensures w in KeptTablesUpTo(before, after, |after.tables|).warnings <==>
            exists j :: 0 <= j < |after.tables| && WarnedOf(before, after.tables[j], w)
  {
    UpToWarned(after.tables, KeptOf(before), |after.tables|, w);
    forall j | 0 <= j < |after.tables|
      ensures w in KeptOf(before)(after.tables[j]).warnings <==> WarnedOf(before, after.tables[j], w)
    {
      var ot := FindTable(before.tables, after.tables[j].name);
      if ot.Some? { TableWarns(ot.value, after.tables[j], w); }
    }
  }

  lemma OthersDoNotWarn(before: SchemaSnapshot, after: SchemaSnapshot, w: Warning)
    ensures w !in NewTablesUpTo(before, after, |after.tables|).warnings
    ensures w !in GoneTablesUpTo(before, after, |before.tables|).warnings && w !in TriggerDiff(before, after).warnings
  {
    UpToWarned(after.tables, NewOf(before), |after.tables|, w);
    UpToWarned(before.tables, GoneOf(after), |before.tables|, w);
    UpToWarned(before.triggers, TriggerDropOf(after), |before.triggers|, w);
    UpToWarned(after.triggers, TriggerOf(before), |after.triggers|, w);
  }

  /** The warnings of a diff are exactly the hints that rename nothing and the texts that could not be compared. */
  lemma WarningsAreExact(before: SchemaSnapshot, after: SchemaSnapshot, w: Warning)
    ensures w in DiffPlan(before, after).warnings <==>
            exists j :: 0 <= j < |after.tables| && WarnedOf(before, after.tables[j], w)
  {
    OthersDoNotWarn(before, after, w);
    KeptWarn(before, after, w);
  }
}
