/** The canonical text is exact: it can be read back, so two snapshots have the same text only if
    they agree in everything it is meant to keep. */
module CanonicalProof {
  import opened Values
  import opened Snapshot
  import opened Sorting
  import opened Canonical
  import opened Digits

  // ---- Reading back what was printed ----

  lemma FlagsRead(a: char, x: bool, b: char, y: bool, k: string)
    ensures ReadFlags(FlagsText(a, x, b, y, k), a, b) == Some((x, y, k))
  {
  }

  lemma GeneratedReads(g: Option<Generated>, k: string)
    ensures ReadGenerated(GeneratedText(g, k)) == Some((g, k))
  {
    var t := GeneratedText(g, k);
    if g.None? {
      assert t[0] == '0' && t[1] == ':' && t[2..] == k;
    } else {
      assert t[0] in "SV" && t[1..] == Field(g.value.expr, k);
      FieldReads(g.value.expr, k);
    }
  }

  lemma TextsRead(c: Column, k: string)
    ensures ReadTexts(TextsText(c, k)) == Some((c.defaultSql, c.collate, c.generated, k))
  {
    var k4 := [','] + k;
    var k3 := ['G'] + GeneratedText(c.generated, k4);
    var k2 := ['l'] + Field(c.collate, k3);
    Expected('e', Field(c.defaultSql, k2));
    FieldReads(c.defaultSql, k2);
    Expected('l', Field(c.collate, k3));
    FieldReads(c.collate, k3);
    Expected('G', GeneratedText(c.generated, k4));
    GeneratedReads(c.generated, k4);
    Expected(',', k);
  }

  lemma ColumnReads(c: Column, k: string)
    ensures ReadColumn(ColumnText(c, k)) == Some((c, k))
  {
    var k3 := TextsText(c, k);
    var k2 := FlagsText('n', c.notNull, 'p', c.pk, k3);
    var k1 := ['y'] + Field(c.sqlType, k2);
    Expected('c', Field(c.name, k1));
    FieldReads(c.name, k1);
    Expected('y', Field(c.sqlType, k2));
    FieldReads(c.sqlType, k2);
    FlagsRead('n', c.notNull, 'p', c.pk, k3);
    TextsRead(c, k);
  }

  predicate StartsApart(k: string, c: char) {
    k == "" || k[0] != c
  }

  lemma {:induction false} ColumnsRead(cs: seq<Column>, k: string)
    requires StartsApart(k, 'c')
    ensures ReadColumns(ColumnsText(cs, k)) == Some((cs, k))
  {
    if cs != [] {
      var k' := ColumnsText(cs[1..], k);
      ColumnsRead(cs[1..], k);
      ColumnReads(cs[0], k');
      assert ColumnText(cs[0], k')[0] == 'c';
      assert [cs[0]] + cs[1..] == cs;
    }
  }

  lemma {:induction false} DdlReads(ddl: seq<string>, k: string)
    requires StartsApart(k, 'd')
    ensures ReadDdl(DdlText(ddl, k)) == Some((ddl, k))
  {
    if ddl != [] {
      var k1 := DdlText(ddl[1..], k);
      var k2 := [';'] + k1;
      DdlReads(ddl[1..], k);
      FieldReads(ddl[0], k2);
      Expected(';', k1);
      assert DdlText(ddl, k)[0] == 'd' && DdlText(ddl, k)[1..] == Field(ddl[0], k2);
      assert [ddl[0]] + ddl[1..] == ddl;
    }
  }

  lemma BodyReads(t: Table, k: string)
    requires StartsApart(k, 'd')
    ensures ReadBody(BodyText(t, k)) == Some((t.columns, t.ddl, k))
  {
    var k3 := DdlText(t.ddl, k);
    var k2 := [';'] + k3;
    var k1 := [')'] + k2;
    Expected('(', ColumnsText(t.columns, k1));
    ColumnsRead(t.columns, k1);
    Expected(')', k2);
    Expected(';', k3);
    DdlReads(t.ddl, k);
  }

  lemma TableReads(t: Table, k: string)
    requires StartsApart(k, 'd')
    ensures ReadTable(TableText(t, k)) == Some((t, k))
  {
    var k2 := BodyText(t, k);
    var k1 := FlagsText('s', t.strict, 'w', t.withoutRowid, k2);
    Expected('t', Field(t.name, k1));
    FieldReads(t.name, k1);
    FlagsRead('s', t.strict, 'w', t.withoutRowid, k2);
    BodyReads(t, k);
  }

  lemma OneMoreTable(t: string, x: Table, rest: string, xs: seq<Table>, k: string)
    requires t != "" && t[0] == 't' && ReadTable(t) == Some((x, rest)) && ReadTables(rest) == Some((xs, k))
    ensures ReadTables(t) == Some(([x] + xs, k))
  {
  }

  lemma {:induction false} TablesRead(ts: seq<Table>, k: string)
    requires StartsApart(k, 'd') && StartsApart(k, 't')
    ensures ReadTables(TablesText(ts, k)) == Some((ts, k)) && StartsApart(TablesText(ts, k), 'd')
  {
    if ts != [] {
      var k' := TablesText(ts[1..], k);
      TablesRead(ts[1..], k);
      TableReads(ts[0], k');
      OneMoreTable(TableText(ts[0], k'), ts[0], k', ts[1..], k);
      assert [ts[0]] + ts[1..] == ts;
    }
  }

  lemma TriggerReads(t: Trigger, k: string)
    ensures ReadTrigger(TriggerText(t, k)) == Some((t, k))
  {
    var k3 := [';'] + k;
    var k2 := ['f'] + Field(t.file, k3);
    var k1 := ['q'] + Field(t.sql, k2);
    Expected('D', Field(t.name, k1));
    FieldReads(t.name, k1);
    Expected('q', Field(t.sql, k2));
    FieldReads(t.sql, k2);
    Expected('f', Field(t.file, k3));
    FieldReads(t.file, k3);
    Expected(';', k);
  }

  lemma {:induction false} TriggersRead(ts: seq<Trigger>)
    ensures ReadTriggers(TriggersText(ts, "")) == Some((ts, ""))
    ensures StartsApart(TriggersText(ts, ""), 'd') && StartsApart(TriggersText(ts, ""), 't')
  {
    if ts != [] {
      var k := TriggersText(ts[1..], "");
      TriggersRead(ts[1..]);
      TriggerReads(ts[0], k);
      assert TriggerText(ts[0], k)[0] == 'D';
      assert [ts[0]] + ts[1..] == ts;
    }
  }

  lemma SchemaReads(s: Schema)
    ensures ReadSchema(SchemaText(s)) == Some(s)
  {
    var k3 := TriggersText(s.triggers, "");
    var k2 := TablesText(s.tables, k3);
    var k1 := [';'] + k2;
    Expected('v', Decimal(s.version) + k1);
    DecimalReads(s.version, k1);
    Expected(';', k2);
    TriggersRead(s.triggers);
    TablesRead(s.tables, k3);
  }

  /** The decoder gives back what the canonical text of a snapshot keeps. */
  lemma CanonicalReadsBack(s: SchemaSnapshot)
    ensures ReadSchema(CanonicalString(s)) == Some(Normal(s))
  {
    SchemaReads(Normal(s));
  }

  // ---- Agreement up to order ----

  lemma {:induction false} MappedFacts<A, B>(s: seq<A>, f: A -> B)
    ensures |Mapped(s, f)| == |s| && forall i :: 0 <= i < |s| ==> Mapped(s, f)[i] == f(s[i])
  {
    if s != [] { MappedFacts(s[1..], f); }
  }

  lemma {:induction false} MappedSplit<A, B>(a: seq<A>, b: seq<A>, f: A -> B)
    ensures Mapped(a + b, f) == Mapped(a, f) + Mapped(b, f)
  {
    if a == [] {
      assert a + b == b;
    } else {
      assert (a + b)[0] == a[0] && (a + b)[1..] == a[1..] + b;
      MappedSplit(a[1..], b, f);
    }
  }

  /** The order of a list does not matter to what it maps to, as a multiset. */
  lemma {:induction false} MappedContents<A, B>(a: seq<A>, b: seq<A>, f: A -> B)
    requires multiset(a) == multiset(b)
    ensures multiset(Mapped(a, f)) == multiset(Mapped(b, f))
  {
    assert |multiset(a)| == |multiset(b)|;
    if a != [] {
      assert a[0] in multiset(b);
      var i :| 0 <= i < |b| && b[i] == a[0];
      var x, y := b[..i], b[i + 1..];
      Removed(a, b, i);
      MappedContents(a[1..], x + y, f);
      assert b == x + ([a[0]] + y);
      MappedAround(x, a[0], y, f);
      assert Mapped(a, f) == [f(a[0])] + Mapped(a[1..], f);
    }
  }

  lemma MappedAround<A, B>(x: seq<A>, e: A, y: seq<A>, f: A -> B)
    ensures multiset(Mapped(x + ([e] + y), f)) == multiset{f(e)} + multiset(Mapped(x + y, f))
  {
    MappedSplit(x, y, f);
    MappedMiddle(x, e, y, f);
    Around(Mapped(x, f), f(e), Mapped(y, f));
  }

  lemma MappedMiddle<A, B>(x: seq<A>, e: A, y: seq<A>, f: A -> B)
    ensures Mapped(x + ([e] + y), f) == Mapped(x, f) + ([f(e)] + Mapped(y, f))
  {
    MappedSplit(x, [e] + y, f);
    assert ([e] + y)[0] == e && ([e] + y)[1..] == y;
  }

  lemma Around<B>(x: seq<B>, e: B, y: seq<B>)
    ensures multiset(x + ([e] + y)) == multiset{e} + multiset(x + y)
  {
  }

  lemma Removed<A>(a: seq<A>, b: seq<A>, i: nat)
    requires a != [] && i < |b| && b[i] == a[0] && multiset(a) == multiset(b)
    ensures multiset(a[1..]) == multiset(b[..i] + b[i + 1..])
  {
    assert a == [a[0]] + a[1..];
    assert b == b[..i] + [b[i]] + b[i + 1..];
    assert multiset(a[1..]) == multiset(a) - multiset{a[0]};
    assert multiset(b[..i] + b[i + 1..]) == multiset(b) - multiset{b[i]};
  }

  lemma {:induction false} AtMostTotal(a: string, b: string)
    ensures AtMost(a, b) || AtMost(b, a)
  {
    if a != "" && b != "" && a[0] == b[0] { AtMostTotal(a[1..], b[1..]); }
  }

  lemma {:induction false} AtMostTransitive(a: string, b: string, c: string)
    requires AtMost(a, b) && AtMost(b, c)
    ensures AtMost(a, c)
  {
    if a != "" && a[0] == b[0] == c[0] { AtMostTransitive(a[1..], b[1..], c[1..]); }
  }

  lemma {:induction false} AtMostAntisymmetric(a: string, b: string)
    requires AtMost(a, b) && AtMost(b, a)
    ensures a == b
  {
    if a != "" {
      AtMostAntisymmetric(a[1..], b[1..]);
      assert a == [a[0]] + a[1..] && b == [b[0]] + b[1..];
    }
  }

  function ByKey<T>(key: T -> string): (T, T) -> bool {
    (a: T, b: T) => AtMost(key(a), key(b))
  }

  lemma KeyOrder<T(!new)>(key: T -> string)
    ensures Preorder(ByKey(key))
  {
    forall a: T, b: T ensures ByKey(key)(a, b) || ByKey(key)(b, a) { AtMostTotal(key(a), key(b)); }
    forall a: T, b: T, c: T | ByKey(key)(a, b) && ByKey(key)(b, c) ensures ByKey(key)(a, c) {
      AtMostTransitive(key(a), key(b), key(c));
    }
  }

  predicate DistinctKeys<T>(s: seq<T>, key: T -> string) {
    forall i, j :: 0 <= i < j < |s| ==> key(s[i]) != key(s[j])
  }

  lemma DistinctIsAntisymmetric<T(!new)>(s: seq<T>, key: T -> string)
    requires DistinctKeys(s, key)
    ensures Antisymmetric(s, ByKey(key))
  {
    forall x, y | x in s && y in s && ByKey(key)(x, y) && ByKey(key)(y, x) ensures x == y {
      AtMostAntisymmetric(key(x), key(y));
      var i :| 0 <= i < |s| && s[i] == x;
      var j :| 0 <= j < |s| && s[j] == y;
    }
  }

  /** Sorting two lists by a key that is distinct in each, and mapping them by something that keeps
      the key, gives the same exactly if the mapped lists hold the same things. */
  lemma SortedMapped<A(!new), B(!new)>(a: seq<A>, b: seq<A>, le: (A, A) -> bool, f: A -> B, key: B -> string)
    requires DistinctKeys(Mapped(a, f), key) && forall x, y :: le(x, y) <==> AtMost(key(f(x)), key(f(y)))
    ensures Mapped(Sort(a, le), f) == Mapped(Sort(b, le), f) <==> multiset(Mapped(a, f)) == multiset(Mapped(b, f))
  {
    SortContents(a, le);
    SortContents(b, le);
    MappedContents(Sort(a, le), a, f);
    MappedContents(Sort(b, le), b, f);
    if multiset(Mapped(a, f)) == multiset(Mapped(b, f)) {
      var x, y := Mapped(Sort(a, le), f), Mapped(Sort(b, le), f);
      KeyOrder(key);
      MappedSorted(a, le, f, key);
      MappedSorted(b, le, f, key);
      DistinctIsAntisymmetric(Mapped(a, f), key);
      SameMembers(x, Mapped(a, f));
      SortedIsUnique(x, y, ByKey(key));
    }
  }

  lemma SameMembers<T>(x: seq<T>, y: seq<T>)
    requires multiset(x) == multiset(y)
    ensures forall e :: e in x <==> e in y
  {
    forall e ensures e in x <==> e in y { assert e in multiset(x) <==> e in multiset(y); }
  }

  lemma MappedSorted<A(!new), B(!new)>(a: seq<A>, le: (A, A) -> bool, f: A -> B, key: B -> string)
    requires forall x, y :: le(x, y) <==> AtMost(key(f(x)), key(f(y)))
    ensures Sorted(Mapped(Sort(a, le), f), ByKey(key))
  {
    forall x: A, y: A ensures le(x, y) || le(y, x) { AtMostTotal(key(f(x)), key(f(y))); }
    forall x: A, y: A, z: A | le(x, y) && le(y, z) ensures le(x, z) {
      AtMostTransitive(key(f(x)), key(f(y)), key(f(z)));
    }
    SortSorts(a, le);
    MappedFacts(Sort(a, le), f);
  }

  function TableKey(): Table -> string {
    (t: Table) => t.name
  }

  function TriggerKey(): Trigger -> string {
    (t: Trigger) => Lower(t.name)
  }

  /** Table names are unique, and trigger names are unique without case. */
  predicate UniqueNames(s: SchemaSnapshot) {
    (forall i, j :: 0 <= i < j < |s.tables| ==> s.tables[i].name != s.tables[j].name) &&
    (forall i, j :: 0 <= i < j < |s.triggers| ==> Lower(s.triggers[i].name) != Lower(s.triggers[j].name))
  }

  /** Equal up to the order of tables and triggers, rename hints, and absent against empty text. */
  ghost predicate Agree(a: SchemaSnapshot, b: SchemaSnapshot) {
    a.version == b.version &&
    multiset(Mapped(a.tables, NormalTable)) == multiset(Mapped(b.tables, NormalTable)) &&
    multiset(Mapped(a.triggers, NormalTrigger)) == multiset(Mapped(b.triggers, NormalTrigger))
  }

  lemma TablesAgree(a: seq<TableSnapshot>, b: seq<TableSnapshot>)
    requires forall i, j :: 0 <= i < j < |a| ==> a[i].name != a[j].name
    ensures Mapped(Sort(a, ByName()), NormalTable) == Mapped(Sort(b, ByName()), NormalTable) <==>
            multiset(Mapped(a, NormalTable)) == multiset(Mapped(b, NormalTable))
  {
    MappedFacts(a, NormalTable);
    SortedMapped(a, b, ByName(), NormalTable, TableKey());
  }

  lemma TriggersAgree(a: seq<TriggerSnapshot>, b: seq<TriggerSnapshot>)
    requires forall i, j :: 0 <= i < j < |a| ==> Lower(a[i].name) != Lower(a[j].name)
    ensures Mapped(Sort(a, ByLowerName()), NormalTrigger) == Mapped(Sort(b, ByLowerName()), NormalTrigger) <==>
            multiset(Mapped(a, NormalTrigger)) == multiset(Mapped(b, NormalTrigger))
  {
    MappedFacts(a, NormalTrigger);
    SortedMapped(a, b, ByLowerName(), NormalTrigger, TriggerKey());
  }

  /** The canonical text is exact: equal exactly for snapshots that agree. */
  lemma CanonicalIsExact(a: SchemaSnapshot, b: SchemaSnapshot)
    requires UniqueNames(a)
    ensures CanonicalString(a) == CanonicalString(b) <==> Agree(a, b)
  {
    CanonicalReadsBack(a);
    CanonicalReadsBack(b);
    TablesAgree(a.tables, b.tables);
    TriggersAgree(a.triggers, b.triggers);
  }

  // ---- What the text keeps, and in which order ----

  /** Absent and empty text are the same to the hash. */
  predicate SameText(a: Option<string>, b: Option<string>) {
    a == b || (a in {None, Some("")} && b in {None, Some("")})
  }

  predicate SameColumn(c: ColumnSnapshot, d: ColumnSnapshot) {
    c.name == d.name && c.def.sqlType == d.def.sqlType && c.def.notNull == d.def.notNull && c.def.pk == d.def.pk &&
    SameText(c.def.defaultSql, d.def.defaultSql) && SameText(c.def.collate, d.def.collate) &&
    c.def.generated == d.def.generated
  }

  predicate SameTable(t: TableSnapshot, u: TableSnapshot) {
    t.name == u.name && t.strict == u.strict && t.withoutRowid == u.withoutRowid && t.ddl == u.ddl &&
    |t.columns| == |u.columns| && forall i :: 0 <= i < |t.columns| ==> SameColumn(t.columns[i], u.columns[i])
  }

  predicate SameTrigger(t: TriggerSnapshot, u: TriggerSnapshot) {
    t.name == u.name && t.sql == u.sql && SameText(t.file, u.file)
  }

  /** The canonical form of a table keeps everything but rename hints. */
  lemma NormalKeepsTable(t: TableSnapshot, u: TableSnapshot)
    ensures NormalTable(t) == NormalTable(u) <==> SameTable(t, u)
  {
    MappedFacts(t.columns, NormalColumn);
    MappedFacts(u.columns, NormalColumn);
    assert forall i :: 0 <= i < |t.columns| && i < |u.columns| ==>
      (NormalColumn(t.columns[i]) == NormalColumn(u.columns[i]) <==> SameColumn(t.columns[i], u.columns[i]));
    var m, n := Mapped(t.columns, NormalColumn), Mapped(u.columns, NormalColumn);
    if SameTable(t, u) {
      assert forall i :: 0 <= i < |m| ==> m[i] == n[i];
    }
    if m == n {
      forall i | 0 <= i < |m| ensures SameColumn(t.columns[i], u.columns[i]) { assert m[i] == n[i]; }
    }
  }

  /** The canonical form of a trigger keeps everything. */
  lemma NormalKeepsTrigger(t: TriggerSnapshot, u: TriggerSnapshot)
    ensures NormalTrigger(t) == NormalTrigger(u) <==> SameTrigger(t, u)
  {
  }

  /** In a dictionary `a` stands before `b`: it is a prefix, or smaller where they first differ. */
  ghost predicate Precedes(a: string, b: string) {
    exists k: nat :: SplitsAt(a, b, k)
  }

  predicate SplitsAt(a: string, b: string, k: nat) {
    k <= |a| && k <= |b| && a[..k] == b[..k] && (k == |a| || (k < |b| && a[k] < b[k]))
  }

  lemma {:induction false} AtMostPrecedes(a: string, b: string)
    requires AtMost(a, b)
    ensures Precedes(a, b)
  {
    if a == "" || a[0] < b[0] {
      assert SplitsAt(a, b, 0);
    } else {
      AtMostPrecedes(a[1..], b[1..]);
      var k: nat :| SplitsAt(a[1..], b[1..], k);
      assert a[..k + 1] == [a[0]] + a[1..][..k] && b[..k + 1] == [b[0]] + b[1..][..k];
      assert SplitsAt(a, b, k + 1);
    }
  }

  /** The text lists tables by name and triggers by lower-case name, as a dictionary does. */
  lemma CanonicalOrder(s: SchemaSnapshot)
    ensures var ts := Normal(s).tables; forall i, j :: 0 <= i < j < |ts| ==> Precedes(ts[i].name, ts[j].name)
    ensures var ts := Normal(s).triggers;
            forall i, j :: 0 <= i < j < |ts| ==> Precedes(Lower(ts[i].name), Lower(ts[j].name))
  {
    MappedSorted(s.tables, ByName(), NormalTable, TableKey());
    MappedSorted(s.triggers, ByLowerName(), NormalTrigger, TriggerKey());
    var n := Normal(s);
    forall i, j | 0 <= i < j < |n.tables| ensures Precedes(n.tables[i].name, n.tables[j].name) {
      assert ByKey(TableKey())(n.tables[i], n.tables[j]);
      AtMostPrecedes(n.tables[i].name, n.tables[j].name);
    }
    forall i, j | 0 <= i < j < |n.triggers| ensures Precedes(Lower(n.triggers[i].name), Lower(n.triggers[j].name)) {
      assert ByKey(TriggerKey())(n.triggers[i], n.triggers[j]);
      AtMostPrecedes(Lower(n.triggers[i].name), Lower(n.triggers[j].name));
    }
  }
}
