/** The snapshot hash notices every single flag: flipping one changes one byte of the canonical
    text, and one byte always changes the hash. */
module SnapshotHash {
  import opened Values
  import opened Snapshot
  import opened Sorting
  import opened Canonical
  import opened Digits
  import opened Fnv
  import CanonicalPrinter
  import CanonicalProof

  // ---- UTF-8 ----

  function Utf8(c: char): seq<Byte> {
    var n := c as int;
    if n < 0x80 then [n]
    else if n < 0x800 then [0xC0 + n / 0x40, 0x80 + n % 0x40]
    else if n < 0x10000 then [0xE0 + n / 0x1000, 0x80 + n / 0x40 % 0x40, 0x80 + n % 0x40]
    else [0xF0 + n / 0x40000, 0x80 + n / 0x1000 % 0x40, 0x80 + n / 0x40 % 0x40, 0x80 + n % 0x40]
  }

  function Bytes(s: string): seq<Byte> {
    if s == "" then [] else Utf8(s[0]) + Bytes(s[1..])
  }

  predicate IsTrailer(b: Byte) {
    0x80 <= b < 0xC0
  }

  /** The six bits of a trailer below those read so far. */
  function Extended(high: nat, b: Byte): nat
    requires IsTrailer(b)
  {
    high * 0x40 + (b - 0x80)
  }

  /** Reads one scalar value, section 3 of RFC 3629: the lead byte tells how many trailers follow. */
  function ReadScalar(b: seq<Byte>): Option<(nat, seq<Byte>)> {
    if b == [] then None
    else if b[0] < 0x80 then Some((b[0], b[1..]))
    else if 0xC0 <= b[0] < 0xE0 then ReadTrailers(b[0] - 0xC0, b[1..], 1)
    else if 0xE0 <= b[0] < 0xF0 then ReadTrailers(b[0] - 0xE0, b[1..], 2)
    else if 0xF0 <= b[0] < 0xF8 then ReadTrailers(b[0] - 0xF0, b[1..], 3)
    else None
  }

  function ReadTrailers(high: nat, b: seq<Byte>, n: nat): Option<(nat, seq<Byte>)>
    decreases n
  {
    if n == 0 then Some((high, b))
    else if b == [] || !IsTrailer(b[0]) then None
    else ReadTrailers(Extended(high, b[0]), b[1..], n - 1)
  }

  lemma Sextets(n: nat)
    ensures n / 0x1000 == n / 0x40 / 0x40 && n / 0x40000 == n / 0x1000 / 0x40
    ensures n / 0x40 * 0x40 + n % 0x40 == n
  {
  }

  /** One trailer with the lowest six bits of `n`. */
  lemma TrailerReads(n: nat, trailer: Byte, rest: seq<Byte>, k: nat)
    requires trailer == 0x80 + n % 0x40
    ensures ReadTrailers(n / 0x40, [trailer] + rest, k + 1) == ReadTrailers(n, rest, k)
  {
    Sextets(n);
    assert ([trailer] + rest)[1..] == rest;
  }

  function LastSextet(n: nat): Byte {
    0x80 + n % 0x40
  }

  lemma TwoReads(n: nat, rest: seq<Byte>, k: nat)
    ensures ReadTrailers(n / 0x40 / 0x40, [LastSextet(n / 0x40), LastSextet(n)] + rest, k + 2) ==
            ReadTrailers(n, rest, k)
  {
    TrailerReads(n, LastSextet(n), rest, k);
    TrailerReads(n / 0x40, LastSextet(n / 0x40), [LastSextet(n)] + rest, k + 1);
    assert [LastSextet(n / 0x40)] + ([LastSextet(n)] + rest) == [LastSextet(n / 0x40), LastSextet(n)] + rest;
  }

  lemma LongReads(c: char, rest: seq<Byte>)
    requires c as nat >= 0x800
    ensures ReadScalar(Utf8(c) + rest) == Some((c as nat, rest))
  {
    var n, b := c as nat, Utf8(c) + rest;
    Sextets(n);
    if n < 0x10000 {
      TwoReads(n, rest, 0);
      assert b[1..] == [LastSextet(n / 0x40), LastSextet(n)] + rest;
    } else {
      TwoReads(n / 0x40, [LastSextet(n)] + rest, 1);
      TrailerReads(n, LastSextet(n), rest, 0);
      assert b[1..] == [LastSextet(n / 0x40 / 0x40), LastSextet(n / 0x40)] + ([LastSextet(n)] + rest);
    }
  }

  lemma Utf8Reads(c: char, rest: seq<Byte>)
    ensures ReadScalar(Utf8(c) + rest) == Some((c as nat, rest))
  {
    var n, b := c as nat, Utf8(c) + rest;
    if n >= 0x800 {
      LongReads(c, rest);
    } else if n >= 0x80 {
      TrailerReads(n, LastSextet(n), rest, 0);
      assert b[1..] == [LastSextet(n)] + rest;
    } else {
      assert b[1..] == rest;
    }
  }

  /** Different texts are hashed from different bytes. */
  lemma {:induction false} BytesInjective(s: string, t: string)
    requires Bytes(s) == Bytes(t)
    ensures s == t
  {
    if s != "" && t != "" {
      Utf8Reads(s[0], Bytes(s[1..]));
      Utf8Reads(t[0], Bytes(t[1..]));
      BytesInjective(s[1..], t[1..]);
    }
  }

  /** The length prefixes of the canonical text count these bytes. */
  lemma {:induction false} LengthIsBytes(s: string)
    ensures |Bytes(s)| == ByteLength(s)
  {
    if s != "" { LengthIsBytes(s[1..]); }
  }

  lemma {:induction false} BytesSplit(a: string, b: string)
    ensures Bytes(a + b) == Bytes(a) + Bytes(b)
  {
    if a == "" {
      assert a + b == b;
    } else {
      assert (a + b)[0] == a[0] && (a + b)[1..] == a[1..] + b;
      BytesSplit(a[1..], b);
    }
  }

  function HashOf(s: SchemaSnapshot): nat {
    Fnv.Hash(Bytes(CanonicalString(s)))
  }

  method ComputeHash(s: SchemaSnapshot) returns (hash: nat)
    ensures hash == HashOf(s)
  {
    var text := CanonicalPrinter.BuildCanonicalString(s);
    hash := Fnv1a64(Bytes(text));
  }

  // ---- One flag in a text ----

  /** The texts differ in one place, a `0` in one and a `1` in the other. */
  ghost predicate OneFlag(s: string, t: string) {
    exists i :: FlagAt(s, t, i)
  }

  predicate FlagAt(s: string, t: string, i: int) {
    0 <= i < |s| == |t| && s[i] in "01" && t[i] in "01" && s[i] != t[i] && s[..i] == t[..i] && s[i + 1..] == t[i + 1..]
  }

  lemma After(p: string, s: string, t: string)
    requires OneFlag(s, t)
    ensures OneFlag(p + s, p + t)
  {
    var i :| FlagAt(s, t, i);
    assert (p + s)[..|p| + i] == p + s[..i] && (p + t)[..|p| + i] == p + t[..i];
    assert (p + s)[|p| + i + 1..] == s[i + 1..] && (p + t)[|p| + i + 1..] == t[i + 1..];
    assert FlagAt(p + s, p + t, |p| + i);
  }

  lemma FieldAfter(f: string, s: string, t: string)
    requires OneFlag(s, t)
    ensures OneFlag(Field(f, s), Field(f, t))
  {
    After(f, s, t);
    After([':'], f + s, f + t);
    After(Decimal(ByteLength(f)), [':'] + (f + s), [':'] + (f + t));
  }

  lemma FlagFlips(a: char, x: bool, b: char, y: bool, x': bool, y': bool, k: string)
    requires (x != x' && y == y') || (x == x' && y != y')
    ensures OneFlag(FlagsText(a, x, b, y, k), FlagsText(a, x', b, y', k))
  {
    var s, t := FlagsText(a, x, b, y, k), FlagsText(a, x', b, y', k);
    var i := if x != x' then 1 else 3;
    assert s[i + 1..] == t[i + 1..] && s[..i] == t[..i];
    assert FlagAt(s, t, i);
  }

  // ---- One flag in a schema ----

  predicate ColumnFlips(c: Column, c': Column) {
    (c' == c.(notNull := !c.notNull)) || (c' == c.(pk := !c.pk))
  }

  lemma ColumnFlip(c: Column, c': Column, k: string)
    requires ColumnFlips(c, c')
    ensures OneFlag(ColumnText(c, k), ColumnText(c', k))
  {
    assert TextsText(c, k) == TextsText(c', k);
    var x, y := FlagsText('n', c.notNull, 'p', c.pk, TextsText(c, k)),
        FlagsText('n', c'.notNull, 'p', c'.pk, TextsText(c, k));
    FlagFlips('n', c.notNull, 'p', c.pk, c'.notNull, c'.pk, TextsText(c, k));
    FieldAfter(c.sqlType, x, y);
    After(['y'], Field(c.sqlType, x), Field(c.sqlType, y));
    FieldAfter(c.name, ['y'] + Field(c.sqlType, x), ['y'] + Field(c.sqlType, y));
    After(['c'], Field(c.name, ['y'] + Field(c.sqlType, x)), Field(c.name, ['y'] + Field(c.sqlType, y)));
  }

  lemma GeneratedAfter(g: Option<Generated>, s: string, t: string)
    requires OneFlag(s, t)
    ensures OneFlag(GeneratedText(g, s), GeneratedText(g, t))
  {
    if g.None? {
      After(['0', ':'], s, t);
    } else {
      FieldAfter(g.value.expr, s, t);
      After([if g.value.stored then 'S' else 'V'], Field(g.value.expr, s), Field(g.value.expr, t));
    }
  }

  lemma TextsAfter(c: Column, s: string, t: string)
    requires OneFlag(s, t)
    ensures OneFlag(TextsText(c, s), TextsText(c, t))
  {
    After([','], s, t);
    var s1, t1 := GeneratedText(c.generated, [','] + s), GeneratedText(c.generated, [','] + t);
    GeneratedAfter(c.generated, [','] + s, [','] + t);
    After(['G'], s1, t1);
    FieldAfter(c.collate, ['G'] + s1, ['G'] + t1);
    var s2, t2 := Field(c.collate, ['G'] + s1), Field(c.collate, ['G'] + t1);
    After(['l'], s2, t2);
    FieldAfter(c.defaultSql, ['l'] + s2, ['l'] + t2);
    After(['e'], Field(c.defaultSql, ['l'] + s2), Field(c.defaultSql, ['l'] + t2));
  }

  lemma ColumnAfter(c: Column, s: string, t: string)
    requires OneFlag(s, t)
    ensures OneFlag(ColumnText(c, s), ColumnText(c, t))
  {
    TextsAfter(c, s, t);
    var s1, t1 := FlagsText('n', c.notNull, 'p', c.pk, TextsText(c, s)),
        FlagsText('n', c.notNull, 'p', c.pk, TextsText(c, t));
    After(['n', Flag(c.notNull), 'p', Flag(c.pk)], TextsText(c, s), TextsText(c, t));
    FieldAfter(c.sqlType, s1, t1);
    After(['y'], Field(c.sqlType, s1), Field(c.sqlType, t1));
    FieldAfter(c.name, ['y'] + Field(c.sqlType, s1), ['y'] + Field(c.sqlType, t1));
    After(['c'], Field(c.name, ['y'] + Field(c.sqlType, s1)), Field(c.name, ['y'] + Field(c.sqlType, t1)));
  }

  predicate ColumnsFlip(cs: seq<Column>, cs': seq<Column>, i: nat) {
    i < |cs| == |cs'| && cs' == cs[i := cs'[i]] && ColumnFlips(cs[i], cs'[i])
  }

  lemma {:induction false} ColumnsFlipped(cs: seq<Column>, cs': seq<Column>, i: nat, k: string)
    requires ColumnsFlip(cs, cs', i)
    ensures OneFlag(ColumnsText(cs, k), ColumnsText(cs', k))
  {
    if i == 0 {
      assert cs[1..] == cs'[1..];
      ColumnFlip(cs[0], cs'[0], ColumnsText(cs[1..], k));
    } else {
      assert cs[0] == cs'[0] && cs'[1..] == cs[1..][i - 1 := cs'[1..][i - 1]];
      ColumnsFlipped(cs[1..], cs'[1..], i - 1, k);
      ColumnAfter(cs[0], ColumnsText(cs[1..], k), ColumnsText(cs'[1..], k));
    }
  }

  /** One flag of the table or of one of its columns. */
  ghost predicate TableFlips(t: Table, t': Table) {
    t' == t.(strict := !t.strict) || t' == t.(withoutRowid := !t.withoutRowid) ||
    (t' == t.(columns := t'.columns) && exists i :: ColumnsFlip(t.columns, t'.columns, i))
  }

  lemma BodyFlip(t: Table, t': Table, i: nat, k: string)
    requires t.ddl == t'.ddl && ColumnsFlip(t.columns, t'.columns, i)
    ensures OneFlag(BodyText(t, k), BodyText(t', k))
  {
    var k1 := [')'] + ([';'] + DdlText(t.ddl, k));
    ColumnsFlipped(t.columns, t'.columns, i, k1);
    After(['('], ColumnsText(t.columns, k1), ColumnsText(t'.columns, k1));
  }

  lemma TableFlip(t: Table, t': Table, k: string)
    requires TableFlips(t, t')
    ensures OneFlag(TableText(t, k), TableText(t', k))
  {
    var x := FlagsText('s', t.strict, 'w', t.withoutRowid, BodyText(t, k));
    var y := FlagsText('s', t'.strict, 'w', t'.withoutRowid, BodyText(t', k));
    if t' == t.(columns := t'.columns) {
      var i :| ColumnsFlip(t.columns, t'.columns, i);
      BodyFlip(t, t', i, k);
      After(['s', Flag(t.strict), 'w', Flag(t.withoutRowid)], BodyText(t, k), BodyText(t', k));
    } else {
      assert BodyText(t, k) == BodyText(t', k);
      FlagFlips('s', t.strict, 'w', t.withoutRowid, t'.strict, t'.withoutRowid, BodyText(t, k));
    }
    FieldAfter(t.name, x, y);
    After(['t'], Field(t.name, x), Field(t.name, y));
  }

  lemma {:induction false} ColumnsAfter(cs: seq<Column>, s: string, t: string)
    requires OneFlag(s, t)
    ensures OneFlag(ColumnsText(cs, s), ColumnsText(cs, t))
  {
    if cs != [] {
      ColumnsAfter(cs[1..], s, t);
      ColumnAfter(cs[0], ColumnsText(cs[1..], s), ColumnsText(cs[1..], t));
    }
  }

  lemma {:induction false} DdlAfter(ddl: seq<string>, s: string, t: string)
    requires OneFlag(s, t)
    ensures OneFlag(DdlText(ddl, s), DdlText(ddl, t))
  {
    if ddl != [] {
      var s1, t1 := DdlText(ddl[1..], s), DdlText(ddl[1..], t);
      DdlAfter(ddl[1..], s, t);
      After([';'], s1, t1);
      FieldAfter(ddl[0], [';'] + s1, [';'] + t1);
      After(['d'], Field(ddl[0], [';'] + s1), Field(ddl[0], [';'] + t1));
    }
  }

  lemma TableAfter(x: Table, s: string, t: string)
    requires OneFlag(s, t)
    ensures OneFlag(TableText(x, s), TableText(x, t))
  {
    var s1, t1 := DdlText(x.ddl, s), DdlText(x.ddl, t);
    DdlAfter(x.ddl, s, t);
    After([';'], s1, t1);
    After([')'], [';'] + s1, [';'] + t1);
    var s2, t2 := [')'] + ([';'] + s1), [')'] + ([';'] + t1);
    ColumnsAfter(x.columns, s2, t2);
    After(['('], ColumnsText(x.columns, s2), ColumnsText(x.columns, t2));
    var s3, t3 := BodyText(x, s), BodyText(x, t);
    After(['s', Flag(x.strict), 'w', Flag(x.withoutRowid)], s3, t3);
    var s4, t4 := FlagsText('s', x.strict, 'w', x.withoutRowid, s3), FlagsText('s', x.strict, 'w', x.withoutRowid, t3);
    FieldAfter(x.name, s4, t4);
    After(['t'], Field(x.name, s4), Field(x.name, t4));
  }

  lemma {:induction false} TablesFlipped(ts: seq<Table>, i: nat, x: Table, k: string)
    requires i < |ts| && TableFlips(ts[i], x)
    ensures OneFlag(TablesText(ts, k), TablesText(ts[i := x], k))
  {
    var ts' := ts[i := x];
    if i == 0 {
      assert ts'[1..] == ts[1..];
      TableFlip(ts[0], x, TablesText(ts[1..], k));
    } else {
      assert ts'[1..] == ts[1..][i - 1 := x];
      TablesFlipped(ts[1..], i - 1, x, k);
      TableAfter(ts[0], TablesText(ts[1..], k), TablesText(ts'[1..], k));
    }
  }

  // ---- From one flag to another hash ----

  lemma OneFlagOneByte(s: string, t: string)
    requires OneFlag(s, t)
    ensures Fnv.Hash(Bytes(s)) != Fnv.Hash(Bytes(t))
  {
    var i :| FlagAt(s, t, i);
    var a, b := s[..i], s[i + 1..];
    assert s == a + ([s[i]] + b) && t == a + ([t[i]] + b);
    FlagBytes(a, s[i], b);
    FlagBytes(a, t[i], b);
    ByteAround(Bytes(a), s[i] as int, t[i] as int, Bytes(b));
  }

  lemma ByteAround(x: seq<Byte>, b: Byte, b': Byte, y: seq<Byte>)
    requires b != b'
    ensures Fnv.Hash(x + ([b] + y)) != Fnv.Hash(x + ([b'] + y))
  {
    OneByteEdit(x + ([b] + y), x + ([b'] + y), |x|);
  }

  lemma FlagBytes(a: string, c: char, b: string)
    requires c in "01"
    ensures Bytes(a + ([c] + b)) == Bytes(a) + ([c as int] + Bytes(b))
  {
    BytesSplit(a, [c] + b);
    assert ([c] + b)[1..] == b;
    assert Utf8(c) == [c as int];
  }

  /** One NOT NULL, primary key, STRICT or WITHOUT ROWID flag of one table differs. */
  ghost predicate FlagDiffers(t: TableSnapshot, t': TableSnapshot) {
    t' == t.(strict := !t.strict) || t' == t.(withoutRowid := !t.withoutRowid) ||
    exists j :: ColumnFlagDiffers(t, t', j)
  }

  predicate ColumnFlagDiffers(t: TableSnapshot, t': TableSnapshot, j: int) {
    0 <= j < |t.columns| &&
    var c := t.columns[j];
    t' == t.(columns := t.columns[j := c.(def := c.def.(notNull := !c.def.notNull))]) ||
    t' == t.(columns := t.columns[j := c.(def := c.def.(pk := !c.def.pk))])
  }

  lemma FlagDiffersFlips(t: TableSnapshot, t': TableSnapshot)
    requires FlagDiffers(t, t')
    ensures TableFlips(NormalTable(t), NormalTable(t')) && t'.name == t.name
  {
    if j :| ColumnFlagDiffers(t, t', j) { ColumnFlagFlips(t, t', j); }
  }

  lemma ColumnFlagFlips(t: TableSnapshot, t': TableSnapshot, j: nat)
    requires ColumnFlagDiffers(t, t', j)
    ensures ColumnsFlip(Mapped(t.columns, NormalColumn), Mapped(t'.columns, NormalColumn), j)
  {
    MappedReplaced(t.columns, j, t'.columns[j], NormalColumn);
    CanonicalProof.MappedFacts(t'.columns, NormalColumn);
    assert t'.columns == t.columns[j := t'.columns[j]];
  }

  lemma MappedReplaced<A, B>(s: seq<A>, m: nat, x: A, f: A -> B)
    requires m < |s|
    ensures m < |Mapped(s, f)| && Mapped(s, f)[m] == f(s[m]) && Mapped(s[m := x], f) == Mapped(s, f)[m := f(x)]
  {
    CanonicalProof.MappedFacts(s, f);
    CanonicalProof.MappedFacts(s[m := x], f);
  }

  /** Flipping one flag of a snapshot, and nothing else, always changes its hash. */
  lemma FlagFlipChangesHash(s: SchemaSnapshot, i: nat, t: TableSnapshot)
    requires i < |s.tables| && FlagDiffers(s.tables[i], t)
    ensures HashOf(s.(tables := s.tables[i := t])) != HashOf(s)
  {
    var s' := s.(tables := s.tables[i := t]);
    FlagDiffersFlips(s.tables[i], t);
    var m := SortReplaced(s.tables, i, t, ByName());
    var sorted := Sort(s.tables, ByName());
    MappedReplaced(sorted, m, t, NormalTable);
    var ts, k := Mapped(sorted, NormalTable), TriggersText(Normal(s).triggers, "");
    TablesFlipped(ts, m, NormalTable(t), k);
    var ts' := ts[m := NormalTable(t)];
    After([';'], TablesText(ts, k), TablesText(ts', k));
    After(Decimal(s.version), [';'] + TablesText(ts, k), [';'] + TablesText(ts', k));
    After(['v'], Decimal(s.version) + ([';'] + TablesText(ts, k)), Decimal(s.version) + ([';'] + TablesText(ts', k)));
    assert OneFlag(CanonicalString(s), CanonicalString(s'));
    OneFlagOneByte(CanonicalString(s), CanonicalString(s'));
  }
}
