/** The canonical text of a snapshot, and a decoder that reads it back. Every printer takes the
    text that follows it, so what is read and what is left is plain on the page. */
module Canonical {
  import opened Values
  import opened Snapshot
  import opened Sorting
  import opened Digits

  // ---- Lengths in bytes ----

  /** How many bytes a character takes in UTF-8. */
  function Width(c: char): nat {
    if c as int < 0x80 then 1 else if c as int < 0x800 then 2 else if c as int < 0x10000 then 3 else 4
  }

  function ByteLength(s: string): nat {
    if s == "" then 0 else Width(s[0]) + ByteLength(s[1..])
  }

  /** The characters that make up the next `n` bytes. */
  function TakeBytes(t: string, n: nat): (r: Option<(string, string)>)
    ensures r.Some? ==> |r.value.1| <= |t|
  {
    if n == 0 then Some(("", t))
    else if t == "" || Width(t[0]) > n then None
    else
      var r :- TakeBytes(t[1..], n - Width(t[0]));
      Some(([t[0]] + r.0, r.1))
  }

  /** A field is its length in bytes, a colon, and its text. */
  function Field(s: string, k: string): string {
    Decimal(ByteLength(s)) + ([':'] + (s + k))
  }

  function ReadField(t: string): (r: Option<(string, string)>)
    ensures r.Some? ==> |r.value.1| < |t|
  {
    ReadDigitsShrinks(t, 0);
    var (n, t1) := ReadDigits(t, 0);
    var t2 :- Expect(t1, ':');
    TakeBytes(t2, n)
  }

  lemma {:induction false} BytesRead(s: string, rest: string)
    ensures TakeBytes(s + rest, ByteLength(s)) == Some((s, rest))
  {
    if s == "" {
      assert s + rest == rest;
    } else {
      BytesRead(s[1..], rest);
      assert (s + rest)[0] == s[0] && (s + rest)[1..] == s[1..] + rest;
      assert [s[0]] + s[1..] == s;
    }
  }

  /** Whatever the text contains, digits and colons included, the field ends where it ends. */
  lemma FieldReads(s: string, k: string)
    ensures ReadField(Field(s, k)) == Some((s, k))
  {
    var t := [':'] + (s + k);
    DecimalReads(ByteLength(s), t);
    assert t[0] == ':';
    Expected(':', s + k);
    BytesRead(s, k);
  }

  // ---- What the canonical text keeps ----

  datatype Column = Column(name: string, sqlType: string, notNull: bool, pk: bool, defaultSql: string,
                           collate: string, generated: Option<Generated>)

  datatype Table = Table(name: string, strict: bool, withoutRowid: bool, columns: seq<Column>, ddl: seq<string>)

  datatype Trigger = Trigger(name: string, sql: string, file: string)

  datatype Schema = Schema(version: nat, tables: seq<Table>, triggers: seq<Trigger>)

  function OrEmpty(s: Option<string>): string {
    if s.None? then "" else s.value
  }

  function NormalColumn(c: ColumnSnapshot): Column {
    Column(c.name, c.def.sqlType, c.def.notNull, c.def.pk, OrEmpty(c.def.defaultSql), OrEmpty(c.def.collate),
           c.def.generated)
  }

  function Mapped<A, B>(s: seq<A>, f: A -> B): seq<B> {
    if s == [] then [] else [f(s[0])] + Mapped(s[1..], f)
  }

  function NormalTable(t: TableSnapshot): Table {
    Table(t.name, t.strict, t.withoutRowid, Mapped(t.columns, NormalColumn), t.ddl)
  }

  function NormalTrigger(t: TriggerSnapshot): Trigger {
    Trigger(t.name, t.sql, OrEmpty(t.file))
  }

  /** `Ord` for strings: by code points, which is also the order of their UTF-8 bytes. */
  predicate AtMost(a: string, b: string) {
    a == "" || (b != "" && (a[0] < b[0] || (a[0] == b[0] && AtMost(a[1..], b[1..]))))
  }

  function ByName(): (TableSnapshot, TableSnapshot) -> bool {
    (a: TableSnapshot, b: TableSnapshot) => AtMost(a.name, b.name)
  }

  function ByLowerName(): (TriggerSnapshot, TriggerSnapshot) -> bool {
    (a: TriggerSnapshot, b: TriggerSnapshot) => AtMost(Lower(a.name), Lower(b.name))
  }

  function Normal(s: SchemaSnapshot): Schema {
    Schema(s.version, Mapped(Sort(s.tables, ByName()), NormalTable),
           Mapped(Sort(s.triggers, ByLowerName()), NormalTrigger))
  }

  // ---- Printing ----

  function Flag(b: bool): char {
    if b then '1' else '0'
  }

  function GeneratedText(g: Option<Generated>, k: string): string {
    if g.None? then ['0', ':'] + k else [if g.value.stored then 'S' else 'V'] + Field(g.value.expr, k)
  }

  function TextsText(c: Column, k: string): string {
    ['e'] + Field(c.defaultSql, ['l'] + Field(c.collate, ['G'] + GeneratedText(c.generated, [','] + k)))
  }

  function FlagsText(a: char, x: bool, b: char, y: bool, k: string): string {
    [a, Flag(x), b, Flag(y)] + k
  }

  function ColumnText(c: Column, k: string): string {
    ['c'] + Field(c.name, ['y'] + Field(c.sqlType, FlagsText('n', c.notNull, 'p', c.pk, TextsText(c, k))))
  }

  function ColumnsText(cs: seq<Column>, k: string): string {
    if cs == [] then k else ColumnText(cs[0], ColumnsText(cs[1..], k))
  }

  function DdlText(ddl: seq<string>, k: string): string {
    if ddl == [] then k else ['d'] + Field(ddl[0], [';'] + DdlText(ddl[1..], k))
  }

  function BodyText(t: Table, k: string): string {
    ['('] + ColumnsText(t.columns, [')'] + ([';'] + DdlText(t.ddl, k)))
  }

  function TableText(t: Table, k: string): string {
    ['t'] + Field(t.name, FlagsText('s', t.strict, 'w', t.withoutRowid, BodyText(t, k)))
  }

  function TablesText(ts: seq<Table>, k: string): string {
    if ts == [] then k else TableText(ts[0], TablesText(ts[1..], k))
  }

  function TriggerText(t: Trigger, k: string): string {
    ['D'] + Field(t.name, ['q'] + Field(t.sql, ['f'] + Field(t.file, [';'] + k)))
  }

  function TriggersText(ts: seq<Trigger>, k: string): string {
    if ts == [] then k else TriggerText(ts[0], TriggersText(ts[1..], k))
  }

  function SchemaText(s: Schema): string {
    ['v'] + (Decimal(s.version) + ([';'] + TablesText(s.tables, TriggersText(s.triggers, ""))))
  }

  function CanonicalString(s: SchemaSnapshot): string {
    SchemaText(Normal(s))
  }

  // ---- Reading ----

  function ReadFlags(t: string, a: char, b: char): (r: Option<(bool, bool, string)>)
    ensures r.Some? ==> |r.value.2| < |t|
  {
    if |t| >= 4 && t[0] == a && t[2] == b && t[1] in "01" && t[3] in "01"
    then Some((t[1] == '1', t[3] == '1', t[4..])) else None
  }

  function ReadGenerated(t: string): (r: Option<(Option<Generated>, string)>)
    ensures r.Some? ==> |r.value.1| < |t|
  {
    if |t| >= 2 && t[0] == '0' && t[1] == ':' then Some((None, t[2..]))
    else if t != "" && t[0] in "SV" then
      var e :- ReadField(t[1..]);
      Some((Some(Generated(e.0, t[0] == 'S')), e.1))
    else None
  }

  function ReadTexts(t: string): (r: Option<(string, string, Option<Generated>, string)>)
    ensures r.Some? ==> |r.value.3| < |t|
  {
    var t1 :- Expect(t, 'e');
    var d :- ReadField(t1);
    var t2 :- Expect(d.1, 'l');
    var l :- ReadField(t2);
    var t3 :- Expect(l.1, 'G');
    var g :- ReadGenerated(t3);
    var t4 :- Expect(g.1, ',');
    Some((d.0, l.0, g.0, t4))
  }

  function ReadColumn(t: string): (r: Option<(Column, string)>)
    ensures r.Some? ==> |r.value.1| < |t|
  {
    var t1 :- Expect(t, 'c');
    var name :- ReadField(t1);
    var t2 :- Expect(name.1, 'y');
    var ty :- ReadField(t2);
    var flags :- ReadFlags(ty.1, 'n', 'p');
    var texts :- ReadTexts(flags.2);
    Some((Column(name.0, ty.0, flags.0, flags.1, texts.0, texts.1, texts.2), texts.3))
  }

  function ReadColumns(t: string): (r: Option<(seq<Column>, string)>)
    ensures r.Some? ==> |r.value.1| <= |t|
    decreases |t|
  {
    if t == "" || t[0] != 'c' then Some(([], t)) else
    var c :- ReadColumn(t);
    var cs :- ReadColumns(c.1);
    Some(([c.0] + cs.0, cs.1))
  }

  function ReadDdl(t: string): (r: Option<(seq<string>, string)>)
    ensures r.Some? ==> |r.value.1| <= |t|
    decreases |t|
  {
    if t == "" || t[0] != 'd' then Some(([], t)) else
    var d :- ReadField(t[1..]);
    var t1 :- Expect(d.1, ';');
    var ds :- ReadDdl(t1);
    Some(([d.0] + ds.0, ds.1))
  }

  function ReadBody(t: string): (r: Option<(seq<Column>, seq<string>, string)>)
    ensures r.Some? ==> |r.value.2| < |t|
  {
    var t1 :- Expect(t, '(');
    var cs :- ReadColumns(t1);
    var t2 :- Expect(cs.1, ')');
    var t3 :- Expect(t2, ';');
    var ds :- ReadDdl(t3);
    Some((cs.0, ds.0, ds.1))
  }

  function ReadTable(t: string): (r: Option<(Table, string)>)
    ensures r.Some? ==> |r.value.1| < |t|
  {
    var t1 :- Expect(t, 't');
    var name :- ReadField(t1);
    var flags :- ReadFlags(name.1, 's', 'w');
    var body :- ReadBody(flags.2);
    Some((Table(name.0, flags.0, flags.1, body.0, body.1), body.2))
  }

  function ReadTables(t: string): (r: Option<(seq<Table>, string)>)
    ensures r.Some? ==> |r.value.1| <= |t|
    decreases |t|
  {
    if t == "" || t[0] != 't' then Some(([], t)) else
    var x :- ReadTable(t);
    var xs :- ReadTables(x.1);
    Some(([x.0] + xs.0, xs.1))
  }

  function ReadTrigger(t: string): (r: Option<(Trigger, string)>)
    ensures r.Some? ==> |r.value.1| < |t|
  {
    var t1 :- Expect(t, 'D');
    var name :- ReadField(t1);
    var t2 :- Expect(name.1, 'q');
    var sql :- ReadField(t2);
    var t3 :- Expect(sql.1, 'f');
    var file :- ReadField(t3);
    var t4 :- Expect(file.1, ';');
    Some((Trigger(name.0, sql.0, file.0), t4))
  }

  function ReadTriggers(t: string): (r: Option<(seq<Trigger>, string)>)
    ensures r.Some? ==> |r.value.1| <= |t|
    decreases |t|
  {
    if t == "" || t[0] != 'D' then Some(([], t)) else
    var x :- ReadTrigger(t);
    var xs :- ReadTriggers(x.1);
    Some(([x.0] + xs.0, xs.1))
  }

  function ReadSchema(t: string): Option<Schema> {
    var t1 :- Expect(t, 'v');
    var (n, t2) := ReadDigits(t1, 0);
    var t3 :- Expect(t2, ';');
    var tables :- ReadTables(t3);
    var triggers :- ReadTriggers(tables.1);
    if triggers.1 == "" then Some(Schema(n, tables.0, triggers.0)) else None
  }
}
