/** The canonical text as the source builds it, pushing onto one buffer in loops. Each method is told
    the text still to come, so what it pushes is stated by the printer that takes the same tail. */
module CanonicalPrinter {
  import opened Values
  import opened Snapshot
  import opened Sorting
  import opened Canonical
  import opened Digits
  import CanonicalProof

  class Buffer {
    var text: string

    constructor ()
      ensures text == ""
    {
      text := "";
    }

    method Push(c: char, ghost k: string)
      modifies this
      ensures text + k == old(text) + ([c] + k)
    {
      text := text + [c];
    }

    method PushField(s: string, ghost k: string)
      modifies this
      ensures text + k == old(text) + Field(s, k)
    {
      ghost var n := Decimal(ByteLength(s));
      text := text + (Decimal(ByteLength(s)) + ([':'] + s));
      assert text + k == old(text) + (n + ([':'] + (s + k)));
    }

    method PushFlags(a: char, x: bool, b: char, y: bool, ghost k: string)
      modifies this
      ensures text + k == old(text) + FlagsText(a, x, b, y, k)
    {
      text := text + [a, if x then '1' else '0', b, if y then '1' else '0'];
    }

    method PushGenerated(g: Option<Generated>, ghost k: string)
      modifies this
      ensures text + k == old(text) + GeneratedText(g, k)
    {
      match g {
        case Some(x) =>
          ghost var t := Field(x.expr, k);
          Push(if x.stored then 'S' else 'V', t);
          PushField(x.expr, k);
        case None =>
          Push('0', [':'] + k);
          Push(':', k);
          assert old(text) + (['0'] + ([':'] + k)) == old(text) + (['0', ':'] + k);
      }
    }

    method PushTexts(c: ColumnSnapshot, ghost k: string)
      modifies this
      ensures text + k == old(text) + TextsText(NormalColumn(c), k)
    {
      ghost var n := NormalColumn(c);
      ghost var k4 := [','] + k;
      ghost var k3 := GeneratedText(n.generated, k4);
      ghost var k2 := Field(n.collate, ['G'] + k3);
      ghost var k1 := Field(n.defaultSql, ['l'] + k2);
      Push('e', k1);
      PushField(if c.def.defaultSql.Some? then c.def.defaultSql.value else "", ['l'] + k2);
      Push('l', k2);
      PushField(if c.def.collate.Some? then c.def.collate.value else "", ['G'] + k3);
      Push('G', k3);
      PushGenerated(c.def.generated, k4);
      Push(',', k);
    }

    method PushColumn(c: ColumnSnapshot, ghost k: string)
      modifies this
      ensures text + k == old(text) + ColumnText(NormalColumn(c), k)
    {
      ghost var n := NormalColumn(c);
      ghost var k4 := TextsText(n, k);
      ghost var k3 := FlagsText('n', n.notNull, 'p', n.pk, k4);
      ghost var k2 := Field(n.sqlType, k3);
      ghost var k1 := Field(n.name, ['y'] + k2);
      Push('c', k1);
      PushField(c.name, ['y'] + k2);
      Push('y', k2);
      PushField(c.def.sqlType, k3);
      PushFlags('n', c.def.notNull, 'p', c.def.pk, k4);
      PushTexts(c, k);
    }

    method PushColumns(cs: seq<ColumnSnapshot>, ghost k: string)
      modifies this
      ensures text + k == old(text) + ColumnsText(Mapped(cs, NormalColumn), k)
    {
      ghost var start := text;
      ghost var ns := Mapped(cs, NormalColumn);
      CanonicalProof.MappedFacts(cs, NormalColumn);
      assert ns[0..] == ns;
      for i := 0 to |cs|
        invariant text + ColumnsText(ns[i..], k) == start + ColumnsText(ns, k)
      {
        assert ns[i..][0] == NormalColumn(cs[i]) && ns[i..][1..] == ns[i + 1..];
        PushColumn(cs[i], ColumnsText(ns[i + 1..], k));
      }
    }

    method PushDdl(ddl: seq<string>, ghost k: string)
      modifies this
      ensures text + k == old(text) + DdlText(ddl, k)
    {
      ghost var start := text;
      assert ddl[0..] == ddl;
      for i := 0 to |ddl|
        invariant text + DdlText(ddl[i..], k) == start + DdlText(ddl, k)
      {
        ghost var rest := DdlText(ddl[i + 1..], k);
        assert ddl[i..][0] == ddl[i] && ddl[i..][1..] == ddl[i + 1..];
        Push('d', Field(ddl[i], [';'] + rest));
        PushField(ddl[i], [';'] + rest);
        Push(';', rest);
      }
    }

    method PushBody(t: TableSnapshot, ghost k: string)
      modifies this
      ensures text + k == old(text) + BodyText(NormalTable(t), k)
    {
      ghost var k3 := DdlText(t.ddl, k);
      ghost var k2 := [';'] + k3;
      ghost var k1 := [')'] + k2;
      Push('(', ColumnsText(Mapped(t.columns, NormalColumn), k1));
      PushColumns(t.columns, k1);
      Push(')', k2);
      Push(';', k3);
      PushDdl(t.ddl, k);
    }

    method PushTable(t: TableSnapshot, ghost k: string)
      modifies this
      ensures text + k == old(text) + TableText(NormalTable(t), k)
    {
      ghost var k2 := BodyText(NormalTable(t), k);
      ghost var k1 := FlagsText('s', t.strict, 'w', t.withoutRowid, k2);
      Push('t', Field(t.name, k1));
      PushField(t.name, k1);
      PushFlags('s', t.strict, 'w', t.withoutRowid, k2);
      PushBody(t, k);
    }

    method PushTables(ts: seq<TableSnapshot>, ghost k: string)
      modifies this
      ensures text + k == old(text) + TablesText(Mapped(ts, NormalTable), k)
    {
      ghost var start := text;
      ghost var ns := Mapped(ts, NormalTable);
      CanonicalProof.MappedFacts(ts, NormalTable);
      assert ns[0..] == ns;
      for i := 0 to |ts|
        invariant text + TablesText(ns[i..], k) == start + TablesText(ns, k)
      {
        assert ns[i..][0] == NormalTable(ts[i]) && ns[i..][1..] == ns[i + 1..];
        PushTable(ts[i], TablesText(ns[i + 1..], k));
      }
    }

    method PushTrigger(t: TriggerSnapshot, ghost k: string)
      modifies this
      ensures text + k == old(text) + TriggerText(NormalTrigger(t), k)
    {
      ghost var n := NormalTrigger(t);
      ghost var k3 := [';'] + k;
      ghost var k2 := Field(n.file, k3);
      ghost var k1 := Field(n.sql, ['f'] + k2);
      Push('D', Field(n.name, ['q'] + k1));
      PushField(t.name, ['q'] + k1);
      Push('q', k1);
      PushField(t.sql, ['f'] + k2);
      Push('f', k2);
      PushField(if t.file.Some? then t.file.value else "", k3);
      Push(';', k);
    }

    method PushTriggers(ts: seq<TriggerSnapshot>, ghost k: string)
      modifies this
      ensures text + k == old(text) + TriggersText(Mapped(ts, NormalTrigger), k)
    {
      ghost var start := text;
      ghost var ns := Mapped(ts, NormalTrigger);
      CanonicalProof.MappedFacts(ts, NormalTrigger);
      assert ns[0..] == ns;
      for i := 0 to |ts|
        invariant text + TriggersText(ns[i..], k) == start + TriggersText(ns, k)
      {
        assert ns[i..][0] == NormalTrigger(ts[i]) && ns[i..][1..] == ns[i + 1..];
        PushTrigger(ts[i], TriggersText(ns[i + 1..], k));
      }
    }

    method PushDecimal(n: nat, ghost k: string)
      modifies this
      ensures text + k == old(text) + (Decimal(n) + k)
    {
      text := text + Decimal(n);
    }
  }

  method BuildCanonicalString(s: SchemaSnapshot) returns (text: string)
    ensures text == CanonicalString(s)
  {
    var tables := Sort(s.tables, ByName());
    var triggers := Sort(s.triggers, ByLowerName());
    ghost var k2 := TriggersText(Mapped(triggers, NormalTrigger), "");
    ghost var k1 := TablesText(Mapped(tables, NormalTable), k2);
    var out := new Buffer();
    out.Push('v', Decimal(s.version) + ([';'] + k1));
    out.PushDecimal(s.version, [';'] + k1);
    out.Push(';', k1);
    out.PushTables(tables, k2);
    out.PushTriggers(triggers, "");
    text := out.text;
    assert text + "" == text && "" + CanonicalString(s) == CanonicalString(s);
  }
}
