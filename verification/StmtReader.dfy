/** A reader of the statements that a diff emits, and what makes their text readable: the text of a
    statement is read back as that statement. */
module StmtReader {
  import opened Values
  import opened Names
  import opened SqlText
  import opened Snapshot
  import opened Diff

  // ---- Reading ----

  predicate BeginsClause(t: string) {
    Strip(t, " COLLATE ").Some? || Strip(t, " NOT NULL").Some? || Strip(t, " DEFAULT ").Some?
  }

  /** The text before the next clause of a column definition. */
  function ReadUntilClause(t: string): (r: (string, string))
    ensures t == r.0 + r.1
  {
    if t == "" || BeginsClause(t) then ("", t) else
    var r := ReadUntilClause(t[1..]);
    ([t[0]] + r.0, r.1)
  }

  /** The type of a column is what stands before its first clause. */
  function ReadType(t: string): (string, string) {
    if t != "" && t[0] == ' ' && !BeginsClause(t) then ReadUntilClause(t[1..]) else ("", t)
  }

  function ReadCollate(t: string): (Option<string>, string) {
    match Strip(t, " COLLATE ")
    case None => (None, t)
    case Some(t1) =>
      var r := ReadUntilClause(t1);
      (Some(r.0), r.1)
  }

  function ReadNotNull(t: string): (bool, string) {
    match Strip(t, " NOT NULL")
    case None => (false, t)
    case Some(t1) => (true, t1)
  }

  /** A default is the rest of the statement. */
  function ReadDefault(t: string): Option<Option<string>> {
    if t == "" then Some(None) else
    var t1 :- Strip(t, " DEFAULT ");
    Some(Some(t1))
  }

  /** The definition after the column's name. */
  function ReadDef(t: string): Option<Def> {
    var ty := ReadType(t);
    var collate := ReadCollate(ty.1);
    var notNull := ReadNotNull(collate.1);
    var default :- ReadDefault(notNull.1);
    Some(Def(ty.0, notNull.0, false, default, collate.0, None))
  }

  function ReadRename(table: string, t: string): Option<Stmt> {
    var source :- ReadName(t);
    var t1 :- Strip(source.1, " TO \"");
    var target :- ReadName(t1);
    if target.1 == "" then Some(RenameColumn(table, source.0, target.0)) else None
  }

  function ReadAdd(table: string, t: string): Option<Stmt> {
    var column :- ReadName(t);
    var def :- ReadDef(column.1);
    Some(AddColumn(table, column.0, def))
  }

  function ReadAlter(t: string): Option<Stmt> {
    var table :- ReadName(t);
    match Strip(table.1, " RENAME COLUMN \"")
    case Some(t1) => ReadRename(table.0, t1)
    case None =>
      var t1 :- Strip(table.1, " ADD COLUMN \"");
      ReadAdd(table.0, t1)
  }

  function ReadDrop(t: string): Option<Stmt> {
    var name :- ReadName(t);
    if name.1 == "" then Some(DropTrigger(name.0)) else None
  }

  function OrDdl(s: Option<Stmt>, t: string): Stmt {
    if s.Some? then s.value else Ddl(t)
  }

  /** A statement read from its text; what is neither an ALTER TABLE nor a DROP TRIGGER is DDL of the schema. */
  function ReadStmt(t: string): Stmt {
    match Strip(t, "ALTER TABLE \"")
    case Some(t1) => OrDdl(ReadAlter(t1), t)
    case None =>
      match Strip(t, "DROP TRIGGER \"")
      case Some(t1) => OrDdl(ReadDrop(t1), t)
      case None => Ddl(t)
  }

  function ReadAll(texts: seq<string>): seq<Stmt> {
    seq(|texts|, i requires 0 <= i < |texts| => ReadStmt(texts[i]))
  }

  // ---- What is printed readably ----

  predicate IsPrefix(w: string, t: string) {
    |w| <= |t| && t[..|w|] == w
  }

  predicate BeginsKeyword(t: string) {
    IsPrefix(" COLLATE", t) || IsPrefix(" NOT", t) || IsPrefix(" DEFAULT", t)
  }

  /** None of its words begins with the keyword of another clause. */
  predicate PlainWords(t: string) {
    forall i :: 0 <= i < |t| ==> !BeginsKeyword(t[i..])
  }

  /** A definition that ALTER TABLE can add. */
  predicate PlainDef(d: Def) {
    !d.pk && d.generated.None? && PlainWords(" " + d.sqlType) && (d.collate.Some? ==> PlainWords(d.collate.value))
  }

  predicate PlainDdl(t: string) {
    !IsPrefix("ALTER TABLE \"", t) && !IsPrefix("DROP TRIGGER \"", t)
  }

  predicate PlainStmt(s: Stmt) {
    match s
    case Ddl(text) => PlainDdl(text)
    case AddColumn(t, c, d) => PlainName(t) && PlainName(c) && PlainDef(d)
    case RenameColumn(t, a, b) => PlainName(t) && PlainName(a) && PlainName(b)
    case DropTrigger(_) => true
  }

  // ---- Clauses ----

  /** What may follow a type or a collation: nothing, or another clause. */
  predicate AtClause(k: string) {
    k == "" || BeginsClause(k)
  }

  /** A word that is a prefix of the text and what follows it does not reach beyond a space. */
  lemma PrefixStays(w: string, t: string, k: string)
    requires IsPrefix(w, t + k) && t != "" && (k == "" || k[0] == ' ')
    requires forall i :: 0 < i < |w| ==> w[i] != ' '
    ensures IsPrefix(w, t)
  {
    assert forall i :: 0 <= i < |w| ==> (t + k)[i] == (t + k)[..|w|][i];
    assert k == "" || (t + k)[|t|] == ' ';
    assert t[..|w|] == (t + k)[..|w|];
  }

  lemma KeywordOf(clause: string, w: string, t: string)
    requires IsPrefix(w, clause) && Strip(t, clause).Some?
    ensures IsPrefix(w, t)
  {
    assert t[..|w|] == t[..|clause|][..|w|];
  }

  /** A clause after the text does not make one begin inside it. */
  lemma NoClauseInside(t: string, k: string)
    requires t != "" && !BeginsKeyword(t) && (k == "" || k[0] == ' ')
    ensures !BeginsClause(t + k)
  {
    if Strip(t + k, " COLLATE ").Some? {
      KeywordOf(" COLLATE ", " COLLATE", t + k);
      PrefixStays(" COLLATE", t, k);
    }
    if Strip(t + k, " NOT NULL").Some? {
      KeywordOf(" NOT NULL", " NOT", t + k);
      PrefixStays(" NOT", t, k);
    }
    if Strip(t + k, " DEFAULT ").Some? {
      KeywordOf(" DEFAULT ", " DEFAULT", t + k);
      PrefixStays(" DEFAULT", t, k);
    }
  }

  lemma ClauseStarts(k: string)
    requires AtClause(k)
    ensures k == "" || k[0] == ' '
  {
  }

  lemma UntilStep(u: string, rest: string)
    requires u != "" && u[1..] == rest && !BeginsClause(u)
    ensures ReadUntilClause(u) == ([u[0]] + ReadUntilClause(rest).0, ReadUntilClause(rest).1)
  {
  }

  lemma HeadAndTail(t: string, k: string)
    requires t != ""
    ensures (t + k)[0] == t[0] && (t + k)[1..] == t[1..] + k && [t[0]] + t[1..] == t
  {
  }

  lemma PlainTail(t: string)
    requires t != "" && PlainWords(t)
    ensures !BeginsKeyword(t) && PlainWords(t[1..])
  {
    assert t[0..] == t;
    assert forall i :: 0 <= i < |t[1..]| ==> t[1..][i..] == t[i + 1..];
  }

  lemma {:induction false} UntilClauseReads(t: string, k: string)
    requires PlainWords(t) && AtClause(k)
    ensures ReadUntilClause(t + k) == (t, k)
  {
    if t == "" {
      assert t + k == k;
    } else {
      ClauseStarts(k);
      PlainTail(t);
      NoClauseInside(t, k);
      UntilClauseReads(t[1..], k);
      HeadAndTail(t, k);
      UntilStep(t + k, t[1..] + k);
    }
  }

  // ---- Definitions ----

  function DefaultText(d: Option<string>): string {
    if d.None? then "" else " DEFAULT " + d.value
  }

  function NotNullText(b: bool, k: string): string {
    if b then " NOT NULL" + k else k
  }

  function CollateText(c: Option<string>, k: string): string {
    if c.None? then k else " COLLATE " + (c.value + k)
  }

  function TypeText(t: string, k: string): string {
    if t == "" then k else [' '] + (t + k)
  }

  /** What follows the name of an added column, clause by clause. */
  function DefText(d: Def): string {
    TypeText(d.sqlType, CollateText(d.collate, NotNullText(d.notNull, DefaultText(d.defaultSql))))
  }

  lemma DefaultReads(d: Option<string>)
    ensures AtClause(DefaultText(d)) && ReadDefault(DefaultText(d)) == Some(d)
    ensures Strip(DefaultText(d), " COLLATE ").None? && Strip(DefaultText(d), " NOT NULL").None?
  {
    if d.Some? {
      Stripped(" DEFAULT ", d.value);
      NotStripped(DefaultText(d), " COLLATE ", 1);
      NotStripped(DefaultText(d), " NOT NULL", 1);
    }
  }

  lemma NotNullReads(b: bool, k: string)
    requires AtClause(k) && Strip(k, " NOT NULL").None? && Strip(k, " COLLATE ").None?
    ensures AtClause(NotNullText(b, k)) && ReadNotNull(NotNullText(b, k)) == (b, k)
    ensures Strip(NotNullText(b, k), " COLLATE ").None?
  {
    if b {
      Stripped(" NOT NULL", k);
      NotStripped(NotNullText(b, k), " COLLATE ", 1);
    }
  }

  lemma CollateReads(c: Option<string>, k: string)
    requires AtClause(k) && Strip(k, " COLLATE ").None? && (c.Some? ==> PlainWords(c.value))
    ensures AtClause(CollateText(c, k)) && ReadCollate(CollateText(c, k)) == (c, k)
  {
    if c.Some? {
      Stripped(" COLLATE ", c.value + k);
      UntilClauseReads(c.value, k);
    }
  }

  lemma TypeStep(t: string, k: string)
    requires t != "" && !BeginsClause([' '] + (t + k)) && ReadUntilClause(t + k) == (t, k)
    ensures ReadType(TypeText(t, k)) == (t, k)
  {
    assert TypeText(t, k)[1..] == t + k;
  }

  lemma TypeReads(t: string, k: string)
    requires PlainWords(" " + t) && AtClause(k)
    ensures ReadType(TypeText(t, k)) == (t, k)
  {
    var u := " " + t;
    ClauseStarts(k);
    if t != "" {
      PlainTail(u);
      NoClauseInside(u, k);
      assert u[1..] == t && u + k == [' '] + (t + k);
      UntilClauseReads(t, k);
      TypeStep(t, k);
    }
  }

  lemma DefReads(d: Def)
    requires PlainDef(d)
    ensures ReadDef(DefText(d)) == Some(d)
  {
    var t1 := DefaultText(d.defaultSql);
    var t2 := NotNullText(d.notNull, t1);
    var t3 := CollateText(d.collate, t2);
    DefaultReads(d.defaultSql);
    NotNullReads(d.notNull, t1);
    CollateReads(d.collate, t2);
    TypeReads(d.sqlType, t3);
  }

  // ---- Statements ----

  lemma NameThen(name: string, k: string)
    requires PlainName(name) && (k == "" || k[0] != '"')
    ensures ReadName(name + ("\"" + k)) == Some((name, k))
  {
    NameReads(name, k);
    assert "\"" + k == ['"'] + k;
  }

  function RenameText(t: string, a: string, b: string): string {
    "ALTER TABLE \"" +
      (t + ("\"" + (" RENAME COLUMN \"" + (a + ("\"" + (" TO \"" + (b + ("\"" + ""))))))))
  }

  lemma RenameIsText(t: string, a: string, b: string)
    ensures Diff.Text(RenameColumn(t, a, b)) == RenameText(t, a, b)
  {
  }

  lemma RenameReads(t: string, a: string, b: string)
    requires PlainName(t) && PlainName(a) && PlainName(b)
    ensures ReadStmt(Diff.Text(RenameColumn(t, a, b))) == RenameColumn(t, a, b)
  {
    var k3 := b + ("\"" + "");
    var k2 := " TO \"" + k3;
    var k1 := a + ("\"" + k2);
    var k0 := " RENAME COLUMN \"" + k1;
    RenameIsText(t, a, b);
    Stripped("ALTER TABLE \"", t + ("\"" + k0));
    NameThen(t, k0);
    Stripped(" RENAME COLUMN \"", k1);
    NameThen(a, k2);
    Stripped(" TO \"", k3);
    NameThen(b, "");
  }

  lemma EndOfAdd(start: string, column: string, d: Def)
    ensures start + column + (if d.notNull then " NOT NULL" else "") +
            (if d.defaultSql.Some? then " DEFAULT " + d.defaultSql.value else "") ==
            start + (column + NotNullText(d.notNull, DefaultText(d.defaultSql)))
  {
    var k := if d.defaultSql.Some? then " DEFAULT " + d.defaultSql.value else "";
    assert k == DefaultText(d.defaultSql);
    assert (if d.notNull then " NOT NULL" else "") + k == NotNullText(d.notNull, k);
  }

  lemma AddText(t: string, c: string, d: Def)
    ensures Diff.Text(AddColumn(t, c, d)) ==
            "ALTER TABLE \"" + (t + ("\"" + (" ADD COLUMN \"" + (c + ("\"" + DefText(d))))))
  {
    var k := NotNullText(d.notNull, DefaultText(d.defaultSql));
    EndOfAdd("ALTER TABLE \"" + t + "\" ADD COLUMN ", ColumnText(c, d), d);
    ColumnThen(c, d, k);
    StartOfAdd(t, c + ("\"" + DefText(d)));
  }

  lemma StartOfAdd(t: string, x: string)
    ensures "ALTER TABLE \"" + t + "\" ADD COLUMN " + ("\"" + x) ==
            "ALTER TABLE \"" + (t + ("\"" + (" ADD COLUMN \"" + x)))
  {
  }

  lemma ColumnThen(c: string, d: Def, k: string)
    ensures ColumnText(c, d) + k == "\"" + (c + ("\"" + TypeText(d.sqlType, CollateText(d.collate, k))))
  {
  }

  lemma AddReads(t: string, c: string, d: Def)
    requires PlainName(t) && PlainName(c) && PlainDef(d)
    ensures ReadStmt(Diff.Text(AddColumn(t, c, d))) == AddColumn(t, c, d)
  {
    var k2 := c + ("\"" + DefText(d));
    var k1 := " ADD COLUMN \"" + k2;
    AddText(t, c, d);
    Stripped("ALTER TABLE \"", t + ("\"" + k1));
    NameThen(t, k1);
    NotStripped(k1, " RENAME COLUMN \"", 1);
    Stripped(" ADD COLUMN \"", k2);
    DefStarts(d);
    NameThen(c, DefText(d));
    DefReads(d);
  }

  lemma DefStarts(d: Def)
    ensures DefText(d) == "" || DefText(d)[0] == ' '
  {
  }

  lemma {:induction false} DoubledReads(name: string)
    ensures ReadName(Doubled(name, '"') + "\"") == Some((name, ""))
  {
    var s := Doubled(name, '"') + "\"";
    if name == "" {
      assert s == "\"";
    } else {
      var t := Doubled(name[1..], '"') + "\"";
      DoubledReads(name[1..]);
      assert [name[0]] + name[1..] == name;
      if name[0] == '"' {
        assert s == "\"\"" + t && s[2..] == t;
      } else {
        assert s == [name[0]] + t && s[1..] == t;
      }
    }
  }

  lemma DropReads(n: string)
    ensures ReadStmt(Diff.Text(DropTrigger(n))) == DropTrigger(n)
  {
    var k := Doubled(n, '"') + "\"";
    assert Diff.Text(DropTrigger(n)) == "DROP TRIGGER \"" + k;
    Stripped("DROP TRIGGER \"", k);
    NotStripped("DROP TRIGGER \"" + k, "ALTER TABLE \"", 0);
    DoubledReads(n);
  }

  /** A statement with plain names and words is read back from its text. */
  lemma StatementReads(s: Stmt)
    requires PlainStmt(s)
    ensures ReadStmt(Diff.Text(s)) == s
  {
    match s {
      case Ddl(text) =>
      case AddColumn(t, c, d) => AddReads(t, c, d);
      case RenameColumn(t, a, b) => RenameReads(t, a, b);
      case DropTrigger(n) => DropReads(n);
    }
  }

  // ---- Quotes in names ----

  lemma RenameTailTakes(table: string, u: string, s: Stmt)
    requires ReadRename(table, u) == Some(s)
    ensures s.RenameColumn? && s.table == table && Quotes(u) == 3 + 2 * (Quotes(s.source) + Quotes(s.target))
  {
    NameTakes(u);
    OpenedTakes(ReadName(u).value.1, " TO \"");
  }

  lemma AlterIsRename(u: string, s: Stmt)
    requires ReadAlter(u) == Some(s) && s.RenameColumn?
    ensures ReadName(u).Some? && ReadName(u).value.0 == s.table
    ensures var r := Strip(ReadName(u).value.1, " RENAME COLUMN \"");
            r.Some? && ReadRename(s.table, r.value) == Some(s)
  {
  }

  lemma AlterTakes(u: string, s: Stmt)
    requires ReadAlter(u) == Some(s) && s.RenameColumn?
    ensures Quotes(u) == 5 + 2 * (Quotes(s.table) + Quotes(s.source) + Quotes(s.target))
  {
    AlterIsRename(u, s);
    NameTakes(u);
    var rest := ReadName(u).value.1;
    OpeningTakes(rest, " RENAME COLUMN \"");
    RenameTailTakes(s.table, Strip(rest, " RENAME COLUMN \"").value, s);
  }

  lemma StmtIsAlter(u: string, s: Stmt)
    requires ReadStmt(u) == s && s.RenameColumn?
    ensures var r := Strip(u, "ALTER TABLE \""); r.Some? && ReadAlter(r.value) == Some(s)
  {
  }

  lemma RenameTakes(u: string, s: Stmt)
    requires ReadStmt(u) == s && s.RenameColumn?
    ensures Quotes(u) == 6 + 2 * (Quotes(s.table) + Quotes(s.source) + Quotes(s.target))
  {
    StmtIsAlter(u, s);
    OpeningTakes(u, "ALTER TABLE \"");
    AlterTakes(Strip(u, "ALTER TABLE \"").value, s);
  }

  lemma RenamePrints(t: string, a: string, b: string)
    ensures Quotes(RenameText(t, a, b)) == 6 + Quotes(t) + Quotes(a) + Quotes(b)
  {
    var k2 := " TO \"" + (b + ("\"" + ""));
    var k1 := " RENAME COLUMN \"" + (a + ("\"" + k2));
    OpenedPrints("ALTER TABLE \"", t, k1);
    OpenedPrints(" RENAME COLUMN \"", a, k2);
    OpenedPrints(" TO \"", b, "");
  }

  /** A rename is read back from its text if and only if no name in it holds a quote: the names are
      printed without doubling their quotes. */
  lemma RenameReadsExactly(t: string, a: string, b: string)
    ensures ReadStmt(Diff.Text(RenameColumn(t, a, b))) == RenameColumn(t, a, b) <==>
            PlainName(t) && PlainName(a) && PlainName(b)
  {
    if PlainName(t) && PlainName(a) && PlainName(b) {
      RenameReads(t, a, b);
    } else if ReadStmt(Diff.Text(RenameColumn(t, a, b))) == RenameColumn(t, a, b) {
      RenameTakes(Diff.Text(RenameColumn(t, a, b)), RenameColumn(t, a, b));
      RenameIsText(t, a, b);
      RenamePrints(t, a, b);
      PlainHasNone(t);
      PlainHasNone(a);
      PlainHasNone(b);
    }
  }

  // ---- Whole plans ----

  /** The words of a column definition are no clause keywords; keys and generated columns are never added. */
  predicate PlainColumn(c: ColumnSnapshot) {
    PlainName(c.name) && PlainWords(" " + c.def.sqlType) &&
    (c.def.collate.Some? ==> PlainWords(c.def.collate.value))
  }

  predicate PlainTexts(ddl: seq<string>) {
    forall i :: 0 <= i < |ddl| ==> PlainDdl(ddl[i])
  }

  predicate PlainTable(t: TableSnapshot) {
    PlainName(t.name) && (forall i :: 0 <= i < |t.columns| ==> PlainColumn(t.columns[i])) && PlainTexts(t.ddl)
  }

  /** A schema whose names hold no quotes; trigger names may. */
  predicate PlainSchema(s: SchemaSnapshot) {
    (forall i :: 0 <= i < |s.tables| ==> PlainTable(s.tables[i])) &&
    forall i :: 0 <= i < |s.triggers| ==> PlainDdl(s.triggers[i].sql)
  }

  predicate AllPlain(p: Plan) {
    forall i :: 0 <= i < |p.safe| ==> PlainStmt(p.safe[i])
  }

  lemma ThenPlain(a: Plan, b: Plan)
    requires AllPlain(a) && AllPlain(b)
    ensures AllPlain(Then(a, b))
  {
  }

  lemma {:induction false} UpToPlain<T>(items: seq<T>, f: T -> Plan, k: nat)
    requires k <= |items| && forall i :: 0 <= i < k ==> AllPlain(f(items[i]))
    ensures AllPlain(UpTo(items, f, k))
  {
    if k > 0 {
      UpToPlain(items, f, k - 1);
      ThenPlain(UpTo(items, f, k - 1), f(items[k - 1]));
    }
  }

  lemma ColumnPlanPlain(ot: TableSnapshot, nt: TableSnapshot, c: ColumnSnapshot, taken: set<string>)
    requires PlainTable(ot) && PlainTable(nt) && PlainColumn(c)
    ensures AllPlain(ColumnPlan(ot, nt, c, taken))
  {
    if Consumes(ot, nt, c, taken) { FoundColumn(ot.columns, c.renamedFrom.value); }
  }

  lemma {:induction false} ColumnsPlain(ot: TableSnapshot, nt: TableSnapshot, k: nat)
    requires PlainTable(ot) && PlainTable(nt) && k <= |nt.columns|
    ensures AllPlain(ColumnsUpTo(ot, nt, k))
  {
    if k > 0 {
      ColumnsPlain(ot, nt, k - 1);
      ColumnPlanPlain(ot, nt, nt.columns[k - 1], TakenUpTo(ot, nt, k - 1));
      ThenPlain(ColumnsUpTo(ot, nt, k - 1), ColumnPlan(ot, nt, nt.columns[k - 1], TakenUpTo(ot, nt, k - 1)));
    }
  }

  lemma {:induction false} EntriesPlain(ddl: seq<string>)
    requires PlainTexts(ddl)
    ensures forall i :: 0 <= i < |IndexEntries(ddl)| ==> PlainDdl(IndexEntries(ddl)[i].1)
  {
    if ddl != [] { EntriesPlain(ddl[1..]); }
  }

  lemma IndexesPlain(ois: seq<(string, string)>, nis: seq<(string, string)>)
    requires forall i :: 0 <= i < |nis| ==> PlainDdl(nis[i].1)
    ensures AllPlain(IndexDiff(ois, nis))
  {
    UpToPlain(nis, IndexOf(ois), |nis|);
    UpToPlain(ois, IndexDropOf(nis), |ois|);
    ThenPlain(IndexesUpTo(ois, nis, |nis|), IndexDropsUpTo(ois, nis, |ois|));
  }

  lemma TablePlain(ot: TableSnapshot, nt: TableSnapshot)
    requires PlainTable(ot) && PlainTable(nt)
    ensures AllPlain(TablePlan(ot, nt))
  {
    ColumnsPlain(ot, nt, |nt.columns|);
    UpToPlain(ot.columns, DropOf(nt), |ot.columns|);
    ThenPlain(ColumnsUpTo(ot, nt, |nt.columns|), DropsUpTo(ot, nt, |ot.columns|));
    EntriesPlain(nt.ddl);
    IndexesPlain(IndexEntries(ot.ddl), IndexEntries(nt.ddl));
    ThenPlain(ColumnDiff(ot, nt), IndexDiff(IndexEntries(ot.ddl), IndexEntries(nt.ddl)));
    ThenPlain(Then(ColumnDiff(ot, nt), IndexDiff(IndexEntries(ot.ddl), IndexEntries(nt.ddl))), ConstraintDiff(ot, nt));
  }

  lemma KeptPlain(a: SchemaSnapshot, b: SchemaSnapshot)
    requires PlainSchema(a) && PlainSchema(b)
    ensures AllPlain(KeptTablesUpTo(a, b, |b.tables|))
  {
    forall i | 0 <= i < |b.tables| ensures AllPlain(KeptOf(a)(b.tables[i])) {
      FoundTable(a.tables, b.tables[i].name);
      var ot := FindTable(a.tables, b.tables[i].name);
      if ot.Some? { TablePlain(ot.value, b.tables[i]); }
    }
    UpToPlain(b.tables, KeptOf(a), |b.tables|);
  }

  lemma TriggersPlain(a: SchemaSnapshot, b: SchemaSnapshot)
    requires PlainSchema(b)
    ensures AllPlain(TriggerDiff(a, b))
  {
    UpToPlain(a.triggers, TriggerDropOf(b), |a.triggers|);
    UpToPlain(b.triggers, TriggerOf(a), |b.triggers|);
    ThenPlain(OldTriggersUpTo(a, b, |a.triggers|), NewTriggersUpTo(a, b, |b.triggers|));
  }

  /** Everything that a diff of plain schemas emits is read back from its text. */
  lemma PlanReads(a: SchemaSnapshot, b: SchemaSnapshot)
    requires PlainSchema(a) && PlainSchema(b)
    ensures forall i :: 0 <= i < |DiffPlan(a, b).safe| ==>
              ReadStmt(Diff.Text(DiffPlan(a, b).safe[i])) == DiffPlan(a, b).safe[i]
  {
    UpToPlain(b.tables, NewOf(a), |b.tables|);
    UpToPlain(a.tables, GoneOf(b), |a.tables|);
    ThenPlain(NewTablesUpTo(a, b, |b.tables|), GoneTablesUpTo(a, b, |a.tables|));
    KeptPlain(a, b);
    var tables := Then(NewTablesUpTo(a, b, |b.tables|), GoneTablesUpTo(a, b, |a.tables|));
    ThenPlain(tables, KeptTablesUpTo(a, b, |b.tables|));
    TriggersPlain(a, b);
    ThenPlain(Then(tables, KeptTablesUpTo(a, b, |b.tables|)), TriggerDiff(a, b));
    forall i | 0 <= i < |DiffPlan(a, b).safe|
      ensures ReadStmt(Diff.Text(DiffPlan(a, b).safe[i])) == DiffPlan(a, b).safe[i]
    {
      StatementReads(DiffPlan(a, b).safe[i]);
    }
  }
}
