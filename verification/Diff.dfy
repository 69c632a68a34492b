/** The structured diff of two snapshots: which statements are safe to run, which changes need a
    human, and which hints are ignored, each decided exactly as the source decides it. */
module Diff {
  import opened Values
  import opened SqlText
  import opened Snapshot

  /** A safe statement; `Text` prints it. */
  datatype Stmt =
    | Ddl(text: string)
    | AddColumn(table: string, column: string, def: Def)
    | RenameColumn(table: string, source: string, target: string)
    | DropTrigger(trigger: string)

  datatype Field = SqlType | NotNull | Pk | Default | Collate | GeneratedExpr

  /** A change that is never run automatically. */
  datatype Review =
    | DropTable(table: string)
    | RedefineColumn(table: string, column: string, fields: seq<Field>)
    | RenameAndRedefine(table: string, source: string, target: string)
    | AddGenerated(table: string, column: string)
    | AddKey(table: string, column: string)
    | AddNotNull(table: string, column: string)
    | DropColumn(table: string, column: string)
    | AddUniqueIndex(ddl: string)
    | RebuildIndex(index: string, ddl: string)
    | DropIndex(index: string)
    | ChangeTableKind(table: string)
    | ChangeTableBody(table: string)

  datatype Warning =
    | SourceTaken(table: string, source: string, target: string)
    | SourceStillThere(table: string, source: string, target: string)
    | SourceUnknown(table: string, source: string, target: string)
    | BodyNotCompared(table: string)

  datatype Plan = Plan(safe: seq<Stmt>, review: seq<Review>, warnings: seq<Warning>)

  const NOTHING := Plan([], [], [])

  function Then(a: Plan, b: Plan): Plan {
    Plan(a.safe + b.safe, a.review + b.review, a.warnings + b.warnings)
  }

  /** The plans of the first `k` items, one after the other. */
  function UpTo<T>(items: seq<T>, f: T -> Plan, k: nat): Plan
    requires k <= |items|
  {
    if k == 0 then NOTHING else Then(UpTo(items, f, k - 1), f(items[k - 1]))
  }

  lemma EmptyReviews(a: Plan, b: Plan)
    ensures Then(a, b).review == [] <==> a.review == [] && b.review == []
  {
  }

  lemma {:induction false} UpToReviews<T>(items: seq<T>, f: T -> Plan, k: nat)
    requires k <= |items|
    ensures UpTo(items, f, k).review == [] <==> forall j :: 0 <= j < k ==> f(items[j]).review == []
  {
    if k > 0 {
      UpToReviews(items, f, k - 1);
      EmptyReviews(UpTo(items, f, k - 1), f(items[k - 1]));
    }
  }

  lemma {:induction false} UpToSafe<T>(items: seq<T>, f: T -> Plan, k: nat)
    requires k <= |items| && forall j :: 0 <= j < k ==> f(items[j]).safe == []
    ensures UpTo(items, f, k).safe == []
  {
    if k > 0 { UpToSafe(items, f, k - 1); }
  }

  lemma {:induction false} UpToMember<T>(items: seq<T>, f: T -> Plan, k: nat, j: nat, s: Stmt)
    requires j < k <= |items| && s in f(items[j]).safe
    ensures s in UpTo(items, f, k).safe
  {
    if j < k - 1 { UpToMember(items, f, k - 1, j, s); }
  }

  function Safely(s: Stmt): Plan { Plan([s], [], []) }

  function ByHand(r: Review): Plan { Plan([], [r], []) }

  function Warned(w: Warning): Plan { Plan([], [], [w]) }

  // ---- Printing ----

  function ColumnText(name: string, d: Def): string {
    "\"" + name + "\"" + (if d.sqlType == "" then "" else " " + d.sqlType) +
    if d.collate.Some? then " COLLATE " + d.collate.value else ""
  }

  function Text(s: Stmt): string {
    match s
    case Ddl(text) => text
    case AddColumn(t, c, d) =>
      "ALTER TABLE \"" + t + "\" ADD COLUMN " + ColumnText(c, d) + (if d.notNull then " NOT NULL" else "") +
      (if d.defaultSql.Some? then " DEFAULT " + d.defaultSql.value else "")
    case RenameColumn(t, a, b) => "ALTER TABLE \"" + t + "\" RENAME COLUMN \"" + a + "\" TO \"" + b + "\""
    case DropTrigger(n) => "DROP TRIGGER " + QuoteIdentifier(n)
  }

  // ---- Columns ----

  function ChangedFields(a: Def, b: Def): (r: seq<Field>)
    ensures r == [] <==> a == b
  {
    (if a.sqlType != b.sqlType then [SqlType] else []) +
    (if a.notNull != b.notNull then [NotNull] else []) +
    (if a.pk != b.pk then [Pk] else []) +
    (if a.defaultSql != b.defaultSql then [Default] else []) +
    (if a.collate != b.collate then [Collate] else []) +
    (if a.generated != b.generated then [GeneratedExpr] else [])
  }

  /** The hint of a new column takes an old column that is gone and that nobody took before. */
  predicate Consumes(ot: TableSnapshot, nt: TableSnapshot, c: ColumnSnapshot, taken: set<string>) {
    !HasColumn(ot, c.name) && c.renamedFrom.Some? && c.renamedFrom.value !in taken &&
    !HasColumn(nt, c.renamedFrom.value) && HasColumn(ot, c.renamedFrom.value)
  }

  function HintPlan(nt: TableSnapshot, c: ColumnSnapshot, taken: set<string>): Plan {
    if c.renamedFrom.None? then NOTHING
    else if c.renamedFrom.value in taken then Warned(SourceTaken(nt.name, c.renamedFrom.value, c.name))
    else if HasColumn(nt, c.renamedFrom.value) then Warned(SourceStillThere(nt.name, c.renamedFrom.value, c.name))
    else Warned(SourceUnknown(nt.name, c.renamedFrom.value, c.name))
  }

  function AddPlan(table: string, c: ColumnSnapshot): Plan {
    if c.def.generated.Some? then ByHand(AddGenerated(table, c.name))
    else if c.def.pk then ByHand(AddKey(table, c.name))
    else if c.def.notNull && c.def.defaultSql.None? then ByHand(AddNotNull(table, c.name))
    else Safely(AddColumn(table, c.name, c.def))
  }

  function ColumnPlan(ot: TableSnapshot, nt: TableSnapshot, c: ColumnSnapshot, taken: set<string>): Plan {
    var same := FindColumn(ot.columns, c.name);
    if same.Some? then
      var fields := ChangedFields(same.value.def, c.def);
      if fields == [] then NOTHING else ByHand(RedefineColumn(nt.name, c.name, fields))
    else if Consumes(ot, nt, c, taken) then
      var source := FindColumn(ot.columns, c.renamedFrom.value).value;
      if source.def == c.def then Safely(RenameColumn(nt.name, source.name, c.name))
      else ByHand(RenameAndRedefine(nt.name, source.name, c.name))
    else Then(HintPlan(nt, c, taken), AddPlan(nt.name, c))
  }

  /** The sources taken by the first `k` columns. */
  function TakenUpTo(ot: TableSnapshot, nt: TableSnapshot, k: nat): set<string>
    requires k <= |nt.columns|
  {
    if k == 0 then {} else
    var taken := TakenUpTo(ot, nt, k - 1);
    var c := nt.columns[k - 1];
    if Consumes(ot, nt, c, taken) then taken + {c.renamedFrom.value} else taken
  }

  function ColumnsUpTo(ot: TableSnapshot, nt: TableSnapshot, k: nat): Plan
    requires k <= |nt.columns|
  {
    if k == 0 then NOTHING
    else Then(ColumnsUpTo(ot, nt, k - 1), ColumnPlan(ot, nt, nt.columns[k - 1], TakenUpTo(ot, nt, k - 1)))
  }

  predicate RenamedAway(nt: TableSnapshot, name: string) {
    exists i :: 0 <= i < |nt.columns| && nt.columns[i].renamedFrom == Some(name)
  }

  function DropPlan(nt: TableSnapshot, name: string): Plan {
    if !HasColumn(nt, name) && !RenamedAway(nt, name) then ByHand(DropColumn(nt.name, name)) else NOTHING
  }

  function DropOf(nt: TableSnapshot): ColumnSnapshot -> Plan {
    (c: ColumnSnapshot) => DropPlan(nt, c.name)
  }

  function DropsUpTo(ot: TableSnapshot, nt: TableSnapshot, k: nat): Plan
    requires k <= |ot.columns|
  {
    UpTo(ot.columns, DropOf(nt), k)
  }

  function ColumnDiff(ot: TableSnapshot, nt: TableSnapshot): Plan {
    Then(ColumnsUpTo(ot, nt, |nt.columns|), DropsUpTo(ot, nt, |ot.columns|))
  }

  // ---- Indexes ----

  /** The statements that create an index, with its name. */
  function IndexEntries(ddl: seq<string>): seq<(string, string)> {
    if ddl == [] then [] else
    var name := IndexName(ddl[0]);
    (if name.Some? then [(name.value, ddl[0])] else []) + IndexEntries(ddl[1..])
  }

  function FindEntry(entries: seq<(string, string)>, name: string): Option<string> {
    if entries == [] then None else if entries[0].0 == name then Some(entries[0].1) else FindEntry(entries[1..], name)
  }

  lemma {:induction false} FoundEntry(entries: seq<(string, string)>, name: string)
    ensures var r := FindEntry(entries, name); r.Some? ==> (name, r.value) in entries
    ensures FindEntry(entries, name).None? <==> forall i :: 0 <= i < |entries| ==> entries[i].0 != name
  {
    if entries != [] {
      FoundEntry(entries[1..], name);
      assert forall i :: 0 < i < |entries| ==> entries[i] == entries[1..][i - 1];
      assert forall i :: 0 <= i < |entries[1..]| ==> entries[1..][i] == entries[i + 1];
    }
  }

  function IndexPlan(ois: seq<(string, string)>, entry: (string, string)): Plan {
    var was := FindEntry(ois, entry.0);
    if was.None? then (if IsUniqueIndex(entry.1) then ByHand(AddUniqueIndex(entry.1)) else Safely(Ddl(entry.1)))
    else if Normalized(was.value) != Normalized(entry.1) then ByHand(RebuildIndex(entry.0, entry.1))
    else NOTHING
  }

  function IndexOf(ois: seq<(string, string)>): ((string, string)) -> Plan {
    entry => IndexPlan(ois, entry)
  }

  function IndexesUpTo(ois: seq<(string, string)>, nis: seq<(string, string)>, k: nat): Plan
    requires k <= |nis|
  {
    UpTo(nis, IndexOf(ois), k)
  }

  function IndexDropPlan(nis: seq<(string, string)>, name: string): Plan {
    if FindEntry(nis, name).None? then ByHand(DropIndex(name)) else NOTHING
  }

  function IndexDropOf(nis: seq<(string, string)>): ((string, string)) -> Plan {
    (entry: (string, string)) => IndexDropPlan(nis, entry.0)
  }

  function IndexDropsUpTo(ois: seq<(string, string)>, nis: seq<(string, string)>, k: nat): Plan
    requires k <= |ois|
  {
    UpTo(ois, IndexDropOf(nis), k)
  }

  function IndexDiff(ois: seq<(string, string)>, nis: seq<(string, string)>): Plan {
    Then(IndexesUpTo(ois, nis, |nis|), IndexDropsUpTo(ois, nis, |ois|))
  }

  // ---- Table constraints ----

  predicate HasSameColumn(cs: seq<ColumnSnapshot>, c: ColumnSnapshot) {
    exists i :: 0 <= i < |cs| && cs[i].name == c.name && cs[i].def == c.def
  }

  predicate SameColumns(ot: TableSnapshot, nt: TableSnapshot) {
    |ot.columns| == |nt.columns| &&
    forall i :: 0 <= i < |nt.columns| ==> HasSameColumn(ot.columns, nt.columns[i])
  }

  /** Normal forms of the statements that do not create an index. */
  function Bodies(ddl: seq<string>): seq<string> {
    if ddl == [] then []
    else (if IndexName(ddl[0]).None? then [Normalized(ddl[0])] else []) + Bodies(ddl[1..])
  }

  function ConstraintDiff(ot: TableSnapshot, nt: TableSnapshot): Plan {
    if !SameColumns(ot, nt) then NOTHING
    else if ot.strict != nt.strict || ot.withoutRowid != nt.withoutRowid then ByHand(ChangeTableKind(nt.name))
    else if ot.ddl == [] && nt.ddl == [] then NOTHING
    else if ot.ddl == [] || nt.ddl == [] then Warned(BodyNotCompared(nt.name))
    else if Bodies(ot.ddl) != Bodies(nt.ddl) then ByHand(ChangeTableBody(nt.name))
    else NOTHING
  }

  // ---- Triggers ----

  function TriggerDropPlan(after: SchemaSnapshot, t: TriggerSnapshot): Plan {
    if FindTrigger(after.triggers, t.name).None? then Safely(DropTrigger(t.name)) else NOTHING
  }

  function TriggerDropOf(after: SchemaSnapshot): TriggerSnapshot -> Plan {
    t => TriggerDropPlan(after, t)
  }

  function OldTriggersUpTo(before: SchemaSnapshot, after: SchemaSnapshot, k: nat): Plan
    requires k <= |before.triggers|
  {
    UpTo(before.triggers, TriggerDropOf(after), k)
  }

  function TriggerPlan(before: SchemaSnapshot, t: TriggerSnapshot): Plan {
    var was := FindTrigger(before.triggers, t.name);
    if was.None? then Safely(Ddl(t.sql))
    else if Normalized(was.value.sql) != Normalized(t.sql) then
      Then(Safely(DropTrigger(was.value.name)), Safely(Ddl(t.sql)))
    else NOTHING
  }

  function TriggerOf(before: SchemaSnapshot): TriggerSnapshot -> Plan {
    t => TriggerPlan(before, t)
  }

  function NewTriggersUpTo(before: SchemaSnapshot, after: SchemaSnapshot, k: nat): Plan
    requires k <= |after.triggers|
  {
    UpTo(after.triggers, TriggerOf(before), k)
  }

  function TriggerDiff(before: SchemaSnapshot, after: SchemaSnapshot): Plan {
    Then(OldTriggersUpTo(before, after, |before.triggers|), NewTriggersUpTo(before, after, |after.triggers|))
  }

  // ---- The whole diff ----

  function DdlStmts(ddl: seq<string>): seq<Stmt> {
    seq(|ddl|, i requires 0 <= i < |ddl| => Ddl(ddl[i]))
  }

  function NewPlan(before: SchemaSnapshot, t: TableSnapshot): Plan {
    if FindTable(before.tables, t.name).None? then Plan(DdlStmts(t.ddl), [], []) else NOTHING
  }

  function NewOf(before: SchemaSnapshot): TableSnapshot -> Plan {
    t => NewPlan(before, t)
  }

  function NewTablesUpTo(before: SchemaSnapshot, after: SchemaSnapshot, k: nat): Plan
    requires k <= |after.tables|
  {
    UpTo(after.tables, NewOf(before), k)
  }

  function GonePlan(after: SchemaSnapshot, t: TableSnapshot): Plan {
    if FindTable(after.tables, t.name).None? then ByHand(DropTable(t.name)) else NOTHING
  }

  function GoneOf(after: SchemaSnapshot): TableSnapshot -> Plan {
    t => GonePlan(after, t)
  }

  function GoneTablesUpTo(before: SchemaSnapshot, after: SchemaSnapshot, k: nat): Plan
    requires k <= |before.tables|
  {
    UpTo(before.tables, GoneOf(after), k)
  }

  function TablePlan(ot: TableSnapshot, nt: TableSnapshot): Plan {
    Then(Then(ColumnDiff(ot, nt), IndexDiff(IndexEntries(ot.ddl), IndexEntries(nt.ddl))), ConstraintDiff(ot, nt))
  }

  function KeptPlan(before: SchemaSnapshot, t: TableSnapshot): Plan {
    var ot := FindTable(before.tables, t.name);
    if ot.Some? then TablePlan(ot.value, t) else NOTHING
  }

  function KeptOf(before: SchemaSnapshot): TableSnapshot -> Plan {
    t => KeptPlan(before, t)
  }

  function KeptTablesUpTo(before: SchemaSnapshot, after: SchemaSnapshot, k: nat): Plan
    requires k <= |after.tables|
  {
    UpTo(after.tables, KeptOf(before), k)
  }

  function DiffPlan(before: SchemaSnapshot, after: SchemaSnapshot): Plan {
    Then(Then(Then(NewTablesUpTo(before, after, |after.tables|), GoneTablesUpTo(before, after, |before.tables|)),
              KeptTablesUpTo(before, after, |after.tables|)),
         TriggerDiff(before, after))
  }
}
