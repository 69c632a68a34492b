/** The diff as the source runs it: loops over snapshots that push onto one plan. */
module Planner {
  import opened Values
  import opened SqlText
  import opened Snapshot
  import opened Diff

  lemma ThenAssociative(a: Plan, b: Plan, c: Plan)
    ensures Then(Then(a, b), c) == Then(a, Then(b, c))
    ensures Then(a, NOTHING) == a && Then(NOTHING, a) == a
  {
  }

  method ListChanges(a: Def, b: Def) returns (fields: seq<Field>)
    ensures fields == ChangedFields(a, b)
  {
    fields := if a.sqlType != b.sqlType then [SqlType] else [];
    fields := fields + if a.notNull != b.notNull then [NotNull] else [];
    fields := fields + if a.pk != b.pk then [Pk] else [];
    fields := fields + if a.defaultSql != b.defaultSql then [Default] else [];
    fields := fields + if a.collate != b.collate then [Collate] else [];
    fields := fields + if a.generated != b.generated then [GeneratedExpr] else [];
  }

  class PlanBuilder {
    var plan: Plan

    constructor ()
      ensures plan == NOTHING
    {
      plan := NOTHING;
    }

    method PushSafe(s: Stmt)
      modifies this
      ensures plan == Then(old(plan), Safely(s))
    {
      plan := plan.(safe := plan.safe + [s]);
      assert old(plan).review + [] == old(plan).review && old(plan).warnings + [] == old(plan).warnings;
    }

    method PushReview(r: Review)
      modifies this
      ensures plan == Then(old(plan), ByHand(r))
    {
      plan := plan.(review := plan.review + [r]);
      assert old(plan).safe + [] == old(plan).safe && old(plan).warnings + [] == old(plan).warnings;
    }

    method PushWarning(w: Warning)
      modifies this
      ensures plan == Then(old(plan), Warned(w))
    {
      plan := plan.(warnings := plan.warnings + [w]);
      assert old(plan).safe + [] == old(plan).safe && old(plan).review + [] == old(plan).review;
    }

    /** A column that exists under the same name. */
    method CompareColumn(table: string, oc: ColumnSnapshot, nc: ColumnSnapshot)
      modifies this
      ensures var fields := ChangedFields(oc.def, nc.def);
              plan == Then(old(plan), if fields == [] then NOTHING else ByHand(RedefineColumn(table, nc.name, fields)))
    {
      ThenAssociative(plan, NOTHING, NOTHING);
      var fields := ListChanges(oc.def, nc.def);
      if fields != [] {
        PushReview(RedefineColumn(table, nc.name, fields));
      }
    }

    method AddNewColumn(table: string, nc: ColumnSnapshot)
      modifies this
      ensures plan == Then(old(plan), AddPlan(table, nc))
    {
      if nc.def.generated.Some? {
        PushReview(AddGenerated(table, nc.name));
      } else if nc.def.pk {
        PushReview(AddKey(table, nc.name));
      } else if nc.def.notNull && nc.def.defaultSql.None? {
        PushReview(AddNotNull(table, nc.name));
      } else {
        PushSafe(AddColumn(table, nc.name, nc.def));
      }
    }

    /** One new column; tells whether its hint took a source. */
    method VisitColumn(ot: TableSnapshot, nt: TableSnapshot, nc: ColumnSnapshot, consumed: seq<string>,
                       ghost taken: set<string>)
      returns (took: bool)
      requires forall x :: x in consumed <==> x in taken
      modifies this
      ensures plan == Then(old(plan), ColumnPlan(ot, nt, nc, taken))
      ensures took == Consumes(ot, nt, nc, taken)
    {
      took := false;
      var same := FindColumn(ot.columns, nc.name);
      if same.Some? {
        CompareColumn(nt.name, same.value, nc);
        return;
      }
      ghost var start := plan;
      ThenAssociative(start, NOTHING, AddPlan(nt.name, nc));
      ThenAssociative(start, HintPlan(nt, nc, taken), AddPlan(nt.name, nc));
      if nc.renamedFrom.Some? {
        var from := nc.renamedFrom.value;
        var source := FindColumn(ot.columns, from);
        FoundColumn(ot.columns, from);
        if from in consumed {
          PushWarning(SourceTaken(nt.name, from, nc.name));
        } else if HasColumn(nt, from) {
          PushWarning(SourceStillThere(nt.name, from, nc.name));
        } else if source.Some? {
          if source.value.def == nc.def {
            PushSafe(RenameColumn(nt.name, from, nc.name));
          } else {
            PushReview(RenameAndRedefine(nt.name, from, nc.name));
          }
          return true;
        } else {
          PushWarning(SourceUnknown(nt.name, from, nc.name));
        }
      }
      AddNewColumn(nt.name, nc);
    }

    method DiffColumns(ot: TableSnapshot, nt: TableSnapshot)
      modifies this
      ensures plan == Then(old(plan), ColumnDiff(ot, nt))
    {
      ghost var start := plan;
      ThenAssociative(start, NOTHING, NOTHING);
      var consumed: seq<string> := [];
      for i := 0 to |nt.columns|
        invariant plan == Then(start, ColumnsUpTo(ot, nt, i))
        invariant forall x :: x in consumed <==> x in TakenUpTo(ot, nt, i)
      {
        ghost var taken := TakenUpTo(ot, nt, i);
        var took := VisitColumn(ot, nt, nt.columns[i], consumed, taken);
        if took {
          consumed := consumed + [nt.columns[i].renamedFrom.value];
        }
        ThenAssociative(start, ColumnsUpTo(ot, nt, i), ColumnPlan(ot, nt, nt.columns[i], taken));
      }
      DropColumns(ot, nt);
      ThenAssociative(start, ColumnsUpTo(ot, nt, |nt.columns|), DropsUpTo(ot, nt, |ot.columns|));
    }

    method DropColumns(ot: TableSnapshot, nt: TableSnapshot)
      modifies this
      ensures plan == Then(old(plan), DropsUpTo(ot, nt, |ot.columns|))
    {
      ghost var start := plan;
      ThenAssociative(start, NOTHING, NOTHING);
      for i := 0 to |ot.columns|
        invariant plan == Then(start, DropsUpTo(ot, nt, i))
      {
        var name := ot.columns[i].name;
        ThenAssociative(start, DropsUpTo(ot, nt, i), NOTHING);
        ThenAssociative(start, DropsUpTo(ot, nt, i), ByHand(DropColumn(nt.name, name)));
        if !HasColumn(nt, name) && !RenamedAway(nt, name) {
          PushReview(DropColumn(nt.name, name));
        }
      }
    }

    method VisitIndex(ois: seq<(string, string)>, entry: (string, string))
      modifies this
      ensures plan == Then(old(plan), IndexPlan(ois, entry))
    {
      ThenAssociative(plan, NOTHING, NOTHING);
      var was := FindEntry(ois, entry.0);
      if was.None? {
        if IsUniqueIndex(entry.1) {
          PushReview(AddUniqueIndex(entry.1));
        } else {
          PushSafe(Ddl(entry.1));
        }
      } else {
        var a := NormalizeWsOutsideQuotes(was.value);
        var b := NormalizeWsOutsideQuotes(entry.1);
        if a != b {
          PushReview(RebuildIndex(entry.0, entry.1));
        }
      }
    }

    method DiffIndexes(ot: TableSnapshot, nt: TableSnapshot)
      modifies this
      ensures plan == Then(old(plan), IndexDiff(IndexEntries(ot.ddl), IndexEntries(nt.ddl)))
    {
      var ois, nis := IndexEntries(ot.ddl), IndexEntries(nt.ddl);
      ghost var start := plan;
      VisitIndexes(ois, nis);
      DropIndexes(ois, nis);
      ThenAssociative(start, IndexesUpTo(ois, nis, |nis|), IndexDropsUpTo(ois, nis, |ois|));
    }

    method VisitIndexes(ois: seq<(string, string)>, nis: seq<(string, string)>)
      modifies this
      ensures plan == Then(old(plan), IndexesUpTo(ois, nis, |nis|))
    {
      ghost var start := plan;
      ThenAssociative(start, NOTHING, NOTHING);
      for i := 0 to |nis|
        invariant plan == Then(start, IndexesUpTo(ois, nis, i))
      {
        VisitIndex(ois, nis[i]);
        ThenAssociative(start, IndexesUpTo(ois, nis, i), IndexPlan(ois, nis[i]));
      }
    }

    method DropIndexes(ois: seq<(string, string)>, nis: seq<(string, string)>)
      modifies this
      ensures plan == Then(old(plan), IndexDropsUpTo(ois, nis, |ois|))
    {
      ghost var start := plan;
      ThenAssociative(start, NOTHING, NOTHING);
      for i := 0 to |ois|
        invariant plan == Then(start, IndexDropsUpTo(ois, nis, i))
      {
        ThenAssociative(plan, NOTHING, NOTHING);
        if FindEntry(nis, ois[i].0).None? {
          PushReview(DropIndex(ois[i].0));
        }
        ThenAssociative(start, IndexDropsUpTo(ois, nis, i), IndexDropPlan(nis, ois[i].0));
      }
    }

    method DiffTableConstraints(ot: TableSnapshot, nt: TableSnapshot)
      modifies this
      ensures plan == Then(old(plan), ConstraintDiff(ot, nt))
    {
      ThenAssociative(plan, NOTHING, NOTHING);
      if !SameColumns(ot, nt) {
        return;
      }
      if ot.strict != nt.strict || ot.withoutRowid != nt.withoutRowid {
        PushReview(ChangeTableKind(nt.name));
        return;
      }
      if ot.ddl == [] || nt.ddl == [] {
        if (ot.ddl == []) != (nt.ddl == []) {
          PushWarning(BodyNotCompared(nt.name));
        }
        return;
      }
      if Bodies(ot.ddl) != Bodies(nt.ddl) {
        PushReview(ChangeTableBody(nt.name));
      }
    }

    method DropTriggers(before: SchemaSnapshot, after: SchemaSnapshot)
      modifies this
      ensures plan == Then(old(plan), OldTriggersUpTo(before, after, |before.triggers|))
    {
      ghost var start := plan;
      ThenAssociative(start, NOTHING, NOTHING);
      for i := 0 to |before.triggers|
        invariant plan == Then(start, OldTriggersUpTo(before, after, i))
      {
        VisitOldTrigger(after, before.triggers[i]);
        ThenAssociative(start, OldTriggersUpTo(before, after, i), TriggerDropPlan(after, before.triggers[i]));
      }
    }

    method VisitOldTrigger(after: SchemaSnapshot, t: TriggerSnapshot)
      modifies this
      ensures plan == Then(old(plan), TriggerDropPlan(after, t))
    {
      ThenAssociative(plan, NOTHING, NOTHING);
      if FindTrigger(after.triggers, t.name).None? {
        PushSafe(DropTrigger(t.name));
      }
    }

    method VisitTrigger(before: SchemaSnapshot, t: TriggerSnapshot)
      modifies this
      ensures plan == Then(old(plan), TriggerPlan(before, t))
    {
      ThenAssociative(plan, NOTHING, NOTHING);
      var was := FindTrigger(before.triggers, t.name);
      if was.None? {
        PushSafe(Ddl(t.sql));
      } else {
        var a := NormalizeWsOutsideQuotes(was.value.sql);
        var b := NormalizeWsOutsideQuotes(t.sql);
        if a != b {
          ThenAssociative(plan, Safely(DropTrigger(was.value.name)), Safely(Ddl(t.sql)));
          PushSafe(DropTrigger(was.value.name));
          PushSafe(Ddl(t.sql));
        }
      }
    }

    method DiffDatabaseTriggers(before: SchemaSnapshot, after: SchemaSnapshot)
      modifies this
      ensures plan == Then(old(plan), TriggerDiff(before, after))
    {
      ghost var start := plan;
      DropTriggers(before, after);
      CreateTriggers(before, after);
      ThenAssociative(start, OldTriggersUpTo(before, after, |before.triggers|),
                      NewTriggersUpTo(before, after, |after.triggers|));
    }

    method CreateTriggers(before: SchemaSnapshot, after: SchemaSnapshot)
      modifies this
      ensures plan == Then(old(plan), NewTriggersUpTo(before, after, |after.triggers|))
    {
      ghost var start := plan;
      ThenAssociative(start, NOTHING, NOTHING);
      for i := 0 to |after.triggers|
        invariant plan == Then(start, NewTriggersUpTo(before, after, i))
      {
        VisitTrigger(before, after.triggers[i]);
        ThenAssociative(start, NewTriggersUpTo(before, after, i), TriggerPlan(before, after.triggers[i]));
      }
    }

    method CreateNewTables(before: SchemaSnapshot, after: SchemaSnapshot)
      modifies this
      ensures plan == Then(old(plan), NewTablesUpTo(before, after, |after.tables|))
    {
      ghost var start := plan;
      ThenAssociative(start, NOTHING, NOTHING);
      for i := 0 to |after.tables|
        invariant plan == Then(start, NewTablesUpTo(before, after, i))
      {
        var t := after.tables[i];
        ThenAssociative(start, NewTablesUpTo(before, after, i), NOTHING);
        ThenAssociative(start, NewTablesUpTo(before, after, i), Plan(DdlStmts(t.ddl), [], []));
        if FindTable(before.tables, t.name).None? {
          plan := Then(plan, Plan(DdlStmts(t.ddl), [], []));
        }
      }
    }

    method ReviewGoneTables(before: SchemaSnapshot, after: SchemaSnapshot)
      modifies this
      ensures plan == Then(old(plan), GoneTablesUpTo(before, after, |before.tables|))
    {
      ghost var start := plan;
      ThenAssociative(start, NOTHING, NOTHING);
      for i := 0 to |before.tables|
        invariant plan == Then(start, GoneTablesUpTo(before, after, i))
      {
        var t := before.tables[i];
        ThenAssociative(start, GoneTablesUpTo(before, after, i), NOTHING);
        ThenAssociative(start, GoneTablesUpTo(before, after, i), ByHand(DropTable(t.name)));
        if FindTable(after.tables, t.name).None? {
          PushReview(DropTable(t.name));
        }
      }
    }

    method VisitTable(ot: TableSnapshot, nt: TableSnapshot)
      modifies this
      ensures plan == Then(old(plan), TablePlan(ot, nt))
    {
      ghost var start := plan;
      DiffColumns(ot, nt);
      DiffIndexes(ot, nt);
      DiffTableConstraints(ot, nt);
      ghost var indexes := IndexDiff(IndexEntries(ot.ddl), IndexEntries(nt.ddl));
      ThenAssociative(start, ColumnDiff(ot, nt), indexes);
      ThenAssociative(start, Then(ColumnDiff(ot, nt), indexes), ConstraintDiff(ot, nt));
    }

    method CompareKeptTables(before: SchemaSnapshot, after: SchemaSnapshot)
      modifies this
      ensures plan == Then(old(plan), KeptTablesUpTo(before, after, |after.tables|))
    {
      ghost var start := plan;
      ThenAssociative(start, NOTHING, NOTHING);
      for i := 0 to |after.tables|
        invariant plan == Then(start, KeptTablesUpTo(before, after, i))
      {
        var t := after.tables[i];
        var ot := FindTable(before.tables, t.name);
        ThenAssociative(start, KeptTablesUpTo(before, after, i), NOTHING);
        if ot.Some? {
          VisitTable(ot.value, t);
          ThenAssociative(start, KeptTablesUpTo(before, after, i), TablePlan(ot.value, t));
        }
      }
    }
  }

  method ComputeDiffPlan(before: SchemaSnapshot, after: SchemaSnapshot) returns (plan: Plan)
    ensures plan == DiffPlan(before, after)
  {
    var b := new PlanBuilder();
    b.CreateNewTables(before, after);
    b.ReviewGoneTables(before, after);
    b.CompareKeptTables(before, after);
    b.DiffDatabaseTriggers(before, after);
    plan := b.plan;
    ThenAssociative(NewTablesUpTo(before, after, |after.tables|), NOTHING, NOTHING);
  }
}
