/** Schema snapshots, as committed to a repository and compared by the migration crate. */
module Snapshot {
  import opened Values

  datatype Generated = Generated(expr: string, stored: bool)

  /** The definition of a column: everything but its name and its rename hint. */
  datatype Def = Def(sqlType: string, notNull: bool, pk: bool, defaultSql: Option<string>,
                     collate: Option<string>, generated: Option<Generated>)

  datatype ColumnSnapshot = ColumnSnapshot(name: string, def: Def, renamedFrom: Option<string>)

  datatype TableSnapshot = TableSnapshot(name: string, columns: seq<ColumnSnapshot>, ddl: seq<string>,
                                         strict: bool, withoutRowid: bool)

  datatype TriggerSnapshot = TriggerSnapshot(name: string, sql: string, file: Option<string>)

  datatype SchemaSnapshot = SchemaSnapshot(version: nat, tables: seq<TableSnapshot>, triggers: seq<TriggerSnapshot>)

  function FindTable(ts: seq<TableSnapshot>, name: string): Option<TableSnapshot> {
    if ts == [] then None else if ts[0].name == name then Some(ts[0]) else FindTable(ts[1..], name)
  }

  function FindColumn(cs: seq<ColumnSnapshot>, name: string): Option<ColumnSnapshot> {
    if cs == [] then None else if cs[0].name == name then Some(cs[0]) else FindColumn(cs[1..], name)
  }

  /** The first trigger whose name is equal up to ASCII case. */
  function FindTrigger(ts: seq<TriggerSnapshot>, name: string): Option<TriggerSnapshot> {
    if ts == [] then None else if SameName(ts[0].name, name) then Some(ts[0]) else FindTrigger(ts[1..], name)
  }

  predicate HasColumn(t: TableSnapshot, name: string) {
    FindColumn(t.columns, name).Some?
  }

  lemma {:induction false} FoundTable(ts: seq<TableSnapshot>, name: string)
    ensures var r := FindTable(ts, name); r.Some? ==> r.value in ts && r.value.name == name
    ensures FindTable(ts, name).None? <==> forall i :: 0 <= i < |ts| ==> ts[i].name != name
  {
    if ts != [] {
      FoundTable(ts[1..], name);
      assert forall i :: 0 < i < |ts| ==> ts[i] == ts[1..][i - 1];
      assert forall i :: 0 <= i < |ts[1..]| ==> ts[1..][i] == ts[i + 1];
    }
  }

  lemma {:induction false} FoundColumn(cs: seq<ColumnSnapshot>, name: string)
    ensures var r := FindColumn(cs, name); r.Some? ==> r.value in cs && r.value.name == name
    ensures FindColumn(cs, name).None? <==> forall i :: 0 <= i < |cs| ==> cs[i].name != name
  {
    if cs != [] {
      FoundColumn(cs[1..], name);
      assert forall i :: 0 < i < |cs| ==> cs[i] == cs[1..][i - 1];
      assert forall i :: 0 <= i < |cs[1..]| ==> cs[1..][i] == cs[i + 1];
    }
  }

  lemma {:induction false} FoundTrigger(ts: seq<TriggerSnapshot>, name: string)
    ensures var r := FindTrigger(ts, name); r.Some? ==> r.value in ts && SameName(r.value.name, name)
    ensures FindTrigger(ts, name).None? <==> forall i :: 0 <= i < |ts| ==> !SameName(ts[i].name, name)
  {
    if ts != [] {
      FoundTrigger(ts[1..], name);
      assert forall i :: 0 < i < |ts| ==> ts[i] == ts[1..][i - 1];
      assert forall i :: 0 <= i < |ts[1..]| ==> ts[1..][i] == ts[i + 1];
    }
  }
}
