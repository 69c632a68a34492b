/** Automatic migration end to end: running the steps synthesized from embedded snapshots takes a
    database of one snapshot to exactly the schema of another. */
module AutoMigration {
  import opened Values
  import opened Snapshot
  import opened Diff
  import opened Catalog
  import opened DiffColumns
  import opened DiffStages
  import opened DiffCorrect
  import opened MigrationPlan
  import opened StmtReader

  /** Running the texts of each step in order. */
  function RunTexts(e: Engine, c: Cat, chain: seq<Migration>): Option<Cat>
    decreases |chain|
  {
    if chain == [] then Some(c) else
    var mid := ExecAll(e, c, ReadAll(chain[0].up));
    if mid.None? then None else RunTexts(e, mid.value, chain[1..])
  }

  lemma TextsReadBack(a: SchemaSnapshot, b: SchemaSnapshot)
    requires PlainSchema(a) && PlainSchema(b)
    ensures ReadAll(Texts(DiffPlan(a, b).safe)) == DiffPlan(a, b).safe
  {
    PlanReads(a, b);
  }

  /** Two schemas whose diff can be run: both are good, and their names and words are plain. */
  ghost predicate Readable(e: Engine, a: SchemaSnapshot, b: SchemaSnapshot) {
    GoodSchema(e, a) && GoodSchema(e, b) && PlainSchema(a) && PlainSchema(b)
  }

  /** What neighbouring snapshots owe each other: names that do not clash, hints that really rename,
      and defaults that fill existing rows. */
  ghost predicate Carries(e: Engine, a: SchemaSnapshot, b: SchemaSnapshot) {
    Readable(e, a, b) && NoCaseClashes(a, b) && HintsAllTake(a, b) &&
    forall s <- DiffPlan(a, b).safe :: s.AddColumn? ==> FillsRows(e, s.def)
  }

  lemma FillingDefaultsFit(e: Engine, a: SchemaSnapshot, b: SchemaSnapshot, c: Cat)
    requires Carries(e, a, b) && Describes(a, c)
    ensures DefaultsFit(e, a, b, c)
  {
    forall j | 0 <= j < |b.tables| && Kept(a, b.tables[j]) ensures DefaultsFitTable(e, a, b, c, j) {
      var nt := b.tables[j];
      FoundTable(a.tables, nt.name);
      var ot := FindTable(a.tables, nt.name).value;
      var ss := ColumnsUpTo(ot, nt, |nt.columns|).safe;
      forall i | 0 <= i < |ss| ensures ss[i].AddColumn? ==> FillsRows(e, ss[i].def) { StatementInPlan(a, b, j, ss[i]); }
      assert TableNamed(a, Lower(nt.name));
    }
  }

  /** Whether the texts of a step take the database to the schema. */
  ghost predicate StepWorks(e: Engine, s: Migration, c: Cat, b: SchemaSnapshot) {
    var r := ExecAll(e, c, ReadAll(s.up));
    r.Some? && Describes(b, r.value)
  }

  /** One synthesized step takes a database of its first snapshot to exactly the schema of its second
      if and only if the defaults fit its rows, no name clashes and the hints really rename. */
  lemma StepCarries(e: Engine, a: Embedded, b: Embedded, s: Migration, c: Cat)
    requires FillsGap(Differ(), a, b, s) && Readable(e, a.snapshot.value, b.snapshot.value)
    requires Describes(a.snapshot.value, c)
    ensures StepWorks(e, s, c, b.snapshot.value) <==>
            DefaultsFit(e, a.snapshot.value, b.snapshot.value, c) &&
            NoCaseClashes(a.snapshot.value, b.snapshot.value) && HintsAllTake(a.snapshot.value, b.snapshot.value)
  {
    TextsReadBack(a.snapshot.value, b.snapshot.value);
    DiffIsCorrect(e, a.snapshot.value, b.snapshot.value, c);
  }

  predicate StrictVersions(es: seq<Embedded>) {
    forall i, j :: 0 <= i < j < |es| ==> es[i].version < es[j].version
  }

  /** Neighbours that a step was synthesized from carry. */
  ghost predicate AllCarry(e: Engine, es: seq<Embedded>) {
    forall i :: 0 <= i < |es| - 1 && es[i].snapshot.Some? && es[i + 1].snapshot.Some? &&
                DiffPlan(es[i].snapshot.value, es[i + 1].snapshot.value).review == [] ==>
      Carries(e, es[i].snapshot.value, es[i + 1].snapshot.value)
  }

  lemma NextSnapshot(d: DiffFn, es: seq<Embedded>, registered: seq<Migration>, current: nat, out: Synthesized,
                     s: Migration, i: nat)
    requires StrictVersions(es) && FromNeighbours(d, es, registered, current, |es|, out)
    requires s in out.steps && i < |es| && es[i].version == s.from
    ensures i + 1 < |es| && es[i + 1].version == s.to && FillsGap(d, es[i], es[i + 1], s)
  {
  }

  lemma SamePlace(es: seq<Embedded>, k: nat, i: nat)
    requires StrictVersions(es) && k < |es| && i < |es| && es[k].version == es[i].version
    ensures k == i
  {
  }

  /** The first step of a chain of synthesized steps. */
  lemma FirstStep(e: Engine, es: seq<Embedded>, registered: seq<Migration>, current: nat,
                  out: Synthesized, s: Migration, i: nat, c: Cat)
    requires StrictVersions(es) && AllCarry(e, es) && FromNeighbours(Differ(), es, registered, current, |es|, out)
    requires s in out.steps && i < |es| && es[i].version == s.from && IsOf(es, i, c)
    ensures i + 1 < |es| && es[i + 1].version == s.to && es[i + 1].snapshot.Some?
    ensures StepWorks(e, s, c, es[i + 1].snapshot.value)
  {
    NextSnapshot(Differ(), es, registered, current, out, s, i);
    FillingDefaultsFit(e, es[i].snapshot.value, es[i + 1].snapshot.value, c);
    StepCarries(e, es[i], es[i + 1], s, c);
  }

  /** `holds(i, c)` says that `c` is a database of snapshot `i`. */
  ghost predicate EachStepRuns(e: Engine, es: seq<Embedded>, steps: seq<Migration>,
                               holds: (nat, Cat) -> bool) {
    forall s, i: nat, c :: s in steps && i < |es| && es[i].version == s.from && holds(i, c) ==>
      RunsOn(e, es, s, i, c, holds)
  }

  ghost predicate RunsOn(e: Engine, es: seq<Embedded>, s: Migration, i: nat, c: Cat,
                         holds: (nat, Cat) -> bool) {
    i + 1 < |es| && es[i + 1].version == s.to &&
    var r := ExecAll(e, c, ReadAll(s.up));
    r.Some? && holds(i + 1, r.value)
  }

  lemma {:induction false} ChainRuns(e: Engine, es: seq<Embedded>, steps: seq<Migration>,
                                     holds: (nat, Cat) -> bool, chain: seq<Migration>, i: nat, j: nat, c: Cat)
    requires StrictVersions(es) && EachStepRuns(e, es, steps, holds) && i < |es| && j < |es| && holds(i, c)
    requires IsChain(steps, chain, es[i].version, es[j].version)
    ensures RunTexts(e, c, chain).Some? && holds(j, RunTexts(e, c, chain).value)
    decreases |chain|
  {
    if chain == [] {
      SamePlace(es, i, j);
    } else {
      assert RunsOn(e, es, chain[0], i, c, holds);
      ChainRuns(e, es, steps, holds, chain[1..], i + 1, j, ExecAll(e, c, ReadAll(chain[0].up)).value);
    }
  }

  ghost predicate IsOf(es: seq<Embedded>, i: nat, c: Cat) {
    i < |es| && es[i].snapshot.Some? && Describes(es[i].snapshot.value, c)
  }

  /** Any chain of synthesized steps, run in order on a database of the snapshot it starts from,
      executes to the end and leaves exactly the schema of the snapshot it leads to. */
  lemma ChainCarries(e: Engine, es: seq<Embedded>, registered: seq<Migration>, current: nat,
                     out: Synthesized, chain: seq<Migration>, i: nat, j: nat, c: Cat)
    requires StrictVersions(es) && AllCarry(e, es) && FromNeighbours(Differ(), es, registered, current, |es|, out)
    requires i < |es| && j < |es| && IsOf(es, i, c) && IsChain(out.steps, chain, es[i].version, es[j].version)
    ensures RunTexts(e, c, chain).Some? && IsOf(es, j, RunTexts(e, c, chain).value)
  {
    var holds := (i: nat, c: Cat) => IsOf(es, i, c);
    EveryStepRuns(e, es, registered, current, out, holds);
    ChainRuns(e, es, out.steps, holds, chain, i, j, c);
  }

  lemma EveryStepRuns(e: Engine, es: seq<Embedded>, registered: seq<Migration>, current: nat,
                      out: Synthesized, holds: (nat, Cat) -> bool)
    requires StrictVersions(es) && AllCarry(e, es) && FromNeighbours(Differ(), es, registered, current, |es|, out)
    requires forall i: nat, c :: holds(i, c) <==> IsOf(es, i, c)
    ensures EachStepRuns(e, es, out.steps, holds)
  {
    forall s, i: nat, c | s in out.steps && i < |es| && es[i].version == s.from && holds(i, c)
      ensures RunsOn(e, es, s, i, c, holds)
    {
      FirstStep(e, es, registered, current, out, s, i, c);
      var n := i + 1;
      assert IsOf(es, n, ExecAll(e, c, ReadAll(s.up)).value);
    }
  }
}
