/** Running the trigger statements: dropped triggers go, new and changed ones are created. */
module DiffTriggers {
  import opened Values
  import opened SqlText
  import opened Snapshot
  import opened Diff
  import opened Catalog

  function Key(t: TriggerSnapshot): string { Lower(t.name) }

  predicate Stays(after: SchemaSnapshot, t: TriggerSnapshot) {
    FindTrigger(after.triggers, t.name).Some?
  }

  predicate AllNamed(s: SchemaSnapshot, triggers: map<string, string>) {
    forall x <- triggers.Keys :: TriggerNamed(s, x)
  }

  ghost predicate TablesThere(s: SchemaSnapshot, tables: map<string, Tab>) {
    forall x :: TableNamed(s, x) ==> x in tables
  }

  ghost predicate GoodTriggers(e: Engine, s: SchemaSnapshot) {
    forall i :: 0 <= i < |s.triggers| ==> GoodTrigger(e, s, s.triggers[i])
  }

  // ---- Drops ----

  predicate OldTriggersAt(before: SchemaSnapshot, after: SchemaSnapshot, k: nat, triggers: map<string, string>) {
    forall i :: 0 <= i < |before.triggers| ==>
      if i < k && !Stays(after, before.triggers[i]) then Key(before.triggers[i]) !in triggers
      else HasTrigger(triggers, before.triggers[i])
  }

  predicate HasTrigger(triggers: map<string, string>, t: TriggerSnapshot) {
    Key(t) in triggers && triggers[Key(t)] == Normalized(t.sql)
  }

  lemma {:induction false} DropsRun(e: Engine, before: SchemaSnapshot, after: SchemaSnapshot, c: Cat, k: nat)
    returns (c': Cat)
    requires k <= |before.triggers| && DistinctTriggers(before) && TriggersMatch(before, c.triggers)
    ensures ExecAll(e, c, OldTriggersUpTo(before, after, k).safe) == Some(c')
    ensures c' == c.(triggers := c'.triggers) && OldTriggersAt(before, after, k, c'.triggers)
    ensures AllNamed(before, c'.triggers)
    decreases k
  {
    if k == 0 {
      c' := c;
    } else {
      var n := k - 1;
      assert n + 1 == k;
      var mid := DropsRun(e, before, after, c, n);
      c' := NextDropRuns(e, before, after, c, mid, n);
    }
  }

  lemma NextDropRuns(e: Engine, before: SchemaSnapshot, after: SchemaSnapshot, c: Cat, mid: Cat, k: nat)
    returns (c': Cat)
    requires k < |before.triggers| && DistinctTriggers(before) && OldTriggersAt(before, after, k, mid.triggers)
    requires AllNamed(before, mid.triggers) && ExecAll(e, c, OldTriggersUpTo(before, after, k).safe) == Some(mid)
    ensures ExecAll(e, c, OldTriggersUpTo(before, after, k + 1).safe) == Some(c')
    ensures c' == mid.(triggers := c'.triggers) && OldTriggersAt(before, after, k + 1, c'.triggers)
    ensures AllNamed(before, c'.triggers)
  {
    c' := OneDropRuns(e, before, after, mid, k);
    ExecAllSplit(e, c, OldTriggersUpTo(before, after, k).safe, TriggerDropPlan(after, before.triggers[k]).safe);
  }

  lemma OneDropRuns(e: Engine, before: SchemaSnapshot, after: SchemaSnapshot, c: Cat, k: nat) returns (c': Cat)
    requires k < |before.triggers| && DistinctTriggers(before) && OldTriggersAt(before, after, k, c.triggers)
    requires AllNamed(before, c.triggers)
    ensures ExecAll(e, c, TriggerDropPlan(after, before.triggers[k]).safe) == Some(c')
    ensures c' == c.(triggers := c'.triggers) && OldTriggersAt(before, after, k + 1, c'.triggers)
    ensures AllNamed(before, c'.triggers)
  {
    var t := before.triggers[k];
    c' := c;
    if !Stays(after, t) {
      ExecOne(e, c, DropTrigger(t.name));
      assert HasTrigger(c.triggers, t);
      c' := c.(triggers := c.triggers - {Key(t)});
    }
  }

  // ---- Creations ----

  predicate NewTriggerAt(before: SchemaSnapshot, t: TriggerSnapshot, done: bool, triggers: map<string, string>) {
    var was := FindTrigger(before.triggers, t.name);
    if done then HasTrigger(triggers, t)
    else if was.None? then Key(t) !in triggers
    else HasTrigger(triggers, was.value) && Key(was.value) == Key(t)
  }

  predicate NewTriggersAt(before: SchemaSnapshot, after: SchemaSnapshot, k: nat, triggers: map<string, string>) {
    forall i :: 0 <= i < |after.triggers| ==> NewTriggerAt(before, after.triggers[i], i < k, triggers)
  }

  /** After the drops, each new trigger is either new to the catalog or there under its old text. */
  lemma DropsLeaveNew(before: SchemaSnapshot, after: SchemaSnapshot, triggers: map<string, string>)
    requires OldTriggersAt(before, after, |before.triggers|, triggers)
    requires AllNamed(before, triggers)
    ensures NewTriggersAt(before, after, 0, triggers) && AllNamed(after, triggers)
  {
    forall i | 0 <= i < |after.triggers| ensures NewTriggerAt(before, after.triggers[i], false, triggers) {
      OneDropLeavesNew(before, after, triggers, i);
    }
    forall x <- triggers.Keys ensures TriggerNamed(after, x) {
      var i :| 0 <= i < |before.triggers| && Lower(before.triggers[i].name) == x;
      assert Stays(after, before.triggers[i]);
      FoundTrigger(after.triggers, before.triggers[i].name);
    }
  }

  lemma OneDropLeavesNew(before: SchemaSnapshot, after: SchemaSnapshot, triggers: map<string, string>, i: nat)
    requires OldTriggersAt(before, after, |before.triggers|, triggers) && i < |after.triggers|
    requires AllNamed(before, triggers)
    ensures NewTriggerAt(before, after.triggers[i], false, triggers)
  {
    var t := after.triggers[i];
    FoundTrigger(before.triggers, t.name);
    var was := FindTrigger(before.triggers, t.name);
    if was.Some? {
      var h :| 0 <= h < |before.triggers| && before.triggers[h] == was.value;
      FoundTrigger(after.triggers, was.value.name);
      assert Stays(after, before.triggers[h]);
    } else {
      assert !TriggerNamed(before, Key(t));
    }
  }

  lemma OneTriggerRuns(e: Engine, before: SchemaSnapshot, after: SchemaSnapshot, c: Cat, k: nat) returns (c': Cat)
    requires k < |after.triggers| && DistinctTriggers(after) && GoodTrigger(e, after, after.triggers[k])
    requires NewTriggersAt(before, after, k, c.triggers) && TablesThere(after, c.tables)
    ensures ExecAll(e, c, TriggerPlan(before, after.triggers[k]).safe) == Some(c')
    ensures c'.tables == c.tables && c'.indexes == c.indexes
    ensures c'.triggers == c.triggers[Key(after.triggers[k]) := Normalized(after.triggers[k].sql)]
  {
    var t := after.triggers[k];
    var was := FindTrigger(before.triggers, t.name);
    var made := c.(triggers := c.triggers[Key(t) := Normalized(t.sql)]);
    assert NewTriggerAt(before, t, false, c.triggers);
    c' := made;
    if was.None? {
      ExecOne(e, c, Ddl(t.sql));
    } else if Normalized(was.value.sql) != Normalized(t.sql) {
      var gone := c.(triggers := c.triggers - {Key(t)});
      var first, second := [DropTrigger(was.value.name)], [Ddl(t.sql)];
      ExecOne(e, c, first[0]);
      ExecOne(e, gone, second[0]);
      ExecAllSplit(e, c, first, second);
      assert gone.triggers[Key(t) := Normalized(t.sql)] == made.triggers;
    } else {
      assert made.triggers == c.triggers;
    }
  }

  lemma OneTriggerDone(before: SchemaSnapshot, after: SchemaSnapshot, k: nat, triggers: map<string, string>)
    requires k < |after.triggers| && DistinctTriggers(after) && NewTriggersAt(before, after, k, triggers)
    ensures NewTriggersAt(before, after, k + 1, triggers[Key(after.triggers[k]) := Normalized(after.triggers[k].sql)])
  {
  }

  lemma {:induction false} CreatesRun(e: Engine, before: SchemaSnapshot, after: SchemaSnapshot, c: Cat, k: nat)
    returns (c': Cat)
    requires k <= |after.triggers| && DistinctTriggers(after)
    requires GoodTriggers(e, after)
    requires NewTriggersAt(before, after, 0, c.triggers) && AllNamed(after, c.triggers)
    requires TablesThere(after, c.tables)
    ensures ExecAll(e, c, NewTriggersUpTo(before, after, k).safe) == Some(c')
    ensures c' == c.(triggers := c'.triggers) && NewTriggersAt(before, after, k, c'.triggers)
    ensures AllNamed(after, c'.triggers)
    decreases k
  {
    if k == 0 {
      c' := c;
    } else {
      var n := k - 1;
      assert n + 1 == k;
      var mid := CreatesRun(e, before, after, c, n);
      c' := NextTriggerRuns(e, before, after, c, mid, n);
    }
  }

  lemma NextTriggerRuns(e: Engine, before: SchemaSnapshot, after: SchemaSnapshot, c: Cat, mid: Cat, k: nat)
    returns (c': Cat)
    requires k < |after.triggers| && DistinctTriggers(after) && GoodTriggers(e, after)
    requires NewTriggersAt(before, after, k, mid.triggers) && AllNamed(after, mid.triggers)
    requires TablesThere(after, mid.tables) && ExecAll(e, c, NewTriggersUpTo(before, after, k).safe) == Some(mid)
    ensures ExecAll(e, c, NewTriggersUpTo(before, after, k + 1).safe) == Some(c')
    ensures c' == mid.(triggers := c'.triggers) && NewTriggersAt(before, after, k + 1, c'.triggers)
    ensures AllNamed(after, c'.triggers)
  {
    c' := OneTriggerRuns(e, before, after, mid, k);
    OneTriggerDone(before, after, k, mid.triggers);
    assert TriggerNamed(after, Key(after.triggers[k]));
    ExecAllSplit(e, c, NewTriggersUpTo(before, after, k).safe, TriggerPlan(before, after.triggers[k]).safe);
  }

  /** The trigger statements turn the old triggers into exactly the new ones. */
  lemma TriggersRun(e: Engine, before: SchemaSnapshot, after: SchemaSnapshot, c: Cat) returns (c': Cat)
    requires DistinctTriggers(before) && TriggersMatch(before, c.triggers) && DistinctTriggers(after)
    requires GoodTriggers(e, after)
    requires TablesThere(after, c.tables)
    ensures ExecAll(e, c, TriggerDiff(before, after).safe) == Some(c')
    ensures c' == c.(triggers := c'.triggers) && TriggersMatch(after, c'.triggers)
  {
    var n := |after.triggers|;
    var mid := DropsRun(e, before, after, c, |before.triggers|);
    DropsLeaveNew(before, after, mid.triggers);
    c' := CreatesRun(e, before, after, mid, n);
    ExecAllSplit(e, c, OldTriggersUpTo(before, after, |before.triggers|).safe, NewTriggersUpTo(before, after, n).safe);
    forall i | 0 <= i < n ensures HasTrigger(c'.triggers, after.triggers[i]) {
      assert NewTriggerAt(before, after.triggers[i], true, c'.triggers);
    }
  }
}
