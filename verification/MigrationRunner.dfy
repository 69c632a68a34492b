/** The migration runner as one process runs it on a file that nobody else touches. */
module MigrationRunner {
  import opened Values
  import opened MigrationPlan
  import opened MigrationRuns
  import opened Sorting
  import opened Diff

  datatype Outcome =
    | Done
    | CreateFailed
    | VersionMismatch
    | SnapshotUnreadable
    | GapRefused(at: nat)
    | NoChain(error: PlanError)
    | StepConflict(step: Migration)
    | StepFailed(step: Migration)

  datatype Policy = Policy(validate: bool, autoMigrate: bool)

  ghost predicate HasChain(steps: seq<Migration>, v: nat, target: nat) {
    Valid(steps) && Reachable(steps, v, target)
  }

  /** What a run of these steps reports: it migrates exactly if they hold a chain, and stops short of
      planning exactly if they run out at a refused version. */
  ghost predicate Reports(v: nat, target: nat, steps: seq<Migration>, refused: set<nat>, r: Outcome) {
    (r.Done? || r.StepFailed? <==> HasChain(steps, v, target)) &&
    (r.GapRefused? <==> StuckAt(steps, v, target).Some? && StuckAt(steps, v, target).value in refused) &&
    (r.NoChain? ==> Explains(steps, v, target, r.error))
  }

  /** Everything that can be synthesized for the run. */
  ghost predicate Synthesis(embedded: seq<Embedded>, registered: seq<Migration>, v: nat, out: Synthesized) {
    var es := Sort(embedded, ByVersion()); Progress(Differ(), es, registered, v, |es|, out)
  }

  ghost predicate Unreadable(embedded: seq<Embedded>, registered: seq<Migration>, v: nat) {
    var es := Sort(embedded, ByVersion()); BlockedUpTo(es, registered, v, |es|)
  }

  /** What a run may report that starts at version `v`, neither new nor up to date. */
  ghost predicate PlansRightly(v: nat, target: nat, registered: seq<Migration>, embedded: seq<Embedded>,
                               policy: Policy, r: Outcome) {
    !r.CreateFailed? && !r.StepConflict? &&
    (r.VersionMismatch? <==> policy.validate) &&
    (r.SnapshotUnreadable? <==> !policy.validate && policy.autoMigrate && Unreadable(embedded, registered, v)) &&
    (!policy.validate && !policy.autoMigrate ==> Reports(v, target, registered, {}, r)) &&
    (!policy.validate && policy.autoMigrate && !Unreadable(embedded, registered, v) ==>
       exists out :: Synthesis(embedded, registered, v, out) &&
         Reports(v, target, registered + out.steps, out.refused.Keys, r)) &&
    (HasChain(registered, v, target) ==> !r.GapRefused? && !r.NoChain?)
  }

  /** Which steps are synthesized, and so when a run migrates, does not depend on the run. */
  lemma AutoMigratesExactly(target: nat, registered: seq<Migration>, embedded: seq<Embedded>, v: nat,
                            out: Synthesized, r: Outcome)
    requires PlansRightly(v, target, registered, embedded, Policy(false, true), r) && !r.SnapshotUnreadable?
    requires Synthesis(embedded, registered, v, out)
    ensures r.Done? || r.StepFailed? <==> HasChain(registered + out.steps, v, target)
  {
    var es := Sort(embedded, ByVersion());
    SortSorts(embedded, ByVersion());
    SortedVersions(es);
    var own :| Synthesis(embedded, registered, v, own) &&
               Reports(v, target, registered + own.steps, own.refused.Keys, r);
    SynthesisIsUnique(Differ(), es, registered, v, out, own);
  }

  lemma SynthesisIsNew(embedded: seq<Embedded>, registered: seq<Migration>, current: nat, out: Synthesized)
    requires var es := Sort(embedded, ByVersion()); Progress(Differ(), es, registered, current, |es|, out)
    ensures Valid(registered) ==> Valid(registered + out.steps)
  {
  }

  /** A chain of registered steps stays a chain when synthesized steps are added. */
  lemma SynthesisKeepsChains(registered: seq<Migration>, out: Synthesized, v: nat, target: nat)
    requires Valid(registered) ==> Valid(registered + out.steps)
    ensures Valid(registered) && Reachable(registered, v, target) ==>
              Valid(registered + out.steps) && Reachable(registered + out.steps, v, target)
  {
    if Reachable(registered, v, target) { MoreStepsReach(registered, out.steps, v, target); }
  }

  /** The record of a chain that ran from its start to its end. */
  function Events(chain: seq<Migration>): seq<Event> {
    if chain == [] then [] else [Ran(chain[0], chain[0].from)] + Events(chain[1..])
  }

  class Database {
    var version: nat
    var history: seq<Event>

    constructor (v: nat)
      ensures version == v && history == []
    {
      version, history := v, [];
    }

    /** The creation transaction; it re-reads the version under the write lock. */
    method CreateSchema(target: nat, works: bool) returns (created: bool, failed: bool)
      modifies this
      ensures created == (old(version) == 0 && works) && failed == (old(version) == 0 && !works)
      ensures version == if created then target else old(version)
      ensures history == if created then old(history) + [Created(target)] else old(history)
    {
      created, failed := false, false;
      if version != 0 {
        return;
      }
      if !works {
        failed := true;
        return;
      }
      version, history := target, history + [Created(target)];
      created := true;
    }

    /** One step's transaction; a failure rolls everything back. */
    method RunStep(m: Migration, works: bool) returns (r: Outcome)
      modifies this
      ensures r == if old(version) >= m.to then Done else if old(version) != m.from then StepConflict(m)
                   else if works then Done else StepFailed(m)
      ensures version == if old(version) == m.from < m.to && works then m.to else old(version)
      ensures history == if old(version) == m.from < m.to && works then old(history) + [Ran(m, m.from)]
                else old(history)
    {
      if version >= m.to {
        return Done;
      }
      if version != m.from {
        return StepConflict(m);
      }
      if !works {
        return StepFailed(m);
      }
      history := history + [Ran(m, version)];
      version := m.to;
      r := Done;
    }

    method RunChain(plan: seq<Migration>, ghost origin: nat, target: nat, works: Migration -> bool) returns (r: Outcome)
      requires Contiguous(origin, history, version) && Forward(plan) && IsChain(plan, plan, version, target)
      modifies this
      ensures Contiguous(origin, history, version) && old(version) <= version <= target
      ensures r.Done? || r.StepFailed?
      ensures r.Done? ==> version == target && history == old(history) + Events(plan)
      ensures r.StepFailed? ==> !works(r.step) && version == r.step.from && r.step in plan
      ensures (forall m <- plan :: works(m)) ==> r.Done?
    {
      ChainGrows(plan, plan, version, target);
      var rest := plan;
      while rest != []
        invariant Contiguous(origin, history, version) && old(version) <= version <= target
        invariant Forward(rest) && IsChain(rest, rest, version, target) && forall m <- rest :: m in plan
        invariant history + Events(rest) == old(history) + Events(plan)
      {
        var m := rest[0];
        r := RunStep(m, works(m));
        if r != Done {
          return;
        }
        ContiguousMore(origin, history[..|history| - 1], m.from, Ran(m, m.from));
        assert history == history[..|history| - 1] + [Ran(m, m.from)];
        TailChain(rest, m.from, target);
        rest := rest[1..];
        ChainGrows(rest, rest, version, target);
      }
      r := Done;
    }

    /** Looks ahead for a refused version, plans the chain, and runs it. */
    method RunSteps(target: nat, steps: seq<Migration>, refused: map<nat, (nat, seq<Review>)>,
                    works: Migration -> bool, ghost origin: nat) returns (r: Outcome)
      requires Contiguous(origin, history, version)
      modifies this
      ensures Contiguous(origin, history, version) && old(version) <= version
      ensures r.Done? ==> version == target && exists chain :: IsChain(steps, chain, old(version), target) &&
                                                               history == old(history) + Events(chain)
      ensures r.StepFailed? ==> !works(r.step) && version == r.step.from
      ensures r.Done? || r.StepFailed? || r.GapRefused? || r.NoChain?
      ensures !r.Done? && !r.StepFailed? ==> version == old(version) && history == old(history)
      ensures Reports(old(version), target, steps, refused.Keys, r)
    {
      var ok, at := CheckDestructiveGap(steps, refused, version, target);
      if !ok {
        StuckMeansNoChain(steps, version, target);
        return GapRefused(at);
      }
      var planned := PlanChain(steps, version, target);
      if planned.Err? {
        return NoChain(planned.error);
      }
      ChainOfItself(steps, planned.chain, version, target, planned.chain);
      r := RunChain(planned.chain, origin, target, works);
    }

    /** From version 0 the schema is created at the target; from any other version the chain is
        planned before anything runs, and then runs step by step. */
    method RunMigration(target: nat, registered: seq<Migration>, embedded: seq<Embedded>, policy: Policy,
                        createWorks: bool, works: Migration -> bool, ghost origin: nat) returns (r: Outcome)
      requires target > 0 && Contiguous(origin, history, version)
      modifies this
      ensures Contiguous(origin, history, version) && old(version) <= version
      ensures r.Done? ==> version == target
      ensures r.StepFailed? ==> !works(r.step) && version == r.step.from
      ensures !r.Done? && !r.StepFailed? ==> version == old(version) && history == old(history)
      ensures old(version) == 0 ==>
                if createWorks then r.Done? && history == old(history) + [Created(target)] else r.CreateFailed?
      ensures old(version) == target ==> r.Done? && history == old(history)
      ensures old(version) != 0 && old(version) != target ==>
                PlansRightly(old(version), target, registered, embedded, policy, r)
    {
      if version == 0 {
        var created, failed := CreateSchema(target, createWorks);
        if failed {
          return CreateFailed;
        }
        ContiguousMore(origin, old(history), 0, Created(target));
        return Done;
      }
      if version == target {
        return Done;
      }
      if policy.validate {
        return VersionMismatch;
      }
      if !policy.autoMigrate {
        r := RunSteps(target, registered, map[], works, origin);
        return;
      }
      var s := SynthesizeEmbeddedSteps(embedded, registered, version);
      if s.None? {
        return SnapshotUnreadable;
      }
      ghost var v := version;
      SynthesisIsNew(embedded, registered, v, s.value);
      SynthesisKeepsChains(registered, s.value, v, target);
      r := RunSteps(target, registered + s.value.steps, s.value.refused, works, origin);
      assert Synthesis(embedded, registered, v, s.value);
    }
  }
}
