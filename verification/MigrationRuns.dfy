/** Several processes migrating one file at the same time. Each transaction takes the write lock
    first and re-reads the version, so it is one step here; between two transactions of a process
    the others may do anything. */
module MigrationRuns {
  import opened Values
  import opened MigrationPlan

  datatype Event = Created(version: nat) | Ran(step: Migration, at: nat)

  /** `history` lists what took effect on the file, which had version `origin` at first. */
  datatype File = File(origin: nat, version: nat, history: seq<Event>)

  datatype Phase =
    | Reading
    | Creating
    | Planning(current: nat)
    | Stepping(rest: seq<Migration>, reached: nat)
    | Finished
    | Failed

  /** A process knows its own target version, and may be told only to validate. */
  datatype Process = Process(target: nat, validate: bool, phase: Phase)

  datatype State = State(file: File, processes: seq<Process>)

  datatype Action =
    | Read(p: nat)
    | Create(p: nat, works: bool)
    | Plan(p: nat, steps: seq<Migration>, chain: seq<Migration>)
    | NoPlan(p: nat)
    | RunStep(p: nat, works: bool)
    | Finish(p: nat)

  predicate Enabled(s: State, a: Action) {
    a.p < |s.processes| &&
    var phase := s.processes[a.p].phase;
    match a
    case Read(_) => phase.Reading?
    case Create(_, _) => phase.Creating?
    case Plan(p, steps, chain) =>
      phase.Planning? && Valid(steps) && IsChain(steps, chain, phase.current, s.processes[p].target)
    case NoPlan(_) => phase.Planning?
    case RunStep(_, _) => phase.Stepping? && phase.rest != []
    case Finish(_) => phase.Stepping? && phase.rest == []
  }

  function AfterRead(q: Process, version: nat): Phase {
    if version == 0 then Creating
    else if version == q.target then Finished
    else if q.validate then Failed
    else Planning(version)
  }

  /** A step runs only on its own start version; a version at or past its end skips it. */
  function StepPhase(q: Process, version: nat, works: bool): Phase
    requires q.phase.Stepping? && q.phase.rest != []
  {
    var m := q.phase.rest[0];
    if version >= m.to || (version == m.from && works) then Stepping(q.phase.rest[1..], m.to) else Failed
  }

  predicate StepRuns(q: Process, version: nat, works: bool)
    requires q.phase.Stepping? && q.phase.rest != []
  {
    version < q.phase.rest[0].to && version == q.phase.rest[0].from && works
  }

  function PhaseAfter(s: State, a: Action): Phase
    requires Enabled(s, a)
  {
    var q := s.processes[a.p];
    match a
    case Read(_) => AfterRead(q, s.file.version)
    case Create(_, works) => if s.file.version != 0 then Reading else if works then Finished else Failed
    case Plan(_, _, chain) => Stepping(chain, q.phase.current)
    case NoPlan(_) => Failed
    case RunStep(_, works) => StepPhase(q, s.file.version, works)
    case Finish(_) => Finished
  }

  function FileAfter(s: State, a: Action): File
    requires Enabled(s, a)
  {
    var q, f := s.processes[a.p], s.file;
    match a
    case Create(_, works) =>
      if f.version == 0 && works then File(f.origin, q.target, f.history + [Created(q.target)]) else f
    case RunStep(_, works) =>
      if StepRuns(q, f.version, works)
      then File(f.origin, q.phase.rest[0].to, f.history + [Ran(q.phase.rest[0], f.version)])
      else f
    case _ => f
  }

  function Apply(s: State, a: Action): State
    requires Enabled(s, a)
  {
    State(FileAfter(s, a), s.processes[a.p := s.processes[a.p].(phase := PhaseAfter(s, a))])
  }

  predicate IsRun(s: State, actions: seq<Action>)
    decreases |actions|
  {
    actions == [] || (Enabled(s, actions[0]) && IsRun(Apply(s, actions[0]), actions[1..]))
  }

  function After(s: State, actions: seq<Action>): State
    requires IsRun(s, actions)
    decreases |actions|
  {
    if actions == [] then s else After(Apply(s, actions[0]), actions[1..])
  }

  /** Version 0 means a file without a schema; targets are positive. */
  predicate Initial(s: State) {
    s.file.version == s.file.origin && s.file.history == [] &&
    forall i :: 0 <= i < |s.processes| ==> s.processes[i].target > 0 && s.processes[i].phase == Reading
  }

  // ---- What the file records ----

  function EndOf(e: Event): nat {
    if e.Created? then e.version else e.step.to
  }

  /** The event happens at version `v`: a creation on an empty file, a step on its own start. */
  predicate Fits(e: Event, v: nat) {
    match e
    case Created(t) => v == 0 && t > 0
    case Ran(m, at) => v == at == m.from && m.from < m.to
  }

  /** One contiguous chain of events from `v` to `end`. */
  predicate Contiguous(v: nat, history: seq<Event>, end: nat)
    decreases |history|
  {
    if history == [] then v == end else Fits(history[0], v) && Contiguous(EndOf(history[0]), history[1..], end)
  }

  lemma {:induction false} ContiguousMore(v: nat, history: seq<Event>, mid: nat, e: Event)
    requires Contiguous(v, history, mid) && Fits(e, mid)
    ensures Contiguous(v, history + [e], EndOf(e))
    decreases |history|
  {
    if history == [] {
      assert (history + [e])[1..] == [];
    } else {
      assert (history + [e])[0] == history[0] && (history + [e])[1..] == history[1..] + [e];
      ContiguousMore(EndOf(history[0]), history[1..], mid, e);
    }
  }

  /** A chain never goes back, and nothing creates a schema where there is one. */
  lemma {:induction false} ContiguousGrows(v: nat, history: seq<Event>, end: nat)
    requires Contiguous(v, history, end)
    ensures v <= end && (history != [] ==> v < end)
    ensures forall i :: 0 < i < |history| ==> !history[i].Created?
    ensures v > 0 ==> forall i :: 0 <= i < |history| ==> !history[i].Created?
    decreases |history|
  {
    if history != [] {
      ContiguousGrows(EndOf(history[0]), history[1..], end);
      assert forall i :: 0 < i < |history| ==> history[i] == history[1..][i - 1];
    }
  }

  // ---- Invariants ----

  predicate PhaseHolds(q: Process, version: nat) {
    q.target > 0 &&
    match q.phase
    case Planning(current) => 0 < current <= version
    case Stepping(rest, reached) => 0 < reached <= version && Forward(rest) && IsChain(rest, rest, reached, q.target)
    case Finished => q.target <= version
    case _ => true
  }

  predicate Sound(s: State) {
    Contiguous(s.file.origin, s.file.history, s.file.version) &&
    forall i :: 0 <= i < |s.processes| ==> PhaseHolds(s.processes[i], s.file.version)
  }

  lemma {:induction false} ChainOfItself(steps: seq<Migration>, chain: seq<Migration>, v: nat, target: nat,
                                         all: seq<Migration>)
    requires IsChain(steps, chain, v, target) && Forward(steps) && forall i :: 0 <= i < |chain| ==> chain[i] in all
    ensures IsChain(all, chain, v, target) && Forward(chain)
  {
    if chain != [] {
      assert forall i :: 0 <= i < |chain[1..]| ==> chain[1..][i] == chain[i + 1];
      ChainOfItself(steps, chain[1..], chain[0].to, target, all);
      assert forall i :: 0 < i < |chain| ==> chain[i] == chain[1..][i - 1];
      var k :| 0 <= k < |steps| && steps[k] == chain[0];
    }
  }

  lemma TailChain(rest: seq<Migration>, v: nat, target: nat)
    requires rest != [] && IsChain(rest, rest, v, target) && Forward(rest)
    ensures IsChain(rest[1..], rest[1..], rest[0].to, target) && Forward(rest[1..])
  {
    assert forall i :: 0 <= i < |rest[1..]| ==> rest[1..][i] == rest[i + 1];
    ChainOfItself(rest, rest[1..], rest[0].to, target, rest[1..]);
  }

  lemma VersionGrows(s: State, a: Action)
    requires Sound(s) && Enabled(s, a)
    ensures s.file.version <= FileAfter(s, a).version
    ensures Contiguous(s.file.origin, FileAfter(s, a).history, FileAfter(s, a).version)
  {
    var q, f := s.processes[a.p], s.file;
    assert PhaseHolds(q, f.version);
    match a {
      case Create(_, works) =>
        if f.version == 0 && works { ContiguousMore(f.origin, f.history, f.version, Created(q.target)); }
      case RunStep(_, works) =>
        if StepRuns(q, f.version, works) {
          ContiguousMore(f.origin, f.history, f.version, Ran(q.phase.rest[0], f.version));
        }
      case _ =>
    }
  }

  lemma PhaseKept(s: State, a: Action)
    requires Sound(s) && Enabled(s, a)
    ensures PhaseHolds(s.processes[a.p].(phase := PhaseAfter(s, a)), FileAfter(s, a).version)
  {
    var q := s.processes[a.p];
    assert PhaseHolds(q, s.file.version);
    match a {
      case Plan(_, steps, chain) => ChainOfItself(steps, chain, q.phase.current, q.target, chain);
      case RunStep(_, _) => TailChain(q.phase.rest, q.phase.reached, q.target);
      case _ =>
    }
  }

  lemma StepKeepsSound(s: State, a: Action)
    requires Sound(s) && Enabled(s, a)
    ensures Sound(Apply(s, a)) && s.file.version <= Apply(s, a).file.version && Apply(s, a).file.origin == s.file.origin
  {
    VersionGrows(s, a);
    PhaseKept(s, a);
    forall i | 0 <= i < |s.processes| ensures PhaseHolds(Apply(s, a).processes[i], Apply(s, a).file.version) {
      assert PhaseHolds(s.processes[i], s.file.version);
    }
  }

  lemma {:induction false} RunKeepsSound(s: State, actions: seq<Action>)
    requires Sound(s) && IsRun(s, actions)
    ensures Sound(After(s, actions)) && s.file.version <= After(s, actions).file.version
    ensures After(s, actions).file.origin == s.file.origin
    decreases |actions|
  {
    if actions != [] {
      StepKeepsSound(s, actions[0]);
      RunKeepsSound(Apply(s, actions[0]), actions[1..]);
    }
  }

  // ---- Every run ----

  /** What took effect is one contiguous chain from the first version to the present one; each step
      ran exactly on its start version, and a schema was created at most once, before everything. */
  lemma HistoryIsOneChain(s: State, actions: seq<Action>)
    requires Initial(s) && IsRun(s, actions)
    ensures var f := After(s, actions).file;
            Contiguous(s.file.origin, f.history, f.version) &&
            (forall i :: 0 <= i < |f.history| && f.history[i].Created? ==> i == 0 && s.file.origin == 0) &&
            (f.version == 0 <==> f.history == [] && s.file.origin == 0)
  {
    RunKeepsSound(s, actions);
    var f := After(s, actions).file;
    ContiguousGrows(s.file.origin, f.history, f.version);
  }

  /** The version never goes down along a run, whoever moves. */
  lemma VersionNeverFalls(s: State, first: seq<Action>, later: seq<Action>)
    requires Initial(s) && IsRun(s, first) && IsRun(After(s, first), later)
    ensures After(s, first).file.version <= After(After(s, first), later).file.version
  {
    RunKeepsSound(s, first);
    RunKeepsSound(After(s, first), later);
  }

  /** A process that reports success leaves the file at its target or beyond, then and ever after. */
  lemma SuccessMeansMigrated(s: State, first: seq<Action>, later: seq<Action>, p: nat)
    requires Initial(s) && IsRun(s, first) && IsRun(After(s, first), later)
    requires p < |After(s, first).processes| && After(s, first).processes[p].phase == Finished
    ensures After(s, first).processes[p].target <= After(After(s, first), later).file.version
  {
    RunKeepsSound(s, first);
    VersionNeverFalls(s, first, later);
    assert PhaseHolds(After(s, first).processes[p], After(s, first).file.version);
  }

  /** A process that is only to validate plans nothing and runs nothing. */
  predicate ValidatorsIdle(s: State) {
    forall i :: 0 <= i < |s.processes| && s.processes[i].validate ==>
      !s.processes[i].phase.Planning? && !s.processes[i].phase.Stepping?
  }

  lemma {:induction false} RunKeepsValidatorsIdle(s: State, actions: seq<Action>)
    requires ValidatorsIdle(s) && IsRun(s, actions)
    ensures ValidatorsIdle(After(s, actions))
    decreases |actions|
  {
    if actions != [] { RunKeepsValidatorsIdle(Apply(s, actions[0]), actions[1..]); }
  }

  /** The one thing a validating process ever does to a file is to create the schema of an empty one; on a
      file at another version than its target it fails. */
  lemma ValidatorOnlyCreates(s: State, actions: seq<Action>, a: Action)
    requires Initial(s) && IsRun(s, actions) && Enabled(After(s, actions), a)
    requires After(s, actions).processes[a.p].validate
    ensures var t := After(s, actions);
            (FileAfter(t, a) != t.file ==> a.Create? && t.file.version == 0) &&
            (a.Read? && t.file.version !in {0, t.processes[a.p].target} ==> PhaseAfter(t, a) == Failed)
  {
    RunKeepsValidatorsIdle(s, actions);
  }

  // ---- Processes that agree on the steps never get in each other's way ----

  predicate UsesSteps(a: Action, steps: seq<Migration>) {
    a.Plan? ==> a.steps == steps
  }

  ghost predicate OnPath(q: Process, version: nat, steps: seq<Migration>) {
    match q.phase
    case Planning(current) => Reachable(steps, current, version)
    case Stepping(rest, reached) =>
      Reachable(steps, reached, version) && IsChain(steps, rest, reached, q.target)
    case _ => true
  }

  ghost predicate Agreed(s: State, steps: seq<Migration>) {
    Sound(s) && forall i :: 0 <= i < |s.processes| ==> OnPath(s.processes[i], s.file.version, steps)
  }

  /** From its start, the file went either nowhere or through the one step that starts there. */
  lemma OnlyWay(steps: seq<Migration>, m: Migration, version: nat)
    requires Valid(steps) && m in steps && Reachable(steps, m.from, version)
    ensures version == m.from || (m.to <= version && Reachable(steps, m.to, version))
  {
    var chain :| IsChain(steps, chain, m.from, version);
    if chain != [] {
      var i :| 0 <= i < |steps| && steps[i] == chain[0];
      var j :| 0 <= j < |steps| && steps[j] == m;
      assert i == j;
      ChainGrows(steps, chain[1..], m.to, version);
    }
  }

  lemma NoConflict(s: State, a: Action, steps: seq<Migration>)
    requires Agreed(s, steps) && Valid(steps) && Enabled(s, a) && a.RunStep? && a.works
    ensures PhaseAfter(s, a) == Stepping(s.processes[a.p].phase.rest[1..], s.processes[a.p].phase.rest[0].to)
    ensures Reachable(steps, s.processes[a.p].phase.rest[0].to, FileAfter(s, a).version)
  {
    var q := s.processes[a.p];
    assert OnPath(q, s.file.version, steps);
    OnlyWay(steps, q.phase.rest[0], s.file.version);
    HereIsReachable(steps, q.phase.rest[0].to);
  }

  /** When the version moves, whoever is under way is still behind it on the same path. */
  lemma OthersStayOnPath(s: State, a: Action, steps: seq<Migration>, i: nat)
    requires Agreed(s, steps) && Enabled(s, a) && i < |s.processes|
    ensures OnPath(s.processes[i], FileAfter(s, a).version, steps)
  {
    var q := s.processes[i];
    assert OnPath(q, s.file.version, steps) && PhaseHolds(q, s.file.version);
    if a.RunStep? && FileAfter(s, a).version != s.file.version {
      var m := s.processes[a.p].phase.rest[0];
      assert OnPath(s.processes[a.p], s.file.version, steps);
      match q.phase {
        case Planning(current) => ReachFurther(steps, current, s.file.version, m);
        case Stepping(_, reached) => ReachFurther(steps, reached, s.file.version, m);
        case _ =>
      }
    }
  }

  lemma MoverStaysOnPath(s: State, a: Action, steps: seq<Migration>)
    requires Agreed(s, steps) && Valid(steps) && Enabled(s, a) && UsesSteps(a, steps)
    ensures OnPath(s.processes[a.p].(phase := PhaseAfter(s, a)), FileAfter(s, a).version, steps)
  {
    var q := s.processes[a.p];
    assert OnPath(q, s.file.version, steps);
    match a {
      case Read(_) => HereIsReachable(steps, s.file.version);
      case RunStep(p, works) =>
        if works { NoConflict(s, a, steps); } else { OnlyWay(steps, q.phase.rest[0], s.file.version); }
      case _ =>
    }
  }

  lemma StepKeepsAgreed(s: State, a: Action, steps: seq<Migration>)
    requires Agreed(s, steps) && Valid(steps) && Enabled(s, a) && UsesSteps(a, steps)
    ensures Agreed(Apply(s, a), steps)
  {
    StepKeepsSound(s, a);
    forall i | 0 <= i < |s.processes| ensures OnPath(Apply(s, a).processes[i], Apply(s, a).file.version, steps) {
      if i == a.p { MoverStaysOnPath(s, a, steps); } else { OthersStayOnPath(s, a, steps, i); }
    }
  }

  lemma {:induction false} RunKeepsAgreed(s: State, actions: seq<Action>, steps: seq<Migration>)
    requires Agreed(s, steps) && Valid(steps) && IsRun(s, actions)
    requires forall i :: 0 <= i < |actions| ==> UsesSteps(actions[i], steps)
    ensures Agreed(After(s, actions), steps)
    decreases |actions|
  {
    if actions != [] {
      StepKeepsAgreed(s, actions[0], steps);
      assert forall i :: 0 <= i < |actions[1..]| ==> actions[1..][i] == actions[i + 1];
      RunKeepsAgreed(Apply(s, actions[0]), actions[1..], steps);
    }
  }

  /** If every process plans from the same valid steps, no step of a plan ever meets a version it
      does not expect, however the processes interleave and whatever their targets. */
  lemma AgreeingProcessesNeverConflict(s: State, actions: seq<Action>, steps: seq<Migration>, p: nat)
    requires Initial(s) && IsRun(s, actions) && Valid(steps)
    requires forall i :: 0 <= i < |actions| ==> UsesSteps(actions[i], steps)
    requires Enabled(After(s, actions), RunStep(p, true))
    ensures PhaseAfter(After(s, actions), RunStep(p, true)).Stepping?
  {
    RunKeepsAgreed(s, actions, steps);
    NoConflict(After(s, actions), RunStep(p, true), steps);
  }
}
