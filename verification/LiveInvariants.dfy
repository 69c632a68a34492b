/** What every step of the engine keeps, for any number of workers: job generations,
    the fixed coalesce window and the epoch guard against replaced parameters. */
module LiveInvariants {
  import opened Values
  import opened Filter
  import opened LiveSpec
  import opened LiveProtocol

  function OutJobs(n: Notifier): seq<Job> {
    if n.Pushing? then n.out else []
  }

  // ---- Identities and epochs ----

  /** Registered ids are known ids. */
  predicate IdsKnown(s: State) {
    s.entries.Keys <= s.shared.Keys && forall id <- s.shared.Keys :: id < s.nextId
  }

  predicate JobKnown(shared: map<nat, Shared>, j: Job) {
    j.id in shared && j.gen <= shared[j.id].epoch
  }

  predicate JobsKnown(shared: map<nat, Shared>, jobs: seq<Job>) {
    forall i :: 0 <= i < |jobs| ==> JobKnown(shared, jobs[i])
  }

  predicate WorkersKnown(shared: map<nat, Shared>, workers: seq<Worker>) {
    forall w :: 0 <= w < |workers| && !workers[w].Idle? ==> JobKnown(shared, workers[w].job)
  }

  /** No job is newer than its subscription's epoch. */
  predicate WellFormed(s: State) {
    IdsKnown(s) && JobsKnown(s.shared, s.queue) && JobsKnown(s.shared, OutJobs(s.notifier)) &&
    WorkersKnown(s.shared, s.workers)
  }

  /** What no step undoes: known ids stay known and counters never decrease. */
  predicate Grew(a: map<nat, Shared>, b: map<nat, Shared>) {
    a.Keys <= b.Keys &&
    forall id <- a.Keys ::
      a[id].epoch <= b[id].epoch && a[id].version <= b[id].version && a[id].bumped <= b[id].bumped
  }

  lemma ClientGrows(s: State, a: ClientStep)
    requires IdsKnown(s)
    ensures Grew(s.shared, SharedAfterClient(s, a))
  {
  }

  lemma ClientKeepsIds(s: State, a: ClientStep)
    requires IdsKnown(s)
    ensures IdsKnown(ApplyClient(s, a))
  {
  }

  lemma GrowthKeepsKnown(s: State, shared: map<nat, Shared>)
    requires WellFormed(s) && Grew(s.shared, shared)
    ensures JobsKnown(shared, s.queue) && JobsKnown(shared, OutJobs(s.notifier)) && WorkersKnown(shared, s.workers)
  {
  }

  lemma TurnGrows(s: State, a: TurnStep)
    requires TurnEnabled(s, a)
    ensures Grew(s.shared, ApplyTurn(s, a).shared)
  {
  }

  lemma TurnKeepsWellFormed(s: State, a: TurnStep)
    requires WellFormed(s) && TurnEnabled(s, a)
    ensures WellFormed(ApplyTurn(s, a))
  {
    TurnGrows(s, a);
    GrowthKeepsKnown(s, ApplyTurn(s, a).shared);
    match a {
      case Collect(order) => CollectedJobsKnown(s, order);
      case Push => assert OutJobs(s.notifier)[0] == s.notifier.out[0];
      case _ =>
    }
  }

  lemma CollectedJobsKnown(s: State, order: seq<nat>)
    requires WellFormed(s) && TurnEnabled(s, Collect(order))
    ensures JobsKnown(DoCollect(s, order).shared, OutJobs(DoCollect(s, order).notifier))
  {
    var s' := DoCollect(s, order);
    forall i | 0 <= i < |s'.notifier.out| ensures JobKnown(s'.shared, s'.notifier.out[i]) {
      JobInOrder(s.entries, Epochs(s.shared), order, s.notifier.full, s.notifier.newOnly, s.now, s'.notifier.out[i]);
    }
  }

  lemma WorkGrows(s: State, k: Worker, a: WorkStep)
    requires WorkEnabled(s, k, a)
    ensures Grew(s.shared, WorkEffect(s, k, a).shared)
    ensures WorkEffect(s, k, a).shared.Keys == s.shared.Keys
  {
    if a.Validate? || a.Cache? || a.Publish? {
      OneGrows(s.shared, k.job.id, WorkEffect(s, k, a).shared[k.job.id]);
    }
  }

  lemma OneGrows(shared: map<nat, Shared>, id: nat, v: Shared)
    requires id in shared && shared[id].epoch <= v.epoch && shared[id].version <= v.version &&
             shared[id].bumped <= v.bumped
    ensures Grew(shared, shared[id := v]) && shared[id := v].Keys == shared.Keys
  {
  }

  lemma WorkKeepsWellFormed(q: Query, s: State, w: nat, a: WorkStep)
    requires WellFormed(s) && w < |s.workers| && WorkEnabled(s, s.workers[w], a)
    ensures WellFormed(ApplyWork(q, s, w, a))
  {
    var s' := WorkEffect(s, s.workers[w], a);
    WorkGrows(s, s.workers[w], a);
    GrowthKeepsKnown(s, s'.shared);
    var k := NextPhase(q, s, s.workers[w], a);
    assert k.Idle? || k.job == (if a.Pop? then s.queue[0] else s.workers[w].job);
    assert k.Idle? || JobKnown(s.shared, k.job);
  }

  // ---- The epoch guard ----

  /** A rebind whose epoch bump is still to come is still listed as owed. */
  predicate VersionTracked(sh: Shared, ops: multiset<Op>, id: nat) {
    sh.bumped <= sh.version && (sh.bumped < sh.version ==> Bump(id, sh.version) in ops)
  }

  ghost predicate BumpsKnown(shared: map<nat, Shared>, ops: multiset<Op>) {
    forall id: nat, v: nat :: Bump(id, v) in ops ==> id in shared && v <= shared[id].version
  }

  predicate HoldsVersion(k: Worker) { k.Bound? || k.Ran? || k.Passed? }

  /** A worker whose job is still current read its parameters at or after the newest bump. */
  predicate ReadAfterBump(shared: map<nat, Shared>, k: Worker) {
    HoldsVersion(k) && k.job.id in shared ==> (
      var sh := shared[k.job.id];
      k.version <= sh.version &&
      (k.Bound? && k.version == sh.version ==> k.params == sh.params) &&
      (k.job.gen == sh.epoch ==> sh.bumped <= k.version)
    )
  }

  ghost predicate GuardHolds(s: State) {
    BumpsKnown(s.shared, s.ops) &&
    (forall id <- s.shared.Keys :: VersionTracked(s.shared[id], s.ops, id)) &&
    forall w :: 0 <= w < |s.workers| ==> ReadAfterBump(s.shared, s.workers[w])
  }

  lemma EmitsOnlyEmit(ms: seq<Msg>, op: Op)
    ensures op in Emits(ms) <==> op.Emit? && op.msg in ms
  {
  }

  /** The owed operation that a client step carries out. */
  function DoneBy(a: ClientStep): Option<Op> {
    match a
    case Send(m) => Some(Emit(m))
    case SendRefresh(id) => Some(Ask(id))
    case RebindBump(id, v) => Some(Bump(id, v))
    case RebindClear(id) => Some(Clear(id))
    case _ => None
  }

  /** Everything owed stays owed until it is carried out. */
  lemma OpStaysOwed(s: State, a: ClientStep, op: Op)
    requires op in s.ops && DoneBy(a) != Some(op)
    ensures op in OpsAfterClient(s, a)
  {
    match a {
      case Send(m) => OthersStay(s.ops, Emit(m), multiset{}, op);
      case SendRefresh(id) => OthersStay(s.ops, Ask(id), multiset{}, op);
      case RebindBump(id, v) => OthersStay(s.ops, Bump(id, v), multiset{Clear(id)}, op);
      case RebindClear(id) => OthersStay(s.ops, Clear(id), multiset{Ask(id)}, op);
      case _ =>
    }
  }

  lemma OthersStay(ops: multiset<Op>, done: Op, more: multiset<Op>, op: Op)
    requires op in ops && op != done
    ensures op in ops - multiset{done} && op in ops - multiset{done} + more
  {
  }

  lemma NewBumpIsRebind(s: State, a: ClientStep, id: nat, v: nat)
    requires Bump(id, v) in OpsAfterClient(s, a)
    ensures Bump(id, v) in s.ops || (a.RebindParams? && id == a.id && id in s.shared && v == s.shared[id].version + 1)
  {
    if a.Commit? { EmitsOnlyEmit(a.emission, Bump(id, v)); }
  }

  lemma ClientKeepsBumps(s: State, a: ClientStep)
    requires IdsKnown(s) && BumpsKnown(s.shared, s.ops)
    ensures BumpsKnown(SharedAfterClient(s, a), OpsAfterClient(s, a))
  {
    ClientGrows(s, a);
    forall id: nat, v: nat | Bump(id, v) in OpsAfterClient(s, a)
      ensures id in SharedAfterClient(s, a) && v <= SharedAfterClient(s, a)[id].version
    {
      NewBumpIsRebind(s, a, id, v);
    }
  }

  lemma ClientKeepsCounters(s: State, a: ClientStep, id: nat)
    requires id in s.shared && id != s.nextId
    requires !(a.RebindParams? && a.id == id) && !(a.RebindBump? && a.id == id)
    ensures id in SharedAfterClient(s, a)
    ensures SharedAfterClient(s, a)[id].version == s.shared[id].version
    ensures SharedAfterClient(s, a)[id].bumped == s.shared[id].bumped
  {
  }

  lemma ClientKeepsVersion(s: State, a: ClientStep, id: nat)
    requires IdsKnown(s) && BumpsKnown(s.shared, s.ops) && ClientEnabled(s, a)
    requires id in s.shared && VersionTracked(s.shared[id], s.ops, id)
    ensures id in SharedAfterClient(s, a) && VersionTracked(SharedAfterClient(s, a)[id], OpsAfterClient(s, a), id)
  {
    var owed := Bump(id, s.shared[id].version);
    if a.RebindParams? && a.id == id {
    } else if a.RebindBump? && a.id == id {
      if a.version != s.shared[id].version && owed in s.ops { OpStaysOwed(s, a, owed); }
    } else {
      ClientKeepsCounters(s, a, id);
      if owed in s.ops { OpStaysOwed(s, a, owed); }
    }
  }

  lemma ClientAddsTracked(s: State, a: ClientStep)
    requires IdsKnown(s)
    ensures s.nextId in SharedAfterClient(s, a) ==>
            VersionTracked(SharedAfterClient(s, a)[s.nextId], OpsAfterClient(s, a), s.nextId)
  {
  }

  lemma ClientKeepsReads(s: State, a: ClientStep, k: Worker)
    requires IdsKnown(s) && BumpsKnown(s.shared, s.ops) && ClientEnabled(s, a)
    requires ReadAfterBump(s.shared, k) && (!k.Idle? ==> JobKnown(s.shared, k.job))
    ensures ReadAfterBump(SharedAfterClient(s, a), k)
  {
  }

  lemma ClientKeepsGuard(s: State, a: ClientStep)
    requires WellFormed(s) && GuardHolds(s) && ClientEnabled(s, a)
    ensures GuardHolds(ApplyClient(s, a))
  {
    ClientKeepsBumps(s, a);
    forall id <- SharedAfterClient(s, a).Keys
      ensures VersionTracked(SharedAfterClient(s, a)[id], OpsAfterClient(s, a), id)
    {
      if id == s.nextId {
        ClientAddsTracked(s, a);
      } else {
        if id !in s.shared { ClientAddsOnlyNext(s, a, id); }
        ClientKeepsVersion(s, a, id);
      }
    }
    forall w | 0 <= w < |s.workers| ensures ReadAfterBump(SharedAfterClient(s, a), s.workers[w]) {
      ClientKeepsReads(s, a, s.workers[w]);
    }
  }

  /** Turns and worker effects replace no parameters, and only raise epochs. */
  predicate SameParams(a: map<nat, Shared>, b: map<nat, Shared>) {
    a.Keys == b.Keys &&
    forall id <- a.Keys ::
      a[id].epoch <= b[id].epoch && a[id].version == b[id].version &&
      a[id].bumped == b[id].bumped && a[id].params == b[id].params
  }

  lemma ScheduleKeepsParams(shared: map<nat, Shared>, entries: map<nat, Entry>, b: Batch, now: nat)
    ensures SameParams(shared, ScheduledShared(shared, entries, b, now))
  {
  }

  lemma CollectKeepsParams(shared: map<nat, Shared>, entries: map<nat, Entry>, full: set<nat>, now: nat)
    ensures SameParams(shared, CollectedShared(shared, entries, full, now))
  {
  }

  lemma TurnKeepsParams(s: State, a: TurnStep)
    requires TurnEnabled(s, a)
    ensures SameParams(s.shared, ApplyTurn(s, a).shared)
    ensures ApplyTurn(s, a).ops == s.ops && ApplyTurn(s, a).workers == s.workers
  {
    match a {
      case Schedule => ScheduleKeepsParams(s.shared, s.entries, s.notifier.batch, s.now);
      case Collect(_) => CollectKeepsParams(s.shared, s.entries, s.notifier.full, s.now);
      case _ =>
    }
  }

  lemma WorkKeepsParams(s: State, k: Worker, a: WorkStep)
    requires WorkEnabled(s, k, a)
    ensures SameParams(s.shared, WorkEffect(s, k, a).shared) && WorkEffect(s, k, a).ops == s.ops
  {
    if a.Validate? || a.Cache? || a.Publish? {
      OneKeepsParams(s.shared, k.job.id, WorkEffect(s, k, a).shared[k.job.id]);
    }
  }

  lemma OneKeepsParams(shared: map<nat, Shared>, id: nat, v: Shared)
    requires id in shared && v.epoch == shared[id].epoch && v.version == shared[id].version
    requires v.bumped == shared[id].bumped && v.params == shared[id].params
    ensures SameParams(shared, shared[id := v])
  {
  }

  lemma SameParamsKeepGuard(s: State, s': State)
    requires WellFormed(s) && GuardHolds(s) && SameParams(s.shared, s'.shared)
    requires s'.ops == s.ops
    ensures BumpsKnown(s'.shared, s'.ops)
    ensures forall id <- s'.shared.Keys :: VersionTracked(s'.shared[id], s'.ops, id)
    ensures forall w :: 0 <= w < |s.workers| ==> ReadAfterBump(s'.shared, s.workers[w])
  {
  }

  lemma TurnKeepsGuard(s: State, a: TurnStep)
    requires WellFormed(s) && GuardHolds(s) && TurnEnabled(s, a)
    ensures GuardHolds(ApplyTurn(s, a))
  {
    TurnKeepsParams(s, a);
    SameParamsKeepGuard(s, ApplyTurn(s, a));
  }

  lemma PhaseKeepsReads(q: Query, s: State, k: Worker, a: WorkStep)
    requires WorkEnabled(s, k, a) && ReadAfterBump(s.shared, k)
    requires forall id <- s.shared.Keys :: VersionTracked(s.shared[id], s.ops, id)
    ensures ReadAfterBump(WorkEffect(s, k, a).shared, NextPhase(q, s, k, a))
  {
  }

  lemma WorkKeepsGuard(q: Query, s: State, w: nat, a: WorkStep)
    requires WellFormed(s) && GuardHolds(s) && w < |s.workers| && WorkEnabled(s, s.workers[w], a)
    ensures GuardHolds(ApplyWork(q, s, w, a))
  {
    var k := s.workers[w];
    WorkKeepsParams(s, k, a);
    SameParamsKeepGuard(s, WorkEffect(s, k, a));
    PhaseKeepsReads(q, s, k, a);
  }

  // ---- Generations and the coalesce window ----

  /** Generations of the Full jobs of one subscription strictly increase. */
  predicate GensIncrease(h: seq<Event>, epoch: nat) {
    (forall i :: 0 <= i < |h| && h[i].FullJob? ==> h[i].gen <= epoch) &&
    (forall i, j :: 0 <= i < j < |h| && h[i].FullJob? && h[j].FullJob? ==> h[i].gen < h[j].gen)
  }

  /** Hit `i` is the first one since the latest Full job, and no Full job followed it. */
  predicate Opens(h: seq<Event>, i: nat) {
    i < |h| && h[i].HitAt? && (i == 0 || h[i - 1].FullJob?) && forall k :: i < k < |h| ==> h[k].HitAt?
  }

  /** The window is open exactly when a hit followed the latest Full job, and it ends at that
      first hit's time plus the debounce in force then. */
  predicate WindowFixed(h: seq<Event>, due: Option<nat>) {
    match due
    case None => h == [] || h[|h| - 1].FullJob?
    case Some(d) => exists i :: 0 <= i < |h| && Opens(h, i) && d == h[i].at + h[i].wait
  }

  predicate HistoryHolds(s: State, id: nat) {
    (id in s.shared ==> GensIncrease(s.shared[id].history, s.shared[id].epoch)) &&
    (id in s.shared && id in s.entries ==> WindowFixed(s.shared[id].history, s.entries[id].due))
  }

  lemma HitKeepsWindow(h: seq<Event>, due: Option<nat>, at: nat, wait: nat)
    requires WindowFixed(h, due)
    ensures WindowFixed(h + [HitAt(at, wait)], if due.Some? then due else Some(at + wait))
  {
    var h' := h + [HitAt(at, wait)];
    match due {
      case None => assert Opens(h', |h|);
      case Some(d) =>
        var i :| 0 <= i < |h| && Opens(h, i) && d == h[i].at + h[i].wait;
        assert Opens(h', i);
    }
  }

  lemma ScheduleKeepsHistory(s: State, id: nat)
    requires HistoryHolds(s, id) && IdsKnown(s) && s.notifier.Draining?
    ensures HistoryHolds(DoSchedule(s), id)
  {
    if id in s.entries && Hit(s.entries[id], s.notifier.batch) {
      HitKeepsWindow(s.shared[id].history, s.entries[id].due, s.now, s.entries[id].debounce);
    }
  }

  lemma CollectKeepsHistory(s: State, order: seq<nat>, id: nat)
    requires HistoryHolds(s, id) && IdsKnown(s) && TurnEnabled(s, Collect(order))
    ensures HistoryHolds(DoCollect(s, order), id)
  {
  }

  lemma TurnKeepsHistory(s: State, a: TurnStep, id: nat)
    requires HistoryHolds(s, id) && IdsKnown(s) && TurnEnabled(s, a)
    ensures HistoryHolds(ApplyTurn(s, a), id)
  {
    match a {
      case Schedule => ScheduleKeepsHistory(s, id);
      case Collect(order) => CollectKeepsHistory(s, order, id);
      case _ =>
    }
  }

  lemma ClientKeepsPast(s: State, a: ClientStep, id: nat)
    requires id in s.shared && id != s.nextId
    ensures id in SharedAfterClient(s, a) && SharedAfterClient(s, a)[id].history == s.shared[id].history
    ensures SharedAfterClient(s, a)[id].epoch >= s.shared[id].epoch
  {
  }

  lemma ClientKeepsWindow(s: State, a: ClientStep, id: nat)
    requires id != s.nextId && id in EntriesAfterClient(s, a)
    ensures id in s.entries && EntriesAfterClient(s, a)[id].due == s.entries[id].due
  {
  }

  lemma ClientAddsEmptyHistory(s: State, a: ClientStep)
    requires IdsKnown(s)
    ensures HistoryHolds(ApplyClient(s, a), s.nextId)
  {
  }

  lemma ClientKeepsHistory(s: State, a: ClientStep, id: nat)
    requires HistoryHolds(s, id) && IdsKnown(s)
    ensures HistoryHolds(ApplyClient(s, a), id)
  {
    if id == s.nextId {
      ClientAddsEmptyHistory(s, a);
    } else {
      if id in s.shared { ClientKeepsPast(s, a, id); } else { ClientAddsOnlyNext(s, a, id); }
      if id in EntriesAfterClient(s, a) { ClientKeepsWindow(s, a, id); }
    }
  }

  lemma ClientAddsOnlyNext(s: State, a: ClientStep, id: nat)
    requires id !in s.shared && id != s.nextId
    ensures id !in SharedAfterClient(s, a)
  {
  }

  lemma WorkKeepsHistory(q: Query, s: State, w: nat, a: WorkStep, id: nat)
    requires HistoryHolds(s, id) && w < |s.workers| && WorkEnabled(s, s.workers[w], a)
    ensures HistoryHolds(ApplyWork(q, s, w, a), id)
  {
  }

  // ---- Whole runs ----

  ghost predicate Sound(s: State) {
    WellFormed(s) && GuardHolds(s) && forall id :: HistoryHolds(s, id)
  }

  lemma StepKeepsHistories(q: Query, s: State, a: Action)
    requires Sound(s) && Enabled(s, a)
    ensures forall id :: HistoryHolds(Apply(q, s, a), id)
  {
    forall id: nat ensures HistoryHolds(Apply(q, s, a), id) {
      match a {
        case Client(c) => ClientKeepsHistory(s, c, id);
        case Turn(t) => TurnKeepsHistory(s, t, id);
        case Work(w, k) => WorkKeepsHistory(q, s, w, k, id);
      }
    }
  }

  lemma StepKeepsSound(q: Query, s: State, a: Action)
    requires Sound(s) && Enabled(s, a)
    ensures Sound(Apply(q, s, a))
  {
    StepKeepsHistories(q, s, a);
    match a {
      case Client(c) =>
        ClientGrows(s, c);
        GrowthKeepsKnown(s, SharedAfterClient(s, c));
        ClientKeepsIds(s, c);
        ClientKeepsGuard(s, c);
      case Turn(t) =>
        TurnKeepsWellFormed(s, t);
        TurnKeepsGuard(s, t);
      case Work(w, k) =>
        WorkKeepsWellFormed(q, s, w, k);
        WorkKeepsGuard(q, s, w, k);
    }
  }

  lemma {:induction false} RunKeepsSound(q: Query, s: State, acts: seq<Action>)
    requires Sound(s) && IsRun(q, s, acts)
    ensures Sound(After(q, s, acts))
    decreases |acts|
  {
    if acts != [] {
      StepKeepsSound(q, s, acts[0]);
      RunKeepsSound(q, Apply(q, s, acts[0]), acts[1..]);
    }
  }

  /** In every reachable state the window of every registered subscription is the fixed one
      and the generations of its Full jobs strictly increase. */
  lemma WindowIsFixedInEveryRun(q: Query, s: State, acts: seq<Action>, id: nat)
    requires Initial(s) && IsRun(q, s, acts) && id in After(q, s, acts).entries
    ensures id in After(q, s, acts).shared
    ensures WindowFixed(After(q, s, acts).shared[id].history, After(q, s, acts).entries[id].due)
    ensures GensIncrease(After(q, s, acts).shared[id].history, After(q, s, acts).shared[id].epoch)
  {
    RunKeepsSound(q, s, acts);
    assert HistoryHolds(After(q, s, acts), id);
  }

  /** Nothing moves an open window: only a submitted Full job or the end of the registration closes it. */
  lemma WindowNeverMoves(q: Query, s: State, a: Action, id: nat)
    requires Sound(s) && Enabled(s, a)
    requires id in s.entries && s.entries[id].due.Some? && id in Apply(q, s, a).entries
    ensures Apply(q, s, a).entries[id].due == s.entries[id].due ||
            (a.Turn? && a.turn.Collect? && Apply(q, s, a).entries[id].due.None? &&
             Job(id, true, s.shared[id].epoch + 1) in OutJobs(Apply(q, s, a).notifier))
  {
    match a {
      case Client(c) => ClientKeepsWindow(s, c, id);
      case Turn(t) => TurnKeepsWindow(s, t, id);
      case Work(w, k) =>
    }
  }

  lemma TurnKeepsWindow(s: State, t: TurnStep, id: nat)
    requires IdsKnown(s) && TurnEnabled(s, t) && id in s.entries && s.entries[id].due.Some?
    ensures id in ApplyTurn(s, t).entries
    ensures ApplyTurn(s, t).entries[id].due == s.entries[id].due ||
            (t.Collect? && ApplyTurn(s, t).entries[id].due.None? &&
             Job(id, true, s.shared[id].epoch + 1) in OutJobs(ApplyTurn(s, t).notifier))
  {
    if t.Collect? { FiredJobSubmitted(s, t.order, id, s.shared[id].epoch + 1); }
  }

  lemma FiredJobSubmitted(s: State, order: seq<nat>, id: nat, gen: nat)
    requires s.notifier.Collecting? && id in s.entries
    requires Enumerates(order, s.entries.Keys) && s.entries.Keys <= s.shared.Keys
    ensures Job(id, true, gen) in DoCollect(s, order).notifier.out <==>
              Fires(s.entries[id], id, s.notifier.full, s.now) && gen == s.shared[id].epoch + 1
  {
    FullJobInOrder(s.entries, Epochs(s.shared), order, s.notifier.full, s.notifier.newOnly, s.now, id, gen);
  }

  /** The first turn at or after the end of the window submits a Full job of a new generation;
      an earlier turn that was not asked for a refresh leaves window and generation alone. */
  lemma TurnFiresExactlyWhenDue(s: State, order: seq<nat>, id: nat)
    requires IdsKnown(s) && TurnEnabled(s, Collect(order)) && id in s.entries && id !in s.notifier.full
    ensures var s' := ApplyTurn(s, Collect(order));
            if Expired(s.entries[id], s.now)
            then s'.shared[id].epoch == s.shared[id].epoch + 1 && s'.entries[id].due.None? &&
                 Job(id, true, s.shared[id].epoch + 1) in OutJobs(s'.notifier)
            else s'.shared[id] == s.shared[id] && s'.entries[id] == s.entries[id] &&
                 forall gen :: Job(id, true, gen) !in OutJobs(s'.notifier)
  {
    forall gen ensures Job(id, true, gen) in OutJobs(DoCollect(s, order).notifier) <==>
                       Fires(s.entries[id], id, s.notifier.full, s.now) && gen == s.shared[id].epoch + 1 {
      FiredJobSubmitted(s, order, id, gen);
    }
  }

  /** Whoever passes the epoch check holds parameters at least as new as every bump so far,
      so a result of parameters whose replacement was bumped before the check is discarded. */
  lemma PassedCheckReadAfterBump(q: Query, s0: State, acts: seq<Action>, w: nat)
    requires Initial(s0) && IsRun(q, s0, acts)
    requires var s := After(q, s0, acts); Enabled(s, Work(w, Check)) && Apply(q, s, Work(w, Check)).workers[w].Passed?
    ensures var s := After(q, s0, acts);
            s.shared[s.workers[w].job.id].bumped <= s.workers[w].version
  {
    RunKeepsSound(q, s0, acts);
    var s := After(q, s0, acts);
    assert ReadAfterBump(s.shared, s.workers[w]);
  }
}
