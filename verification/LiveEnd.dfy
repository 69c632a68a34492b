/** The end of a subscription: results that were in flight when it was dropped are discarded, and a
    closed one shows that it is closed from then on. */
module LiveEnd {
  import opened Values
  import opened LiveSpec
  import opened LiveProtocol
  import opened LiveInvariants

  predicate Stale(shared: map<nat, Shared>, j: Job, id: nat) {
    j.id == id ==> id in shared && j.gen < shared[id].epoch
  }

  predicate AllStale(shared: map<nat, Shared>, jobs: seq<Job>, id: nat) {
    forall i :: 0 <= i < |jobs| ==> Stale(shared, jobs[i], id)
  }

  predicate WorkersStale(shared: map<nat, Shared>, workers: seq<Worker>, id: nat) {
    forall w :: 0 <= w < |workers| && !workers[w].Idle? ==> Stale(shared, workers[w].job, id)
  }

  /** The subscription is no longer registered, and every job of it is of an earlier generation. */
  predicate Ended(s: State, id: nat) {
    id in s.shared && id !in s.entries && id < s.nextId &&
    AllStale(s.shared, s.queue, id) && AllStale(s.shared, OutJobs(s.notifier), id) &&
    WorkersStale(s.shared, s.workers, id)
  }

  lemma GrowthKeepsStale(a: map<nat, Shared>, b: map<nat, Shared>, j: Job, id: nat)
    requires Grew(a, b) && Stale(a, j, id)
    ensures Stale(b, j, id)
  {
  }

  lemma GrowthKeepsAllStale(a: map<nat, Shared>, b: map<nat, Shared>, jobs: seq<Job>, id: nat)
    requires Grew(a, b) && AllStale(a, jobs, id)
    ensures AllStale(b, jobs, id)
  {
  }

  lemma GrowthKeepsWorkersStale(a: map<nat, Shared>, b: map<nat, Shared>, workers: seq<Worker>, id: nat)
    requires Grew(a, b) && WorkersStale(a, workers, id)
    ensures WorkersStale(b, workers, id)
  {
  }

  lemma ClientKeepsEnded(s: State, c: ClientStep, id: nat)
    requires Sound(s) && Ended(s, id)
    ensures Ended(ApplyClient(s, c), id)
  {
    ClientGrows(s, c);
    GrowthKeepsAllStale(s.shared, SharedAfterClient(s, c), s.queue, id);
    GrowthKeepsAllStale(s.shared, SharedAfterClient(s, c), OutJobs(s.notifier), id);
    GrowthKeepsWorkersStale(s.shared, SharedAfterClient(s, c), s.workers, id);
    assert id !in EntriesAfterClient(s, c);
  }

  /** A turn submits jobs of registered subscriptions only. */
  lemma CollectedAreOthers(s: State, order: seq<nat>, id: nat)
    requires TurnEnabled(s, Collect(order)) && id !in s.entries
    ensures AllStale(DoCollect(s, order).shared, OutJobs(DoCollect(s, order).notifier), id)
  {
    var s' := DoCollect(s, order);
    forall i | 0 <= i < |s'.notifier.out| ensures Stale(s'.shared, s'.notifier.out[i], id) {
      JobInOrder(s.entries, Epochs(s.shared), order, s.notifier.full, s.notifier.newOnly, s.now, s'.notifier.out[i]);
    }
  }

  lemma TurnKeepsEnded(s: State, t: TurnStep, id: nat)
    requires Ended(s, id) && TurnEnabled(s, t)
    ensures Ended(ApplyTurn(s, t), id)
  {
    var s' := ApplyTurn(s, t);
    TurnGrows(s, t);
    GrowthKeepsAllStale(s.shared, s'.shared, s.queue, id);
    GrowthKeepsAllStale(s.shared, s'.shared, OutJobs(s.notifier), id);
    GrowthKeepsWorkersStale(s.shared, s'.shared, s.workers, id);
    if t.Collect? { CollectedAreOthers(s, t.order, id); }
    if t.Push? { assert OutJobs(s.notifier)[0] == s.notifier.out[0]; }
  }

  lemma WorkKeepsEnded(q: Query, s: State, w: nat, a: WorkStep, id: nat)
    requires Ended(s, id) && w < |s.workers| && WorkEnabled(s, s.workers[w], a)
    ensures Ended(ApplyWork(q, s, w, a), id)
  {
    var s' := WorkEffect(s, s.workers[w], a);
    WorkGrows(s, s.workers[w], a);
    GrowthKeepsAllStale(s.shared, s'.shared, s.queue, id);
    GrowthKeepsAllStale(s.shared, s'.shared, OutJobs(s.notifier), id);
    GrowthKeepsWorkersStale(s.shared, s'.shared, s.workers, id);
    var k := NextPhase(q, s, s.workers[w], a);
    assert k.Idle? || k.job == (if a.Pop? then s.queue[0] else s.workers[w].job);
  }

  lemma StepKeepsEnded(q: Query, s: State, a: Action, id: nat)
    requires Sound(s) && Enabled(s, a) && Ended(s, id)
    ensures Ended(Apply(q, s, a), id)
  {
    match a {
      case Client(c) => ClientKeepsEnded(s, c, id);
      case Turn(t) => TurnKeepsEnded(s, t, id);
      case Work(w, k) => WorkKeepsEnded(q, s, w, k, id);
    }
  }

  predicate Ends(c: ClientStep, id: nat) {
    (c.Unregister? && c.id == id) || c.CloseAll?
  }

  lemma EndingMakesStale(s: State, c: ClientStep, id: nat)
    requires Sound(s) && id in s.entries && Ends(c, id)
    ensures Ended(ApplyClient(s, c), id)
  {
    assert SharedAfterClient(s, c)[id].epoch == s.shared[id].epoch + 1;
    assert forall j: Job :: JobKnown(s.shared, j) ==> Stale(SharedAfterClient(s, c), j, id);
  }

  lemma {:induction false} RunKeepsEnded(q: Query, s: State, acts: seq<Action>, id: nat)
    requires Sound(s) && IsRun(q, s, acts) && Ended(s, id)
    ensures Ended(After(q, s, acts), id)
    decreases |acts|
  {
    if acts != [] {
      StepKeepsSound(q, s, acts[0]);
      StepKeepsEnded(q, s, acts[0], id);
      RunKeepsEnded(q, Apply(q, s, acts[0]), acts[1..], id);
    }
  }

  /** However long after a subscription was dropped or closed: no worker that comes to the epoch check
      with a result of it gets past it. */
  lemma EndedResultsAreDiscarded(q: Query, s0: State, before: seq<Action>, c: ClientStep, id: nat,
                                 acts: seq<Action>, w: nat)
    requires Initial(s0) && IsRun(q, s0, before) && id in After(q, s0, before).entries && Ends(c, id)
    requires ClientEnabled(After(q, s0, before), c) && IsRun(q, ApplyClient(After(q, s0, before), c), acts)
    requires var s := After(q, ApplyClient(After(q, s0, before), c), acts);
             Enabled(s, Work(w, Check)) && s.workers[w].job.id == id
    ensures var s := After(q, ApplyClient(After(q, s0, before), c), acts);
            Apply(q, s, Work(w, Check)).workers[w] == Idle && Apply(q, s, Work(w, Check)).shared == s.shared
  {
    var s := After(q, s0, before);
    RunKeepsSound(q, s0, before);
    EndingMakesStale(s, c, id);
    StepKeepsSound(q, s, Client(c));
    RunKeepsEnded(q, ApplyClient(s, c), acts, id);
  }

  // ---- A closed subscription stays closed ----

  predicate ShowsClosed(s: State, id: nat) {
    id in s.shared && id !in s.entries && id < s.nextId &&
    s.shared[id].closed && s.shared[id].published == Some(Failed("closed"))
  }

  lemma StepKeepsClosed(q: Query, s: State, a: Action, id: nat)
    requires Enabled(s, a) && ShowsClosed(s, id)
    ensures ShowsClosed(Apply(q, s, a), id)
  {
    match a {
      case Client(c) => ClientKeepsClosed(s, c, id);
      case Turn(t) => TurnKeepsClosed(s, t, id);
      case Work(w, k) => WorkKeepsClosed(s, s.workers[w], k, id);
    }
  }

  lemma ClientKeepsClosed(s: State, c: ClientStep, id: nat)
    requires ShowsClosed(s, id)
    ensures ShowsClosed(ApplyClient(s, c), id)
  {
  }

  lemma TurnKeepsClosed(s: State, t: TurnStep, id: nat)
    requires TurnEnabled(s, t) && ShowsClosed(s, id)
    ensures ShowsClosed(ApplyTurn(s, t), id)
  {
  }

  lemma WorkKeepsClosed(s: State, k: Worker, a: WorkStep, id: nat)
    requires WorkEnabled(s, k, a) && ShowsClosed(s, id)
    ensures ShowsClosed(WorkEffect(s, k, a), id)
  {
  }

  lemma {:induction false} ClosedForGood(q: Query, s: State, acts: seq<Action>, id: nat)
    requires IsRun(q, s, acts) && ShowsClosed(s, id)
    ensures ShowsClosed(After(q, s, acts), id)
    decreases |acts|
  {
    if acts != [] {
      StepKeepsClosed(q, s, acts[0], id);
      ClosedForGood(q, Apply(q, s, acts[0]), acts[1..], id);
    }
  }

  /** Closing the database shows every registered subscription as closed, whatever workers do later. */
  lemma CloseShows(q: Query, s0: State, before: seq<Action>, acts: seq<Action>, id: nat)
    requires Initial(s0) && IsRun(q, s0, before) && id in After(q, s0, before).entries
    requires IsRun(q, ApplyClient(After(q, s0, before), CloseAll), acts)
    ensures var s := After(q, ApplyClient(After(q, s0, before), CloseAll), acts);
            id in s.shared && id !in s.entries && s.shared[id].published == Some(Failed("closed"))
  {
    RunKeepsSound(q, s0, before);
    ClosedForGood(q, ApplyClient(After(q, s0, before), CloseAll), acts, id);
  }
}
