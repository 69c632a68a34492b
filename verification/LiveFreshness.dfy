/** Quiescent freshness: with one worker, whose checkouts succeed, a registered query that has
    nothing outstanding shows the committed database under its current parameters. */
module LiveFreshness {
  import opened Values
  import opened Filter
  import opened LiveSpec
  import opened LiveProtocol
  import opened LiveInvariants

  /** The subscription watches everything its query reads. */
  ghost predicate Tracked(q: Query, e: Entry, id: nat) {
    e.tables.Some? && FiltersWatched(e) &&
    forall db, db', p :: LooksSame(e, db, db') ==> q(id, db, p) == q(id, db', p)
  }

  ghost function Current(q: Query, s: State, id: nat): Outcome
    requires id in s.shared
  {
    q(id, s.db, s.shared[id].params)
  }

  /** The cache that serves new callbacks holds the rows, if there are any. */
  predicate CacheHolds(sh: Shared, r: Outcome) {
    r.Rows? ==> sh.cached == Some(r.rows)
  }

  /** The last published result is the query on the committed state, and new callbacks get its rows. */
  ghost predicate Fresh(q: Query, s: State, id: nat)
    requires id in s.shared
  {
    s.shared[id].published == Some(Current(q, s, id)) && CacheHolds(s.shared[id], Current(q, s, id))
  }

  // ---- Why a stale subscription is going to be refreshed ----

  function Wanted(n: Notifier): set<nat> {
    match n
    case Draining(b) => b.full
    case Collecting(full, _) => full
    case _ => {}
  }

  /** A refresh of the subscription has been asked for, or a rebind still has to ask. */
  ghost predicate RefreshOwed(ops: multiset<Op>, channel: seq<Msg>, n: Notifier, id: nat) {
    Ask(id) in ops || Clear(id) in ops || (exists v: nat :: Bump(id, v) in ops) ||
    Refresh(id) in channel || id in Wanted(n)
  }

  /** An invalidation that hits the entry has not reached the schedule yet. */
  ghost predicate HitOwed(ops: multiset<Op>, channel: seq<Msg>, n: Notifier, e: Entry) {
    (exists m :: Emit(m) in ops && MsgHits(e, m)) ||
    (exists i :: 0 <= i < |channel| && MsgHits(e, channel[i])) ||
    (n.Draining? && Hit(e, n.batch))
  }

  predicate JobOwed(s: State, id: nat)
    requires id in s.shared
  {
    var j := Job(id, true, s.shared[id].epoch);
    j in s.queue || j in OutJobs(s.notifier)
  }

  /** The worker has the newest Full job and has not queried the database yet. */
  predicate EarlyWork(k: Worker, id: nat, epoch: nat) {
    (k.Popped? || k.Ready? || k.Bound?) && k.job == Job(id, true, epoch)
  }

  ghost predicate Coming(s: State, id: nat)
    requires id in s.shared && id in s.entries && |s.workers| == 1
  {
    RefreshOwed(s.ops, s.channel, s.notifier, id) || HitOwed(s.ops, s.channel, s.notifier, s.entries[id]) ||
    s.entries[id].due.Some? || JobOwed(s, id) || EarlyWork(s.workers[0], id, s.shared[id].epoch)
  }

  /** The worker holds a result that it is going to publish. */
  predicate InHand(k: Worker, id: nat, epoch: nat) {
    (k.Ran? && k.job.id == id && k.job.gen == epoch) || ((k.Passed? || k.Cached?) && k.job.id == id)
  }

  ghost predicate HandFresh(q: Query, s: State, id: nat)
    requires id in s.shared && |s.workers| == 1
  {
    InHand(s.workers[0], id, s.shared[id].epoch) && s.workers[0].result == Current(q, s, id) &&
    (s.workers[0].Cached? ==> CacheHolds(s.shared[id], s.workers[0].result))
  }

  /** Fresh, or going to be; and what is in hand is fresh or going to be replaced. */
  ghost predicate Covered(q: Query, s: State, id: nat)
    requires |s.workers| == 1
  {
    id in s.shared && id in s.entries && !s.shared[id].closed &&
    (Fresh(q, s, id) || Coming(s, id) || HandFresh(q, s, id)) &&
    (InHand(s.workers[0], id, s.shared[id].epoch) ==> HandFresh(q, s, id) || Coming(s, id))
  }

  // ---- The engine is open while anything is registered ----

  ghost predicate Open(s: State) {
    if s.down then s.entries == map[]
    else
      !s.queueClosed && !s.notifier.Stopped? && Shutdown !in s.channel && Emit(Shutdown) !in s.ops
  }

  lemma ClientOwesNoShutdown(s: State, c: ClientStep)
    requires Emit(Shutdown) !in s.ops && ClientEnabled(s, c) && !c.CloseAll?
    ensures Emit(Shutdown) !in OpsAfterClient(s, c)
  {
    if c.Commit? { EmitsOnlyEmit(c.emission, Emit(Shutdown)); }
  }

  lemma ClientSendsNoShutdown(s: State, c: ClientStep)
    requires Emit(Shutdown) !in s.ops && ClientEnabled(s, c)
    ensures Shutdown !in SentByClient(c)
  {
  }

  lemma ClientKeepsOpen(s: State, c: ClientStep)
    requires Open(s) && ClientEnabled(s, c)
    ensures Open(ApplyClient(s, c))
  {
    if s.down {
      assert EntriesAfterClient(s, c) == map[];
    } else if !c.CloseAll? {
      ClientOwesNoShutdown(s, c);
      ClientSendsNoShutdown(s, c);
    }
  }

  lemma TurnKeepsOpen(s: State, t: TurnStep)
    requires Open(s) && TurnEnabled(s, t)
    ensures Open(ApplyTurn(s, t))
  {
  }

  lemma WorkKeepsOpen(q: Query, s: State, w: nat, k: WorkStep)
    requires Open(s) && w < |s.workers| && WorkEnabled(s, s.workers[w], k)
    ensures Open(ApplyWork(q, s, w, k))
  {
  }

  // ---- Client steps ----

  lemma ClientKeepsBump(s: State, a: ClientStep, id: nat, v: nat)
    requires Bump(id, v) in s.ops
    ensures Bump(id, v) in OpsAfterClient(s, a) || Clear(id) in OpsAfterClient(s, a)
  {
    if a != RebindBump(id, v) { OpStaysOwed(s, a, Bump(id, v)); }
  }

  lemma ClientKeepsClear(s: State, a: ClientStep, id: nat)
    requires Clear(id) in s.ops
    ensures Clear(id) in OpsAfterClient(s, a) || Ask(id) in OpsAfterClient(s, a)
  {
    if a != RebindClear(id) { OpStaysOwed(s, a, Clear(id)); }
  }

  lemma ClientKeepsAsk(s: State, a: ClientStep, id: nat)
    requires Ask(id) in s.ops
    ensures Ask(id) in OpsAfterClient(s, a) || Refresh(id) in SentByClient(a)
  {
    if a != SendRefresh(id) { OpStaysOwed(s, a, Ask(id)); }
  }

  /** Nothing owed is forgotten by a client step, except what the step itself turns into a message. */
  lemma ClientKeepsRefreshOwed(s: State, a: ClientStep, id: nat)
    requires RefreshOwed(s.ops, s.channel, s.notifier, id)
    ensures RefreshOwed(OpsAfterClient(s, a), s.channel + SentByClient(a), s.notifier, id)
  {
    if Ask(id) in s.ops {
      ClientKeepsAsk(s, a, id);
    } else if Clear(id) in s.ops {
      ClientKeepsClear(s, a, id);
    } else if v: nat :| Bump(id, v) in s.ops {
      ClientKeepsBump(s, a, id, v);
    }
  }

  lemma ClientKeepsHitOwed(s: State, a: ClientStep, e: Entry)
    requires HitOwed(s.ops, s.channel, s.notifier, e)
    ensures HitOwed(OpsAfterClient(s, a), s.channel + SentByClient(a), s.notifier, e)
  {
    var channel := s.channel + SentByClient(a);
    if m :| Emit(m) in s.ops && MsgHits(e, m) {
      if a != Send(m) {
        OpStaysOwed(s, a, Emit(m));
      } else {
        assert channel[|s.channel|] == m;
      }
    } else if i :| 0 <= i < |s.channel| && MsgHits(e, s.channel[i]) {
      assert channel[i] == s.channel[i];
    }
  }

  /** A client step other than a commit, a rebind or a dependency change leaves the subscription's
      own state alone. */
  predicate Quiet(s: State, a: ClientStep, id: nat) {
    !a.Commit? && !(a.RebindParams? && a.id == id) && !(a.RebindBump? && a.id == id) &&
    !(a.Watch? && a.id == id) && !(a.Unregister? && a.id == id) && !a.CloseAll? && id != s.nextId
  }

  lemma QuietKeepsSubscription(s: State, a: ClientStep, id: nat)
    requires Quiet(s, a, id) && id in s.shared && id in s.entries
    ensures id in SharedAfterClient(s, a) && id in EntriesAfterClient(s, a)
    ensures SharedAfterClient(s, a)[id].(cached := s.shared[id].cached) == s.shared[id]
    ensures EntriesAfterClient(s, a)[id].(debounce := s.entries[id].debounce) == s.entries[id]
  {
  }

  lemma SameDependenciesOwed(ops: multiset<Op>, channel: seq<Msg>, n: Notifier, e: Entry, e': Entry)
    requires e.tables == e'.tables && e.filters == e'.filters && HitOwed(ops, channel, n, e)
    ensures HitOwed(ops, channel, n, e')
  {
  }

  lemma QuietKeepsComing(s: State, a: ClientStep, id: nat)
    requires |s.workers| == 1 && id in s.shared && id in s.entries && Quiet(s, a, id) && Coming(s, id)
    ensures id in ApplyClient(s, a).shared && id in ApplyClient(s, a).entries && Coming(ApplyClient(s, a), id)
  {
    QuietKeepsSubscription(s, a, id);
    if RefreshOwed(s.ops, s.channel, s.notifier, id) {
      ClientKeepsRefreshOwed(s, a, id);
    } else if HitOwed(s.ops, s.channel, s.notifier, s.entries[id]) {
      ClientKeepsHitOwed(s, a, s.entries[id]);
      SameDependenciesOwed(OpsAfterClient(s, a), s.channel + SentByClient(a), s.notifier,
                           s.entries[id], EntriesAfterClient(s, a)[id]);
    }
  }

  lemma QuietKeepsCache(s: State, a: ClientStep, id: nat)
    requires Quiet(s, a, id) && id in s.shared && id in s.entries && a != RebindClear(id)
    ensures id in SharedAfterClient(s, a) && SharedAfterClient(s, a)[id].cached == s.shared[id].cached
  {
  }

  lemma QuietKeepsCovered(q: Query, s: State, a: ClientStep, id: nat)
    requires |s.workers| == 1 && Quiet(s, a, id) && Covered(q, s, id) && ClientEnabled(s, a)
    ensures Covered(q, ApplyClient(s, a), id)
  {
    QuietKeepsSubscription(s, a, id);
    if Coming(s, id) {
      QuietKeepsComing(s, a, id);
      assert Coming(ApplyClient(s, a), id);
    } else {
      assert a != RebindClear(id);
      QuietKeepsCache(s, a, id);
      QuietKeepsFresh(q, s, a, id);
    }
  }

  lemma QuietKeepsFresh(q: Query, s: State, a: ClientStep, id: nat)
    requires |s.workers| == 1 && Quiet(s, a, id) && id in s.shared && id in s.entries
    requires id in SharedAfterClient(s, a) && SharedAfterClient(s, a)[id] == s.shared[id]
    ensures Fresh(q, s, id) ==> Fresh(q, ApplyClient(s, a), id)
    ensures HandFresh(q, s, id) ==> HandFresh(q, ApplyClient(s, a), id)
  {
  }

  /** A rebind or a dependency change of the subscription itself owes it a refresh. */
  lemma LoudOwesRefresh(q: Query, s: State, a: ClientStep, id: nat)
    requires |s.workers| == 1 && ClientEnabled(s, a)
    requires (a.RebindParams? || a.RebindBump? || a.Watch?) && a.id == id
    requires id in s.shared && id in s.entries && !s.shared[id].closed
    ensures Covered(q, ApplyClient(s, a), id)
  {
    var s' := ApplyClient(s, a);
    assert RefreshOwed(s'.ops, s'.channel, s'.notifier, id) by {
      assert a.RebindParams? ==> Bump(id, s.shared[id].version + 1) in s'.ops;
      assert a.RebindBump? ==> Clear(id) in s'.ops;
      assert a.Watch? ==> Ask(id) in s'.ops;
    }
    assert Coming(s', id);
  }

  lemma RegisterOwesRefresh(q: Query, s: State, a: ClientStep)
    requires |s.workers| == 1 && a.Register? && a.tables.Some?
    ensures Covered(q, ApplyClient(s, a), s.nextId)
  {
  }

  /** A commit that the subscription can see owes it a hit; one that it cannot see changes nothing. */
  lemma CommitKeepsCovered(q: Query, s: State, a: ClientStep, id: nat)
    requires |s.workers| == 1 && a.Commit? && ClientEnabled(s, a) && Covered(q, s, id)
    requires Tracked(q, s.entries[id], id)
    ensures Covered(q, ApplyClient(s, a), id)
  {
    var s', e := ApplyClient(s, a), s.entries[id];
    assert s'.entries[id] == e && s'.shared[id] == s.shared[id];
    CoveredCommitHits(e, s.db, a.db, a.emission);
    if LooksSame(e, s.db, a.db) {
      assert Current(q, s', id) == Current(q, s, id);
      if Coming(s, id) { CommitKeepsComing(s, a, id); }
    } else {
      var i :| 0 <= i < |a.emission| && MsgHits(e, a.emission[i]);
      EmitsOnlyEmit(a.emission, Emit(a.emission[i]));
      assert Emit(a.emission[i]) in s'.ops;
      assert Coming(s', id);
    }
  }

  lemma CommitKeepsComing(s: State, a: ClientStep, id: nat)
    requires |s.workers| == 1 && id in s.shared && id in s.entries && a.Commit? && Coming(s, id)
    ensures Coming(ApplyClient(s, a), id)
  {
    if RefreshOwed(s.ops, s.channel, s.notifier, id) {
      ClientKeepsRefreshOwed(s, a, id);
    } else if HitOwed(s.ops, s.channel, s.notifier, s.entries[id]) {
      ClientKeepsHitOwed(s, a, s.entries[id]);
    }
  }

  // ---- Notifier steps ----

  lemma ReceiveKeepsOwed(s: State, id: nat, e: Entry)
    requires TurnEnabled(s, Receive) && s.channel[0] != Shutdown
    ensures RefreshOwed(s.ops, s.channel, s.notifier, id) ==>
            RefreshOwed(s.ops, DoReceive(s).channel, DoReceive(s).notifier, id)
    ensures HitOwed(s.ops, s.channel, s.notifier, e) ==>
            HitOwed(s.ops, DoReceive(s).channel, DoReceive(s).notifier, e)
  {
    var b := if s.notifier.Draining? then s.notifier.batch else EMPTY_BATCH;
    GatherKeepsHits(e, b, s.channel[0]);
    if i :| 0 <= i < |s.channel| && MsgHits(e, s.channel[i]) {
      if i > 0 { assert s.channel[1..][i - 1] == s.channel[i]; }
    }
    assert Refresh(id) in s.channel ==> Refresh(id) == s.channel[0] || Refresh(id) in s.channel[1..];
  }

  lemma ReceiveKeepsCovered(q: Query, s: State, id: nat)
    requires |s.workers| == 1 && TurnEnabled(s, Receive) && Open(s) && Covered(q, s, id)
    ensures Covered(q, DoReceive(s), id)
  {
    assert s.channel[0] in s.channel;
    ReceiveKeepsOwed(s, id, s.entries[id]);
  }

  lemma ScheduleKeepsCovered(q: Query, s: State, id: nat)
    requires |s.workers| == 1 && TurnEnabled(s, Schedule) && Covered(q, s, id)
    ensures Covered(q, DoSchedule(s), id)
  {
  }

  lemma CollectKeepsCovered(q: Query, s: State, order: seq<nat>, id: nat)
    requires |s.workers| == 1 && TurnEnabled(s, Collect(order)) && Covered(q, s, id)
    ensures Covered(q, DoCollect(s, order), id)
  {
    var s' := DoCollect(s, order);
    FiredJobSubmitted(s, order, id, s.shared[id].epoch + 1);
    if Fires(s.entries[id], id, s.notifier.full, s.now) {
      assert JobOwed(s', id);
    } else {
      assert s'.entries[id] == s.entries[id] && s'.shared[id] == s.shared[id];
    }
  }

  lemma PushKeepsCovered(q: Query, s: State, t: TurnStep, id: nat)
    requires |s.workers| == 1 && TurnEnabled(s, t) && (t.Push? || t.TurnEnd? || t.Timeout?)
    requires Open(s) && Covered(q, s, id)
    ensures Covered(q, ApplyTurn(s, t), id)
  {
  }

  lemma TurnKeepsCovered(q: Query, s: State, t: TurnStep, id: nat)
    requires |s.workers| == 1 && TurnEnabled(s, t) && Open(s) && Covered(q, s, id)
    ensures Covered(q, ApplyTurn(s, t), id)
  {
    match t {
      case Receive => ReceiveKeepsCovered(q, s, id);
      case Schedule => ScheduleKeepsCovered(q, s, id);
      case Collect(order) => CollectKeepsCovered(q, s, order, id);
      case _ => PushKeepsCovered(q, s, t, id);
    }
  }

  // ---- Worker steps ----

  /** No checkout of a job of this subscription fails, and its dependencies are real tables. */
  predicate Smooth(s: State, a: Action, id: nat) {
    a.Work? && a.w < |s.workers| && !s.workers[a.w].Idle? && s.workers[a.w].job.id == id ==>
      !a.work.Drop? && a.work != Validate(false)
  }

  /** A Full job that is still current ran with the current parameters, or a rebind is at work. */
  lemma CurrentRunIsFresh(q: Query, s: State, id: nat)
    requires |s.workers| == 1 && GuardHolds(s) && id in s.shared && id in s.entries
    requires s.workers[0].Bound? && s.workers[0].job.id == id && s.workers[0].job.gen == s.shared[id].epoch
    ensures s.workers[0].params == s.shared[id].params || RefreshOwed(s.ops, s.channel, s.notifier, id)
  {
    assert ReadAfterBump(s.shared, s.workers[0]);
    assert VersionTracked(s.shared[id], s.ops, id);
    if s.workers[0].version < s.shared[id].version {
      assert Bump(id, s.shared[id].version) in s.ops;
    }
  }

  lemma PopKeepsCovered(q: Query, s: State, id: nat)
    requires |s.workers| == 1 && WorkEnabled(s, s.workers[0], Pop) && Covered(q, s, id)
    ensures Covered(q, ApplyWork(q, s, 0, Pop), id)
  {
  }

  lemma RunKeepsCovered(q: Query, s: State, id: nat)
    requires |s.workers| == 1 && WorkEnabled(s, s.workers[0], Run) && Covered(q, s, id) && GuardHolds(s)
    ensures Covered(q, ApplyWork(q, s, 0, Run), id)
  {
  }

  /** Steps that only move the worker on. */
  lemma MoveKeepsCovered(q: Query, s: State, a: WorkStep, id: nat)
    requires |s.workers| == 1 && WorkEnabled(s, s.workers[0], a) && Covered(q, s, id) && Smooth(s, Work(0, a), id)
    requires a.Drop? || a.ServeCached? || a.Bind? || a.Check?
    ensures Covered(q, ApplyWork(q, s, 0, a), id)
  {
  }

  /** Steps that write to the subscription's shared part. */
  lemma WriteKeepsCovered(q: Query, s: State, a: WorkStep, id: nat)
    requires |s.workers| == 1 && WorkEnabled(s, s.workers[0], a) && Covered(q, s, id) && Smooth(s, Work(0, a), id)
    requires a.Validate? || a.Cache? || a.Publish?
    ensures Covered(q, ApplyWork(q, s, 0, a), id)
  {
  }

  lemma WorkKeepsCovered(q: Query, s: State, a: WorkStep, id: nat)
    requires |s.workers| == 1 && WorkEnabled(s, s.workers[0], a) && Covered(q, s, id) && GuardHolds(s)
    requires Smooth(s, Work(0, a), id)
    ensures Covered(q, ApplyWork(q, s, 0, a), id)
  {
    match a {
      case Pop => PopKeepsCovered(q, s, id);
      case Run => RunKeepsCovered(q, s, id);
      case _ =>
        if a.Validate? || a.Cache? || a.Publish? {
          WriteKeepsCovered(q, s, a, id);
        } else {
          MoveKeepsCovered(q, s, a, id);
        }
    }
  }

  // ---- Whole runs ----

  /** A registered subscription's slot has not been closed. */
  predicate SlotsOpen(s: State) {
    forall id <- s.entries.Keys :: id in s.shared && !s.shared[id].closed
  }

  lemma ClientKeepsSlotOpen(s: State, a: ClientStep, id: nat)
    requires IdsKnown(s) && SlotsOpen(s) && id in EntriesAfterClient(s, a)
    ensures id in SharedAfterClient(s, a) && !SharedAfterClient(s, a)[id].closed
  {
  }

  lemma ClientKeepsSlotsOpen(s: State, c: ClientStep)
    requires IdsKnown(s) && SlotsOpen(s)
    ensures SlotsOpen(ApplyClient(s, c))
  {
    forall id <- EntriesAfterClient(s, c).Keys
      ensures id in SharedAfterClient(s, c) && !SharedAfterClient(s, c)[id].closed
    {
      ClientKeepsSlotOpen(s, c, id);
    }
  }

  lemma TurnKeepsSlotsOpen(s: State, t: TurnStep)
    requires SlotsOpen(s) && TurnEnabled(s, t)
    ensures SlotsOpen(ApplyTurn(s, t))
  {
  }

  lemma WorkKeepsSlotsOpen(q: Query, s: State, w: nat, k: WorkStep)
    requires SlotsOpen(s) && w < |s.workers| && WorkEnabled(s, s.workers[w], k)
    ensures SlotsOpen(ApplyWork(q, s, w, k))
  {
  }

  /** Everything the freshness argument carries along a run, for one subscription. */
  ghost predicate Good(q: Query, s: State, id: nat) {
    Sound(s) && Open(s) && SlotsOpen(s) && |s.workers| == 1 &&
    (id in s.entries && Tracked(q, s.entries[id], id) ==> Covered(q, s, id))
  }

  lemma SameDependenciesTracked(q: Query, e: Entry, e': Entry, id: nat)
    requires e.tables == e'.tables && e.filters == e'.filters && Tracked(q, e', id)
    ensures Tracked(q, e, id)
  {
  }

  lemma ClientKeepsGood(q: Query, s: State, a: ClientStep, id: nat)
    requires Good(q, s, id) && ClientEnabled(s, a)
    requires id in EntriesAfterClient(s, a) && Tracked(q, EntriesAfterClient(s, a)[id], id)
    ensures Covered(q, ApplyClient(s, a), id)
  {
    if id == s.nextId {
      assert id !in s.entries;
      RegisterOwesRefresh(q, s, a);
    } else if (a.RebindParams? || a.RebindBump? || a.Watch?) && a.id == id {
      assert id in s.entries;
      LoudOwesRefresh(q, s, a, id);
    } else {
      ClientKeepsWindow(s, a, id);
      if a.Commit? {
        CommitKeepsCovered(q, s, a, id);
      } else {
        QuietKeepsSubscription(s, a, id);
        SameDependenciesTracked(q, s.entries[id], EntriesAfterClient(s, a)[id], id);
        QuietKeepsCovered(q, s, a, id);
      }
    }
  }

  lemma TurnKeepsDependencies(s: State, t: TurnStep, id: nat)
    requires TurnEnabled(s, t) && id in ApplyTurn(s, t).entries
    ensures id in s.entries && ApplyTurn(s, t).entries[id].tables == s.entries[id].tables
    ensures ApplyTurn(s, t).entries[id].filters == s.entries[id].filters
    ensures ApplyTurn(s, t).workers == s.workers
  {
  }

  lemma StepKeepsGood(q: Query, s: State, a: Action, id: nat)
    requires Good(q, s, id) && Enabled(s, a) && Smooth(s, a, id)
    ensures Good(q, Apply(q, s, a), id)
  {
    StepKeepsSound(q, s, a);
    match a {
      case Client(c) =>
        ClientKeepsSlotsOpen(s, c);
        ClientKeepsOpen(s, c);
        if id in EntriesAfterClient(s, c) && Tracked(q, EntriesAfterClient(s, c)[id], id) {
          ClientKeepsGood(q, s, c, id);
        }
      case Turn(t) =>
        TurnKeepsSlotsOpen(s, t);
        TurnKeepsOpen(s, t);
        TurnKeepsGood(q, s, t, id);
      case Work(w, k) =>
        WorkKeepsSlotsOpen(q, s, w, k);
        WorkKeepsOpen(q, s, w, k);
        if id in s.entries && Tracked(q, s.entries[id], id) { WorkKeepsCovered(q, s, k, id); }
    }
  }

  lemma TurnKeepsGood(q: Query, s: State, t: TurnStep, id: nat)
    requires Good(q, s, id) && TurnEnabled(s, t)
    ensures |ApplyTurn(s, t).workers| == 1
    ensures id in ApplyTurn(s, t).entries && Tracked(q, ApplyTurn(s, t).entries[id], id) ==>
            Covered(q, ApplyTurn(s, t), id)
  {
    if id in ApplyTurn(s, t).entries {
      TurnKeepsDependencies(s, t, id);
      if Tracked(q, ApplyTurn(s, t).entries[id], id) {
        SameDependenciesTracked(q, s.entries[id], ApplyTurn(s, t).entries[id], id);
        TurnKeepsCovered(q, s, t, id);
      }
    }
  }

  /** A run in which no checkout for the subscription fails and its tables exist. */
  ghost predicate SmoothRun(q: Query, s: State, acts: seq<Action>, id: nat)
    requires IsRun(q, s, acts)
    decreases |acts|
  {
    acts == [] || (Smooth(s, acts[0], id) && SmoothRun(q, Apply(q, s, acts[0]), acts[1..], id))
  }

  lemma {:induction false} RunKeepsGood(q: Query, s: State, acts: seq<Action>, id: nat)
    requires IsRun(q, s, acts) && SmoothRun(q, s, acts, id) && Good(q, s, id)
    ensures Good(q, After(q, s, acts), id)
    decreases |acts|
  {
    if acts != [] {
      StepKeepsGood(q, s, acts[0], id);
      RunKeepsGood(q, Apply(q, s, acts[0]), acts[1..], id);
    }
  }

  /** No emission, rebind, message, window or job is outstanding. */
  predicate Quiescent(s: State, id: nat) {
    s.ops == multiset{} && s.channel == [] && s.notifier == Waiting && s.queue == [] &&
    (forall w :: 0 <= w < |s.workers| ==> s.workers[w].Idle?) &&
    id in s.entries && s.entries[id].due.None?
  }

  /** Whatever clients, writers, the notifier and the worker did before: once nothing is outstanding,
      a registered subscription shows its query on the committed state under its current parameters. */
  lemma QuiescentMeansFresh(q: Query, s: State, acts: seq<Action>, id: nat)
    requires Initial(s) && |s.workers| == 1 && IsRun(q, s, acts) && SmoothRun(q, s, acts, id)
    requires Quiescent(After(q, s, acts), id) && Tracked(q, After(q, s, acts).entries[id], id)
    ensures id in After(q, s, acts).shared && Fresh(q, After(q, s, acts), id)
  {
    InitialGood(q, s, id);
    RunKeepsGood(q, s, acts, id);
    NothingComing(q, After(q, s, acts), id);
  }

  lemma InitialGood(q: Query, s: State, id: nat)
    requires Initial(s) && |s.workers| == 1
    ensures Good(q, s, id)
  {
  }

  lemma NothingComing(q: Query, t: State, id: nat)
    requires |t.workers| == 1 && Covered(q, t, id) && Quiescent(t, id)
    ensures Fresh(q, t, id)
  {
  }

  // ---- Rebinding ----

  /** A rebind from start to end: new parameters, stale jobs, an empty cache and a refresh that is owed. */
  lemma RebindRuns(q: Query, s: State, id: nat, params: Params)
    requires id in s.shared
    ensures var v := s.shared[id].version + 1;
            var s1 := ApplyClient(s, RebindParams(id, params));
            var s2 := ApplyClient(s1, RebindBump(id, v));
            var s3 := ApplyClient(s2, RebindClear(id));
            Enabled(s1, Client(RebindBump(id, v))) && Enabled(s2, Client(RebindClear(id))) &&
            s3.shared[id].params == params && s3.shared[id].cached == None &&
            s3.shared[id].epoch == s.shared[id].epoch + 1 && Ask(id) in s3.ops
  {
  }

  /** A rebind whose parts all fall between a worker's epoch check and its write to the cache. */
  function LateRebind(id: nat, params: Params, version: nat): seq<Action> {
    [Client(RebindParams(id, params)), Client(RebindBump(id, version)), Client(RebindClear(id)), Work(0, Cache)]
  }

  lemma StepsFrom(q: Query, s: State, a: Action, rest: seq<Action>)
    requires Enabled(s, a) && IsRun(q, Apply(q, s, a), rest)
    ensures IsRun(q, s, [a] + rest) && After(q, s, [a] + rest) == After(q, Apply(q, s, a), rest)
  {
    var acts := [a] + rest;
    assert acts[0] == a && acts[1..] == rest;
  }

  lemma LateCache(q: Query, s: State, id: nat)
    requires |s.workers| == 1 && s.workers[0].Passed? && s.workers[0].job.id == id && s.workers[0].result.Rows?
    requires id in s.shared
    ensures var acts := [Work(0, Cache)];
            IsRun(q, s, acts) && After(q, s, acts).ops == s.ops && id in After(q, s, acts).shared &&
            After(q, s, acts).shared[id] == s.shared[id].(cached := Some(s.workers[0].result.rows))
  {
    var s' := ApplyWork(q, s, 0, Cache);
    assert IsRun(q, s', []) && After(q, s', []) == s';
    StepsFrom(q, s, Work(0, Cache), []);
    assert [Work(0, Cache)] + [] == [Work(0, Cache)];
  }

  lemma LateBump(q: Query, s: State, id: nat, v: nat)
    requires |s.workers| == 1 && s.workers[0].Passed? && s.workers[0].job.id == id && s.workers[0].result.Rows?
    requires id in s.shared && Bump(id, v) in s.ops
    ensures var acts := [Client(RebindBump(id, v)), Client(RebindClear(id)), Work(0, Cache)];
            IsRun(q, s, acts) && id in After(q, s, acts).shared && Ask(id) in After(q, s, acts).ops &&
            After(q, s, acts).shared[id].params == s.shared[id].params &&
            After(q, s, acts).shared[id].cached == Some(s.workers[0].result.rows)
  {
    var s1 := ApplyClient(s, RebindBump(id, v));
    var rest := [Client(RebindClear(id)), Work(0, Cache)];
    LateCache(q, ApplyClient(s1, RebindClear(id)), id);
    StepsFrom(q, s1, Client(RebindClear(id)), [Work(0, Cache)]);
    assert [Client(RebindClear(id))] + [Work(0, Cache)] == rest;
    StepsFrom(q, s, Client(RebindBump(id, v)), rest);
    assert [Client(RebindBump(id, v))] + rest ==
      [Client(RebindBump(id, v)), Client(RebindClear(id)), Work(0, Cache)];
  }

  /** Such a rebind does not empty the cache for good: rows of the old parameters come back. They stay
      until a query of the new parameters gives rows, as the refresh that is owed then does. */
  lemma LateRebindLeavesOldRows(q: Query, s: State, id: nat, params: Params)
    requires |s.workers| == 1 && s.workers[0].Passed? && s.workers[0].job.id == id && s.workers[0].result.Rows?
    requires id in s.shared
    ensures var acts := LateRebind(id, params, s.shared[id].version + 1);
            IsRun(q, s, acts) && id in After(q, s, acts).shared &&
            After(q, s, acts).shared[id].params == params && Ask(id) in After(q, s, acts).ops &&
            After(q, s, acts).shared[id].cached == Some(s.workers[0].result.rows)
  {
    var v := s.shared[id].version + 1;
    var s1 := ApplyClient(s, RebindParams(id, params));
    LateBump(q, s1, id, v);
    var rest := [Client(RebindBump(id, v)), Client(RebindClear(id)), Work(0, Cache)];
    StepsFrom(q, s, Client(RebindParams(id, params)), rest);
    assert LateRebind(id, params, v) == [Client(RebindParams(id, params))] + rest;
  }
}
