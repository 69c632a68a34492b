/** The live-query engine as a protocol: writers, the message channel, the notifier,
    the job queue and its workers. One action is one lock-held section or one atomic
    operation of the source; a run is any sequence of enabled actions. */
module LiveProtocol {
  import opened Values
  import opened Filter
  import opened LiveSpec

  type Params = seq<Value>
  datatype Outcome = Rows(rows: seq<Row>) | Failed(message: string)

  /** The query of each subscription, as a function of the committed database. */
  type Query = (nat, Db, Params) -> Outcome

  /** History of one subscription: a hit at `at` under debounce `wait`, or a submitted Full job. */
  datatype Event = HitAt(at: nat, wait: nat) | FullJob(gen: nat)

  /** State shared by a subscription's handle and its refresh closure. `version` counts
      parameter replacements and `bumped` is the newest one whose epoch bump happened. */
  datatype Shared = Shared(epoch: nat, params: Params, version: nat, bumped: nat,
                           cached: Option<seq<Row>>, published: Option<Outcome>,
                           validate: bool, closed: bool, history: seq<Event>)

  /** What a client or writer still has to do after an atomic part of its call. */
  datatype Op =
    | Emit(msg: Msg)
    | Ask(id: nat)
    | Bump(id: nat, version: nat)
    | Clear(id: nat)

  datatype Notifier =
    | Waiting
    | Draining(batch: Batch)
    | Collecting(full: set<nat>, newOnly: set<nat>)
    | Pushing(out: seq<Job>)
    | Stopped

  datatype Worker =
    | Idle
    | Popped(job: Job)
    | Ready(job: Job)
    | Bound(job: Job, params: Params, version: nat)
    | Ran(job: Job, version: nat, result: Outcome)
    | Passed(job: Job, version: nat, result: Outcome)
    | Cached(job: Job, result: Outcome)

  datatype State = State(now: nat, db: Db, entries: map<nat, Entry>, shared: map<nat, Shared>, nextId: nat,
                         ops: multiset<Op>, channel: seq<Msg>, notifier: Notifier,
                         queue: seq<Job>, queueClosed: bool, workers: seq<Worker>, down: bool)

  /** Atomic parts of the calls of clients and writers. */
  datatype ClientStep =
    | Tick
    | Commit(db: Db, emission: seq<Msg>)
    | Send(msg: Msg)
    | Register(tables: Option<set<string>>, filters: Option<seq<RowFilter>>, debounce: nat, params: Params)
    | SendRefresh(id: nat)
    | RebindParams(id: nat, params: Params)
    | RebindBump(id: nat, version: nat)
    | RebindClear(id: nat)
    | Watch(id: nat, watched: set<string>)
    | SetDebounce(id: nat, debounce: nat)
    | Unregister(id: nat)
    | AskNew(id: nat)
    | CloseAll

  /** Parts of one notifier turn. */
  datatype TurnStep = Receive | Timeout | Schedule | Collect(order: seq<nat>) | Push | TurnEnd

  /** Parts of one worker job. */
  datatype WorkStep = Pop | Drop | ServeCached | Validate(tablesExist: bool) | Bind | Run | Check | Cache | Publish

  datatype Action = Client(step: ClientStep) | Turn(turn: TurnStep) | Work(w: nat, work: WorkStep)

  predicate HasCache(s: State, id: nat) {
    id in s.shared && s.shared[id].cached.Some?
  }

  function Epochs(shared: map<nat, Shared>): map<nat, nat> {
    map id <- shared.Keys :: shared[id].epoch
  }

  function SetShared(s: State, id: nat, v: Shared): State {
    s.(shared := s.shared[id := v])
  }

  // ---- Clients and writers ----

  ghost predicate ClientEnabled(s: State, a: ClientStep) {
    match a
    case Commit(db, emission) =>
      EmissionCovers(s.db, db, emission) && forall m <- emission :: m.Invalidate? || m.Changes?
    case Send(m) => Emit(m) in s.ops
    case Register(tables, filters, _, _) => !s.down && FiltersWatched(Entry(tables, filters, 0, None))
    case SendRefresh(id) => Ask(id) in s.ops
    case RebindParams(id, _) => id in s.shared
    case RebindBump(id, v) => Bump(id, v) in s.ops && id in s.shared
    case RebindClear(id) => Clear(id) in s.ops && id in s.shared
    case Watch(id, _) => id in s.shared
    case _ => true
  }

  function Emits(ms: seq<Msg>): multiset<Op> {
    if ms == [] then multiset{} else multiset{Emit(ms[0])} + Emits(ms[1..])
  }

  function ClosedShared(sh: Shared): Shared {
    sh.(epoch := sh.epoch + 1, closed := true, published := Some(Failed("closed")))
  }

  function NewShared(params: Params, known: bool): Shared {
    Shared(0, params, 0, 0, None, None, known, false, [])
  }

  function Rebound(sh: Shared, params: Params): Shared {
    sh.(params := params, version := sh.version + 1)
  }

  function Bumped(sh: Shared, v: nat): Shared {
    sh.(epoch := sh.epoch + 1, bumped := if v > sh.bumped then v else sh.bumped)
  }

  function SharedAfterClient(s: State, a: ClientStep): map<nat, Shared> {
    match a
    case Register(tables, _, _, params) => s.shared[s.nextId := NewShared(params, tables.Some?)]
    case RebindParams(id, params) => if id in s.shared then s.shared[id := Rebound(s.shared[id], params)] else s.shared
    case RebindBump(id, v) => if id in s.shared then s.shared[id := Bumped(s.shared[id], v)] else s.shared
    case RebindClear(id) => if id in s.shared then s.shared[id := s.shared[id].(cached := None)] else s.shared
    case Unregister(id) =>
      if id in s.entries && id in s.shared then s.shared[id := s.shared[id].(epoch := s.shared[id].epoch + 1)]
        else s.shared
    case CloseAll =>
      map id <- s.shared.Keys :: if id in s.entries then ClosedShared(s.shared[id]) else s.shared[id]
    case _ => s.shared
  }

  function EntriesAfterClient(s: State, a: ClientStep): map<nat, Entry> {
    match a
    case Register(tables, filters, debounce, _) => s.entries[s.nextId := Entry(tables, filters, debounce, None)]
    case Watch(id, tables) =>
      if id in s.entries then s.entries[id := s.entries[id].(tables := Some(tables))] else s.entries
    case SetDebounce(id, d) =>
      if id in s.entries then s.entries[id := s.entries[id].(debounce := d)] else s.entries
    case Unregister(id) => s.entries - {id}
    case CloseAll => map[]
    case _ => s.entries
  }

  function OpsAfterClient(s: State, a: ClientStep): multiset<Op> {
    match a
    case Commit(_, emission) => s.ops + Emits(emission)
    case Send(m) => s.ops - multiset{Emit(m)}
    case Register(tables, _, _, _) => if tables.Some? then s.ops + multiset{Ask(s.nextId)} else s.ops
    case SendRefresh(id) => s.ops - multiset{Ask(id)}
    case RebindParams(id, _) =>
      if id in s.shared then s.ops + multiset{Bump(id, s.shared[id].version + 1)} else s.ops
    case RebindBump(id, v) => s.ops - multiset{Bump(id, v)} + multiset{Clear(id)}
    case RebindClear(id) => s.ops - multiset{Clear(id)} + multiset{Ask(id)}
    case Watch(id, _) => s.ops + multiset{Ask(id)}
    case CloseAll => s.ops + multiset{Emit(Shutdown)}
    case _ => s.ops
  }

  function SentByClient(a: ClientStep): seq<Msg> {
    match a
    case Send(m) => [m]
    case SendRefresh(id) => [Refresh(id)]
    case AskNew(id) => [RefreshNew(id)]
    case _ => []
  }

  function ApplyClient(s: State, a: ClientStep): State {
    s.(now := if a.Tick? then s.now + 1 else s.now,
       db := if a.Commit? then a.db else s.db,
       entries := EntriesAfterClient(s, a),
       shared := SharedAfterClient(s, a),
       nextId := if a.Register? then s.nextId + 1 else s.nextId,
       ops := OpsAfterClient(s, a),
       channel := s.channel + SentByClient(a),
       down := s.down || a.CloseAll?)
  }

  // ---- The notifier ----

  predicate TurnEnabled(s: State, a: TurnStep) {
    match a
    case Receive => (s.notifier.Waiting? || s.notifier.Draining?) && s.channel != []
    case Timeout => s.notifier.Waiting? && exists id <- s.entries.Keys :: Expired(s.entries[id], s.now)
    case Schedule => s.notifier.Draining?
    case Collect(order) =>
      s.notifier.Collecting? && Enumerates(order, s.entries.Keys) && s.entries.Keys <= s.shared.Keys
    case Push => s.notifier.Pushing? && s.notifier.out != []
    case TurnEnd => s.notifier == Pushing([])
  }

  function DoReceive(s: State): State
    requires s.channel != []
  {
    var m := s.channel[0];
    var s' := s.(channel := s.channel[1..]);
    if m == Shutdown then s'.(notifier := Stopped, queueClosed := true, queue := [])
    else s'.(notifier := Draining(Gather(if s.notifier.Draining? then s.notifier.batch else EMPTY_BATCH, m)))
  }

  function SharedAfterSchedule(sh: Shared, e: Entry, b: Batch, now: nat): Shared {
    if Hit(e, b) then sh.(history := sh.history + [HitAt(now, e.debounce)]) else sh
  }

  function ScheduledEntries(entries: map<nat, Entry>, b: Batch, now: nat): map<nat, Entry> {
    map id <- entries.Keys :: Scheduled(entries[id], b, now)
  }

  function ScheduledShared(shared: map<nat, Shared>, entries: map<nat, Entry>, b: Batch, now: nat): map<nat, Shared> {
    map id <- shared.Keys :: if id in entries then SharedAfterSchedule(shared[id], entries[id], b, now) else shared[id]
  }

  function DoSchedule(s: State): State
    requires s.notifier.Draining?
  {
    var b := s.notifier.batch;
    s.(entries := ScheduledEntries(s.entries, b, s.now),
       shared := ScheduledShared(s.shared, s.entries, b, s.now),
       notifier := Collecting(b.full, b.newOnly))
  }

  function SharedAfterCollect(sh: Shared, e: Entry, id: nat, full: set<nat>, now: nat): Shared {
    if Fires(e, id, full, now)
    then sh.(epoch := sh.epoch + 1, history := sh.history + [FullJob(sh.epoch + 1)])
    else sh
  }

  function CollectedEntries(entries: map<nat, Entry>, full: set<nat>, now: nat): map<nat, Entry> {
    map id <- entries.Keys :: Collected(entries[id], id, full, now)
  }

  function CollectedShared(shared: map<nat, Shared>, entries: map<nat, Entry>, full: set<nat>,
                           now: nat): map<nat, Shared> {
    map id <- shared.Keys :: if id in entries then SharedAfterCollect(shared[id], entries[id], id, full, now)
      else shared[id]
  }

  function DoCollect(s: State, order: seq<nat>): State
    requires s.notifier.Collecting?
    requires Enumerates(order, s.entries.Keys) && s.entries.Keys <= s.shared.Keys
  {
    var full, newOnly := s.notifier.full, s.notifier.newOnly;
    s.(entries := CollectedEntries(s.entries, full, s.now),
       shared := CollectedShared(s.shared, s.entries, full, s.now),
       notifier := Pushing(JobsInOrder(s.entries, Epochs(s.shared), order, full, newOnly, s.now)))
  }

  function ApplyTurn(s: State, a: TurnStep): State
    requires TurnEnabled(s, a)
  {
    match a
    case Receive => DoReceive(s)
    case Timeout => s.(notifier := Collecting({}, {}))
    case Schedule => DoSchedule(s)
    case Collect(order) => DoCollect(s, order)
    case Push =>
      s.(notifier := Pushing(s.notifier.out[1..]),
         queue := if s.queueClosed then s.queue else s.queue + [s.notifier.out[0]])
    case TurnEnd => s.(notifier := Waiting)
  }

  // ---- Workers ----

  predicate WorkEnabled(s: State, k: Worker, a: WorkStep) {
    match a
    case Pop => k.Idle? && s.queue != []
    case Drop => k.Popped?
    case ServeCached => k.Popped? && !k.job.full && HasCache(s, k.job.id)
    case Validate(_) => k.Popped? && k.job.id in s.shared && (k.job.full || !HasCache(s, k.job.id))
    case Bind => k.Ready? && k.job.id in s.shared
    case Run => k.Bound?
    case Check => k.Ran? && k.job.id in s.shared
    case Cache => k.Passed? && k.job.id in s.shared
    case Publish => k.Cached? && k.job.id in s.shared
  }

  /** `SubShared::publish`: a closed slot refuses the value. */
  function Published(sh: Shared, r: Outcome): Shared {
    if sh.closed then sh else sh.(published := Some(r))
  }

  function Remembered(sh: Shared, r: Outcome): Shared {
    if r.Rows? then sh.(cached := Some(r.rows)) else sh
  }

  /** The worker's next phase. */
  ghost function NextPhase(q: Query, s: State, k: Worker, a: WorkStep): Worker
    requires WorkEnabled(s, k, a)
  {
    match a
    case Pop => Popped(s.queue[0])
    case Drop => Idle
    case ServeCached => Idle
    case Validate(exist) => if s.shared[k.job.id].validate && !exist then Idle else Ready(k.job)
    case Bind => Bound(k.job, s.shared[k.job.id].params, s.shared[k.job.id].version)
    case Run => Ran(k.job, k.version, q(k.job.id, s.db, k.params))
    case Check => if s.shared[k.job.id].epoch == k.job.gen then Passed(k.job, k.version, k.result) else Idle
    case Cache => Cached(k.job, k.result)
    case Publish => Idle
  }

  /** What the step changes beside the worker's phase. */
  function WorkEffect(s: State, k: Worker, a: WorkStep): State
    requires WorkEnabled(s, k, a)
  {
    match a
    case Pop => s.(queue := s.queue[1..])
    case Validate(exist) =>
      var sh := s.shared[k.job.id];
      SetShared(s, k.job.id,
        if sh.validate && !exist then Published(sh.(validate := false), Failed("unknown dependencies"))
        else sh.(validate := false))
    case Cache => SetShared(s, k.job.id, Remembered(s.shared[k.job.id], k.result))
    case Publish => SetShared(s, k.job.id, Published(s.shared[k.job.id], k.result))
    case _ => s
  }

  ghost function ApplyWork(q: Query, s: State, w: nat, a: WorkStep): State
    requires w < |s.workers| && WorkEnabled(s, s.workers[w], a)
  {
    var k := s.workers[w];
    WorkEffect(s, k, a).(workers := s.workers[w := NextPhase(q, s, k, a)])
  }

  // ---- Runs ----

  ghost predicate Enabled(s: State, a: Action) {
    match a
    case Client(c) => ClientEnabled(s, c)
    case Turn(t) => TurnEnabled(s, t)
    case Work(w, k) => w < |s.workers| && WorkEnabled(s, s.workers[w], k)
  }

  ghost function Apply(q: Query, s: State, a: Action): State
    requires Enabled(s, a)
  {
    match a
    case Client(c) => ApplyClient(s, c)
    case Turn(t) => ApplyTurn(s, t)
    case Work(w, k) => ApplyWork(q, s, w, k)
  }

  predicate Initial(s: State) {
    s.entries == map[] && s.shared == map[] && s.ops == multiset{} && s.channel == [] &&
    s.notifier == Waiting && s.queue == [] && !s.queueClosed && !s.down &&
    forall w :: 0 <= w < |s.workers| ==> s.workers[w] == Idle
  }

  /** A run: every action is enabled where it is taken. */
  ghost predicate IsRun(q: Query, s: State, acts: seq<Action>)
    decreases |acts|
  {
    acts == [] || (Enabled(s, acts[0]) && IsRun(q, Apply(q, s, acts[0]), acts[1..]))
  }

  ghost function After(q: Query, s: State, acts: seq<Action>): State
    requires IsRun(q, s, acts)
    decreases |acts|
  {
    if acts == [] then s else After(q, Apply(q, s, acts[0]), acts[1..])
  }
}
