/** The registry side of the live-query engine: what one notifier turn does to the
    subscriptions, as functions of the registry. `Tracker` implements them with loops. */
module LiveSpec {
  import opened Values
  import opened Filter

  /** A registered subscription. `tables` is None while its dependencies are unknown. */
  datatype Entry = Entry(tables: Option<set<string>>, filters: Option<seq<RowFilter>>,
                         debounce: nat, due: Option<nat>)

  datatype Msg =
    | Invalidate(tables: Option<set<string>>)
    | Changes(changes: seq<Change>)
    | Refresh(id: nat)
    | RefreshNew(id: nat)
    | Shutdown

  /** A worker job; `full` jobs re-publish, the others serve new callbacks from the cache. */
  datatype Job = Job(id: nat, full: bool, gen: nat)

  /** What one notifier turn gathers while it drains the channel. */
  datatype Batch = Batch(full: set<nat>, newOnly: set<nat>, all: bool, tables: set<string>, changes: seq<Change>)

  const EMPTY_BATCH := Batch({}, {}, false, {}, [])

  function Gather(b: Batch, m: Msg): Batch {
    match m
    case Invalidate(None) => b.(all := true)
    case Invalidate(Some(ts)) => b.(tables := b.tables + ts)
    case Changes(cs) => b.(changes := b.changes + cs)
    case Refresh(id) => b.(full := b.full + {id})
    case RefreshNew(id) => b.(newOnly := b.newOnly + {id})
    case Shutdown => b
  }

  predicate TouchesTables(e: Entry, ts: set<string>) {
    e.tables.Some? && exists a <- e.tables.value, b <- ts :: SameName(b, a)
  }

  predicate TouchesChange(e: Entry, c: Change) {
    e.tables.Some? &&
    match e.filters
    case None => exists a <- e.tables.value :: SameName(a, c.table)
    case Some(fs) => AnyFilterMatches(fs, c)
  }

  predicate TouchesChanges(e: Entry, cs: seq<Change>) {
    exists i :: 0 <= i < |cs| && TouchesChange(e, cs[i])
  }

  /** Whether a drained batch invalidates the subscription. */
  predicate Hit(e: Entry, b: Batch) {
    e.tables.Some? && (b.all || TouchesTables(e, b.tables) || TouchesChanges(e, b.changes))
  }

  /** Whether one message on its own invalidates the subscription. */
  predicate MsgHits(e: Entry, m: Msg) {
    e.tables.Some? &&
    match m
    case Invalidate(None) => true
    case Invalidate(Some(ts)) => TouchesTables(e, ts)
    case Changes(cs) => TouchesChanges(e, cs)
    case _ => false
  }

  /** The first hit opens a window; later hits leave its end where it is. */
  function Scheduled(e: Entry, b: Batch, now: nat): Entry {
    if Hit(e, b) && e.due.None? then e.(due := Some(now + e.debounce)) else e
  }

  predicate Expired(e: Entry, now: nat) {
    e.due.Some? && e.due.value <= now
  }

  predicate Fires(e: Entry, id: nat, full: set<nat>, now: nat) {
    id in full || Expired(e, now)
  }

  function Collected(e: Entry, id: nat, full: set<nat>, now: nat): Entry {
    if Fires(e, id, full, now) then e.(due := None) else e
  }

  function JobsOf(e: Entry, epoch: nat, id: nat, full: set<nat>, newOnly: set<nat>, now: nat): seq<Job> {
    var cached := if id in newOnly then [Job(id, false, epoch)] else [];
    var expired := if Expired(e, now) then [Job(id, true, epoch + 1)] else [];
    if id in full then [Job(id, true, epoch + 1)] else cached + expired
  }

  /** The jobs of one turn, for the registry visited in the given order. */
  function JobsInOrder(entries: map<nat, Entry>, epochs: map<nat, nat>, order: seq<nat>,
                       full: set<nat>, newOnly: set<nat>, now: nat): seq<Job>
    requires forall i :: 0 <= i < |order| ==> order[i] in entries && order[i] in epochs
  {
    if order == [] then [] else (
      JobsOf(entries[order[0]], epochs[order[0]], order[0], full, newOnly, now)
      + JobsInOrder(entries, epochs, order[1..], full, newOnly, now)
    )
  }

  /** A hash map is visited in some order that names each key once. */
  predicate Enumerates(order: seq<nat>, keys: set<nat>) {
    (forall i :: 0 <= i < |order| ==> order[i] in keys) &&
    (forall k <- keys :: k in order) &&
    (forall i, j :: 0 <= i < j < |order| ==> order[i] != order[j])
  }

  lemma {:induction false} JobsInOrderAppend(entries: map<nat, Entry>, epochs: map<nat, nat>, a: seq<nat>, b: seq<nat>,
                          full: set<nat>, newOnly: set<nat>, now: nat)
    requires forall i :: 0 <= i < |a| ==> a[i] in entries && a[i] in epochs
    requires forall i :: 0 <= i < |b| ==> b[i] in entries && b[i] in epochs
    ensures JobsInOrder(entries, epochs, a + b, full, newOnly, now)
         == JobsInOrder(entries, epochs, a, full, newOnly, now) + JobsInOrder(entries, epochs, b, full, newOnly, now)
  {
    if a == [] {
      assert a + b == b;
    } else {
      assert (a + b)[0] == a[0] && (a + b)[1..] == a[1..] + b;
      JobsInOrderAppend(entries, epochs, a[1..], b, full, newOnly, now);
    }
  }

  /** Exactly the jobs of the registered subscriptions are submitted. */
  lemma {:induction false} JobInOrder(entries: map<nat, Entry>, epochs: map<nat, nat>, order: seq<nat>,
                          full: set<nat>, newOnly: set<nat>, now: nat, j: Job)
    requires forall i :: 0 <= i < |order| ==> order[i] in entries && order[i] in epochs
    ensures j in JobsInOrder(entries, epochs, order, full, newOnly, now) <==>
            j.id in order && j in JobsOf(entries[j.id], epochs[j.id], j.id, full, newOnly, now)
  {
    if order != [] {
      JobInOrder(entries, epochs, order[1..], full, newOnly, now, j);
      var id := order[0];
      assert j in JobsOf(entries[id], epochs[id], id, full, newOnly, now) ==> j.id == id;
      assert j.id in order <==> j.id == id || j.id in order[1..];
    }
  }

  /** A Full job is submitted exactly for the subscriptions that fire, with the next generation. */
  lemma FullJobInOrder(entries: map<nat, Entry>, epochs: map<nat, nat>, order: seq<nat>,
                       full: set<nat>, newOnly: set<nat>, now: nat, id: nat, gen: nat)
    requires forall i :: 0 <= i < |order| ==> order[i] in entries && order[i] in epochs
    ensures Job(id, true, gen) in JobsInOrder(entries, epochs, order, full, newOnly, now) <==>
            id in order && Fires(entries[id], id, full, now) && gen == epochs[id] + 1
  {
    JobInOrder(entries, epochs, order, full, newOnly, now, Job(id, true, gen));
  }

  // ---- What a subscription can see, and which commits must reach it ----

  /** Both databases look the same through the subscription's tables or filters. */
  ghost predicate LooksSame(e: Entry, db: Db, db': Db) {
    e.tables.Some? &&
    match e.filters
    case None => forall a <- e.tables.value :: Content(db, Lower(a)) == Content(db', Lower(a))
    case Some(fs) =>
      forall t, row :: Selected(fs, t, row) ==> Content(db, t)[row] == Content(db', t)[row]
  }

  /** A filtered subscription watches at least the tables of its filters. */
  predicate FiltersWatched(e: Entry) {
    e.filters.Some? ==> (
      e.tables.Some? &&
      forall i :: 0 <= i < |e.filters.value| ==> e.filters.value[i].table in e.tables.value
    )
  }

  /** What a writer owes for a commit: each table whose rows differ is named by an
      invalidation, or by a change list that replays its old rows to the new ones. */
  ghost predicate EmissionCovers(db: Db, db': Db, ms: seq<Msg>) {
    forall t :: Content(db, t) != Content(db', t) ==>
      exists i :: 0 <= i < |ms| && MsgNames(ms[i], db, db', t)
  }

  ghost predicate MsgNames(m: Msg, db: Db, db': Db, t: string) {
    match m
    case Invalidate(None) => true
    case Invalidate(Some(ts)) => exists b <- ts :: Lower(b) == t
    case Changes(cs) =>
      (exists i :: 0 <= i < |cs| && Lower(cs[i].table) == t) && Replays(cs, t, Content(db, t), Content(db', t))
    case _ => false
  }

  lemma CoveredTableHits(e: Entry, db: Db, db': Db, ms: seq<Msg>, a: string)
    requires e.tables.Some? && e.filters.None? && a in e.tables.value && EmissionCovers(db, db', ms)
    requires Content(db, Lower(a)) != Content(db', Lower(a))
    ensures exists i :: 0 <= i < |ms| && MsgHits(e, ms[i])
  {
  }

  lemma CoveredRowHits(e: Entry, db: Db, db': Db, ms: seq<Msg>, t: string, row: Row)
    requires e.filters.Some? && FiltersWatched(e) && EmissionCovers(db, db', ms)
    requires Selected(e.filters.value, t, row) && Content(db, t)[row] != Content(db', t)[row]
    ensures exists i :: 0 <= i < |ms| && MsgHits(e, ms[i])
  {
    var fs := e.filters.value;
    var i :| 0 <= i < |ms| && MsgNames(ms[i], db, db', t);
    var k :| 0 <= k < |fs| && Lower(fs[k].table) == t && MatchesRow(fs[k], row);
    assert fs[k].table in e.tables.value;
    if ms[i].Changes? {
      if forall j :: 0 <= j < |ms[i].changes| ==> !AnyFilterMatches(fs, ms[i].changes[j]) {
        SkippedChangesKeepSelection(fs, ms[i].changes, t, Content(db, t), Content(db', t));
        assert false;
      }
    }
    assert MsgHits(e, ms[i]);
  }

  /** A covered commit either leaves the subscription's view alone or owes it a message that hits it. */
  lemma CoveredCommitHits(e: Entry, db: Db, db': Db, ms: seq<Msg>)
    requires e.tables.Some? && FiltersWatched(e) && EmissionCovers(db, db', ms)
    ensures LooksSame(e, db, db') || exists i :: 0 <= i < |ms| && MsgHits(e, ms[i])
  {
    if !LooksSame(e, db, db') {
      match e.filters {
        case None =>
          var a :| a in e.tables.value && Content(db, Lower(a)) != Content(db', Lower(a));
          CoveredTableHits(e, db, db', ms, a);
        case Some(fs) =>
          var t, row :| Selected(fs, t, row) && Content(db, t)[row] != Content(db', t)[row];
          CoveredRowHits(e, db, db', ms, t, row);
      }
    }
  }

  /** Gathering a message keeps every hit already gathered and adds the message's own. */
  lemma GatherKeepsHits(e: Entry, b: Batch, m: Msg)
    ensures Hit(e, b) || MsgHits(e, m) <==> Hit(e, Gather(b, m))
  {
    match m {
      case Changes(cs) =>
        var all := b.changes + cs;
        if TouchesChanges(e, all) {
          var i :| 0 <= i < |all| && TouchesChange(e, all[i]);
          if i < |b.changes| {
            assert TouchesChange(e, b.changes[i]);
          } else {
            assert TouchesChange(e, cs[i - |b.changes|]);
          }
        }
        if TouchesChanges(e, b.changes) {
          var i :| 0 <= i < |b.changes| && TouchesChange(e, b.changes[i]);
          assert TouchesChange(e, all[i]);
        }
        if TouchesChanges(e, cs) {
          var i :| 0 <= i < |cs| && TouchesChange(e, cs[i]);
          assert TouchesChange(e, all[|b.changes| + i]);
        }
      case Invalidate(Some(ts)) =>
        assert TouchesTables(e, b.tables + ts) <==> TouchesTables(e, b.tables) || TouchesTables(e, ts);
      case _ =>
    }
  }
}
