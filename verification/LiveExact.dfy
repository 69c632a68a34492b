/** What one turn of the notifier does, read off the drained messages: which row changes open a
    window, in terms of rows and of what SQL says about them, and which jobs follow. */
module LiveExact {
  import opened Values
  import opened Filter
  import opened LiveSpec
  import opened LiveProtocol

  /** The messages of a turn, gathered one after the other. */
  function Drained(ms: seq<Msg>): Batch {
    if ms == [] then EMPTY_BATCH else Gather(Drained(ms[..|ms| - 1]), ms[|ms| - 1])
  }

  predicate IsImage(c: Change, row: Row) {
    c.before == Some(row) || c.after == Some(row)
  }

  predicate Names(e: Entry, table: string) {
    e.tables.Some? && exists a <- e.tables.value :: SameName(a, table)
  }

  /** SQL selects the old or the new row of the change under one of the entry's filters. */
  ghost predicate SqlSelects(fs: seq<RowFilter>, c: Change) {
    exists i, row :: 0 <= i < |fs| && SameName(fs[i].table, c.table) && IsImage(c, row) &&
                     SqlWhere(fs[i].groups, row) == True
  }

  /** Whether a row change concerns the subscription. */
  ghost predicate Concerns(e: Entry, c: Change) {
    if e.filters.Some? then SqlSelects(e.filters.value, c) else Names(e, c.table)
  }

  /** Whether a message concerns the subscription. */
  ghost predicate CallsFor(e: Entry, m: Msg) {
    match m
    case Invalidate(ts) => ts.None? || exists t <- ts.value :: Names(e, t)
    case Changes(cs) => exists i :: 0 <= i < |cs| && Concerns(e, cs[i])
    case _ => false
  }

  /** SQL and the entry's filters see the rows of the message alike. */
  ghost predicate SeenAlike(e: Entry, m: Msg) {
    e.filters.Some? && m.Changes? ==>
      forall i, k, row ::
        0 <= i < |e.filters.value| && 0 <= k < |m.changes| && IsImage(m.changes[k], row) ==>
        SameViews(e.filters.value[i].groups, row)
  }

  lemma ChangeConcerns(e: Entry, c: Change)
    requires e.tables.Some?
    requires e.filters.Some? ==> forall i, row :: 0 <= i < |e.filters.value| && IsImage(c, row) ==>
      SameViews(e.filters.value[i].groups, row)
    ensures TouchesChange(e, c) <==> Concerns(e, c)
  {
    if e.filters.Some? {
      var fs := e.filters.value;
      forall i | 0 <= i < |fs|
        ensures MatchesChange(fs[i], c) <==>
                (SameName(fs[i].table, c.table) &&
                 exists row :: IsImage(c, row) && SqlWhere(fs[i].groups, row) == True)
      {
        if c.before.Some? { assert IsImage(c, c.before.value); MatchIsSqlTrue(fs[i], c.before.value); }
        if c.after.Some? { assert IsImage(c, c.after.value); MatchIsSqlTrue(fs[i], c.after.value); }
      }
    }
  }

  ghost predicate AllSeenAlike(e: Entry, ms: seq<Msg>) {
    forall i :: 0 <= i < |ms| ==> SeenAlike(e, ms[i])
  }

  /** Some drained message concerns the entry, whose dependencies are known. */
  ghost predicate Called(e: Entry, ms: seq<Msg>) {
    e.tables.Some? && exists i :: 0 <= i < |ms| && CallsFor(e, ms[i])
  }

  lemma MessageConcerns(e: Entry, m: Msg)
    requires e.tables.Some? && SeenAlike(e, m)
    ensures MsgHits(e, m) <==> CallsFor(e, m)
  {
    if m.Changes? {
      forall i | 0 <= i < |m.changes| ensures TouchesChange(e, m.changes[i]) <==> Concerns(e, m.changes[i]) {
        ChangeConcerns(e, m.changes[i]);
      }
    }
  }

  lemma CalledOneMore(e: Entry, ms: seq<Msg>, m: Msg)
    requires e.tables.Some?
    ensures Called(e, ms + [m]) <==> Called(e, ms) || CallsFor(e, m)
  {
    var all := ms + [m];
    if i :| 0 <= i < |ms| && CallsFor(e, ms[i]) { assert CallsFor(e, all[i]); }
    if CallsFor(e, m) { assert CallsFor(e, all[|ms|]); }
  }

  lemma {:induction false} DrainedHits(e: Entry, ms: seq<Msg>)
    requires AllSeenAlike(e, ms)
    ensures Hit(e, Drained(ms)) <==> Called(e, ms)
  {
    if ms != [] && e.tables.Some? {
      var front, m := ms[..|ms| - 1], ms[|ms| - 1];
      assert ms == front + [m];
      DrainedHits(e, front);
      MessageConcerns(e, m);
      GatherKeepsHits(e, Drained(front), m);
      CalledOneMore(e, front, m);
    }
  }

  /** A turn opens a window exactly for the entries that a drained message concerns and that have none
      open, at the time of the turn plus the entry's debounce; it changes nothing else. */
  lemma WindowOpensExactly(entries: map<nat, Entry>, ms: seq<Msg>, now: nat, id: nat)
    requires id in entries && AllSeenAlike(entries[id], ms)
    ensures ScheduledEntries(entries, Drained(ms), now).Keys == entries.Keys
    ensures ScheduledEntries(entries, Drained(ms), now)[id] ==
            var e := entries[id];
            Entry(e.tables, e.filters, e.debounce,
                  if e.due.None? && Called(e, ms) then Some(now + e.debounce) else e.due)
  {
    DrainedHits(entries[id], ms);
  }

  /** Row changes alone: an entry with filters is left in peace unless SQL selects a changed row. */
  lemma FiltersDecide(e: Entry, cs: seq<Change>, now: nat)
    requires e.tables.Some? && e.filters.Some? && e.due.None? && SeenAlike(e, Changes(cs))
    ensures Scheduled(e, Drained([Changes(cs)]), now) ==
            if exists i :: 0 <= i < |cs| && SqlSelects(e.filters.value, cs[i])
            then e.(due := Some(now + e.debounce)) else e
  {
    DrainedHits(e, [Changes(cs)]);
    CalledOneMore(e, [], Changes(cs));
    assert [] + [Changes(cs)] == [Changes(cs)];
    ChangesConcern(e, cs);
  }

  lemma ChangesConcern(e: Entry, cs: seq<Change>)
    requires e.filters.Some?
    ensures CallsFor(e, Changes(cs)) <==> exists i :: 0 <= i < |cs| && SqlSelects(e.filters.value, cs[i])
  {
    if i :| 0 <= i < |cs| && SqlSelects(e.filters.value, cs[i]) { assert Concerns(e, cs[i]); }
  }

  lemma {:induction false} DrainedRequests(ms: seq<Msg>, id: nat)
    ensures id in Drained(ms).full <==> Refresh(id) in ms
    ensures id in Drained(ms).newOnly <==> RefreshNew(id) in ms
  {
    if ms != [] {
      DrainedRequests(ms[..|ms| - 1], id);
      assert ms == ms[..|ms| - 1] + [ms[|ms| - 1]];
    }
  }

  /** The window has ended by `later`: one that was open before the turn, or the one that the turn opened. */
  ghost predicate Ended(e: Entry, ms: seq<Msg>, now: nat, later: nat) {
    if e.due.Some? then e.due.value <= later else Called(e, ms) && now + e.debounce <= later
  }

  /** The jobs of a turn for one subscription: a Full job of the next generation if it was asked for a
      refresh or its window has ended; a job for its new callbacks, of the present generation, if only
      that was asked for. */
  lemma TurnSubmitsExactly(entries: map<nat, Entry>, epochs: map<nat, nat>, order: seq<nat>, ms: seq<Msg>,
                           now: nat, later: nat, id: nat, gen: nat)
    requires Enumerates(order, entries.Keys) && entries.Keys <= epochs.Keys && id in entries
    requires AllSeenAlike(entries[id], ms)
    ensures var b := Drained(ms);
            var out := JobsInOrder(ScheduledEntries(entries, b, now), epochs, order, b.full, b.newOnly, later);
            (Job(id, true, gen) in out <==>
               (Refresh(id) in ms || Ended(entries[id], ms, now, later)) && gen == epochs[id] + 1) &&
            (Job(id, false, gen) in out <==> RefreshNew(id) in ms && Refresh(id) !in ms && gen == epochs[id])
  {
    WindowOpensExactly(entries, ms, now, id);
    DrainedRequests(ms, id);
    var b := Drained(ms);
    JobsOfEntry(ScheduledEntries(entries, b, now), epochs, order, b, later, id, gen);
  }

  lemma JobsOfEntry(entries: map<nat, Entry>, epochs: map<nat, nat>, order: seq<nat>, b: Batch, now: nat,
                    id: nat, gen: nat)
    requires Enumerates(order, entries.Keys) && entries.Keys <= epochs.Keys && id in entries
    ensures var out := JobsInOrder(entries, epochs, order, b.full, b.newOnly, now);
            (Job(id, true, gen) in out <==>
               (id in b.full || (entries[id].due.Some? && entries[id].due.value <= now)) && gen == epochs[id] + 1) &&
            (Job(id, false, gen) in out <==> id in b.newOnly && id !in b.full && gen == epochs[id])
  {
    FullJobInOrder(entries, epochs, order, b.full, b.newOnly, now, id, gen);
    JobInOrder(entries, epochs, order, b.full, b.newOnly, now, Job(id, false, gen));
  }
}
