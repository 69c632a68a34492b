/** The registry, the job queue and the turns of the notifier as objects updated in place. */
module LiveTracker {
  import opened Values
  import opened LiveSpec
  import opened LiveProtocol

  class JobQueue {
    var jobs: seq<Job>
    var closed: bool

    constructor ()
      ensures jobs == [] && !closed
    {
      jobs, closed := [], false;
    }

    /** A closed queue discards what is submitted. */
    method Push(job: Job)
      modifies this
      ensures jobs == (if old(closed) then old(jobs) else old(jobs) + [job]) && closed == old(closed)
    {
      if closed {
        return;
      }
      jobs := jobs + [job];
    }

    /** None means the queue is empty: the caller waits unless it is closed. */
    method Pop() returns (job: Option<Job>)
      modifies this
      ensures closed == old(closed)
      ensures if old(jobs) == [] then job == None && jobs == [] else job == Some(old(jobs)[0]) && jobs == old(jobs)[1..]
    {
      if jobs == [] {
        return None;
      }
      job, jobs := Some(jobs[0]), jobs[1..];
    }

    method Close()
      modifies this
      ensures closed && jobs == []
    {
      closed, jobs := true, [];
    }
  }

  /** The registry after the invalidation part has visited every entry except those in `todo`. */
  ghost predicate PartlyScheduled(e0: map<nat, Entry>, s0: map<nat, Shared>, e: map<nat, Entry>, s: map<nat, Shared>,
                                  todo: set<nat>, b: Batch, now: nat)
  {
    todo <= e0.Keys <= s0.Keys &&
    e == e0 + ScheduledEntries(e0 - todo, b, now) && s == ScheduledShared(s0, e0 - todo, b, now)
  }

  lemma ScheduledOneMore(e0: map<nat, Entry>, s0: map<nat, Shared>, e: map<nat, Entry>, s: map<nat, Shared>,
                         todo: set<nat>, id: nat, b: Batch, now: nat)
    requires PartlyScheduled(e0, s0, e, s, todo, b, now) && id in todo
    ensures id in e && id in s && e[id] == e0[id] && s[id] == s0[id]
    ensures PartlyScheduled(e0, s0, e[id := Scheduled(e[id], b, now)],
                            s[id := SharedAfterSchedule(s[id], e[id], b, now)],
                            todo - {id}, b, now)
  {
  }

  lemma AllScheduled(e0: map<nat, Entry>, s0: map<nat, Shared>, e: map<nat, Entry>, s: map<nat, Shared>, b: Batch,
                     now: nat)
    requires e0.Keys <= s0.Keys
    ensures PartlyScheduled(e0, s0, e0, s0, e0.Keys, b, now)
    ensures PartlyScheduled(e0, s0, e, s, {}, b, now) ==>
            e == ScheduledEntries(e0, b, now) && s == ScheduledShared(s0, e0, b, now)
  {
  }

  /** The registry after the refresh part has visited the entries of `order`. */
  ghost predicate PartlyCollected(e0: map<nat, Entry>, s0: map<nat, Shared>, e: map<nat, Entry>, s: map<nat, Shared>,
                                  todo: set<nat>, full: set<nat>, now: nat)
  {
    todo <= e0.Keys <= s0.Keys &&
    e == e0 + CollectedEntries(e0 - todo, full, now) && s == CollectedShared(s0, e0 - todo, full, now)
  }

  lemma CollectedOneMore(e0: map<nat, Entry>, s0: map<nat, Shared>, e: map<nat, Entry>, s: map<nat, Shared>,
                         todo: set<nat>, id: nat, full: set<nat>, now: nat)
    requires PartlyCollected(e0, s0, e, s, todo, full, now) && id in todo
    ensures id in e && id in s && e[id] == e0[id] && s[id] == s0[id]
    ensures PartlyCollected(e0, s0, e[id := Collected(e[id], id, full, now)],
                            s[id := SharedAfterCollect(s[id], e[id], id, full, now)],
                            todo - {id}, full, now)
  {
  }

  lemma AllCollected(e0: map<nat, Entry>, s0: map<nat, Shared>, e: map<nat, Entry>, s: map<nat, Shared>,
                     full: set<nat>, now: nat)
    requires e0.Keys <= s0.Keys
    ensures PartlyCollected(e0, s0, e0, s0, e0.Keys, full, now)
    ensures PartlyCollected(e0, s0, e, s, {}, full, now) ==>
            e == CollectedEntries(e0, full, now) && s == CollectedShared(s0, e0, full, now)
  {
  }

  lemma VisitedOneMore(keys: set<nat>, todo: set<nat>, order: seq<nat>, id: nat)
    requires Enumerates(order, keys - todo) && id in todo && todo <= keys
    ensures Enumerates(order + [id], keys - (todo - {id}))
  {
  }

  lemma NextJobs(entries: map<nat, Entry>, epochs: map<nat, nat>, order: seq<nat>, id: nat,
                 full: set<nat>, newOnly: set<nat>, now: nat)
    requires forall i :: 0 <= i < |order| ==> order[i] in entries && order[i] in epochs
    requires id in entries && id in epochs
    ensures JobsInOrder(entries, epochs, order + [id], full, newOnly, now)
         == JobsInOrder(entries, epochs, order, full, newOnly, now)
           + JobsOf(entries[id], epochs[id], id, full, newOnly, now)
  {
    JobsInOrderAppend(entries, epochs, order, [id], full, newOnly, now);
  }

  class Tracker {
    var entries: map<nat, Entry>
    var shared: map<nat, Shared>
    var nextId: nat
    const defaultDebounce: nat

    ghost predicate Valid() reads this {
      entries.Keys <= shared.Keys && forall id <- shared.Keys :: id < nextId
    }

    constructor (debounce: nat)
      ensures Valid() && entries == map[] && shared == map[] && defaultDebounce == debounce
    {
      entries, shared, nextId, defaultDebounce := map[], map[], 0, debounce;
    }

    /** The new subscription takes the database-wide debounce and has no window open. */
    method Register(tables: Option<set<string>>, filters: Option<seq<Filter.RowFilter>>, params: Params)
      returns (id: nat)
      requires Valid()
      modifies this
      ensures Valid() && id == old(nextId) && id !in old(shared)
      ensures entries == old(entries)[id := Entry(tables, filters, defaultDebounce, None)]
      ensures shared == old(shared)[id := NewShared(params, tables.Some?)]
    {
      id := nextId;
      nextId := nextId + 1;
      entries := entries[id := Entry(tables, filters, defaultDebounce, None)];
      shared := shared[id := NewShared(params, tables.Some?)];
    }

    /** An open window keeps its end. */
    method SetDebounce(id: nat, debounce: nat)
      requires Valid()
      modifies this`entries
      ensures Valid() && entries.Keys == old(entries).Keys
      ensures forall k <- entries.Keys :: entries[k].due == old(entries)[k].due
      ensures forall k <- entries.Keys :: entries[k] == if k == id then old(entries)[k].(debounce := debounce)
                else old(entries)[k]
    {
      if id in entries {
        entries := entries[id := entries[id].(debounce := debounce)];
      }
    }

    /** Dependencies may be named after registration. */
    method SetTables(id: nat, tables: set<string>)
      requires Valid()
      modifies this`entries
      ensures Valid() && entries.Keys == old(entries).Keys
      ensures forall k <- entries.Keys :: entries[k] == if k == id then old(entries)[k].(tables := Some(tables))
                else old(entries)[k]
    {
      if id in entries {
        entries := entries[id := entries[id].(tables := Some(tables))];
      }
    }

    /** Results still in flight are stale afterwards: the epoch moved on. */
    method Unregister(id: nat)
      requires Valid()
      modifies this`entries, this`shared
      ensures Valid() && entries == old(entries) - {id}
      ensures shared == if id in old(entries)
                then old(shared)[id := old(shared)[id].(epoch := old(shared)[id].epoch + 1)] else old(shared)
    {
      if id in entries {
        shared := shared[id := shared[id].(epoch := shared[id].epoch + 1)];
        entries := entries - {id};
      } else {
        assert entries - {id} == entries;
      }
    }

    /** The invalidation part of a turn, over the registry in any order. */
    method Schedule(b: Batch, now: nat)
      requires Valid()
      modifies this`entries, this`shared
      ensures Valid()
      ensures entries == ScheduledEntries(old(entries), b, now)
      ensures shared == ScheduledShared(old(shared), old(entries), b, now)
    {
      ghost var e0, s0 := entries, shared;
      var todo := entries.Keys;
      AllScheduled(e0, s0, e0, s0, b, now);
      while todo != {}
        invariant Valid() && PartlyScheduled(e0, s0, entries, shared, todo, b, now)
        decreases todo
      {
        var id :| id in todo;
        ScheduledOneMore(e0, s0, entries, shared, todo, id, b, now);
        ScheduleOne(id, b, now);
        todo := todo - {id};
      }
      AllScheduled(e0, s0, entries, shared, b, now);
    }

    /** One registry entry of the invalidation part. */
    method ScheduleOne(id: nat, b: Batch, now: nat)
      requires Valid() && id in entries
      modifies this`entries, this`shared
      ensures Valid()
      ensures entries == old(entries)[id := Scheduled(old(entries)[id], b, now)]
      ensures shared == old(shared)[id := SharedAfterSchedule(old(shared)[id], old(entries)[id], b, now)]
    {
      if Hit(entries[id], b) {
        shared := shared[id := shared[id].(history := shared[id].history + [HitAt(now, entries[id].debounce)])];
        if entries[id].due.None? {
          entries := entries[id := entries[id].(due := Some(now + entries[id].debounce))];
        }
      }
    }

    /** The refresh part of a turn: immediate refreshes, callbacks served from the cache and
        windows that ended. `order` records how the registry was visited. */
    method Collect(full: set<nat>, newOnly: set<nat>, now: nat) returns (out: seq<Job>, ghost order: seq<nat>)
      requires Valid()
      modifies this`entries, this`shared
      ensures Valid() && Enumerates(order, old(entries).Keys)
      ensures entries == CollectedEntries(old(entries), full, now)
      ensures shared == CollectedShared(old(shared), old(entries), full, now)
      ensures out == JobsInOrder(old(entries), Epochs(old(shared)), order, full, newOnly, now)
    {
      ghost var e0, s0 := entries, shared;
      var todo := entries.Keys;
      AllCollected(e0, s0, e0, s0, full, now);
      out, order := [], [];
      while todo != {}
        invariant Valid() && PartlyCollected(e0, s0, entries, shared, todo, full, now)
        invariant Enumerates(order, e0.Keys - todo)
        invariant out == JobsInOrder(e0, Epochs(s0), order, full, newOnly, now)
        decreases todo
      {
        var id :| id in todo;
        CollectedOneMore(e0, s0, entries, shared, todo, id, full, now);
        VisitedOneMore(e0.Keys, todo, order, id);
        NextJobs(e0, Epochs(s0), order, id, full, newOnly, now);
        var jobs := CollectOne(id, full, newOnly, now);
        todo := todo - {id};
        out, order := out + jobs, order + [id];
      }
      AllCollected(e0, s0, entries, shared, full, now);
    }

    /** One registry entry of the refresh part. */
    method CollectOne(id: nat, full: set<nat>, newOnly: set<nat>, now: nat) returns (jobs: seq<Job>)
      requires Valid() && id in entries
      modifies this`entries, this`shared
      ensures Valid()
      ensures jobs == JobsOf(old(entries)[id], old(shared)[id].epoch, id, full, newOnly, now)
      ensures entries == old(entries)[id := Collected(old(entries)[id], id, full, now)]
      ensures shared == old(shared)[id := SharedAfterCollect(old(shared)[id], old(entries)[id], id, full, now)]
    {
      jobs := [];
      if id !in full {
        if id in newOnly {
          jobs := [Job(id, false, shared[id].epoch)];
        }
        if entries[id].due.None? || entries[id].due.value > now {
          return;
        }
      }
      entries := entries[id := entries[id].(due := None)];
      var gen := shared[id].epoch + 1;
      shared := shared[id := shared[id].(epoch := gen, history := shared[id].history + [FullJob(gen)])];
      jobs := jobs + [Job(id, true, gen)];
    }
  }
}
