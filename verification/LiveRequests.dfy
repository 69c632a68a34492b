/** Requests reach the worker: a refresh that somebody asked for, for the whole subscription or for a
    new callback, is not lost between the channel and the queue. */
module LiveRequests {
  import opened Values
  import opened LiveSpec
  import opened LiveProtocol
  import opened LiveInvariants
  import opened LiveFreshness

  function Asked(n: Notifier): set<nat> {
    match n
    case Draining(b) => b.full + b.newOnly
    case Collecting(full, newOnly) => full + newOnly
    case _ => {}
  }

  predicate JobFor(jobs: seq<Job>, id: nat) {
    exists i :: 0 <= i < |jobs| && jobs[i].id == id
  }

  /** A message, a gathered request, a job to be pushed or a queued job stands for the request. */
  predicate Pending(s: State, id: nat) {
    Refresh(id) in s.channel || RefreshNew(id) in s.channel || id in Asked(s.notifier) ||
    JobFor(OutJobs(s.notifier), id) || JobFor(s.queue, id)
  }

  predicate PopsJobOf(s: State, a: Action, id: nat) {
    a.Work? && a.work.Pop? && s.queue != [] && s.queue[0].id == id
  }

  lemma JobStays(jobs: seq<Job>, more: seq<Job>, id: nat)
    requires JobFor(jobs, id)
    ensures JobFor(jobs + more, id)
  {
    var i :| 0 <= i < |jobs| && jobs[i].id == id;
    assert (jobs + more)[i] == jobs[i];
  }

  lemma JobInTail(jobs: seq<Job>, id: nat)
    requires JobFor(jobs, id) && jobs[0].id != id
    ensures JobFor(jobs[1..], id)
  {
    var i :| 0 <= i < |jobs| && jobs[i].id == id;
    assert jobs[1..][i - 1] == jobs[i];
  }

  lemma ReceiveKeepsPending(s: State, id: nat)
    requires TurnEnabled(s, Receive) && s.channel[0] != Shutdown && Pending(s, id)
    ensures Pending(DoReceive(s), id)
  {
    var m, rest := s.channel[0], s.channel[1..];
    assert s.channel == [m] + rest;
  }

  /** A turn that was asked for a subscription submits a job of it, Full or for new callbacks. */
  lemma CollectKeepsPending(s: State, order: seq<nat>, id: nat)
    requires TurnEnabled(s, Collect(order)) && id in s.entries && Pending(s, id)
    ensures Pending(DoCollect(s, order), id)
  {
    if id in Asked(s.notifier) {
      var full, newOnly, e, epoch := s.notifier.full, s.notifier.newOnly, s.entries[id], s.shared[id].epoch;
      var j := Job(id, id in full, if id in full then epoch + 1 else epoch);
      assert j in JobsOf(e, epoch, id, full, newOnly, s.now);
      JobInOrder(s.entries, Epochs(s.shared), order, full, newOnly, s.now, j);
      assert j in OutJobs(DoCollect(s, order).notifier);
    }
  }

  lemma PushKeepsPending(s: State, id: nat)
    requires TurnEnabled(s, Push) && !s.queueClosed && Pending(s, id)
    ensures Pending(ApplyTurn(s, Push), id)
  {
    var out := s.notifier.out;
    if JobFor(s.queue, id) {
      JobStays(s.queue, [out[0]], id);
    } else if JobFor(out, id) {
      if out[0].id == id { assert (s.queue + [out[0]])[|s.queue|].id == id; } else { JobInTail(out, id); }
    }
  }

  lemma TurnKeepsPending(s: State, t: TurnStep, id: nat)
    requires TurnEnabled(s, t) && Open(s) && id in s.entries && Pending(s, id)
    ensures Pending(ApplyTurn(s, t), id)
  {
    match t {
      case Receive =>
        assert s.channel[0] in s.channel;
        ReceiveKeepsPending(s, id);
      case Collect(order) => CollectKeepsPending(s, order, id);
      case Push => PushKeepsPending(s, id);
      case _ =>
    }
  }

  lemma ClientKeepsPending(s: State, c: ClientStep, id: nat)
    requires Pending(s, id)
    ensures Pending(ApplyClient(s, c), id)
  {
  }

  lemma WorkKeepsPending(q: Query, s: State, w: nat, k: WorkStep, id: nat)
    requires Enabled(s, Work(w, k)) && Pending(s, id) && !PopsJobOf(s, Work(w, k), id)
    ensures Pending(ApplyWork(q, s, w, k), id)
  {
    if k.Pop? && JobFor(s.queue, id) { JobInTail(s.queue, id); }
  }

  lemma StepKeepsPending(q: Query, s: State, a: Action, id: nat)
    requires Enabled(s, a) && Open(s) && id in s.entries && Pending(s, id) && !PopsJobOf(s, a, id)
    ensures Pending(Apply(q, s, a), id)
  {
    match a {
      case Client(c) => ClientKeepsPending(s, c, id);
      case Turn(t) => TurnKeepsPending(s, t, id);
      case Work(w, k) => WorkKeepsPending(q, s, w, k, id);
    }
  }

  lemma StepKeepsOpen(q: Query, s: State, a: Action)
    requires Open(s) && Enabled(s, a)
    ensures Open(Apply(q, s, a))
  {
    match a {
      case Client(c) => ClientKeepsOpen(s, c);
      case Turn(t) => TurnKeepsOpen(s, t);
      case Work(w, k) => WorkKeepsOpen(q, s, w, k);
    }
  }

  /** An id that is gone never comes back. */
  lemma GoneStaysGone(q: Query, s: State, a: Action, id: nat)
    requires Enabled(s, a) && id < s.nextId && id in Apply(q, s, a).entries
    ensures id in s.entries
  {
    match a {
      case Client(c) => ClientAddsOnlyFresh(s, c, id);
      case Turn(t) => TurnAddsNobody(s, t, id);
      case Work(w, k) =>
    }
  }

  lemma ClientAddsOnlyFresh(s: State, c: ClientStep, id: nat)
    requires id < s.nextId && id in EntriesAfterClient(s, c)
    ensures id in s.entries
  {
  }

  lemma TurnAddsNobody(s: State, t: TurnStep, id: nat)
    requires TurnEnabled(s, t) && id in ApplyTurn(s, t).entries
    ensures id in s.entries
  {
  }

  ghost predicate Served(q: Query, s: State, acts: seq<Action>, id: nat)
    requires IsRun(q, s, acts)
    decreases |acts|
  {
    acts != [] && (PopsJobOf(s, acts[0], id) || Served(q, Apply(q, s, acts[0]), acts[1..], id))
  }

  lemma NextIdGrows(q: Query, s: State, a: Action)
    requires Enabled(s, a)
    ensures s.nextId <= Apply(q, s, a).nextId
  {
  }

  /** Along every run, for any number of workers: a request of a subscription that is still
      registered at the end is pending there, or a worker took a job for it. */
  lemma {:induction false} RequestIsServed(q: Query, s: State, acts: seq<Action>, id: nat)
    requires IsRun(q, s, acts) && Open(s) && Pending(s, id) && id < s.nextId && id in After(q, s, acts).entries
    ensures Served(q, s, acts, id) || Pending(After(q, s, acts), id)
    ensures id in s.entries
    decreases |acts|
  {
    if acts != [] {
      var t := Apply(q, s, acts[0]);
      StepKeepsOpen(q, s, acts[0]);
      NextIdGrows(q, s, acts[0]);
      RegisteredBefore(q, t, acts[1..], id);
      GoneStaysGone(q, s, acts[0], id);
      if !PopsJobOf(s, acts[0], id) {
        StepKeepsPending(q, s, acts[0], id);
        RequestIsServed(q, t, acts[1..], id);
      }
    }
  }

  lemma {:induction false} RegisteredBefore(q: Query, s: State, acts: seq<Action>, id: nat)
    requires IsRun(q, s, acts) && id < s.nextId && id in After(q, s, acts).entries
    ensures id in s.entries
    decreases |acts|
  {
    if acts != [] {
      NextIdGrows(q, s, acts[0]);
      RegisteredBefore(q, Apply(q, s, acts[0]), acts[1..], id);
      GoneStaysGone(q, s, acts[0], id);
    }
  }
}
