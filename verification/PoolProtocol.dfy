/** Threads sharing one pool: ticket order, conservation of connections, maintenance drains
    and wake-ups, over every interleaving of lock-held sections. */
module PoolProtocol {
  import opened PoolState

  datatype Waiter = Waiter(thread: nat, asleep: bool)

  /** The holder of the maintenance lock, before and while it drains the pool. */
  datatype Drain = NoDrain | Holding(caller: nat) | Draining(caller: nat, asleep: bool)

  /** `guards` maps each connection that is checked out to the thread that did it; `grants` lists
      the granted tickets; `runs` counts maintenance callbacks. */
  datatype Sys = Sys(pool: Pool, waiters: map<nat, Waiter>, guards: map<nat, nat>, total: nat,
                     drain: Drain, grants: seq<nat>, runs: nat)

  datatype Step =
    | Enter(thread: nat)
    | Poll(ticket: nat, expired: bool)
    | Return(conn: nat, health: Health)
    | LockMaintenance(thread: nat)
    | Begin
    | PollDrain(expired: bool)

  /** `Condvar::notify_all`. */
  function Awake(ws: map<nat, Waiter>): map<nat, Waiter> {
    map k <- ws.Keys :: ws[k].(asleep := false)
  }

  function AwakeDrain(d: Drain): Drain {
    if d.Draining? then d.(asleep := false) else d
  }

  predicate Enabled(s: Sys, a: Step) {
    match a
    case Enter(_) => true
    case Poll(k, _) => k in s.waiters
    case Return(c, h) => c in s.guards && (h.Reopened? ==> h.conn !in s.guards && h.conn !in s.pool.idle)
    case LockMaintenance(_) => s.drain.NoDrain?
    case Begin => s.drain.Holding?
    case PollDrain(_) => s.drain.Draining?
  }

  function DoPoll(s: Sys, k: nat, expired: bool): Sys
    requires k in s.waiters
  {
    var t := s.waiters[k].thread;
    var pool := Polled(s.pool, k, t, expired);
    match Decide(s.pool, k, t, expired)
    case Dead => s.(waiters := s.waiters - {k})
    case Wait => s.(waiters := s.waiters[k := Waiter(t, true)])
    case Granted(c) =>
      s.(pool := pool, waiters := Awake(s.waiters - {k}), drain := AwakeDrain(s.drain),
         guards := s.guards[c := t], grants := s.grants + [k])
    case _ => s.(pool := pool, waiters := Awake(s.waiters - {k}), drain := AwakeDrain(s.drain))
  }

  function DoReturn(s: Sys, c: nat, h: Health): Sys
    requires c in s.guards
  {
    s.(pool := Returned(s.pool, c, s.guards[c], h), guards := s.guards - {c},
       waiters := Awake(s.waiters), drain := AwakeDrain(s.drain))
  }

  function DoBegin(s: Sys): Sys
    requires s.drain.Holding?
  {
    var t := s.drain.caller;
    if s.pool.fatal || OwnedBy(s.pool.owners, t) != 0 then s.(drain := NoDrain)
    else s.(pool := s.pool.(maintenance := true), drain := Draining(t, false), waiters := Awake(s.waiters))
  }

  predicate DrainEnds(s: Sys, expired: bool) {
    |s.pool.idle| == s.total || s.pool.fatal || expired
  }

  function DoPollDrain(s: Sys, expired: bool): Sys
    requires s.drain.Draining?
  {
    if DrainEnds(s, expired)
    then s.(pool := s.pool.(maintenance := false), drain := NoDrain, waiters := Awake(s.waiters),
            runs := if |s.pool.idle| == s.total then s.runs + 1 else s.runs)
    else s.(drain := Draining(s.drain.caller, true))
  }

  function Apply(s: Sys, a: Step): Sys
    requires Enabled(s, a)
  {
    match a
    case Enter(t) =>
      if Reentrant(s.pool, t) then s
      else s.(pool := s.pool.(next := s.pool.next + 1), waiters := s.waiters[s.pool.next := Waiter(t, false)])
    case Poll(k, expired) => DoPoll(s, k, expired)
    case Return(c, h) => DoReturn(s, c, h)
    case LockMaintenance(t) => s.(drain := Holding(t))
    case Begin => DoBegin(s)
    case PollDrain(expired) => DoPollDrain(s, expired)
  }

  predicate Initial(s: Sys) {
    s == Sys(Pool(s.pool.idle, false, 0, 0, {}, false, map[]), map[], map[], |s.pool.idle|, NoDrain, [], 0) &&
    NoDuplicates(s.pool.idle)
  }

  predicate NoDuplicates(q: seq<nat>) {
    forall i, j :: 0 <= i < j < |q| ==> q[i] != q[j]
  }

  // ---- Invariants ----

  /** Until the pool dies, the live waiters are exactly the tickets from the one served to the
      last one given out, without the abandoned ones; so the one served is alive or not given out. */
  ghost predicate TicketsHold(p: Pool, waiters: set<nat>) {
    p.serving <= p.next && (forall k <- p.abandoned :: p.serving < k < p.next) &&
    forall k: nat :: k in waiters <==> p.serving <= k < p.next && k !in p.abandoned
  }

  predicate GrantsIncrease(grants: seq<nat>, serving: nat) {
    (forall i :: 0 <= i < |grants| ==> grants[i] < serving) &&
    (forall i, j :: 0 <= i < j < |grants| ==> grants[i] < grants[j])
  }

  /** No connection is in two places, and none is missing unless the pool is dead. */
  predicate ConnectionsHold(p: Pool, guards: map<nat, nat>, total: nat) {
    NoDuplicates(p.idle) && (forall c <- p.idle :: c !in guards) &&
    (if p.fatal then |p.idle| + |guards| < total else |p.idle| + |guards| == total)
  }

  ghost function HeldBy(guards: map<nat, nat>, t: nat): set<nat> {
    set c <- guards.Keys | guards[c] == t
  }

  /** The owner count of each thread is the number of its outstanding guards. */
  ghost predicate OwnersHold(p: Pool, guards: map<nat, nat>, t: nat) {
    OwnedBy(p.owners, t) == |HeldBy(guards, t)| && (t in p.owners ==> p.owners[t] > 0)
  }

  predicate DrainHolds(s: Sys) {
    (s.pool.maintenance <==> s.drain.Draining?) &&
    (s.drain.Draining? ==> OwnedBy(s.pool.owners, s.drain.caller) == 0)
  }

  /** Nobody sleeps through a reason to act. */
  predicate SleepsRightly(p: Pool, k: nat, w: Waiter) {
    w.asleep ==> Decide(p, k, w.thread, false) == Wait
  }

  predicate DrainSleepsRightly(p: Pool, d: Drain, total: nat) {
    d.Draining? && d.asleep ==> |p.idle| != total && !p.fatal
  }

  ghost predicate Sound(s: Sys) {
    (!s.pool.fatal ==> TicketsHold(s.pool, s.waiters.Keys)) &&
    GrantsIncrease(s.grants, s.pool.serving) &&
    ConnectionsHold(s.pool, s.guards, s.total) &&
    (forall t: nat :: OwnersHold(s.pool, s.guards, t)) &&
    DrainHolds(s) &&
    (forall k <- s.waiters.Keys :: SleepsRightly(s.pool, k, s.waiters[k])) &&
    DrainSleepsRightly(s.pool, s.drain, s.total)
  }

  // ---- Tickets ----

  lemma AdvanceKeepsTickets(p: Pool, waiters: set<nat>)
    requires TicketsHold(p, waiters) && p.serving in waiters
    ensures TicketsHold(Advanced(p), waiters - {p.serving}) && Advanced(p).serving > p.serving
  {
    SkipStops(p.serving + 1, p.abandoned, p.next);
  }

  lemma LeaveKeepsTickets(p: Pool, k: nat, waiters: set<nat>)
    requires TicketsHold(p, waiters) && k in waiters
    ensures TicketsHold(Left(p, k), waiters - {k}) && Left(p, k).serving >= p.serving
  {
    if p.serving == k { AdvanceKeepsTickets(p, waiters); }
  }

  lemma TakeKeepsTickets(p: Pool, t: nat, waiters: set<nat>)
    requires TicketsHold(p, waiters) && p.serving in waiters && p.idle != []
    ensures TicketsHold(Taken(p, t), waiters - {p.serving}) && Taken(p, t).serving > p.serving
  {
    AdvanceKeepsTickets(p.(idle := p.idle[1..], owners := p.owners[t := OwnedBy(p.owners, t) + 1]), waiters);
  }

  lemma PollKeepsTickets(s: Sys, k: nat, expired: bool)
    requires k in s.waiters && !s.pool.fatal && TicketsHold(s.pool, s.waiters.Keys)
    requires GrantsIncrease(s.grants, s.pool.serving)
    ensures var s' := DoPoll(s, k, expired);
            TicketsHold(s'.pool, s'.waiters.Keys) && GrantsIncrease(s'.grants, s'.pool.serving)
  {
    var t := s.waiters[k].thread;
    match Decide(s.pool, k, t, expired) {
      case Granted(_) =>
        TakeKeepsTickets(s.pool, t, s.waiters.Keys);
        assert DoPoll(s, k, expired).waiters.Keys == s.waiters.Keys - {k};
      case Wait => assert DoPoll(s, k, expired).waiters.Keys == s.waiters.Keys;
      case Refused =>
        LeaveKeepsTickets(s.pool, k, s.waiters.Keys);
        assert DoPoll(s, k, expired).waiters.Keys == s.waiters.Keys - {k};
      case TimedOut =>
        LeaveKeepsTickets(s.pool, k, s.waiters.Keys);
        assert DoPoll(s, k, expired).waiters.Keys == s.waiters.Keys - {k};
      case Dead =>
    }
  }

  lemma StepKeepsTickets(s: Sys, a: Step)
    requires Enabled(s, a) && (!s.pool.fatal ==> TicketsHold(s.pool, s.waiters.Keys))
    requires GrantsIncrease(s.grants, s.pool.serving)
    ensures var s' := Apply(s, a);
            (!s'.pool.fatal ==> TicketsHold(s'.pool, s'.waiters.Keys)) && GrantsIncrease(s'.grants, s'.pool.serving)
  {
    var s' := Apply(s, a);
    match a {
      case Poll(k, expired) => if !s.pool.fatal { PollKeepsTickets(s, k, expired); }
      case Enter(t) =>
        if !s.pool.fatal && !Reentrant(s.pool, t) { assert s'.waiters.Keys == s.waiters.Keys + {s.pool.next}; }
      case _ => assert s'.waiters.Keys == s.waiters.Keys;
    }
  }

  // ---- Connections ----

  lemma TakeKeepsConnections(s: Sys, t: nat)
    requires ConnectionsHold(s.pool, s.guards, s.total) && s.pool.idle != [] && !s.pool.fatal
    ensures ConnectionsHold(Taken(s.pool, t), s.guards[s.pool.idle[0] := t], s.total)
  {
  }

  lemma ReturnKeepsConnections(s: Sys, c: nat, h: Health)
    requires Enabled(s, Return(c, h)) && ConnectionsHold(s.pool, s.guards, s.total)
    ensures ConnectionsHold(DoReturn(s, c, h).pool, DoReturn(s, c, h).guards, s.total)
  {
  }

  lemma PollKeepsConnections(s: Sys, k: nat, expired: bool)
    requires k in s.waiters && ConnectionsHold(s.pool, s.guards, s.total)
    ensures var s' := DoPoll(s, k, expired); ConnectionsHold(s'.pool, s'.guards, s.total)
  {
    if Decide(s.pool, k, s.waiters[k].thread, expired).Granted? { TakeKeepsConnections(s, s.waiters[k].thread); }
  }

  lemma StepKeepsConnections(s: Sys, a: Step)
    requires Enabled(s, a) && ConnectionsHold(s.pool, s.guards, s.total)
    ensures ConnectionsHold(Apply(s, a).pool, Apply(s, a).guards, s.total) && Apply(s, a).total == s.total
  {
    match a {
      case Poll(k, expired) => PollKeepsConnections(s, k, expired);
      case Return(c, h) => ReturnKeepsConnections(s, c, h);
      case _ => assert Apply(s, a).pool.idle == s.pool.idle && Apply(s, a).guards == s.guards;
    }
  }

  // ---- Owners ----

  lemma CheckoutCounts(guards: map<nat, nat>, c: nat, owner: nat, t: nat)
    requires c !in guards
    ensures |HeldBy(guards[c := owner], t)| == |HeldBy(guards, t)| + if t == owner then 1 else 0
  {
    assert HeldBy(guards[c := owner], t) == if t == owner then HeldBy(guards, t) + {c} else HeldBy(guards, t);
  }

  lemma ReturnCounts(guards: map<nat, nat>, c: nat, t: nat)
    requires c in guards
    ensures |HeldBy(guards, t)| == |HeldBy(guards - {c}, t)| + if t == guards[c] then 1 else 0
  {
    assert HeldBy(guards, t) == if t == guards[c] then HeldBy(guards - {c}, t) + {c} else HeldBy(guards - {c}, t);
  }

  lemma TakeKeepsOwners(p: Pool, guards: map<nat, nat>, owner: nat, t: nat)
    requires p.idle != [] && p.idle[0] !in guards && OwnersHold(p, guards, t)
    ensures OwnersHold(Taken(p, owner), guards[p.idle[0] := owner], t)
  {
    CheckoutCounts(guards, p.idle[0], owner, t);
    assert Taken(p, owner).owners == p.owners[owner := OwnedBy(p.owners, owner) + 1];
  }

  lemma PollKeepsOwners(s: Sys, k: nat, expired: bool, t: nat)
    requires k in s.waiters && ConnectionsHold(s.pool, s.guards, s.total) && OwnersHold(s.pool, s.guards, t)
    ensures OwnersHold(DoPoll(s, k, expired).pool, DoPoll(s, k, expired).guards, t)
  {
    if Decide(s.pool, k, s.waiters[k].thread, expired).Granted? {
      TakeKeepsOwners(s.pool, s.guards, s.waiters[k].thread, t);
    }
  }

  lemma ReturnKeepsOwners(p: Pool, guards: map<nat, nat>, c: nat, h: Health, t: nat)
    requires c in guards && OwnersHold(p, guards, t)
    ensures OwnersHold(Returned(p, c, guards[c], h), guards - {c}, t)
  {
    ReturnCounts(guards, c, t);
    assert Returned(p, c, guards[c], h).owners == Released(p.owners, guards[c]);
  }

  /** Counts follow guards exactly, so a drop never finds a count of zero. */
  lemma StepKeepsOwners(s: Sys, a: Step, t: nat)
    requires Enabled(s, a) && ConnectionsHold(s.pool, s.guards, s.total) && OwnersHold(s.pool, s.guards, t)
    ensures OwnersHold(Apply(s, a).pool, Apply(s, a).guards, t)
  {
    match a {
      case Poll(k, expired) => PollKeepsOwners(s, k, expired, t);
      case Return(c, h) => ReturnKeepsOwners(s.pool, s.guards, c, h, t);
      case _ => assert Apply(s, a).pool.owners == s.pool.owners && Apply(s, a).guards == s.guards;
    }
  }

  // ---- The drain ----

  lemma StepKeepsDrain(s: Sys, a: Step)
    requires Enabled(s, a) && DrainHolds(s)
    ensures DrainHolds(Apply(s, a))
  {
  }

  // ---- Wake-ups ----

  /** Every step that could give a sleeper something to do wakes everybody. */
  lemma StepKeepsSleeps(s: Sys, a: Step, k: nat)
    requires Enabled(s, a) && Sound(s) && k in Apply(s, a).waiters
    ensures SleepsRightly(Apply(s, a).pool, k, Apply(s, a).waiters[k])
  {
  }

  lemma StepKeepsDrainSleep(s: Sys, a: Step)
    requires Enabled(s, a) && DrainSleepsRightly(s.pool, s.drain, s.total)
    ensures DrainSleepsRightly(Apply(s, a).pool, Apply(s, a).drain, s.total)
  {
  }

  lemma StepKeepsSound(s: Sys, a: Step)
    requires Sound(s) && Enabled(s, a)
    ensures Sound(Apply(s, a)) && Apply(s, a).total == s.total
  {
    StepKeepsTickets(s, a);
    StepKeepsConnections(s, a);
    forall t: nat ensures OwnersHold(Apply(s, a).pool, Apply(s, a).guards, t) { StepKeepsOwners(s, a, t); }
    StepKeepsDrain(s, a);
    forall k <- Apply(s, a).waiters.Keys ensures SleepsRightly(Apply(s, a).pool, k, Apply(s, a).waiters[k]) {
      StepKeepsSleeps(s, a, k);
    }
    StepKeepsDrainSleep(s, a);
  }

  predicate IsRun(s: Sys, steps: seq<Step>)
    decreases |steps|
  {
    steps == [] || (Enabled(s, steps[0]) && IsRun(Apply(s, steps[0]), steps[1..]))
  }

  function After(s: Sys, steps: seq<Step>): Sys
    requires IsRun(s, steps)
    decreases |steps|
  {
    if steps == [] then s else After(Apply(s, steps[0]), steps[1..])
  }

  lemma {:induction false} RunKeepsSound(s: Sys, steps: seq<Step>)
    requires Sound(s) && IsRun(s, steps)
    ensures Sound(After(s, steps)) && After(s, steps).total == s.total
    decreases |steps|
  {
    if steps != [] {
      StepKeepsSound(s, steps[0]);
      RunKeepsSound(Apply(s, steps[0]), steps[1..]);
    }
  }

  lemma InitialSound(s: Sys)
    requires Initial(s)
    ensures Sound(s)
  {
  }

  // ---- What holds in every reachable state ----

  /** The queue is exactly the tickets in line, and grants follow it in order. */
  lemma TicketQueue(s: Sys, steps: seq<Step>)
    requires Initial(s) && IsRun(s, steps)
    ensures var t := After(s, steps); !t.pool.fatal ==>
              forall k: nat :: k in t.waiters <==> t.pool.serving <= k < t.pool.next && k !in t.pool.abandoned
    ensures var t := After(s, steps); !t.pool.fatal ==> t.pool.serving !in t.pool.abandoned
    ensures var g := After(s, steps).grants; forall i, j :: 0 <= i < j < |g| ==> g[i] < g[j]
  {
    InitialSound(s);
    RunKeepsSound(s, steps);
  }

  /** While somebody waits, a connection is idle and no drain is on, the ticket served belongs to a
      live waiter that is awake, and its next look takes the connection that was idle longest. */
  lemma HeadCanTake(s: Sys, steps: seq<Step>, k: nat)
    requires Initial(s) && IsRun(s, steps)
    requires var t := After(s, steps); !t.pool.fatal && !t.pool.maintenance && t.pool.idle != [] && k in t.waiters
    ensures var t := After(s, steps);
            t.pool.serving in t.waiters && t.pool.serving <= k && !t.waiters[t.pool.serving].asleep &&
            forall expired ::
              Decide(t.pool, t.pool.serving, t.waiters[t.pool.serving].thread, expired) == Granted(t.pool.idle[0])
  {
    InitialSound(s);
    RunKeepsSound(s, steps);
    var t := After(s, steps);
    assert SleepsRightly(t.pool, t.pool.serving, t.waiters[t.pool.serving]);
  }

  /** No connection is lost, duplicated or shared, and every owner count is the number of that
      thread's guards. */
  lemma Conservation(s: Sys, steps: seq<Step>, t: nat)
    requires Initial(s) && IsRun(s, steps)
    ensures var u := After(s, steps);
            (!u.pool.fatal ==> |u.pool.idle| + |u.guards| == s.total) &&
            (forall c <- u.pool.idle :: c !in u.guards) &&
            OwnedBy(u.pool.owners, t) == |HeldBy(u.guards, t)|
  {
    InitialSound(s);
    RunKeepsSound(s, steps);
    assert OwnersHold(After(s, steps).pool, After(s, steps).guards, t);
  }

  /** A maintenance callback runs only while every connection is idle and nobody holds a guard. */
  lemma MaintenanceIsExclusive(s: Sys, steps: seq<Step>, a: Step)
    requires Initial(s) && IsRun(s, steps) && Enabled(After(s, steps), a)
    requires Apply(After(s, steps), a).runs != After(s, steps).runs
    ensures var t := After(s, steps);
            a.PollDrain? && t.guards == map[] && !t.pool.fatal && t.pool.maintenance && |t.pool.idle| == s.total
  {
    InitialSound(s);
    RunKeepsSound(s, steps);
    assert After(s, steps).total == s.total;
  }

  /** During a drain a waiter that owns a guard is awake and its next look is refused, so the drain
      never waits for a thread that waits for the drain; nor for its own caller. */
  lemma DrainNeverWaitsForWaitingOwner(s: Sys, steps: seq<Step>, k: nat)
    requires Initial(s) && IsRun(s, steps)
    requires var t := After(s, steps);
             t.drain.Draining? && !t.pool.fatal && k in t.waiters && HeldBy(t.guards, t.waiters[k].thread) != {}
    ensures var t := After(s, steps);
            !t.waiters[k].asleep && HeldBy(t.guards, t.drain.caller) == {} &&
            forall expired :: Decide(t.pool, k, t.waiters[k].thread, expired) == Refused
  {
    InitialSound(s);
    RunKeepsSound(s, steps);
    var t := After(s, steps);
    assert OwnersHold(t.pool, t.guards, t.waiters[k].thread);
    assert OwnersHold(t.pool, t.guards, t.drain.caller);
    assert SleepsRightly(t.pool, k, t.waiters[k]);
  }

  /** While a drain is on nothing is handed out: outstanding guards only go down. */
  lemma DrainOnlyShrinks(s: Sys, a: Step)
    requires Enabled(s, a) && DrainHolds(s) && s.drain.Draining?
    ensures Apply(s, a).guards.Keys <= s.guards.Keys
    ensures a.Return? ==> Apply(s, a).guards.Keys < s.guards.Keys
  {
  }

  // ---- What a thread sees of its own calls ----

  /** What is left of the state when a waiter leaves empty-handed: nothing else moved. */
  predicate LeftEmptyHanded(s: Sys, s': Sys, k: nat) {
    s'.waiters.Keys == s.waiters.Keys - {k} && s'.guards == s.guards && s'.pool.idle == s.pool.idle &&
    s'.grants == s.grants && s'.pool.next == s.pool.next
  }

  ghost predicate OwnsGuard(s: Sys, t: nat) {
    HeldBy(s.guards, t) != {}
  }

  /** The waiter with the smallest ticket. */
  predicate IsHead(s: Sys, k: nat) {
    k in s.waiters && forall j <- s.waiters.Keys :: k <= j
  }

  lemma HeadIsServed(s: Sys, k: nat)
    requires Sound(s) && !s.pool.fatal && k in s.waiters
    ensures IsHead(s, k) <==> k == s.pool.serving
  {
    assert k in s.waiters.Keys && s.pool.serving in s.waiters.Keys;
  }

  lemma OwnerIsCounted(s: Sys, t: nat)
    requires Sound(s)
    ensures OwnsGuard(s, t) <==> OwnedBy(s.pool.owners, t) != 0
  {
    assert OwnersHold(s.pool, s.guards, t);
    var held := HeldBy(s.guards, t);
    assert |held| == 0 <==> held == {};
  }

  /** One look of a waiter, in every reachable state. On a dead pool it leaves with nothing. During a drain it
      leaves with nothing if its thread holds a connection. Otherwise, with no drain on, the first in line gets
      the connection that was idle longest. Whoever has to wait on leaves if the deadline has passed and goes
      to sleep if it has not. */
  lemma LookDoes(s0: Sys, steps: seq<Step>, k: nat, expired: bool)
    requires Initial(s0) && IsRun(s0, steps) && k in After(s0, steps).waiters
    ensures var s := After(s0, steps);
            var s', t := Apply(s, Poll(k, expired)), s.waiters[k].thread;
            if s.pool.fatal || (s.drain.Draining? && OwnsGuard(s, t)) then LeftEmptyHanded(s, s', k)
            else if !s.drain.Draining? && IsHead(s, k) && s.pool.idle != [] then
              s'.waiters.Keys == s.waiters.Keys - {k} && s'.guards == s.guards[s.pool.idle[0] := t] &&
              s'.pool.idle == s.pool.idle[1..] && s'.grants == s.grants + [k]
            else if expired then LeftEmptyHanded(s, s', k)
            else s' == s.(waiters := s.waiters[k := Waiter(t, true)])
    ensures var s := After(s0, steps);
            var t := s.waiters[k].thread;
            Decide(s.pool, k, t, expired) ==
              if s.pool.fatal then Dead
              else if s.drain.Draining? && OwnsGuard(s, t) then Refused
              else if !s.drain.Draining? && IsHead(s, k) && s.pool.idle != [] then Granted(s.pool.idle[0])
              else if expired then TimedOut
              else Wait
  {
    InitialSound(s0);
    RunKeepsSound(s0, steps);
    var s := After(s0, steps);
    OwnerIsCounted(s, s.waiters[k].thread);
    if !s.pool.fatal { HeadIsServed(s, k); }
  }

  /** A look after the deadline is the last one, and whoever is then first in line is served next. */
  lemma DeadlineEndsWait(s0: Sys, steps: seq<Step>, k: nat)
    requires Initial(s0) && IsRun(s0, steps) && k in After(s0, steps).waiters
    ensures var s := After(s0, steps);
            var s' := Apply(s, Poll(k, true));
            k !in s'.waiters &&
            (!s.pool.fatal ==> forall j <- s'.waiters.Keys :: IsHead(s', j) <==> j == s'.pool.serving)
  {
    InitialSound(s0);
    RunKeepsSound(s0, steps);
    var s := After(s0, steps);
    var s' := Apply(s, Poll(k, true));
    StepKeepsSound(s, Poll(k, true));
    if !s.pool.fatal {
      forall j <- s'.waiters.Keys ensures IsHead(s', j) <==> j == s'.pool.serving { HeadIsServed(s', j); }
    }
  }

  /** Asking for a connection draws the last ticket in line, except during a drain for a thread that holds
      a connection: it is turned away. */
  lemma EnterDoes(s0: Sys, steps: seq<Step>, t: nat)
    requires Initial(s0) && IsRun(s0, steps)
    ensures var s := After(s0, steps);
            var s' := Apply(s, Enter(t));
            if s.drain.Draining? && OwnsGuard(s, t) then s' == s
            else s'.waiters == s.waiters[s.pool.next := Waiter(t, false)] &&
                 (!s.pool.fatal ==> forall j <- s.waiters.Keys :: j < s.pool.next) &&
                 s'.guards == s.guards && s'.pool == s.pool.(next := s.pool.next + 1)
  {
    InitialSound(s0);
    RunKeepsSound(s0, steps);
    OwnerIsCounted(After(s0, steps), t);
  }

  /** A drain begins unless the pool is dead or its caller holds a connection; it ends when all connections
      are idle, and only then runs the callback, or when the pool is dead or the deadline has passed. */
  lemma DrainDoes(s0: Sys, steps: seq<Step>, expired: bool)
    requires Initial(s0) && IsRun(s0, steps)
    ensures var s := After(s0, steps);
            s.drain.Holding? ==>
              var s' := Apply(s, Begin);
              s'.guards == s.guards && s'.drain == if s.pool.fatal || OwnsGuard(s, s.drain.caller) then NoDrain
                else Draining(s.drain.caller, false)
    ensures var s := After(s0, steps);
            s.drain.Draining? ==>
              var s', quiet := Apply(s, PollDrain(expired)), s.guards == map[] && !s.pool.fatal;
              s'.runs == s.runs + (if quiet then 1 else 0) && s'.guards == s.guards &&
              s'.drain == if quiet || s.pool.fatal || expired then NoDrain else Draining(s.drain.caller, true)
  {
    InitialSound(s0);
    RunKeepsSound(s0, steps);
    var s := After(s0, steps);
    if s.drain.Holding? { OwnerIsCounted(s, s.drain.caller); }
    assert s.total == s0.total && (s.guards == map[] <==> |s.guards| == 0);
  }

  predicate Loses(a: Step) {
    a.Return? && a.health.Lost?
  }

  /** The pool is dead exactly when a connection was lost. */
  lemma {:induction false} OnlyLossIsFatal(s: Sys, steps: seq<Step>)
    requires IsRun(s, steps)
    ensures After(s, steps).pool.fatal <==> s.pool.fatal || exists i :: 0 <= i < |steps| && Loses(steps[i])
    decreases |steps|
  {
    if steps != [] {
      var s', rest := Apply(s, steps[0]), steps[1..];
      OnlyLossIsFatal(s', rest);
      assert s'.pool.fatal <==> s.pool.fatal || Loses(steps[0]);
      if exists i :: 0 <= i < |steps| && Loses(steps[i]) {
        var i :| 0 <= i < |steps| && Loses(steps[i]);
        if i > 0 { assert Loses(rest[i - 1]); }
      }
      if exists i :: 0 <= i < |rest| && Loses(rest[i]) {
        var i :| 0 <= i < |rest| && Loses(rest[i]);
        assert Loses(steps[i + 1]);
      }
    }
  }
}
