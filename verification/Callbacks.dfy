/** Callbacks and closing of one live query: the list is checked out to be called without a
    lock, guards may be dropped and callbacks added meanwhile, and closing is terminal. */
module Callbacks {
  import opened Values

  /** A subscribed callback; `isNew` until it has been called once. */
  datatype Callback = Callback(id: nat, isNew: bool)

  datatype Slot = Empty | Held(value: nat) | HeldClosed

  /** Where the delivering thread is. `done` and `rest` are the checked-out list. */
  datatype Phase =
    | Outside
    | Entered(newOnly: bool)
    | Walking(newOnly: bool, done: seq<Callback>, rest: seq<Callback>)
    | Calling(newOnly: bool, done: seq<Callback>, c: Callback, rest: seq<Callback>)
    | Restored

  /** A recorded call: which callback, in which delivery, and whether its guard was gone by then. */
  datatype Call = Call(id: nat, delivery: nat, newOnly: bool, late: bool)

  /** The fields of `SubShared` that deliveries and closing touch. */
  datatype Hub = Hub(callbacks: seq<Callback>, deferred: seq<nat>, refusing: bool, closed: bool, slot: Slot)

  /** `used`, `dropping`, `dropped` follow the guards; `dropped[id]` is the number of deliveries
      that had started when the drop of that guard returned. */
  datatype State = State(hub: Hub, phase: Phase, used: set<nat>, dropping: set<nat>, dropped: map<nat, nat>,
                         started: nat, calls: seq<Call>, closeReturned: bool)

  datatype Step =
    | Subscribe(id: nat)
    | Unlist(id: nat)
    | Defer(id: nat)
    | Enter(newOnly: bool)
    | Checkout
    | Visit
    | Invoke
    | Restore
    | Exit
    | Refuse
    | CloseSlot
    | CloseReturn
    | Publish(value: nat)
    | Receive

  /** `Vec::retain` with the deferred ids taken out. */
  function Keep(cs: seq<Callback>, gone: seq<nat>): seq<Callback> {
    if cs == [] then []
    else if cs[0].id in gone then Keep(cs[1..], gone)
    else [cs[0]] + Keep(cs[1..], gone)
  }

  // ---- The lock-held sections of the hub ----

  function Subscribed(h: Hub, id: nat): Hub { h.(callbacks := h.callbacks + [Callback(id, true)]) }

  function Unlisted(h: Hub, id: nat): Hub { h.(callbacks := Keep(h.callbacks, [id])) }

  function Deferred(h: Hub, id: nat): Hub { h.(deferred := h.deferred + [id]) }

  function CheckedOut(h: Hub): Hub { h.(callbacks := [], deferred := []) }

  function PutBack(h: Hub, done: seq<Callback>): Hub {
    h.(callbacks := Keep(done + h.callbacks, h.deferred), deferred := [])
  }

  function SlotClosed(h: Hub): Hub { h.(closed := true, slot := HeldClosed) }

  function SlotPublished(h: Hub, v: nat): Hub { if h.closed then h else h.(slot := Held(v)) }

  predicate Enabled(s: State, a: Step) {
    match a
    case Subscribe(id) => id !in s.used
    case Unlist(id) => id in s.used && id !in s.dropping && id !in s.dropped
    case Defer(id) => id in s.dropping
    case Enter(_) => s.phase.Outside?
    case Checkout => s.phase.Entered?
    case Visit => s.phase.Walking? && s.phase.rest != []
    case Invoke => s.phase.Calling?
    case Restore => s.phase.Walking? && s.phase.rest == []
    case Exit => s.phase.Restored?
    case CloseSlot => s.hub.refusing
    case CloseReturn => s.hub.closed && s.phase.Outside?
    case _ => true
  }

  function AfterVisit(h: Hub, p: Phase): Phase
    requires p.Walking? && p.rest != []
  {
    var c := p.rest[0];
    if (p.newOnly && !c.isNew) || c.id in h.deferred
    then Walking(p.newOnly, p.done + [c], p.rest[1..])
    else Calling(p.newOnly, p.done, c, p.rest[1..])
  }

  function Apply(s: State, a: Step): State
    requires Enabled(s, a)
  {
    match a
    case Subscribe(id) => s.(hub := Subscribed(s.hub, id), used := s.used + {id})
    case Unlist(id) => s.(hub := Unlisted(s.hub, id), dropping := s.dropping + {id})
    case Defer(id) =>
      s.(hub := Deferred(s.hub, id), dropping := s.dropping - {id}, dropped := s.dropped[id := s.started])
    case Enter(newOnly) =>
      if s.hub.refusing then s else s.(phase := Entered(newOnly), started := s.started + 1)
    case Checkout =>
      s.(hub := CheckedOut(s.hub), phase := Walking(s.phase.newOnly, [], Keep(s.hub.callbacks, s.hub.deferred)))
    case Visit => s.(phase := AfterVisit(s.hub, s.phase))
    case Invoke =>
      var c := s.phase.c;
      s.(phase := Walking(s.phase.newOnly, s.phase.done + [c.(isNew := false)], s.phase.rest),
         calls := s.calls + [Call(c.id, s.started, s.phase.newOnly, c.id in s.dropped)])
    case Restore => s.(hub := PutBack(s.hub, s.phase.done), phase := Restored)
    case Exit => s.(phase := Outside)
    case Refuse => s.(hub := s.hub.(refusing := true))
    case CloseSlot => s.(hub := SlotClosed(s.hub))
    case CloseReturn => s.(closeReturned := true)
    case Publish(v) => s.(hub := SlotPublished(s.hub, v))
    case Receive => s.(hub := s.hub.(slot := Empty))
  }

  predicate Initial(s: State) {
    s == State(Hub([], [], false, false, Empty), Outside, {}, {}, map[], 0, [], false)
  }

  predicate IsRun(s: State, steps: seq<Step>)
    decreases |steps|
  {
    steps == [] || (Enabled(s, steps[0]) && IsRun(Apply(s, steps[0]), steps[1..]))
  }

  function After(s: State, steps: seq<Step>): State
    requires IsRun(s, steps)
    decreases |steps|
  {
    if steps == [] then s else After(Apply(s, steps[0]), steps[1..])
  }

  // ---- Invariants ----

  function OutList(p: Phase): seq<Callback> {
    match p
    case Walking(_, done, rest) => done + rest
    case Calling(_, done, c, rest) => done + [c] + rest
    case _ => []
  }

  /** Every callback there is, checked out or listed. */
  function Present(s: State): multiset<Callback> {
    multiset(OutList(s.phase)) + multiset(s.hub.callbacks)
  }

  function Count(m: multiset<Callback>, id: nat): nat {
    m[Callback(id, true)] + m[Callback(id, false)]
  }

  predicate WasCalled(calls: seq<Call>, id: nat) {
    exists i :: 0 <= i < |calls| && calls[i].id == id
  }

  lemma {:induction false} KeepCounts(cs: seq<Callback>, gone: seq<nat>, c: Callback)
    ensures multiset(Keep(cs, gone))[c] == if c.id in gone then 0 else multiset(cs)[c]
  {
    if cs != [] {
      KeepCounts(cs[1..], gone, c);
      assert cs == [cs[0]] + cs[1..];
    }
  }

  /** Guards are subscribed once and dropped once. */
  predicate GuardsHold(s: State) {
    s.dropping <= s.used && s.dropped.Keys <= s.used && s.dropping !! s.dropped.Keys &&
    forall id <- s.hub.deferred :: id in s.dropped
  }

  /** No callback is lost or duplicated: a live guard has exactly one callback, nobody has two. */
  predicate NoneLostNoneTwice(s: State, id: nat) {
    Count(Present(s), id) <= 1 &&
    (id !in s.used ==> Count(Present(s), id) == 0) &&
    (id in s.used && id !in s.dropping && id !in s.dropped ==> Count(Present(s), id) == 1)
  }

  /** What is left of a dropped callback is listed for removal, and a delivery that still has it
      started before the drop returned. */
  predicate DroppedIsDeferred(s: State, id: nat) {
    id in s.dropped ==> (
      (Count(Present(s), id) > 0 ==> id in s.hub.deferred) &&
      (Count(multiset(OutList(s.phase)), id) > 0 ==> s.dropped[id] == s.started) &&
      s.dropped[id] <= s.started
    )
  }

  predicate Holds(s: State, id: nat) {
    NoneLostNoneTwice(s, id) && DroppedIsDeferred(s, id)
  }

  predicate CallBeforeDrop(s: State, call: Call) {
    call.id in s.used && call.delivery <= s.started &&
    (call.id in s.dropped ==> call.delivery <= s.dropped[call.id]) &&
    (call.late ==> call.id in s.dropped && !(s.phase.Calling? && s.phase.c.id == call.id))
  }

  /** The new-callback mark is up exactly until the first call. */
  predicate NewUntilCalled(present: multiset<Callback>, calls: seq<Call>, c: Callback) {
    present[c] > 0 ==> (c.isNew <==> !WasCalled(calls, c.id))
  }

  predicate CallsHold(s: State) {
    (forall i :: 0 <= i < |s.calls| ==> CallBeforeDrop(s, s.calls[i])) &&
    (forall i, j :: 0 <= i < j < |s.calls| && s.calls[i].late && s.calls[j].late ==> s.calls[i].id != s.calls[j].id) &&
    (s.phase.Calling? && s.phase.newOnly ==> s.phase.c.isNew) &&
    (forall i, j :: 0 <= i < j < |s.calls| && s.calls[j].newOnly ==> s.calls[i].id != s.calls[j].id)
  }

  predicate ClosingHolds(s: State) {
    (s.hub.closed ==> s.hub.refusing && !s.hub.slot.Held?) &&
    (s.closeReturned ==> s.hub.closed && s.phase.Outside?)
  }

  ghost predicate Sound(s: State) {
    GuardsHold(s) && ClosingHolds(s) && CallsHold(s) &&
    (forall id: nat :: Holds(s, id)) &&
    (forall c: Callback :: NewUntilCalled(Present(s), s.calls, c))
  }

  // ---- Presence ----

  lemma SubscribeHolds(s: State, a: Step, id: nat)
    requires a.Subscribe? && Enabled(s, a) && GuardsHold(s) && Holds(s, id)
    ensures Holds(Apply(s, a), id)
  {
  }

  lemma UnlistHolds(s: State, a: Step, id: nat)
    requires a.Unlist? && Enabled(s, a) && GuardsHold(s) && Holds(s, id)
    ensures Holds(Apply(s, a), id)
  {
    KeepCounts(s.hub.callbacks, [a.id], Callback(id, true));
    KeepCounts(s.hub.callbacks, [a.id], Callback(id, false));
  }

  lemma DeferHolds(s: State, a: Step, id: nat)
    requires a.Defer? && Enabled(s, a) && GuardsHold(s) && Holds(s, id)
    ensures Holds(Apply(s, a), id)
  {
  }

  lemma CheckoutHolds(s: State, id: nat)
    requires Enabled(s, Checkout) && GuardsHold(s) && Holds(s, id)
    ensures Holds(Apply(s, Checkout), id)
  {
    KeepCounts(s.hub.callbacks, s.hub.deferred, Callback(id, true));
    KeepCounts(s.hub.callbacks, s.hub.deferred, Callback(id, false));
  }

  lemma PutBackCounts(done: seq<Callback>, listed: seq<Callback>, gone: seq<nat>, id: nat)
    ensures Count(multiset(Keep(done + listed, gone)), id) ==
            if id in gone then 0 else Count(multiset(done) + multiset(listed), id)
  {
    KeepCounts(done + listed, gone, Callback(id, true));
    KeepCounts(done + listed, gone, Callback(id, false));
  }

  /** Removing what was deferred keeps the invariant. */
  lemma CleanedHolds(s: State, s': State, id: nat)
    requires GuardsHold(s) && Holds(s, id)
    requires s'.used == s.used && s'.dropping == s.dropping && s'.dropped == s.dropped && s'.started == s.started
    requires Count(Present(s'), id) == if id in s.hub.deferred then 0 else Count(Present(s), id)
    requires s'.phase == Restored
    ensures Holds(s', id)
  {
  }

  lemma RestoreHolds(s: State, id: nat)
    requires Enabled(s, Restore) && GuardsHold(s) && Holds(s, id)
    ensures Holds(Apply(s, Restore), id)
  {
    RestoredCounts(s, Apply(s, Restore), id);
    CleanedHolds(s, Apply(s, Restore), id);
  }

  lemma RestoredCounts(s: State, s': State, id: nat)
    requires s.phase.Walking? && s.phase.rest == [] && s'.phase == Restored
    requires s'.hub == PutBack(s.hub, s.phase.done)
    ensures Count(Present(s'), id) == if id in s.hub.deferred then 0 else Count(Present(s), id)
  {
    assert OutList(s.phase) == s.phase.done;
    assert multiset(OutList(s'.phase)) == multiset{};
    PutBackCounts(s.phase.done, s.hub.callbacks, s.hub.deferred, id);
  }

  lemma VisitKeepsList(h: Hub, p: Phase)
    requires p.Walking? && p.rest != []
    ensures multiset(OutList(AfterVisit(h, p))) == multiset(OutList(p))
  {
    assert p.rest == [p.rest[0]] + p.rest[1..];
  }

  lemma InvokeKeepsCounts(p: Phase, id: nat)
    requires p.Calling?
    ensures Count(multiset(p.done + [p.c.(isNew := false)] + p.rest), id) == Count(multiset(OutList(p)), id)
  {
  }

  /** Steps that leave the set of callbacks as it is. */
  lemma SamePresenceHolds(s: State, s': State, id: nat)
    requires Holds(s, id) && s'.used == s.used && s'.dropping == s.dropping && s'.dropped == s.dropped
    requires s'.hub.callbacks == s.hub.callbacks && s'.hub.deferred == s.hub.deferred && s'.started == s.started
    requires Count(multiset(OutList(s'.phase)), id) == Count(multiset(OutList(s.phase)), id)
    ensures Holds(s', id)
  {
  }

  lemma StepKeepsHolds(s: State, a: Step, id: nat)
    requires Enabled(s, a) && GuardsHold(s) && Holds(s, id)
    ensures Holds(Apply(s, a), id)
  {
    match a {
      case Subscribe(_) => SubscribeHolds(s, a, id);
      case Unlist(_) => UnlistHolds(s, a, id);
      case Defer(_) => DeferHolds(s, a, id);
      case Checkout => CheckoutHolds(s, id);
      case Restore => RestoreHolds(s, id);
      case Visit =>
        VisitKeepsList(s.hub, s.phase);
        SamePresenceHolds(s, Apply(s, a), id);
      case Invoke =>
        InvokeKeepsCounts(s.phase, id);
        SamePresenceHolds(s, Apply(s, a), id);
      case Enter(_) =>
      case _ => SamePresenceHolds(s, Apply(s, a), id);
    }
  }

  lemma StepKeepsGuards(s: State, a: Step)
    requires GuardsHold(s) && ClosingHolds(s) && Enabled(s, a)
    ensures GuardsHold(Apply(s, a)) && ClosingHolds(Apply(s, a))
  {
  }

  // ---- The new mark ----

  lemma KeepIsNew(s: State, a: Step, c: Callback)
    requires Enabled(s, a) && (a.Unlist? || a.Checkout? || a.Restore? || a.Visit?) &&
             NewUntilCalled(Present(s), s.calls, c)
    ensures NewUntilCalled(Present(Apply(s, a)), Apply(s, a).calls, c)
  {
    match a {
      case Unlist(id) => KeepCounts(s.hub.callbacks, [id], c);
      case Checkout => KeepCounts(s.hub.callbacks, s.hub.deferred, c);
      case Restore => KeepCounts(s.phase.done + s.hub.callbacks, s.hub.deferred, c);
      case Visit => VisitKeepsList(s.hub, s.phase);
    }
  }

  lemma CallRecorded(calls: seq<Call>, call: Call, id: nat)
    ensures WasCalled(calls + [call], id) <==> WasCalled(calls, id) || id == call.id
  {
    var all := calls + [call];
    if id == call.id { assert all[|calls|].id == id; }
    if i :| 0 <= i < |calls| && calls[i].id == id { assert all[i].id == id; }
  }

  lemma SwapLeavesOneCopy(m: multiset<Callback>, old': Callback, c: Callback)
    requires old' in m && Count(m, old'.id) <= 1
    ensures var m' := m - multiset{old'} + multiset{old'.(isNew := false)};
            m'[c] == if c.id == old'.id then (if c.isNew then 0 else 1) else m[c]
  {
  }

  lemma SwapKeepsMarks(m: multiset<Callback>, old': Callback, calls: seq<Call>, call: Call, c: Callback)
    requires old' in m && Count(m, old'.id) <= 1 && call.id == old'.id && NewUntilCalled(m, calls, c)
    ensures NewUntilCalled(m - multiset{old'} + multiset{old'.(isNew := false)}, calls + [call], c)
  {
    SwapLeavesOneCopy(m, old', c);
    CallRecorded(calls, call, c.id);
  }

  lemma InvokePresent(s: State)
    requires Enabled(s, Invoke)
    ensures s.phase.c in Present(s)
    ensures Present(Apply(s, Invoke)) == Present(s) - multiset{s.phase.c} + multiset{s.phase.c.(isNew := false)}
  {
  }

  lemma InvokedIsNotNew(s: State, c: Callback)
    requires Enabled(s, Invoke) && NoneLostNoneTwice(s, s.phase.c.id) && NewUntilCalled(Present(s), s.calls, c)
    ensures NewUntilCalled(Present(Apply(s, Invoke)), Apply(s, Invoke).calls, c)
  {
    InvokePresent(s);
    SwapKeepsMarks(Present(s), s.phase.c, s.calls,
                   Call(s.phase.c.id, s.started, s.phase.newOnly, s.phase.c.id in s.dropped), c);
  }

  lemma StepKeepsNewMark(s: State, a: Step, c: Callback)
    requires Enabled(s, a) && GuardsHold(s) && CallsHold(s) && NewUntilCalled(Present(s), s.calls, c)
    requires s.phase.Calling? ==> Holds(s, s.phase.c.id)
    ensures NewUntilCalled(Present(Apply(s, a)), Apply(s, a).calls, c)
  {
    match a {
      case Invoke => InvokedIsNotNew(s, c);
      case Subscribe(id) =>
        assert forall i :: 0 <= i < |s.calls| ==> CallBeforeDrop(s, s.calls[i]);
      case Unlist(_) => KeepIsNew(s, a, c);
      case Checkout => KeepIsNew(s, a, c);
      case Restore => KeepIsNew(s, a, c);
      case Visit => KeepIsNew(s, a, c);
      case _ =>
    }
  }

  // ---- The calls ----

  lemma CallStays(s: State, a: Step, call: Call)
    requires Enabled(s, a) && GuardsHold(s) && CallBeforeDrop(s, call)
    requires DroppedIsDeferred(s, call.id)
    ensures CallBeforeDrop(Apply(s, a), call)
  {
  }

  lemma InvokedCallHolds(s: State)
    requires Enabled(s, Invoke) && GuardsHold(s)
    requires NoneLostNoneTwice(s, s.phase.c.id) && DroppedIsDeferred(s, s.phase.c.id)
    ensures CallBeforeDrop(Apply(s, Invoke), Call(s.phase.c.id, s.started, s.phase.newOnly, s.phase.c.id in s.dropped))
  {
  }

  /** A callback is called at most once after its guard is gone: that call was already under way. */
  lemma LateOnlyOnce(s: State, i: nat)
    requires Enabled(s, Invoke) && CallsHold(s) && i < |s.calls| && s.calls[i].late
    ensures s.calls[i].id != s.phase.c.id
  {
  }

  /** A delivery for new callbacks calls nobody who was called before. */
  lemma NewOnlyCallsTheUncalled(s: State, i: nat)
    requires Enabled(s, Invoke) && CallsHold(s) && i < |s.calls| && s.phase.newOnly
    requires NewUntilCalled(Present(s), s.calls, s.phase.c)
    ensures s.calls[i].id != s.phase.c.id
  {
  }

  lemma StepKeepsCalls(s: State, a: Step)
    requires Enabled(s, a) && Sound(s)
    ensures CallsHold(Apply(s, a))
  {
    forall i | 0 <= i < |s.calls| ensures CallBeforeDrop(Apply(s, a), s.calls[i]) {
      assert Holds(s, s.calls[i].id);
      CallStays(s, a, s.calls[i]);
    }
    if a.Invoke? {
      assert Holds(s, s.phase.c.id) && NewUntilCalled(Present(s), s.calls, s.phase.c);
      InvokedCallHolds(s);
      forall i | 0 <= i < |s.calls| && s.calls[i].late ensures s.calls[i].id != s.phase.c.id { LateOnlyOnce(s, i); }
      forall i | 0 <= i < |s.calls| && s.phase.newOnly ensures s.calls[i].id != s.phase.c.id {
        NewOnlyCallsTheUncalled(s, i);
      }
    }
  }

  lemma StepKeepsSound(s: State, a: Step)
    requires Sound(s) && Enabled(s, a)
    ensures Sound(Apply(s, a))
  {
    StepKeepsGuards(s, a);
    StepKeepsCalls(s, a);
    forall id: nat ensures Holds(Apply(s, a), id) {
      assert Holds(s, id);
      StepKeepsHolds(s, a, id);
    }
    forall c: Callback ensures NewUntilCalled(Present(Apply(s, a)), Apply(s, a).calls, c) {
      assert NewUntilCalled(Present(s), s.calls, c);
      assert s.phase.Calling? ==> Holds(s, s.phase.c.id);
      StepKeepsNewMark(s, a, c);
    }
  }

  lemma {:induction false} RunKeepsSound(s: State, steps: seq<Step>)
    requires Sound(s) && IsRun(s, steps)
    ensures Sound(After(s, steps))
    decreases |steps|
  {
    if steps != [] {
      StepKeepsSound(s, steps[0]);
      RunKeepsSound(Apply(s, steps[0]), steps[1..]);
    }
  }

  // ---- The contract, in every reachable state ----

  /** No subscribed callback is lost or duplicated by check-out and restore. */
  lemma LiveCallbackPresentOnce(s: State, steps: seq<Step>, id: nat)
    requires Initial(s) && IsRun(s, steps)
    ensures var t := After(s, steps);
            Count(Present(t), id) <= 1 &&
            (id in t.used && id !in t.dropping && id !in t.dropped ==> Count(Present(t), id) == 1)
  {
    RunKeepsSound(s, steps);
    assert Holds(After(s, steps), id);
  }

  /** After a guard's drop returned no later delivery calls its callback, and at most one call
      that was already under way still arrives. */
  lemma DroppedCallbackStaysSilent(s: State, steps: seq<Step>, i: nat, j: nat)
    requires Initial(s) && IsRun(s, steps) && i < |After(s, steps).calls| && j < |After(s, steps).calls|
    ensures var t := After(s, steps);
            (t.calls[i].id in t.dropped ==> t.calls[i].delivery <= t.dropped[t.calls[i].id]) &&
            (i != j && t.calls[i].late && t.calls[j].late ==> t.calls[i].id != t.calls[j].id)
  {
    RunKeepsSound(s, steps);
    assert CallBeforeDrop(After(s, steps), After(s, steps).calls[i]);
  }

  /** A delivery for new callbacks never repeats a call of any earlier delivery. */
  lemma NewOnlyNeverRepeats(s: State, steps: seq<Step>, i: nat, j: nat)
    requires Initial(s) && IsRun(s, steps) && i < j < |After(s, steps).calls|
    requires After(s, steps).calls[j].newOnly
    ensures After(s, steps).calls[i].id != After(s, steps).calls[j].id
  {
    RunKeepsSound(s, steps);
  }

  lemma {:induction false} ClosedStaysSilent(s: State, steps: seq<Step>)
    requires Sound(s) && s.closeReturned && IsRun(s, steps)
    ensures After(s, steps).calls == s.calls && After(s, steps).closeReturned
    ensures After(s, steps).hub.closed && !After(s, steps).hub.slot.Held?
    decreases |steps|
  {
    if steps != [] {
      StepKeepsSound(s, steps[0]);
      ClosedStaysSilent(Apply(s, steps[0]), steps[1..]);
    }
  }

  /** Once closing has returned outside a delivery no callback runs again and no value can be received,
      whatever publishes, subscriptions and deliveries are attempted afterwards. */
  lemma CloseIsTerminal(s: State, steps: seq<Step>, more: seq<Step>)
    requires Initial(s) && IsRun(s, steps) && After(s, steps).closeReturned && IsRun(After(s, steps), more)
    ensures After(After(s, steps), more).calls == After(s, steps).calls
    ensures After(After(s, steps), more).hub.closed && !After(After(s, steps), more).hub.slot.Held?
  {
    RunKeepsSound(s, steps);
    ClosedStaysSilent(After(s, steps), more);
  }

  // ---- A delivery that nothing interrupts ----

  predicate Skips(c: Callback, newOnly: bool, gone: seq<nat>) {
    (newOnly && !c.isNew) || c.id in gone
  }

  /** The callbacks of a checked-out list that are called, each once, in the order of the list. */
  function CalledIds(list: seq<Callback>, newOnly: bool, gone: seq<nat>): seq<nat> {
    if list == [] then []
    else (if Skips(list[0], newOnly, gone) then [] else [list[0].id]) + CalledIds(list[1..], newOnly, gone)
  }

  /** The list afterwards: whoever was called is no longer new. */
  function Walked(list: seq<Callback>, newOnly: bool, gone: seq<nat>): seq<Callback> {
    if list == [] then []
    else (
      [if Skips(list[0], newOnly, gone) then list[0] else list[0].(isNew := false)]
      + Walked(list[1..], newOnly, gone)
    )
  }

  function WalkSteps(list: seq<Callback>, newOnly: bool, gone: seq<nat>): seq<Step> {
    if list == [] then []
    else (if Skips(list[0], newOnly, gone) then [Visit] else [Visit, Invoke]) + WalkSteps(list[1..], newOnly, gone)
  }

  function CallsTo(s: State, ids: seq<nat>, newOnly: bool): seq<Call> {
    seq(|ids|, i requires 0 <= i < |ids| => Call(ids[i], s.started, newOnly, ids[i] in s.dropped))
  }

  /** The steps lead through the list, with this list back and these callbacks called. */
  predicate RunsThrough(s: State, newOnly: bool, steps: seq<Step>, back: seq<Callback>, ids: seq<nat>) {
    IsRun(s, steps) &&
    After(s, steps) == s.(phase := Walking(newOnly, back, []), calls := s.calls + CallsTo(s, ids, newOnly))
  }

  /** Walking a list is a run of the protocol's steps, with the same calls and the same list. */
  lemma {:induction false} WalkIsRun(s: State, newOnly: bool, done: seq<Callback>, list: seq<Callback>)
    requires s.phase == Walking(newOnly, done, list)
    ensures RunsThrough(s, newOnly, WalkSteps(list, newOnly, s.hub.deferred),
                        done + Walked(list, newOnly, s.hub.deferred), CalledIds(list, newOnly, s.hub.deferred))
    decreases |list|
  {
    var gone := s.hub.deferred;
    if list == [] {
      assert done + Walked(list, newOnly, gone) == done;
      assert s.calls + CallsTo(s, [], newOnly) == s.calls;
    } else {
      var c, rest := list[0], list[1..];
      assert list == [c] + rest;
      var steps, back, ids := WalkSteps(rest, newOnly, gone), Walked(rest, newOnly, gone),
          CalledIds(rest, newOnly, gone);
      if Skips(c, newOnly, gone) {
        WalkIsRun(s.(phase := Walking(newOnly, done + [c], rest)), newOnly, done + [c], rest);
        SkippedFirst(s, newOnly, done, c, rest, steps, back, ids);
      } else {
        var s2 := Called(s, newOnly, done, c, rest);
        WalkIsRun(s2, newOnly, done + [c.(isNew := false)], rest);
        CalledFirst(s, newOnly, done, c, rest, steps, back, ids);
      }
    }
  }

  lemma SkippedFirst(s: State, newOnly: bool, done: seq<Callback>, c: Callback, rest: seq<Callback>,
                     steps: seq<Step>, back: seq<Callback>, ids: seq<nat>)
    requires s.phase == Walking(newOnly, done, [c] + rest) && Skips(c, newOnly, s.hub.deferred)
    requires RunsThrough(s.(phase := Walking(newOnly, done + [c], rest)), newOnly, steps, done + [c] + back, ids)
    ensures RunsThrough(s, newOnly, [Visit] + steps, done + ([c] + back), [] + ids)
  {
    var s1 := s.(phase := Walking(newOnly, done + [c], rest));
    assert ([c] + rest)[1..] == rest && Apply(s, Visit) == s1;
    assert done + [c] + back == done + ([c] + back) && [] + ids == ids;
    assert CallsTo(s1, ids, newOnly) == CallsTo(s, ids, newOnly);
    OneStep(s, Visit, steps);
  }

  /** After visiting and calling `c`. */
  function Called(s: State, newOnly: bool, done: seq<Callback>, c: Callback, rest: seq<Callback>): State {
    s.(phase := Walking(newOnly, done + [c.(isNew := false)], rest),
       calls := s.calls + [Call(c.id, s.started, newOnly, c.id in s.dropped)])
  }

  lemma CalledFirst(s: State, newOnly: bool, done: seq<Callback>, c: Callback, rest: seq<Callback>,
                    steps: seq<Step>, back: seq<Callback>, ids: seq<nat>)
    requires s.phase == Walking(newOnly, done, [c] + rest) && !Skips(c, newOnly, s.hub.deferred)
    requires RunsThrough(Called(s, newOnly, done, c, rest), newOnly, steps, done + [c.(isNew := false)] + back, ids)
    ensures RunsThrough(s, newOnly, [Visit, Invoke] + steps, done + ([c.(isNew := false)] + back), [c.id] + ids)
  {
    var s1, s2 := s.(phase := Calling(newOnly, done, c, rest)), Called(s, newOnly, done, c, rest);
    assert ([c] + rest)[1..] == rest && Apply(s, Visit) == s1 && Apply(s1, Invoke) == s2;
    assert done + [c.(isNew := false)] + back == done + ([c.(isNew := false)] + back);
    assert CallsTo(s2, ids, newOnly) == CallsTo(s, ids, newOnly);
    CallsCons(s, c.id, ids, newOnly);
    OneStep(s1, Invoke, steps);
    OneStep(s, Visit, [Invoke] + steps);
    assert [Visit] + ([Invoke] + steps) == [Visit, Invoke] + steps;
  }

  /** One more callback of a list that is walked. */
  lemma NextCalled(called: seq<nat>, list: seq<Callback>, i: nat, newOnly: bool, gone: seq<nat>, all: seq<nat>)
    requires i < |list| && called + CalledIds(list[i..], newOnly, gone) == all
    ensures called + (if Skips(list[i], newOnly, gone) then [] else [list[i].id])
            + CalledIds(list[i + 1..], newOnly, gone) == all
  {
    assert list[i..][0] == list[i] && list[i..][1..] == list[i + 1..];
  }

  lemma NextWalked(done: seq<Callback>, list: seq<Callback>, i: nat, newOnly: bool, gone: seq<nat>, all: seq<Callback>)
    requires i < |list| && done + Walked(list[i..], newOnly, gone) == all
    ensures done + [if Skips(list[i], newOnly, gone) then list[i] else list[i].(isNew := false)]
            + Walked(list[i + 1..], newOnly, gone) == all
  {
    assert list[i..][0] == list[i] && list[i..][1..] == list[i + 1..];
  }

  lemma OneStep(s: State, a: Step, steps: seq<Step>)
    requires Enabled(s, a) && IsRun(Apply(s, a), steps)
    ensures IsRun(s, [a] + steps) && After(s, [a] + steps) == After(Apply(s, a), steps)
  {
    assert ([a] + steps)[1..] == steps;
  }

  lemma CallsCons(s: State, id: nat, ids: seq<nat>, newOnly: bool)
    ensures s.calls + [Call(id, s.started, newOnly, id in s.dropped)] + CallsTo(s, ids, newOnly)
         == s.calls + CallsTo(s, [id] + ids, newOnly)
  {
  }

  // ---- The shared object ----

  /** The callback list, the deferred removals and the slot; every method is one lock-held section. */
  class SubShared {
    var callbacks: seq<Callback>
    var nextId: nat
    var deferred: seq<nat>
    var refusing: bool
    var active: nat
    var closed: bool
    var slot: Slot

    function View(): Hub reads this { Hub(callbacks, deferred, refusing, closed, slot) }

    constructor ()
      ensures View() == Hub([], [], false, false, Empty) && active == 0
    {
      callbacks, nextId, deferred, refusing, active, closed, slot := [], 1, [], false, 0, false, Empty;
    }

    method Subscribe() returns (id: nat)
      modifies this`callbacks, this`nextId
      ensures id == old(nextId) && nextId > id && View() == Subscribed(old(View()), id)
      ensures callbacks == old(callbacks) + [Callback(id, true)]
    {
      id := nextId;
      nextId := nextId + 1;
      callbacks := callbacks + [Callback(id, true)];
    }

    /** First half of a guard's drop. */
    method Unlist(id: nat)
      modifies this`callbacks
      ensures View() == Unlisted(old(View()), id)
    {
      callbacks := Keep(callbacks, [id]);
    }

    /** Second half of a guard's drop. */
    method Defer(id: nat)
      modifies this`deferred
      ensures View() == Deferred(old(View()), id)
    {
      deferred := deferred + [id];
    }

    method Enter() returns (entered: bool)
      modifies this`active
      ensures entered == !refusing && active == old(active) + (if entered then 1 else 0)
    {
      if refusing {
        return false;
      }
      active := active + 1;
      entered := true;
    }

    method Checkout() returns (list: seq<Callback>)
      modifies this`callbacks, this`deferred
      ensures View() == CheckedOut(old(View()))
      ensures list == Keep(old(callbacks), old(deferred))
    {
      list := Keep(callbacks, deferred);
      callbacks, deferred := [], [];
    }

    /** One pass over a checked-out list while nothing else moves: whom a delivery calls, in order,
        and the list that goes back. */
    method Walk(list: seq<Callback>, newOnly: bool) returns (called: seq<nat>, done: seq<Callback>)
      ensures called == CalledIds(list, newOnly, deferred)
      ensures done == Walked(list, newOnly, deferred)
    {
      called, done := [], [];
      ghost var ids, back := CalledIds(list, newOnly, deferred), Walked(list, newOnly, deferred);
      assert list[0..] == list;
      for i := 0 to |list|
        invariant called + CalledIds(list[i..], newOnly, deferred) == ids
        invariant done + Walked(list[i..], newOnly, deferred) == back
      {
        NextCalled(called, list, i, newOnly, deferred, ids);
        NextWalked(done, list, i, newOnly, deferred, back);
        if Skips(list[i], newOnly, deferred) {
          done := done + [list[i]];
        } else {
          called, done := called + [list[i].id], done + [list[i].(isNew := false)];
        }
      }
    }

    method Restore(done: seq<Callback>)
      modifies this`callbacks, this`deferred
      ensures View() == PutBack(old(View()), done)
    {
      callbacks := Keep(done + callbacks, deferred);
      deferred := [];
    }

    method Exit()
      modifies this`active
      ensures active == if old(active) > 0 then old(active) - 1 else 0
    {
      if active > 0 {
        active := active - 1;
      }
    }

    method Refuse()
      modifies this`refusing
      ensures View() == old(View()).(refusing := true)
    {
      refusing := true;
    }

    method CloseSlot()
      modifies this`closed, this`slot
      ensures View() == SlotClosed(old(View())) && closed && slot == HeldClosed
    {
      closed := true;
      slot := HeldClosed;
    }

    method Publish(v: nat)
      modifies this`slot
      ensures View() == SlotPublished(old(View()), v)
      ensures slot == if closed then old(slot) else Held(v)
    {
      if closed {
        return;
      }
      slot := Held(v);
    }

    /** A non-blocking receive: None while nothing is there, HeldClosed for ever once closed. */
    method TryRecv() returns (r: Slot)
      modifies this`slot
      ensures slot == Empty
      ensures r == if old(slot) != Empty then old(slot) else if closed then HeldClosed else Empty
    {
      if slot != Empty {
        r, slot := slot, Empty;
      } else {
        r := if closed then HeldClosed else Empty;
      }
    }
  }
}
