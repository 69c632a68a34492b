/** What a delivery does for the callbacks: everybody who is subscribed is reached, in the order of
    subscription, and a receiver gets the latest value. */
module CallbackDelivery {
  import opened Values
  import opened Callbacks

  predicate Live(s: State, id: nat) {
    id in s.used && id !in s.dropping && id !in s.dropped
  }

  predicate Lists(cs: seq<Callback>, id: nat) {
    exists i :: 0 <= i < |cs| && cs[i].id == id
  }

  // ---- Whom a delivery calls ----

  /** The callbacks that a delivery called now would check out. */
  function ToCall(s: State): seq<Callback> {
    Keep(s.hub.callbacks, s.hub.deferred)
  }

  /** A delivery that nothing interrupts, from its start to its end. */
  function WholeDelivery(s: State, newOnly: bool): seq<Step> {
    [Enter(newOnly)] + ([Checkout] + (WalkSteps(ToCall(s), newOnly, []) + [Restore, Exit]))
  }

  lemma {:induction false} WhoIsCalled(list: seq<Callback>, newOnly: bool, id: nat)
    ensures id in CalledIds(list, newOnly, []) <==>
            exists i :: 0 <= i < |list| && list[i].id == id && (newOnly ==> list[i].isNew)
  {
    if list != [] {
      WhoIsCalled(list[1..], newOnly, id);
      assert forall i :: 0 < i < |list| ==> list[i] == list[1..][i - 1];
      assert forall i :: 0 <= i < |list[1..]| ==> list[1..][i] == list[i + 1];
    }
  }

  lemma CountCons(c: Callback, rest: seq<Callback>, id: nat)
    ensures Count(multiset([c] + rest), id) == (if c.id == id then 1 else 0) + Count(multiset(rest), id)
  {
  }

  lemma {:induction false} CalledOften(list: seq<Callback>, newOnly: bool, id: nat)
    ensures multiset(CalledIds(list, newOnly, []))[id] <= Count(multiset(list), id)
  {
    if list != [] {
      var c, rest := list[0], list[1..];
      CalledOften(rest, newOnly, id);
      CountCons(c, rest, id);
      assert list == [c] + rest;
      var first := if Skips(c, newOnly, []) then [] else [c.id];
      assert CalledIds(list, newOnly, []) == first + CalledIds(rest, newOnly, []);
    }
  }

  lemma ListedIsCounted(cs: seq<Callback>, id: nat)
    ensures Lists(cs, id) <==> Count(multiset(cs), id) > 0
  {
    if i :| 0 <= i < |cs| && cs[i].id == id {
      assert cs[i] in multiset(cs);
      assert cs[i] == Callback(id, true) || cs[i] == Callback(id, false);
    }
    if Callback(id, true) in multiset(cs) { assert Callback(id, true) in cs; }
    if Callback(id, false) in multiset(cs) { assert Callback(id, false) in cs; }
  }

  lemma CheckedOutHasLive(s: State, id: nat)
    requires Sound(s) && s.phase.Outside?
    ensures var list := ToCall(s);
            (Live(s, id) ==> Lists(list, id)) && (Lists(list, id) ==> id in s.used && id !in s.dropped) &&
            Count(multiset(list), id) <= 1 &&
            forall i :: 0 <= i < |list| && list[i].id == id ==> (list[i].isNew <==> !WasCalled(s.calls, id))
  {
    var list := ToCall(s);
    assert Holds(s, id);
    KeepCounts(s.hub.callbacks, s.hub.deferred, Callback(id, true));
    KeepCounts(s.hub.callbacks, s.hub.deferred, Callback(id, false));
    ListedIsCounted(list, id);
    forall i | 0 <= i < |list| && list[i].id == id ensures list[i].isNew <==> !WasCalled(s.calls, id) {
      assert list[i] in multiset(list);
      KeepCounts(s.hub.callbacks, s.hub.deferred, list[i]);
      assert NewUntilCalled(Present(s), s.calls, list[i]);
    }
  }

  /** The ids that a whole delivery calls: everybody subscribed, or everybody subscribed who was never
      called before if it is for new callbacks; each once, and nobody whose drop has returned. */
  lemma WholeDeliveryCalls(s0: State, steps: seq<Step>, newOnly: bool, id: nat)
    requires Initial(s0) && IsRun(s0, steps) && After(s0, steps).phase == Outside
    ensures var s := After(s0, steps);
            var ids := CalledIds(ToCall(s), newOnly, []);
            (Live(s, id) ==> (id in ids <==> !newOnly || !WasCalled(s.calls, id))) &&
            (id in ids ==> id in s.used && id !in s.dropped) && multiset(ids)[id] <= 1
  {
    var s := After(s0, steps);
    RunKeepsSound(s0, steps);
    CheckedOutHasLive(s, id);
    WhoIsCalled(ToCall(s), newOnly, id);
    CalledOften(ToCall(s), newOnly, id);
  }

  /** Unless closing has begun, the whole delivery is a run that makes exactly these calls, one after the
      other; once it has begun, a delivery does nothing. */
  lemma WholeDeliveryRuns(s: State, newOnly: bool)
    requires s.phase == Outside
    ensures s.hub.refusing ==> Apply(s, Enter(newOnly)) == s
    ensures !s.hub.refusing ==>
              var steps := WholeDelivery(s, newOnly);
              IsRun(s, steps) && After(s, steps).phase == Outside &&
              After(s, steps).calls ==
              s.calls + CallsTo(s.(started := s.started + 1), CalledIds(ToCall(s), newOnly, []), newOnly)
  {
    if !s.hub.refusing {
      var s1 := Apply(s, Enter(newOnly));
      EnteredDeliveryRuns(s1, newOnly);
      OneStep(s, Enter(newOnly), [Checkout] + (WalkSteps(ToCall(s), newOnly, []) + [Restore, Exit]));
      var ids := CalledIds(ToCall(s), newOnly, []);
      assert CallsTo(s1, ids, newOnly) == CallsTo(s.(started := s.started + 1), ids, newOnly);
    }
  }

  lemma EnteredDeliveryRuns(s: State, newOnly: bool)
    requires s.phase == Entered(newOnly)
    ensures var steps := [Checkout] + (WalkSteps(ToCall(s), newOnly, []) + [Restore, Exit]);
            IsRun(s, steps) && After(s, steps).phase == Outside &&
            After(s, steps).calls == s.calls + CallsTo(s, CalledIds(ToCall(s), newOnly, []), newOnly)
  {
    var list := ToCall(s);
    var s1 := Apply(s, Checkout);
    WalkIsRun(s1, newOnly, [], list);
    var walk, ids := WalkSteps(list, newOnly, []), CalledIds(list, newOnly, []);
    assert CallsTo(s1, ids, newOnly) == CallsTo(s, ids, newOnly);
    var s2 := After(s1, walk);
    EndOfDelivery(s2);
    RunsOn(s1, walk, [Restore, Exit]);
    OneStep(s, Checkout, walk + [Restore, Exit]);
  }

  lemma EndOfDelivery(s: State)
    requires s.phase.Walking? && s.phase.rest == []
    ensures IsRun(s, [Restore, Exit]) && After(s, [Restore, Exit]).phase == Outside
    ensures After(s, [Restore, Exit]).calls == s.calls
  {
    var s1 := Apply(s, Restore);
    var s2 := Apply(s1, Exit);
    assert IsRun(s2, []) && After(s2, []) == s2;
    OneStep(s1, Exit, []);
    OneStep(s, Restore, [Exit]);
    assert [Exit] + [] == [Exit] && [Restore] + [Exit] == [Restore, Exit];
  }

  lemma {:induction false} RunsOn(s: State, a: seq<Step>, b: seq<Step>)
    requires IsRun(s, a) && IsRun(After(s, a), b)
    ensures IsRun(s, a + b) && After(s, a + b) == After(After(s, a), b)
    decreases |a|
  {
    if a == [] {
      assert a + b == b;
    } else {
      RunsOn(Apply(s, a[0]), a[1..], b);
      assert a + b == [a[0]] + (a[1..] + b);
      OneStep(s, a[0], a[1..] + b);
    }
  }

  // ---- The latest value ----

  predicate TouchesSlot(a: Step) {
    a.Publish? || a.Receive? || a.CloseSlot?
  }

  lemma {:induction false} SlotStays(s: State, steps: seq<Step>)
    requires IsRun(s, steps) && forall i :: 0 <= i < |steps| ==> !TouchesSlot(steps[i])
    ensures After(s, steps).hub.slot == s.hub.slot && After(s, steps).hub.closed == s.hub.closed
    decreases |steps|
  {
    if steps != [] { SlotStays(Apply(s, steps[0]), steps[1..]); }
  }

  /** Whatever was published before, and whatever deliveries and guards did meanwhile: a receiver gets the
      value published last, once. */
  lemma LatestIsReceived(s: State, v: nat, steps: seq<Step>)
    requires !s.hub.closed && IsRun(s, [Publish(v)] + steps)
    requires forall i :: 0 <= i < |steps| ==> !TouchesSlot(steps[i])
    ensures var t := After(s, [Publish(v)] + steps);
            t.hub.slot == Held(v) && Enabled(t, Receive) && Apply(t, Receive).hub.slot == Empty
  {
    assert ([Publish(v)] + steps)[1..] == steps;
    SlotStays(Apply(s, Publish(v)), steps);
  }
}
