/** Callbacks keep the order of subscription through deliveries, drops and new subscriptions. */
module CallbackOrder {
  import opened Values
  import opened Callbacks
  import opened CallbackDelivery

  /** Everybody there is: the checked-out list, and behind it those who came since. */
  function Line(s: State): seq<Callback> {
    OutList(s.phase) + s.hub.callbacks
  }

  predicate Ahead(cs: seq<Callback>, a: nat, b: nat) {
    exists i, j :: 0 <= i < j < |cs| && cs[i].id == a && cs[j].id == b
  }

  /** As far as both are there, `a` is ahead of `b`. */
  predicate StillAhead(cs: seq<Callback>, a: nat, b: nat) {
    Lists(cs, a) && Lists(cs, b) ==> Ahead(cs, a, b)
  }

  lemma ListsEither(x: seq<Callback>, y: seq<Callback>, a: nat)
    ensures Lists(x + y, a) <==> Lists(x, a) || Lists(y, a)
  {
    assert forall i :: 0 <= i < |x| ==> (x + y)[i] == x[i];
    assert forall i :: 0 <= i < |y| ==> (x + y)[|x| + i] == y[i];
  }

  lemma AheadEither(x: seq<Callback>, y: seq<Callback>, a: nat, b: nat)
    ensures Ahead(x + y, a, b) <==> Ahead(x, a, b) || Ahead(y, a, b) || (Lists(x, a) && Lists(y, b))
  {
    var z := x + y;
    assert forall i :: 0 <= i < |x| ==> z[i] == x[i];
    assert forall i :: 0 <= i < |y| ==> z[|x| + i] == y[i];
    if i, j :| 0 <= i < j < |z| && z[i].id == a && z[j].id == b {
      if i >= |x| {
        assert y[i - |x|].id == a && y[j - |x|].id == b;
      } else if j >= |x| {
        assert y[j - |x|].id == b;
      }
    }
    if i, j :| 0 <= i < j < |y| && y[i].id == a && y[j].id == b {
      assert z[|x| + i].id == a && z[|x| + j].id == b;
    }
    if Lists(x, a) && Lists(y, b) {
      var i :| 0 <= i < |x| && x[i].id == a;
      var j :| 0 <= j < |y| && y[j].id == b;
      assert z[i].id == a && z[|x| + j].id == b;
    }
  }

  lemma {:induction false} KeepLists(cs: seq<Callback>, gone: seq<nat>, a: nat)
    ensures Lists(Keep(cs, gone), a) <==> Lists(cs, a) && a !in gone
  {
    if cs != [] {
      KeepLists(cs[1..], gone, a);
      assert cs == [cs[0]] + cs[1..];
      ListsEither([cs[0]], cs[1..], a);
      ListsEither([cs[0]], Keep(cs[1..], gone), a);
    }
  }

  lemma {:induction false} KeepAhead(cs: seq<Callback>, gone: seq<nat>, a: nat, b: nat)
    requires Ahead(cs, a, b) && a !in gone && b !in gone
    ensures Ahead(Keep(cs, gone), a, b)
  {
    var c, rest := cs[0], cs[1..];
    assert cs == [c] + rest;
    AheadEither([c], rest, a, b);
    AheadEither([c], Keep(rest, gone), a, b);
    KeepLists(rest, gone, b);
    if Ahead(rest, a, b) { KeepAhead(rest, gone, a, b); }
  }

  lemma KeepStillAhead(cs: seq<Callback>, gone: seq<nat>, a: nat, b: nat)
    requires StillAhead(cs, a, b)
    ensures StillAhead(Keep(cs, gone), a, b)
  {
    KeepLists(cs, gone, a);
    KeepLists(cs, gone, b);
    if Lists(Keep(cs, gone), a) && Lists(Keep(cs, gone), b) { KeepAhead(cs, gone, a, b); }
  }

  /** Removing from the back part only. */
  lemma KeepBackStillAhead(x: seq<Callback>, y: seq<Callback>, gone: seq<nat>, a: nat, b: nat)
    requires StillAhead(x + y, a, b) && !(Lists(x, a) && Lists(y, a)) && !(Lists(x, b) && Lists(y, b))
    ensures StillAhead(x + Keep(y, gone), a, b)
  {
    var z := Keep(y, gone);
    KeepLists(y, gone, a);
    KeepLists(y, gone, b);
    ListsEither(x, y, a);
    ListsEither(x, y, b);
    ListsEither(x, z, a);
    ListsEither(x, z, b);
    AheadEither(x, y, a, b);
    AheadEither(x, z, a, b);
    if Lists(z, a) && Lists(z, b) && Ahead(y, a, b) { KeepAhead(y, gone, a, b); }
    if Ahead(x, a, b) || Ahead(y, a, b) { AheadIsListed(x, y, a, b); }
  }

  lemma AheadIsListed(x: seq<Callback>, y: seq<Callback>, a: nat, b: nat)
    ensures Ahead(x, a, b) ==> Lists(x, a) && Lists(x, b)
    ensures Ahead(y, a, b) ==> Lists(y, a) && Lists(y, b)
  {
  }

  lemma SameIdsStillAhead(x: seq<Callback>, y: seq<Callback>, a: nat, b: nat)
    requires |x| == |y| && (forall i :: 0 <= i < |x| ==> x[i].id == y[i].id) && StillAhead(x, a, b)
    ensures StillAhead(y, a, b)
  {
    if Lists(y, a) && Lists(y, b) {
      var i :| 0 <= i < |y| && y[i].id == a;
      var j :| 0 <= j < |y| && y[j].id == b;
      assert x[i].id == a && x[j].id == b;
      var p, q :| 0 <= p < q < |x| && x[p].id == a && x[q].id == b;
      assert y[p].id == a && y[q].id == b;
    }
  }

  lemma OneOfEach(s: State, id: nat)
    requires Sound(s)
    ensures !(Lists(OutList(s.phase), id) && Lists(s.hub.callbacks, id))
  {
    assert Holds(s, id);
    ListedIsCounted(OutList(s.phase), id);
    ListedIsCounted(s.hub.callbacks, id);
  }

  lemma SubscribeKeepsOrder(s: State, id: nat, a: nat, b: nat)
    requires id !in s.used && a in s.used && b in s.used && StillAhead(Line(s), a, b)
    ensures StillAhead(Line(Apply(s, Subscribe(id))), a, b)
  {
    var c := [Callback(id, true)];
    assert Line(Apply(s, Subscribe(id))) == Line(s) + c;
    ListsEither(Line(s), c, a);
    ListsEither(Line(s), c, b);
    AheadEither(Line(s), c, a, b);
  }

  lemma StepKeepsOrder(s: State, step: Step, a: nat, b: nat)
    requires Sound(s) && Enabled(s, step) && a in s.used && b in s.used && StillAhead(Line(s), a, b)
    ensures StillAhead(Line(Apply(s, step)), a, b)
  {
    var s' := Apply(s, step);
    match step {
      case Subscribe(id) => SubscribeKeepsOrder(s, id, a, b);
      case Unlist(id) =>
        OneOfEach(s, a);
        OneOfEach(s, b);
        KeepBackStillAhead(OutList(s.phase), s.hub.callbacks, [id], a, b);
      case Checkout =>
        assert Line(s) == s.hub.callbacks && Line(s') == Keep(s.hub.callbacks, s.hub.deferred);
        KeepStillAhead(s.hub.callbacks, s.hub.deferred, a, b);
      case Restore =>
        assert Line(s) == s.phase.done + s.hub.callbacks && Line(s') == Keep(Line(s), s.hub.deferred);
        KeepStillAhead(Line(s), s.hub.deferred, a, b);
      case Visit =>
        VisitKeepsIds(s.hub, s.phase);
        SameIdsStillAhead(Line(s), Line(s'), a, b);
      case Invoke =>
        SameIdsStillAhead(Line(s), Line(s'), a, b);
      case _ => assert Line(s') == Line(s);
    }
  }

  lemma VisitKeepsIds(h: Hub, p: Phase)
    requires p.Walking? && p.rest != []
    ensures OutList(AfterVisit(h, p)) == OutList(p)
  {
    assert p.rest == [p.rest[0]] + p.rest[1..];
  }

  lemma {:induction false} RunKeepsOrder(s: State, steps: seq<Step>, a: nat, b: nat)
    requires Sound(s) && IsRun(s, steps) && a in s.used && b in s.used && StillAhead(Line(s), a, b)
    ensures StillAhead(Line(After(s, steps)), a, b)
    decreases |steps|
  {
    if steps != [] {
      StepKeepsSound(s, steps[0]);
      StepKeepsOrder(s, steps[0], a, b);
      RunKeepsOrder(Apply(s, steps[0]), steps[1..], a, b);
    }
  }

  /** Whoever subscribes stands behind everybody who is there, and stays behind them for as long as both
      are there, through any deliveries, drops and subscriptions. */
  lemma OrderOfSubscription(s0: State, before: seq<Step>, a: nat, b: nat, steps: seq<Step>)
    requires Initial(s0) && IsRun(s0, before) && Lists(Line(After(s0, before)), a)
    requires Enabled(After(s0, before), Subscribe(b)) && IsRun(Apply(After(s0, before), Subscribe(b)), steps)
    ensures StillAhead(Line(After(Apply(After(s0, before), Subscribe(b)), steps)), a, b)
  {
    var s := After(s0, before);
    RunKeepsSound(s0, before);
    StepKeepsSound(s, Subscribe(b));
    assert Holds(s, a);
    ListedIsCounted(Line(s), a);
    assert multiset(Line(s)) == Present(s);
    var c := [Callback(b, true)];
    assert Line(Apply(s, Subscribe(b))) == Line(s) + c && c[0].id == b;
    AheadEither(Line(s), c, a, b);
    assert Lists(c, b);
    RunKeepsOrder(Apply(s, Subscribe(b)), steps, a, b);
  }

  predicate Earlier(ids: seq<nat>, a: nat, b: nat) {
    exists i, j :: 0 <= i < j < |ids| && ids[i] == a && ids[j] == b
  }

  lemma EarlierBehind(first: seq<nat>, ids: seq<nat>, a: nat, b: nat)
    ensures Earlier(ids, a, b) ==> Earlier(first + ids, a, b)
    ensures b in ids ==> Earlier([a] + ids, a, b)
  {
    if i, j :| 0 <= i < j < |ids| && ids[i] == a && ids[j] == b {
      assert (first + ids)[|first| + i] == a && (first + ids)[|first| + j] == b;
    }
    if j :| 0 <= j < |ids| && ids[j] == b { assert ([a] + ids)[0] == a && ([a] + ids)[j + 1] == b; }
  }

  lemma RestIsSingle(c: Callback, rest: seq<Callback>, a: nat)
    requires Count(multiset([c] + rest), a) <= 1
    ensures Count(multiset(rest), a) <= 1 && (c.id == a ==> !Lists(rest, a))
  {
    ListedIsCounted(rest, a);
  }

  /** A delivery calls them in that order. */
  lemma {:induction false} CalledInOrder(list: seq<Callback>, newOnly: bool, a: nat, b: nat)
    requires Ahead(list, a, b) && a in CalledIds(list, newOnly, []) && b in CalledIds(list, newOnly, [])
    requires Count(multiset(list), a) <= 1 && Count(multiset(list), b) <= 1
    ensures Earlier(CalledIds(list, newOnly, []), a, b)
  {
    var c, rest := list[0], list[1..];
    var ids, first := CalledIds(rest, newOnly, []), if Skips(c, newOnly, []) then [] else [c.id];
    assert list == [c] + rest && CalledIds(list, newOnly, []) == first + ids;
    AheadEither([c], rest, a, b);
    AheadIsListed(rest, rest, a, b);
    RestIsSingle(c, rest, a);
    RestIsSingle(c, rest, b);
    EarlierBehind(first, ids, a, b);
    CalledAreListed(rest, newOnly, a);
    if Ahead(rest, a, b) {
      CalledInOrder(rest, newOnly, a, b);
    } else {
      assert c.id == a && c.id != b;
    }
  }

  lemma CalledAreListed(list: seq<Callback>, newOnly: bool, a: nat)
    ensures a in CalledIds(list, newOnly, []) ==> Lists(list, a)
  {
    WhoIsCalled(list, newOnly, a);
  }
}
