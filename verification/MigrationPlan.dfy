/** Planning a migration: the chain of steps from the stored version to the target, the steps
    synthesized from embedded snapshots, and the look-ahead for refused ones. */
module MigrationPlan {
  import opened Values
  import opened Snapshot
  import opened Diff
  import opened Sorting
  import Planner

  /** A step; `up` is the SQL batch it runs. */
  datatype Migration = Migration(from: nat, to: nat, up: seq<string>)

  datatype PlanError =
    | BadRange(step: Migration)
    | Duplicate(from: nat)
    | Downgrade
    | Gap(at: nat)
    | Overshoot(step: Migration)

  datatype Planned = Ok(chain: seq<Migration>) | Err(error: PlanError)

  // ---- Chains ----

  /** The steps lead from `v` to `target`, each from where the one before it ended. */
  predicate IsChain(steps: seq<Migration>, chain: seq<Migration>, v: nat, target: nat) {
    if chain == [] then v == target
    else chain[0] in steps && chain[0].from == v && IsChain(steps, chain[1..], chain[0].to, target)
  }

  ghost predicate Reachable(steps: seq<Migration>, v: nat, target: nat) {
    exists chain :: IsChain(steps, chain, v, target)
  }

  predicate Forward(steps: seq<Migration>) {
    forall i :: 0 <= i < |steps| ==> steps[i].from < steps[i].to
  }

  predicate DistinctFroms(steps: seq<Migration>) {
    forall i, j :: 0 <= i < j < |steps| ==> steps[i].from != steps[j].from
  }

  predicate Valid(steps: seq<Migration>) {
    Forward(steps) && DistinctFroms(steps)
  }

  function FindStep(steps: seq<Migration>, v: nat): Option<Migration> {
    if steps == [] then None else if steps[0].from == v then Some(steps[0]) else FindStep(steps[1..], v)
  }

  lemma {:induction false} FoundStep(steps: seq<Migration>, v: nat)
    ensures var r := FindStep(steps, v); r.Some? ==> r.value in steps && r.value.from == v
    ensures FindStep(steps, v).None? <==> forall i :: 0 <= i < |steps| ==> steps[i].from != v
  {
    if steps != [] {
      FoundStep(steps[1..], v);
      assert forall i :: 0 < i < |steps| ==> steps[i] == steps[1..][i - 1];
      assert forall i :: 0 <= i < |steps[1..]| ==> steps[1..][i] == steps[i + 1];
    }
  }

  lemma {:induction false} ChainGrows(steps: seq<Migration>, chain: seq<Migration>, v: nat, target: nat)
    requires IsChain(steps, chain, v, target) && Forward(steps)
    ensures v + |chain| <= target
  {
    if chain != [] { ChainGrows(steps, chain[1..], chain[0].to, target); }
  }

  lemma {:induction false} ChainAppend(steps: seq<Migration>, chain: seq<Migration>, v: nat, mid: nat, s: Migration)
    requires IsChain(steps, chain, v, mid) && s in steps && s.from == mid
    ensures IsChain(steps, chain + [s], v, s.to)
  {
    if chain == [] {
      assert (chain + [s])[1..] == [];
    } else {
      assert (chain + [s])[0] == chain[0] && (chain + [s])[1..] == chain[1..] + [s];
      ChainAppend(steps, chain[1..], chain[0].to, mid, s);
    }
  }

  lemma ReachFurther(steps: seq<Migration>, v: nat, mid: nat, m: Migration)
    requires Reachable(steps, v, mid) && m in steps && m.from == mid
    ensures Reachable(steps, v, m.to)
  {
    var chain :| IsChain(steps, chain, v, mid);
    ChainAppend(steps, chain, v, mid, m);
  }

  /** With one step per version, every chain starts with the step the search finds. */
  lemma OnlyStep(steps: seq<Migration>, v: nat, target: nat)
    requires Valid(steps) && v < target
    ensures Reachable(steps, v, target) <==>
            FindStep(steps, v).Some? && Reachable(steps, FindStep(steps, v).value.to, target)
  {
    FoundStep(steps, v);
    if Reachable(steps, v, target) {
      var chain :| IsChain(steps, chain, v, target);
      var i :| 0 <= i < |steps| && steps[i] == chain[0];
      var j :| 0 <= j < |steps| && steps[j] == FindStep(steps, v).value;
      assert i == j;
      assert IsChain(steps, chain[1..], FindStep(steps, v).value.to, target);
    } else if FindStep(steps, v).Some? && Reachable(steps, FindStep(steps, v).value.to, target) {
      var s := FindStep(steps, v).value;
      var chain :| IsChain(steps, chain, s.to, target);
      assert ([s] + chain)[1..] == chain;
      assert IsChain(steps, [s] + chain, v, target);
    }
  }

  lemma PastIsUnreachable(steps: seq<Migration>, v: nat, target: nat)
    requires Forward(steps) && target < v
    ensures !Reachable(steps, v, target)
  {
    if chain :| IsChain(steps, chain, v, target) { ChainGrows(steps, chain, v, target); }
  }

  /** More steps reach at least as much. */
  lemma MoreStepsReach(steps: seq<Migration>, more: seq<Migration>, v: nat, target: nat)
    requires Reachable(steps, v, target)
    ensures Reachable(steps + more, v, target)
  {
    var chain :| IsChain(steps, chain, v, target);
    ChainOfMore(steps, more, chain, v, target);
  }

  lemma {:induction false} ChainOfMore(steps: seq<Migration>, more: seq<Migration>, chain: seq<Migration>, v: nat,
                                       target: nat)
    requires IsChain(steps, chain, v, target)
    ensures IsChain(steps + more, chain, v, target)
  {
    if chain != [] { ChainOfMore(steps, more, chain[1..], chain[0].to, target); }
  }

  lemma HereIsReachable(steps: seq<Migration>, v: nat)
    ensures Reachable(steps, v, v)
  {
    assert IsChain(steps, [], v, v);
  }

  // ---- Duplicate start versions ----

  function AtMost(): (nat, nat) -> bool {
    (a: nat, b: nat) => a <= b
  }

  function Froms(steps: seq<Migration>): seq<nat> {
    seq(|steps|, i requires 0 <= i < |steps| => steps[i].from)
  }

  predicate EqualNeighbours(s: seq<nat>, i: int) {
    0 <= i < |s| - 1 && s[i] == s[i + 1]
  }

  /** Neighbours in the sorted list are equal exactly if some value occurs twice. */
  lemma NeighboursShowDuplicates(s: seq<nat>)
    ensures var t := Sort(s, AtMost());
            (exists i :: EqualNeighbours(t, i)) <==> exists x :: multiset(s)[x] > 1
  {
    var t := Sort(s, AtMost());
    SortContents(s, AtMost());
    SortSorts(s, AtMost());
    if i :| EqualNeighbours(t, i) {
      TwiceCounts(t, i, i + 1);
      assert multiset(s)[t[i]] > 1;
    }
    if x :| multiset(s)[x] > 1 {
      var i, j := TwoPlaces(t, x);
      assert AtMost()(t[i], t[i + 1]) && (i + 1 < j ==> AtMost()(t[i + 1], t[j]));
      assert EqualNeighbours(t, i);
    }
  }

  lemma TwiceCounts(s: seq<nat>, i: nat, j: nat)
    requires i < j < |s| && s[i] == s[j]
    ensures multiset(s)[s[i]] > 1
  {
    assert s == s[..j] + [s[j]] + s[j + 1..];
    assert s[i] == s[..j][i];
    assert s[i] in multiset(s[..j]);
  }

  lemma TwoPlaces(s: seq<nat>, x: nat) returns (i: nat, j: nat)
    requires multiset(s)[x] > 1
    ensures i < j < |s| && s[i] == x && s[j] == x
  {
    assert x in s;
    i :| 0 <= i < |s| && s[i] == x;
    var a, b := s[..i], s[i + 1..];
    assert s == a + [x] + b;
    assert multiset(s) == multiset(a) + multiset{x} + multiset(b);
    if x in b {
      var k :| 0 <= k < |b| && b[k] == x;
      j := i + 1 + k;
    } else {
      assert x in multiset(a);
      var k :| 0 <= k < |a| && a[k] == x;
      i, j := k, i;
    }
  }

  lemma FromsDistinct(steps: seq<Migration>)
    ensures DistinctFroms(steps) <==> !exists x :: multiset(Froms(steps))[x] > 1
  {
    var f := Froms(steps);
    if x :| multiset(f)[x] > 1 {
      var i, j := TwoPlaces(f, x);
      assert steps[i].from == steps[j].from;
    }
    if !DistinctFroms(steps) {
      var i, j :| 0 <= i < j < |steps| && steps[i].from == steps[j].from;
      TwiceCounts(f, i, j);
      assert multiset(f)[f[i]] > 1;
    }
  }

  /** The first error the planner meets, if any, tells why there is no chain. */
  ghost predicate Explains(steps: seq<Migration>, current: nat, target: nat, e: PlanError) {
    match e
    case BadRange(s) => s in steps && s.to <= s.from
    case Duplicate(x) => multiset(Froms(steps))[x] > 1
    case Downgrade => current > target
    case Gap(v) => current <= v < target && forall i :: 0 <= i < |steps| ==> steps[i].from != v
    case Overshoot(s) => s in steps && s.from < target < s.to
  }

  method CheckRanges(steps: seq<Migration>) returns (r: Option<PlanError>)
    ensures r.None? <==> Forward(steps)
    ensures r.Some? ==> exists i :: 0 <= i < |steps| && r.value == BadRange(steps[i]) && steps[i].to <= steps[i].from
  {
    for i := 0 to |steps|
      invariant forall k :: 0 <= k < i ==> steps[k].from < steps[k].to
    {
      if steps[i].to <= steps[i].from {
        return Some(BadRange(steps[i]));
      }
    }
    r := None;
  }

  lemma NeighboursTell(steps: seq<Migration>)
    ensures var t := Sort(Froms(steps), AtMost());
            ((forall i :: !EqualNeighbours(t, i)) ==> DistinctFroms(steps)) &&
            forall i :: EqualNeighbours(t, i) ==> multiset(Froms(steps))[t[i]] > 1 && !DistinctFroms(steps)
  {
    var t := Sort(Froms(steps), AtMost());
    NeighboursShowDuplicates(Froms(steps));
    FromsDistinct(steps);
    SortContents(Froms(steps), AtMost());
    forall i | EqualNeighbours(t, i) ensures multiset(Froms(steps))[t[i]] > 1 && !DistinctFroms(steps) {
      TwiceCounts(t, i, i + 1);
      assert multiset(Froms(steps))[t[i]] > 1;
    }
  }

  method CheckDuplicates(steps: seq<Migration>) returns (r: Option<PlanError>)
    ensures r.None? <==> DistinctFroms(steps)
    ensures r.Some? ==> r.value.Duplicate? && multiset(Froms(steps))[r.value.from] > 1
  {
    var froms := Sort(Froms(steps), AtMost());
    NeighboursTell(steps);
    var i := 0;
    while i + 1 < |froms|
      invariant 0 <= i
      invariant forall k :: 0 <= k < i ==> !EqualNeighbours(froms, k)
    {
      if froms[i] == froms[i + 1] {
        assert EqualNeighbours(froms, i);
        return Some(Duplicate(froms[i]));
      }
      i := i + 1;
    }
    r := None;
  }

  /** A chain is found exactly if the steps are valid and some chain exists. */
  method PlanChain(steps: seq<Migration>, current: nat, target: nat) returns (r: Planned)
    ensures r.Ok? <==> Valid(steps) && Reachable(steps, current, target)
    ensures r.Ok? ==> IsChain(steps, r.chain, current, target)
    ensures r.Err? ==> Explains(steps, current, target, r.error)
  {
    var bad := CheckRanges(steps);
    if bad.Some? {
      return Err(bad.value);
    }
    bad := CheckDuplicates(steps);
    if bad.Some? {
      return Err(bad.value);
    }
    if current > target {
      PastIsUnreachable(steps, current, target);
      return Err(Downgrade);
    }
    var plan: seq<Migration> := [];
    var v := current;
    while v < target
      invariant current <= v <= target && IsChain(steps, plan, current, v)
      invariant Reachable(steps, current, target) <==> Reachable(steps, v, target)
      decreases target - v
    {
      OnlyStep(steps, v, target);
      FoundStep(steps, v);
      var step := FindStep(steps, v);
      if step.None? {
        return Err(Gap(v));
      }
      if step.value.to > target {
        PastIsUnreachable(steps, step.value.to, target);
        return Err(Overshoot(step.value));
      }
      ChainAppend(steps, plan, current, v, step.value);
      v := step.value.to;
      plan := plan + [step.value];
    }
    HereIsReachable(steps, target);
    r := Ok(plan);
  }

  // ---- Synthesis from embedded snapshots ----

  /** A snapshot built into the program; None stands for one that does not decompress or parse. */
  datatype Embedded = Embedded(version: nat, snapshot: Option<SchemaSnapshot>)

  datatype Synthesized = Synthesized(steps: seq<Migration>, refused: map<nat, (nat, seq<Review>)>)

  const NO_STEPS := Synthesized([], map[])

  function ByVersion(): (Embedded, Embedded) -> bool {
    (a: Embedded, b: Embedded) => a.version <= b.version
  }

  function Texts(ss: seq<Stmt>): seq<string> {
    seq(|ss|, i requires 0 <= i < |ss| => Diff.Text(ss[i]))
  }

  predicate Registered(registered: seq<Migration>, v: nat) {
    exists i :: 0 <= i < |registered| && registered[i].from == v
  }

  /** A pair of neighbouring snapshots that a gap may be filled from. */
  predicate Usable(a: Embedded, b: Embedded, registered: seq<Migration>, current: nat) {
    a.version < b.version && current <= a.version && !Registered(registered, a.version) &&
    a.snapshot.Some? && b.snapshot.Some?
  }

  type DiffFn = (SchemaSnapshot, SchemaSnapshot) -> Plan

  function Differ(): DiffFn {
    (a: SchemaSnapshot, b: SchemaSnapshot) => DiffPlan(a, b)
  }

  method Compare(a: SchemaSnapshot, b: SchemaSnapshot) returns (plan: Plan)
    ensures plan == Differ()(a, b)
  {
    plan := Planner.ComputeDiffPlan(a, b);
  }

  predicate FillsGap(d: DiffFn, a: Embedded, b: Embedded, s: Migration) {
    a.snapshot.Some? && b.snapshot.Some? &&
    var plan := d(a.snapshot.value, b.snapshot.value);
    plan.review == [] && s == Migration(a.version, b.version, Texts(plan.safe))
  }

  predicate RefusesGap(d: DiffFn, a: Embedded, b: Embedded, r: (nat, seq<Review>)) {
    a.snapshot.Some? && b.snapshot.Some? && r.0 == b.version &&
    r.1 == d(a.snapshot.value, b.snapshot.value).review && r.1 != []
  }

  /** Every synthesized step and refusal comes from neighbours among the first `k` of the sorted
      snapshots, later ones from later neighbours. */
  ghost predicate FromNeighbours(d: DiffFn, es: seq<Embedded>, registered: seq<Migration>, current: nat, k: nat,
                                 out: Synthesized)
    requires k <= |es|
  {
    (forall n :: 0 <= n < |out.steps| ==> StepNeighbours(d, es, registered, current, k, out.steps[n])) &&
    (forall v <- out.refused.Keys :: RefusedNeighbours(d, es, registered, current, k, v, out.refused[v])) &&
    (forall m, n :: 0 <= m < n < |out.steps| ==> out.steps[m].from < out.steps[n].from)
  }

  ghost predicate StepNeighbours(d: DiffFn, es: seq<Embedded>, registered: seq<Migration>, current: nat, k: nat,
                                 s: Migration)
    requires k <= |es|
  {
    exists i :: 0 <= i < k - 1 && Usable(es[i], es[i + 1], registered, current) && FillsGap(d, es[i], es[i + 1], s)
  }

  ghost predicate RefusedNeighbours(d: DiffFn, es: seq<Embedded>, registered: seq<Migration>, current: nat, k: nat,
                                    v: nat, r: (nat, seq<Review>))
    requires k <= |es|
  {
    exists i :: 0 <= i < k - 1 && es[i].version == v && Usable(es[i], es[i + 1], registered, current) &&
                RefusesGap(d, es[i], es[i + 1], r)
  }

  ghost predicate Handled(out: Synthesized, v: nat) {
    v in out.refused || exists n :: 0 <= n < |out.steps| && out.steps[n].from == v
  }

  /** Every usable pair of neighbours among the first `k` gave a step or a refusal. */
  ghost predicate AllHandled(es: seq<Embedded>, registered: seq<Migration>, current: nat, k: nat, out: Synthesized)
    requires k <= |es|
  {
    forall i :: 0 <= i < k - 1 && Usable(es[i], es[i + 1], registered, current) ==> Handled(out, es[i].version)
  }

  predicate SortedEmbedded(es: seq<Embedded>) {
    forall i, j :: 0 <= i < j < |es| ==> es[i].version <= es[j].version
  }

  /** What the first `k - 1` pairs gave only mentions versions under `es[k - 1]`. */
  lemma OnlyEarlier(d: DiffFn, es: seq<Embedded>, registered: seq<Migration>, current: nat, k: nat, out: Synthesized)
    requires 0 < k <= |es| && SortedEmbedded(es) && FromNeighbours(d, es, registered, current, k, out)
    ensures forall n :: 0 <= n < |out.steps| ==> out.steps[n].from < es[k - 1].version
    ensures forall v <- out.refused.Keys :: v < es[k - 1].version
  {
  }

  lemma StillNeighbours(d: DiffFn, es: seq<Embedded>, registered: seq<Migration>, current: nat, k: nat,
                        out: Synthesized)
    requires k < |es| && FromNeighbours(d, es, registered, current, k, out)
    ensures FromNeighbours(d, es, registered, current, k + 1, out)
  {
  }

  lemma StepAdded(d: DiffFn, es: seq<Embedded>, registered: seq<Migration>, current: nat, k: nat, out: Synthesized,
                  s: Migration)
    requires 0 < k < |es| && SortedEmbedded(es) && FromNeighbours(d, es, registered, current, k, out)
    requires Usable(es[k - 1], es[k], registered, current) && FillsGap(d, es[k - 1], es[k], s)
    ensures FromNeighbours(d, es, registered, current, k + 1, out.(steps := out.steps + [s]))
  {
    OnlyEarlier(d, es, registered, current, k, out);
    StillNeighbours(d, es, registered, current, k, out);
    assert StepNeighbours(d, es, registered, current, k + 1, s);
  }

  lemma RefusalAdded(d: DiffFn, es: seq<Embedded>, registered: seq<Migration>, current: nat, k: nat, out: Synthesized,
                     r: (nat, seq<Review>))
    requires 0 < k < |es| && FromNeighbours(d, es, registered, current, k, out)
    requires Usable(es[k - 1], es[k], registered, current) && RefusesGap(d, es[k - 1], es[k], r)
    ensures FromNeighbours(d, es, registered, current, k + 1, out.(refused := out.refused[es[k - 1].version := r]))
  {
  }

  lemma MoreHandled(es: seq<Embedded>, registered: seq<Migration>, current: nat, k: nat, out: Synthesized,
                    next: Synthesized)
    requires 0 < k < |es| && AllHandled(es, registered, current, k, out)
    requires out.steps <= next.steps && out.refused.Keys <= next.refused.Keys
    requires Usable(es[k - 1], es[k], registered, current) ==> Handled(next, es[k - 1].version)
    ensures AllHandled(es, registered, current, k + 1, next)
  {
  }

  /** One pair of neighbours. */
  datatype Pair = Skipped | Unreadable | Filled(step: Migration) | Refused(refusal: (nat, seq<Review>))

  predicate PairIs(d: DiffFn, a: Embedded, b: Embedded, registered: seq<Migration>, current: nat, p: Pair) {
    match p
    case Skipped => a.version == b.version || a.version < current || Registered(registered, a.version)
    case Unreadable => Blocked(a, b, registered, current)
    case Filled(s) => Usable(a, b, registered, current) && FillsGap(d, a, b, s)
    case Refused(r) => Usable(a, b, registered, current) && RefusesGap(d, a, b, r)
  }

  /** Neighbours that are not skipped, and cannot be read. */
  predicate Blocked(a: Embedded, b: Embedded, registered: seq<Migration>, current: nat) {
    a.version != b.version && current <= a.version && !Registered(registered, a.version) &&
    (a.snapshot.None? || b.snapshot.None?)
  }

  predicate BlockedUpTo(es: seq<Embedded>, registered: seq<Migration>, current: nat, k: nat)
    requires k <= |es|
  {
    exists i :: 0 <= i < k - 1 && Blocked(es[i], es[i + 1], registered, current)
  }

  method VisitPair(a: Embedded, b: Embedded, registered: seq<Migration>, current: nat) returns (p: Pair)
    requires a.version <= b.version
    ensures PairIs(Differ(), a, b, registered, current, p)
  {
    if a.version == b.version || a.version < current || Registered(registered, a.version) {
      return Skipped;
    }
    if a.snapshot.None? || b.snapshot.None? {
      return Unreadable;
    }
    var plan := Compare(a.snapshot.value, b.snapshot.value);
    if plan.review == [] {
      p := Filled(Migration(a.version, b.version, Texts(plan.safe)));
    } else {
      p := Refused((b.version, plan.review));
    }
  }

  function WithPair(out: Synthesized, v: nat, p: Pair): Synthesized {
    match p
    case Filled(s) => out.(steps := out.steps + [s])
    case Refused(r) => out.(refused := out.refused[v := r])
    case _ => out
  }

  /** Both: everything comes from the first `k` snapshots, and nothing among them is left out. */
  ghost predicate Progress(d: DiffFn, es: seq<Embedded>, registered: seq<Migration>, current: nat, k: nat,
                           out: Synthesized)
    requires k <= |es|
  {
    FromNeighbours(d, es, registered, current, k, out) && AllHandled(es, registered, current, k, out)
  }

  lemma PairAdded(d: DiffFn, es: seq<Embedded>, registered: seq<Migration>, current: nat, k: nat, out: Synthesized,
                  p: Pair)
    requires 0 < k < |es| && SortedEmbedded(es) && !p.Unreadable?
    requires Progress(d, es, registered, current, k, out)
    requires PairIs(d, es[k - 1], es[k], registered, current, p)
    ensures Progress(d, es, registered, current, k + 1, WithPair(out, es[k - 1].version, p))
  {
    var next := WithPair(out, es[k - 1].version, p);
    match p {
      case Filled(s) =>
        StepAdded(d, es, registered, current, k, out, s);
        assert next.steps[|out.steps|] == s;
      case Refused(r) => RefusalAdded(d, es, registered, current, k, out, r);
      case Skipped => StillNeighbours(d, es, registered, current, k, out);
    }
    MoreHandled(es, registered, current, k, out, next);
  }

  /** Fills the gaps between neighbouring snapshots, or tells why it will not; None exactly if a
      snapshot cannot be read in a pair that is not skipped. */
  method SynthesizeEmbeddedSteps(embedded: seq<Embedded>, registered: seq<Migration>, current: nat)
    returns (r: Option<Synthesized>)
    ensures r.Some? ==> var es := Sort(embedded, ByVersion());
                        Progress(Differ(), es, registered, current, |es|, r.value)
    ensures r.None? <==> var es := Sort(embedded, ByVersion()); BlockedUpTo(es, registered, current, |es|)
  {
    var es := Sort(embedded, ByVersion());
    SortMembers(embedded, ByVersion());
    SortSorts(embedded, ByVersion());
    SortedVersions(es);
    if |embedded| < 2 {
      return Some(NO_STEPS);
    }
    r := VisitPairs(es, registered, current);
  }

  lemma NextPair(d: DiffFn, es: seq<Embedded>, registered: seq<Migration>, current: nat, k: nat, p: Pair)
    requires 0 < k < |es| && !BlockedUpTo(es, registered, current, k)
    requires PairIs(d, es[k - 1], es[k], registered, current, p)
    ensures p.Unreadable? ==> BlockedUpTo(es, registered, current, |es|)
    ensures !p.Unreadable? ==> !BlockedUpTo(es, registered, current, k + 1)
  {
    var i := k - 1;
    assert es[i + 1] == es[k];
    assert Blocked(es[i], es[i + 1], registered, current) <==> p.Unreadable?;
  }

  /** The pair before snapshot `k`; None if it cannot be read. */
  method AddPair(es: seq<Embedded>, registered: seq<Migration>, current: nat, k: nat, out: Synthesized)
    returns (r: Option<Synthesized>)
    requires 0 < k < |es| && SortedEmbedded(es) && Progress(Differ(), es, registered, current, k, out)
    requires !BlockedUpTo(es, registered, current, k)
    ensures r.None? ==> BlockedUpTo(es, registered, current, |es|)
    ensures r.Some? ==> Progress(Differ(), es, registered, current, k + 1, r.value) &&
                        !BlockedUpTo(es, registered, current, k + 1)
  {
    var p := VisitPair(es[k - 1], es[k], registered, current);
    NextPair(Differ(), es, registered, current, k, p);
    if p.Unreadable? {
      return None;
    }
    PairAdded(Differ(), es, registered, current, k, out, p);
    r := Some(WithPair(out, es[k - 1].version, p));
  }

  method VisitPairs(es: seq<Embedded>, registered: seq<Migration>, current: nat) returns (r: Option<Synthesized>)
    requires |es| >= 2 && SortedEmbedded(es)
    ensures r.Some? ==> Progress(Differ(), es, registered, current, |es|, r.value)
    ensures r.None? <==> BlockedUpTo(es, registered, current, |es|)
  {
    var out := NO_STEPS;
    for k := 1 to |es|
      invariant Progress(Differ(), es, registered, current, k, out)
      invariant !BlockedUpTo(es, registered, current, k)
    {
      var next := AddPair(es, registered, current, k, out);
      if next.None? {
        return None;
      }
      out := next.value;
    }
    r := Some(out);
  }

  lemma SortedVersions(es: seq<Embedded>)
    requires Sorted(es, ByVersion())
    ensures SortedEmbedded(es)
  {
  }

  /** Synthesized steps lead forward, start once each, never where a registered step starts, and
      never at a refused version. */
  lemma SynthesizedAreNew(d: DiffFn, es: seq<Embedded>, registered: seq<Migration>, current: nat, out: Synthesized)
    requires SortedEmbedded(es) && FromNeighbours(d, es, registered, current, |es|, out)
    ensures Valid(out.steps)
    ensures forall n :: 0 <= n < |out.steps| ==>
              !Registered(registered, out.steps[n].from) && current <= out.steps[n].from
    ensures forall n :: 0 <= n < |out.steps| ==> out.steps[n].from !in out.refused
    ensures Valid(registered) ==> Valid(registered + out.steps)
  {
    forall n | 0 <= n < |out.steps|
      ensures out.steps[n].from < out.steps[n].to && !Registered(registered, out.steps[n].from) &&
              current <= out.steps[n].from
    {
      assert StepNeighbours(d, es, registered, current, |es|, out.steps[n]);
    }
    forall n | 0 <= n < |out.steps| ensures out.steps[n].from !in out.refused {
      StepIsNotRefused(d, es, registered, current, out, n);
    }
    if Valid(registered) { BothValid(registered, out.steps); }
  }

  lemma BothValid(registered: seq<Migration>, steps: seq<Migration>)
    requires Valid(registered) && Valid(steps)
    requires forall n :: 0 <= n < |steps| ==> !Registered(registered, steps[n].from)
    ensures Valid(registered + steps)
  {
  }

  lemma StepIsNotRefused(d: DiffFn, es: seq<Embedded>, registered: seq<Migration>, current: nat, out: Synthesized,
                         n: nat)
    requires SortedEmbedded(es) && FromNeighbours(d, es, registered, current, |es|, out) && n < |out.steps|
    ensures out.steps[n].from !in out.refused
  {
  }

  // ---- Only one synthesis ----

  lemma StepInBoth(d: DiffFn, es: seq<Embedded>, registered: seq<Migration>, current: nat, out: Synthesized,
                   other: Synthesized, s: Migration)
    requires SortedEmbedded(es) && Progress(d, es, registered, current, |es|, out)
    requires Progress(d, es, registered, current, |es|, other) && s in out.steps
    ensures s in other.steps
  {
    HasNeighbours(d, es, registered, current, out, s);
    var i := PairOf(d, es, registered, current, s);
    assert Handled(other, es[i].version);
    FilledIsNotRefused(d, es, registered, current, other, i, s);
    var m :| 0 <= m < |other.steps| && other.steps[m].from == es[i].version;
    SamePairSameStep(d, es, registered, current, i, s, other.steps[m]);
  }

  lemma HasNeighbours(d: DiffFn, es: seq<Embedded>, registered: seq<Migration>, current: nat, out: Synthesized,
                      s: Migration)
    requires FromNeighbours(d, es, registered, current, |es|, out) && s in out.steps
    ensures StepNeighbours(d, es, registered, current, |es|, s)
  {
    var n :| 0 <= n < |out.steps| && out.steps[n] == s;
  }

  /** The neighbours that a step was synthesized from. */
  lemma PairOf(d: DiffFn, es: seq<Embedded>, registered: seq<Migration>, current: nat, s: Migration) returns (i: nat)
    requires StepNeighbours(d, es, registered, current, |es|, s)
    ensures i + 1 < |es| && Usable(es[i], es[i + 1], registered, current) && FillsGap(d, es[i], es[i + 1], s)
  {
    i :| 0 <= i < |es| - 1 && Usable(es[i], es[i + 1], registered, current) && FillsGap(d, es[i], es[i + 1], s);
  }

  lemma FilledIsNotRefused(d: DiffFn, es: seq<Embedded>, registered: seq<Migration>, current: nat, out: Synthesized,
                           i: nat, s: Migration)
    requires SortedEmbedded(es) && FromNeighbours(d, es, registered, current, |es|, out) && i + 1 < |es|
    requires Usable(es[i], es[i + 1], registered, current) && FillsGap(d, es[i], es[i + 1], s)
    ensures es[i].version !in out.refused
  {
    if es[i].version in out.refused {
      var r := out.refused[es[i].version];
      assert RefusedNeighbours(d, es, registered, current, |es|, es[i].version, r);
      var j :| 0 <= j < |es| - 1 && es[j].version == es[i].version &&
               Usable(es[j], es[j + 1], registered, current) && RefusesGap(d, es[j], es[j + 1], r);
      SamePair(es, i, j);
    }
  }

  /** Only one pair of neighbours starts at a version and leads on. */
  lemma SamePair(es: seq<Embedded>, i: nat, j: nat)
    requires i + 1 < |es| && j + 1 < |es| && SortedEmbedded(es) && es[i].version == es[j].version
    requires es[i].version < es[i + 1].version && es[j].version < es[j + 1].version
    ensures i == j
  {
  }

  lemma SamePairSameStep(d: DiffFn, es: seq<Embedded>, registered: seq<Migration>, current: nat, i: nat,
                         s: Migration, s': Migration)
    requires SortedEmbedded(es) && i + 1 < |es| && Usable(es[i], es[i + 1], registered, current)
    requires FillsGap(d, es[i], es[i + 1], s) && s'.from == es[i].version &&
             StepNeighbours(d, es, registered, current, |es|, s')
    ensures s' == s
  {
    var j :| 0 <= j < |es| - 1 && Usable(es[j], es[j + 1], registered, current) && FillsGap(d, es[j], es[j + 1], s');
    SamePair(es, i, j);
  }

  predicate Increasing(steps: seq<Migration>) {
    forall m, n :: 0 <= m < n < |steps| ==> steps[m].from < steps[n].from
  }

  lemma SomeStep(steps: seq<Migration>) returns (s: Migration)
    requires steps != []
    ensures s in steps
  {
    s := steps[0];
  }

  lemma {:induction false} IncreasingIsUnique(a: seq<Migration>, b: seq<Migration>)
    requires Increasing(a) && Increasing(b) && forall s :: s in a <==> s in b
    ensures a == b
  {
    if a != [] {
      assert a[0] in b && b[0] in a;
      assert a[0] == b[0];
      forall s ensures s in a[1..] <==> s in b[1..] {
        assert s in a <==> s == a[0] || s in a[1..];
        assert s in b <==> s == b[0] || s in b[1..];
        assert a[0] !in a[1..] && b[0] !in b[1..];
      }
      IncreasingIsUnique(a[1..], b[1..]);
      assert a == [a[0]] + a[1..] && b == [b[0]] + b[1..];
    } else if b != [] {
      var s := SomeStep(b);
    }
  }

  /** The snapshots and the registered steps decide which steps are synthesized. */
  lemma SynthesisIsUnique(d: DiffFn, es: seq<Embedded>, registered: seq<Migration>, current: nat, out: Synthesized,
                          other: Synthesized)
    requires SortedEmbedded(es) && Progress(d, es, registered, current, |es|, out)
    requires Progress(d, es, registered, current, |es|, other)
    ensures out.steps == other.steps
  {
    forall s ensures s in out.steps <==> s in other.steps {
      if s in out.steps { StepInBoth(d, es, registered, current, out, other, s); }
      if s in other.steps { StepInBoth(d, es, registered, current, other, out, s); }
    }
    IncreasingIsUnique(out.steps, other.steps);
  }

  // ---- Neighbours without a destructive change make a chain ----

  /** The pair leads on, is readable, is not registered and needs no review. */
  predicate SafePair(d: DiffFn, a: Embedded, b: Embedded, registered: seq<Migration>) {
    a.version < b.version && !Registered(registered, a.version) && a.snapshot.Some? && b.snapshot.Some? &&
    d(a.snapshot.value, b.snapshot.value).review == []
  }

  predicate LeadsTo(steps: seq<Migration>, v: nat, to: nat) {
    exists s <- steps :: s.from == v && s.to == to
  }

  /** A safe pair gave the step that leads across it. */
  lemma SafePairIsStep(d: DiffFn, es: seq<Embedded>, registered: seq<Migration>, current: nat, out: Synthesized,
                       k: nat)
    requires SortedEmbedded(es) && Progress(d, es, registered, current, |es|, out)
    requires k + 1 < |es| && SafePair(d, es[k], es[k + 1], registered) && current <= es[k].version
    ensures LeadsTo(out.steps, es[k].version, es[k + 1].version)
  {
    var s := Migration(es[k].version, es[k + 1].version,
                       Texts(d(es[k].snapshot.value, es[k + 1].snapshot.value).safe));
    assert Usable(es[k], es[k + 1], registered, current) && FillsGap(d, es[k], es[k + 1], s);
    assert Handled(out, es[k].version);
    FilledIsNotRefused(d, es, registered, current, out, k, s);
    var m :| 0 <= m < |out.steps| && out.steps[m].from == es[k].version;
    SamePairSameStep(d, es, registered, current, k, s, out.steps[m]);
    assert s in out.steps;
  }

  lemma {:induction false} StepsMakeChain(steps: seq<Migration>, es: seq<Embedded>, i: nat, j: nat)
    requires i <= j < |es| && forall k :: i <= k < j ==> LeadsTo(steps, es[k].version, es[k + 1].version)
    ensures Reachable(steps, es[i].version, es[j].version)
    decreases j
  {
    if i == j {
      assert IsChain(steps, [], es[i].version, es[j].version);
    } else {
      var k := j - 1;
      assert k + 1 == j;
      StepsMakeChain(steps, es, i, k);
      var s :| s in steps && s.from == es[k].version && s.to == es[k + 1].version;
      ReachFurther(steps, es[i].version, es[k].version, s);
    }
  }

  /** From the snapshot of the current version on, safe neighbours give a chain of synthesized steps. */
  lemma SafeNeighboursMakeChain(d: DiffFn, es: seq<Embedded>, registered: seq<Migration>, out: Synthesized,
                                i: nat, j: nat)
    requires i <= j < |es| && SortedEmbedded(es) && Progress(d, es, registered, es[i].version, |es|, out)
    requires forall k :: i <= k < j ==> SafePair(d, es[k], es[k + 1], registered)
    ensures Reachable(out.steps, es[i].version, es[j].version)
  {
    forall k | i <= k < j ensures LeadsTo(out.steps, es[k].version, es[k + 1].version) {
      SafePairIsStep(d, es, registered, es[i].version, out, k);
    }
    StepsMakeChain(out.steps, es, i, j);
  }

  // ---- The look-ahead ----

  /** Where following the steps from `v` stops short of the target for want of a step. */
  function StuckAt(steps: seq<Migration>, v: nat, target: nat): Option<nat>
    decreases target - v
  {
    if v >= target then None else
    var s := FindStep(steps, v);
    if s.None? then Some(v)
    else if v < s.value.to <= target then StuckAt(steps, s.value.to, target)
    else None
  }

  /** Fails exactly if the steps run out at a version whose synthesis was refused. */
  method CheckDestructiveGap(steps: seq<Migration>, refused: map<nat, (nat, seq<Review>)>, current: nat, target: nat)
    returns (ok: bool, at: nat)
    ensures !ok <==> StuckAt(steps, current, target).Some? && StuckAt(steps, current, target).value in refused
    ensures !ok ==> StuckAt(steps, current, target) == Some(at)
  {
    ok, at := true, current;
    if refused == map[] {
      return;
    }
    while at < target
      invariant ok && StuckAt(steps, current, target) == StuckAt(steps, at, target)
      decreases target - at
    {
      var s := FindStep(steps, at);
      if s.Some? && s.value.to > at && s.value.to <= target {
        at := s.value.to;
      } else if s.Some? {
        return;
      } else {
        ok := at !in refused;
        return;
      }
    }
  }

  /** A refusal is only reported where the planner would fail as well. */
  lemma {:induction false} StuckMeansNoChain(steps: seq<Migration>, v: nat, target: nat)
    requires StuckAt(steps, v, target).Some?
    ensures !(Valid(steps) && Reachable(steps, v, target))
    decreases target - v
  {
    if Valid(steps) {
      OnlyStep(steps, v, target);
      if FindStep(steps, v).Some? { StuckMeansNoChain(steps, FindStep(steps, v).value.to, target); }
    }
  }
}
