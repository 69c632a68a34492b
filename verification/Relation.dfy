/** Loading children in chunks of keys, against the join it stands for. */
module Relation {
  import opened Values
  import opened Sorting

  /** SQLite's limit on variables is never approached: keys go in chunks of this size. */
  const CHUNK := 999

  // ---- Tables and queries ----

  /** `SELECT … WHERE key IN (?1, …)`, rows in table order. */
  function SelectIn<K(==), T>(rows: seq<T>, keyOf: T -> K, keys: seq<K>): seq<T>
    requires |keys| <= CHUNK
  {
    if rows == [] then []
    else (if keyOf(rows[0]) in keys then [rows[0]] else []) + SelectIn(rows[1..], keyOf, keys)
  }

  /** The rows of one key, in table order. */
  function RowsOf<K(==), T>(rows: seq<T>, keyOf: T -> K, k: K): seq<T> {
    if rows == [] then []
    else (if keyOf(rows[0]) == k then [rows[0]] else []) + RowsOf(rows[1..], keyOf, k)
  }

  function Lookup<K(==), T>(m: map<K, seq<T>>, k: K): seq<T> {
    if k in m then m[k] else []
  }

  /** A key has an entry exactly if it has rows. */
  ghost predicate NoEmptyEntries<K, T>(m: map<K, seq<T>>) {
    forall k <- m.Keys :: m[k] != []
  }

  function Chunk<K>(keys: seq<K>): seq<K> {
    if |keys| <= CHUNK then keys else keys[..CHUNK]
  }

  function AfterChunk<K>(keys: seq<K>): seq<K> {
    if |keys| <= CHUNK then [] else keys[CHUNK..]
  }

  /** In how many chunks of `keys` the key occurs. */
  function Chunks<K(==)>(keys: seq<K>, k: K): nat
    decreases |keys|
  {
    if keys == [] then 0 else (if k in Chunk(keys) then 1 else 0) + Chunks(AfterChunk(keys), k)
  }

  function Repeated<T>(s: seq<T>, n: nat): seq<T> {
    if n == 0 then [] else s + Repeated(s, n - 1)
  }

  // ---- Grouping ----

  lemma {:induction false} RowsOfSplit<K, T>(a: seq<T>, b: seq<T>, keyOf: T -> K, k: K)
    ensures RowsOf(a + b, keyOf, k) == RowsOf(a, keyOf, k) + RowsOf(b, keyOf, k)
  {
    if a == [] {
      assert a + b == b;
    } else {
      assert (a + b)[0] == a[0] && (a + b)[1..] == a[1..] + b;
      RowsOfSplit(a[1..], b, keyOf, k);
      Regrouped(if keyOf(a[0]) == k then [a[0]] else [], RowsOf(a[1..], keyOf, k), RowsOf(b, keyOf, k));
    }
  }

  lemma RowsOfOne<K, T>(t: T, keyOf: T -> K, k: K)
    ensures RowsOf([t], keyOf, k) == if keyOf(t) == k then [t] else []
  {
  }

  /** Of the rows a chunk selects, those of one key are all of its rows, or none. */
  lemma {:induction false} SelectedOfKey<K, T>(rows: seq<T>, keyOf: T -> K, keys: seq<K>, k: K)
    requires |keys| <= CHUNK
    ensures RowsOf(SelectIn(rows, keyOf, keys), keyOf, k) == if k in keys then RowsOf(rows, keyOf, k) else []
  {
    if rows != [] {
      var t, rest := rows[0], SelectIn(rows[1..], keyOf, keys);
      SelectedOfKey(rows[1..], keyOf, keys, k);
      if keyOf(t) in keys {
        RowsOfSplit([t], rest, keyOf, k);
        RowsOfOne(t, keyOf, k);
      } else {
        assert SelectIn(rows, keyOf, keys) == rest;
      }
    }
  }

  /** `map.entry(key).or_default().push(row)`. */
  function Pushed<K(==), T>(m: map<K, seq<T>>, k: K, t: T): map<K, seq<T>> {
    m[k := Lookup(m, k) + [t]]
  }

  /** `r` is `m` with the children appended under their keys. */
  ghost predicate Grouped<K(!new), T>(m: map<K, seq<T>>, r: map<K, seq<T>>, children: seq<T>, keyOf: T -> K) {
    forall k :: Lookup(r, k) == Lookup(m, k) + RowsOf(children, keyOf, k)
  }

  lemma PushedAt<K, T>(m: map<K, seq<T>>, k: K, t: T, x: K)
    ensures Lookup(Pushed(m, k, t), x) == Lookup(m, x) + (if x == k then [t] else [])
  {
  }

  lemma OneMoreGrouped<K(!new), T>(m: map<K, seq<T>>, r: map<K, seq<T>>, children: seq<T>, t: T, keyOf: T -> K)
    requires Grouped(m, r, children, keyOf)
    ensures Grouped(m, Pushed(r, keyOf(t), t), children + [t], keyOf)
  {
    forall k ensures Lookup(Pushed(r, keyOf(t), t), k) == Lookup(m, k) + RowsOf(children + [t], keyOf, k) {
      PushedAt(r, keyOf(t), t, k);
      RowsOfSplit(children, [t], keyOf, k);
      RowsOfOne(t, keyOf, k);
      Regrouped(Lookup(m, k), RowsOf(children, keyOf, k), RowsOf([t], keyOf, k));
    }
  }

  lemma NothingGrouped<K(!new), T>(m: map<K, seq<T>>, keyOf: T -> K)
    ensures Grouped(m, m, [], keyOf)
  {
  }

  method GroupInto<K(!new, ==), T>(m: map<K, seq<T>>, children: seq<T>, keyOf: T -> K) returns (r: map<K, seq<T>>)
    requires NoEmptyEntries(m)
    ensures NoEmptyEntries(r) && Grouped(m, r, children, keyOf)
  {
    r := m;
    NothingGrouped(m, keyOf);
    ghost var done: seq<T> := [];
    for i := 0 to |children|
      invariant done == children[..i]
      invariant NoEmptyEntries(r) && Grouped(m, r, done, keyOf)
    {
      var c := children[i];
      OneMoreGrouped(m, r, done, c, keyOf);
      r := Pushed(r, keyOf(c), c);
      done := done + [c];
    }
    assert done == children;
  }

  // ---- One to many ----

  /** What is loaded, and the rows still to come from the remaining chunks, make up the whole. */
  ghost predicate Loading<K(!new), T>(m: map<K, seq<T>>, keys: seq<K>, rest: seq<K>, rows: seq<T>, keyOf: T -> K) {
    forall k :: Lookup(m, k) + Repeated(RowsOf(rows, keyOf, k), Chunks(rest, k))
             == Repeated(RowsOf(rows, keyOf, k), Chunks(keys, k))
  }

  lemma ChunkLoaded<K(!new), T>(before: map<K, seq<T>>, m: map<K, seq<T>>, keys: seq<K>, rest: seq<K>, rows: seq<T>,
                                keyOf: T -> K)
    requires rest != [] && Loading(before, keys, rest, rows, keyOf)
    requires Grouped(before, m, SelectIn(rows, keyOf, Chunk(rest)), keyOf)
    ensures Loading(m, keys, AfterChunk(rest), rows, keyOf)
  {
    forall k
      ensures Lookup(m, k) + Repeated(RowsOf(rows, keyOf, k), Chunks(AfterChunk(rest), k))
           == Repeated(RowsOf(rows, keyOf, k), Chunks(keys, k))
    {
      KeyLoaded(Lookup(before, k), Lookup(m, k), rest, rows, keyOf, k);
    }
  }

  /** One chunk, for one key that had `had` loaded before it. */
  lemma KeyLoaded<K, T>(had: seq<T>, now: seq<T>, rest: seq<K>, rows: seq<T>, keyOf: T -> K, k: K)
    requires rest != [] && now == had + RowsOf(SelectIn(rows, keyOf, Chunk(rest)), keyOf, k)
    ensures now + Repeated(RowsOf(rows, keyOf, k), Chunks(AfterChunk(rest), k))
         == had + Repeated(RowsOf(rows, keyOf, k), Chunks(rest, k))
  {
    var s, here, n := RowsOf(rows, keyOf, k), k in Chunk(rest), Chunks(AfterChunk(rest), k);
    SelectedOfKey(rows, keyOf, Chunk(rest), k);
    assert now == had + if here then s else [];
    ChunksStep(rest, k);
    ChunkCounts(had, s, here, n);
  }

  lemma ChunksStep<K>(keys: seq<K>, k: K)
    requires keys != []
    ensures Chunks(keys, k) == (if k in Chunk(keys) then 1 else 0) + Chunks(AfterChunk(keys), k)
  {
  }

  lemma ChunkCounts<T>(a: seq<T>, s: seq<T>, here: bool, n: nat)
    ensures a + (if here then s else []) + Repeated(s, n) == a + Repeated(s, (if here then 1 else 0) + n)
  {
  }

  /** Each key has its rows once for every chunk it occurs in. */
  method LoadChildren<K(!new, ==), T>(keys: seq<K>, rows: seq<T>, keyOf: T -> K) returns (m: map<K, seq<T>>)
    ensures NoEmptyEntries(m)
    ensures forall k :: Lookup(m, k) == Repeated(RowsOf(rows, keyOf, k), Chunks(keys, k))
  {
    m := map[];
    var rest := keys;
    while rest != []
      invariant NoEmptyEntries(m) && Loading(m, keys, rest, rows, keyOf)
      decreases |rest|
    {
      var children := SelectIn(rows, keyOf, Chunk(rest));
      ghost var before := m;
      m := GroupInto(m, children, keyOf);
      ChunkLoaded(before, m, keys, rest, rows, keyOf);
      rest := AfterChunk(rest);
    }
    forall k ensures Lookup(m, k) == Repeated(RowsOf(rows, keyOf, k), Chunks(keys, k)) {
      assert Lookup(m, k) + Repeated(RowsOf(rows, keyOf, k), Chunks(rest, k))
             == Repeated(RowsOf(rows, keyOf, k), Chunks(keys, k));
    }
  }

  // ---- Distinct keys ----

  ghost predicate Distinct<K>(keys: seq<K>) {
    forall i, j :: 0 <= i < j < |keys| ==> keys[i] != keys[j]
  }

  lemma {:induction false} DistinctInOneChunk<K>(keys: seq<K>, k: K)
    requires Distinct(keys)
    ensures Chunks(keys, k) == if k in keys then 1 else 0
    decreases |keys|
  {
    if keys != [] {
      DistinctInOneChunk(AfterChunk(keys), k);
      assert keys == Chunk(keys) + AfterChunk(keys);
      assert k in keys <==> k in Chunk(keys) || k in AfterChunk(keys);
    }
  }

  lemma RepeatedOnce<T>(s: seq<T>)
    ensures Repeated(s, 1) == s && Repeated(s, 0) == []
  {
  }

  /** What the loader is for: each distinct key gets exactly its rows, in table order, and nobody
      else gets anything. */
  lemma ChildrenAreTheJoin<K, T>(m: map<K, seq<T>>, keys: seq<K>, rows: seq<T>, keyOf: T -> K, k: K)
    requires Lookup(m, k) == Repeated(RowsOf(rows, keyOf, k), Chunks(keys, k)) && Distinct(keys)
    ensures Lookup(m, k) == if k in keys then RowsOf(rows, keyOf, k) else []
  {
    DistinctInOneChunk(keys, k);
    RepeatedOnce(RowsOf(rows, keyOf, k));
  }

  lemma {:induction false} RepeatedLength<T>(s: seq<T>, n: nat)
    ensures |Repeated(s, n)| == n * |s|
  {
    if n > 0 { RepeatedLength(s, n - 1); }
  }

  /** With repeated keys the loader is right for a key exactly if the key has no rows or all of its
      copies fall into one chunk. */
  lemma RepeatedKeysNeedOneChunk<K, T>(keys: seq<K>, rows: seq<T>, keyOf: T -> K, k: K)
    ensures Repeated(RowsOf(rows, keyOf, k), Chunks(keys, k)) == RowsOf(rows, keyOf, k) <==>
            RowsOf(rows, keyOf, k) == [] || Chunks(keys, k) == 1
  {
    var s, n := RowsOf(rows, keyOf, k), Chunks(keys, k);
    RepeatedLength(s, n);
    RepeatedOnce(s);
    OnlyOnce(n, |s|);
  }

  /** Up to 999 keys are one chunk, however often a key occurs among them. */
  lemma FewKeysAreOneChunk<K>(keys: seq<K>, k: K)
    requires |keys| <= 999
    ensures Chunks(keys, k) == if k in keys then 1 else 0
  {
    if keys != [] { assert AfterChunk(keys) == [] && Chunks(AfterChunk(keys), k) == 0; }
  }

  /** A thousand copies of a key reach into a second chunk: its only row is loaded twice. */
  lemma CopiesInTwoChunks<K, T>(k: K, row: T, keyOf: T -> K) returns (keys: seq<K>)
    requires keyOf(row) == k
    ensures |keys| == 1000 && forall i :: 0 <= i < |keys| ==> keys[i] == k
    ensures RowsOf([row], keyOf, k) == [row] && Repeated(RowsOf([row], keyOf, k), Chunks(keys, k)) == [row, row]
  {
    keys := seq(CHUNK + 1, i => k);
    var rest := keys[CHUNK..];
    assert AfterChunk(keys) == rest && keys[..CHUNK][0] == k && rest == [k];
    FewKeysAreOneChunk(rest, k);
    assert k in rest && Chunks(rest, k) == 1 && Chunks(keys, k) == 2;
    RowsOfOne(row, keyOf, k);
    assert Repeated([row], 1) == [row] + Repeated([row], 0) == [row];
    assert Repeated([row], 2) == [row] + Repeated([row], 1) == [row, row];
  }

  lemma OnlyOnce(n: nat, x: nat)
    ensures n * x == x <==> x == 0 || n == 1
  {
  }

  // ---- Many to many ----

  function OrElse<T>(a: Option<T>, b: Option<T>): Option<T> {
    if a.Some? then a else b
  }

  /** The last row of a key: what a map from keys to rows keeps. */
  function LastOf<K(==), T>(rows: seq<T>, keyOf: T -> K, k: K): Option<T> {
    if rows == [] then None
    else OrElse(LastOf(rows[1..], keyOf, k), if keyOf(rows[0]) == k then Some(rows[0]) else None)
  }

  function Found<K(==), T>(m: map<K, T>, k: K): Option<T> {
    if k in m then Some(m[k]) else None
  }

  function LastIn<K(==), T>(rows: seq<T>, keyOf: T -> K): K -> Option<T> {
    (k: K) => LastOf(rows, keyOf, k)
  }

  function FoundIn<K(==), T>(m: map<K, T>): K -> Option<T> {
    (k: K) => Found(m, k)
  }

  /** The join: for each junction pair of the parent, in order, the child the pair points to. */
  function JoinOf<P(==), K(==), T>(pairs: seq<(P, K)>, child: K -> Option<T>, p: P): seq<T> {
    if pairs == [] then []
    else (
      (if pairs[0].0 == p && child(pairs[0].1).Some? then [child(pairs[0].1).value] else [])
      + JoinOf(pairs[1..], child, p)
    )
  }

  function Parent<P, K>(): ((P, K)) -> P {
    (pair: (P, K)) => pair.0
  }

  /** The junction pairs of all chunks, chunk after chunk. */
  function PairsOf<P(==), K>(junction: seq<(P, K)>, keys: seq<P>): seq<(P, K)>
    decreases |keys|
  {
    if keys == [] then [] else SelectIn(junction, Parent<P, K>(), Chunk(keys)) + PairsOf(junction, AfterChunk(keys))
  }

  method LoadPairs<P(==), K>(keys: seq<P>, junction: seq<(P, K)>) returns (pairs: seq<(P, K)>)
    ensures pairs == PairsOf(junction, keys)
  {
    pairs := [];
    var rest := keys;
    assert [] + PairsOf(junction, keys) == PairsOf(junction, keys);
    while rest != []
      invariant pairs + PairsOf(junction, rest) == PairsOf(junction, keys)
      decreases |rest|
    {
      var more := SelectIn(junction, Parent<P, K>(), Chunk(rest));
      Regrouped(pairs, more, PairsOf(junction, AfterChunk(rest)));
      pairs := pairs + more;
      rest := AfterChunk(rest);
    }
    assert pairs + [] == pairs;
  }

  lemma Regrouped<T>(a: seq<T>, b: seq<T>, c: seq<T>)
    ensures a + b + c == a + (b + c)
  {
  }

  ghost predicate Total<K(!new)>(le: (K, K) -> bool) {
    Preorder(le) && forall a, b :: le(a, b) && le(b, a) ==> a == b
  }

  /** `dedup` on a sorted list leaves each element once. */
  method Dedup<K(!new, ==)>(s: seq<K>, ghost le: (K, K) -> bool) returns (r: seq<K>)
    requires Total(le) && Sorted(s, le)
    ensures Distinct(r) && forall k :: k in r <==> k in s
  {
    r := [];
    for i := 0 to |s|
      invariant Deduped(r, s[..i]) && (i > 0 ==> r != [] && r[|r| - 1] == s[i - 1])
    {
      DedupStep(r, s, i, le);
      if i == 0 || s[i] != s[i - 1] {
        r := r + [s[i]];
      }
    }
    assert s[..|s|] == s;
  }

  ghost predicate Deduped<K(!new)>(r: seq<K>, s: seq<K>) {
    Distinct(r) && forall k :: k in r <==> k in s
  }

  lemma DedupStep<K(!new)>(r: seq<K>, s: seq<K>, i: nat, le: (K, K) -> bool)
    requires i < |s| && Total(le) && Sorted(s, le) && Deduped(r, s[..i])
    ensures Deduped(if i == 0 || s[i] != s[i - 1] then r + [s[i]] else r, s[..i + 1])
  {
    assert s[..i + 1] == s[..i] + [s[i]];
    if i > 0 && s[i] == s[i - 1] {
      assert s[i - 1] in s[..i];
    } else {
      if i > 0 { NewElement(s, i, le); }
      DedupGrows(r, s[..i], s[i]);
    }
  }

  lemma DedupGrows<K(!new)>(r: seq<K>, s: seq<K>, x: K)
    requires Deduped(r, s) && x !in s
    ensures Deduped(r + [x], s + [x])
  {
  }

  lemma NewElement<K(!new)>(s: seq<K>, i: nat, le: (K, K) -> bool)
    requires 0 < i < |s| && Total(le) && Sorted(s, le) && s[i] != s[i - 1]
    ensures s[i] !in s[..i]
  {
  }

  // ---- Children by key ----

  lemma {:induction false} LastOfSplit<K, T>(a: seq<T>, b: seq<T>, keyOf: T -> K, k: K)
    ensures LastOf(a + b, keyOf, k) == OrElse(LastOf(b, keyOf, k), LastOf(a, keyOf, k))
  {
    if a == [] {
      assert a + b == b;
    } else {
      assert (a + b)[0] == a[0] && (a + b)[1..] == a[1..] + b;
      LastOfSplit(a[1..], b, keyOf, k);
    }
  }

  lemma {:induction false} SelectedLast<K, T>(rows: seq<T>, keyOf: T -> K, keys: seq<K>, k: K)
    requires |keys| <= CHUNK
    ensures LastOf(SelectIn(rows, keyOf, keys), keyOf, k) == if k in keys then LastOf(rows, keyOf, k) else None
  {
    if rows != [] {
      var t, rest := rows[0], SelectIn(rows[1..], keyOf, keys);
      SelectedLast(rows[1..], keyOf, keys, k);
      if keyOf(t) in keys {
        assert SelectIn(rows, keyOf, keys) == [t] + rest;
        assert ([t] + rest)[1..] == rest;
      } else {
        assert SelectIn(rows, keyOf, keys) == rest;
      }
    }
  }

  ghost predicate Inserted<K(!new), T>(m: map<K, T>, r: map<K, T>, children: seq<T>, keyOf: T -> K) {
    forall k :: Found(r, k) == OrElse(LastOf(children, keyOf, k), Found(m, k))
  }

  lemma OneMoreInserted<K(!new), T>(m: map<K, T>, r: map<K, T>, children: seq<T>, t: T, keyOf: T -> K)
    requires Inserted(m, r, children, keyOf)
    ensures Inserted(m, r[keyOf(t) := t], children + [t], keyOf)
  {
    forall k ensures Found(r[keyOf(t) := t], k) == OrElse(LastOf(children + [t], keyOf, k), Found(m, k)) {
      LastOfSplit(children, [t], keyOf, k);
      assert [t][1..] == [];
    }
  }

  method InsertInto<K(!new, ==), T>(m: map<K, T>, children: seq<T>, keyOf: T -> K) returns (r: map<K, T>)
    ensures Inserted(m, r, children, keyOf)
  {
    r := m;
    ghost var done: seq<T> := [];
    for i := 0 to |children|
      invariant done == children[..i] && Inserted(m, r, done, keyOf)
    {
      OneMoreInserted(m, r, done, children[i], keyOf);
      r := r[keyOf(children[i]) := children[i]];
      done := done + [children[i]];
    }
    assert done == children;
  }

  /** Of the keys handled so far, each maps to its last row. */
  ghost predicate ByKey<K(!new), T>(m: map<K, T>, handled: seq<K>, rows: seq<T>, keyOf: T -> K) {
    forall k :: Found(m, k) == if k in handled then LastOf(rows, keyOf, k) else None
  }

  lemma ChunkInserted<K(!new), T>(before: map<K, T>, m: map<K, T>, handled: seq<K>, chunk: seq<K>, rows: seq<T>,
                                  keyOf: T -> K)
    requires |chunk| <= CHUNK && ByKey(before, handled, rows, keyOf)
    requires Inserted(before, m, SelectIn(rows, keyOf, chunk), keyOf)
    ensures ByKey(m, handled + chunk, rows, keyOf)
  {
    forall k ensures Found(m, k) == if k in handled + chunk then LastOf(rows, keyOf, k) else None {
      SelectedLast(rows, keyOf, chunk, k);
      assert k in handled + chunk <==> k in handled || k in chunk;
    }
  }

  method LoadByKey<K(!new, ==), T>(keys: seq<K>, rows: seq<T>, keyOf: T -> K) returns (m: map<K, T>)
    ensures ByKey(m, keys, rows, keyOf)
  {
    m := map[];
    var rest := keys;
    ghost var handled: seq<K> := [];
    while rest != []
      invariant handled + rest == keys && ByKey(m, handled, rows, keyOf)
      decreases |rest|
    {
      var children := SelectIn(rows, keyOf, Chunk(rest));
      ghost var before := m;
      m := InsertInto(m, children, keyOf);
      ChunkInserted(before, m, handled, Chunk(rest), rows, keyOf);
      assert rest == Chunk(rest) + AfterChunk(rest);
      handled := handled + Chunk(rest);
      rest := AfterChunk(rest);
    }
    assert handled == keys;
  }

  // ---- Assembly ----

  lemma {:induction false} JoinSplit<P, K, T>(a: seq<(P, K)>, b: seq<(P, K)>, child: K -> Option<T>, p: P)
    ensures JoinOf(a + b, child, p) == JoinOf(a, child, p) + JoinOf(b, child, p)
  {
    if a == [] {
      assert a + b == b;
    } else {
      assert (a + b)[0] == a[0] && (a + b)[1..] == a[1..] + b;
      JoinSplit(a[1..], b, child, p);
    }
  }

  ghost predicate Assembled<P(!new), K, T>(m: map<P, seq<T>>, pairs: seq<(P, K)>, child: K -> Option<T>) {
    forall p :: Lookup(m, p) == JoinOf(pairs, child, p)
  }

  function WithPair<P(==), K, T>(m: map<P, seq<T>>, pair: (P, K), child: Option<T>): map<P, seq<T>> {
    if child.Some? then Pushed(m, pair.0, child.value) else m
  }

  lemma OneMoreAssembled<P(!new), K, T>(m: map<P, seq<T>>, pairs: seq<(P, K)>, pair: (P, K), child: K -> Option<T>)
    requires Assembled(m, pairs, child)
    ensures Assembled(WithPair(m, pair, child(pair.1)), pairs + [pair], child)
  {
    forall p ensures Lookup(WithPair(m, pair, child(pair.1)), p) == JoinOf(pairs + [pair], child, p) {
      JoinSplit(pairs, [pair], child, p);
      assert [pair][1..] == [];
    }
  }

  method Assemble<P(!new, ==), K(==), T>(pairs: seq<(P, K)>, byKey: map<K, T>) returns (m: map<P, seq<T>>)
    ensures Assembled(m, pairs, FoundIn(byKey))
  {
    m := map[];
    ghost var done: seq<(P, K)> := [];
    for i := 0 to |pairs|
      invariant done == pairs[..i] && Assembled(m, done, FoundIn(byKey))
    {
      OneMoreAssembled(m, done, pairs[i], FoundIn(byKey));
      m := WithPair(m, pairs[i], Found(byKey, pairs[i].1));
      done := done + [pairs[i]];
    }
    assert done == pairs;
  }

  lemma {:induction false} SelectedJoin<P, K, T>(junction: seq<(P, K)>, keys: seq<P>, child: K -> Option<T>, p: P)
    requires |keys| <= CHUNK
    ensures JoinOf(SelectIn(junction, Parent<P, K>(), keys), child, p) == if p in keys
              then JoinOf(junction, child, p) else []
  {
    if junction != [] {
      var t, rest := junction[0], SelectIn(junction[1..], Parent<P, K>(), keys);
      SelectedJoin(junction[1..], keys, child, p);
      JoinSplit([t], rest, child, p);
      assert [t][1..] == [];
      if t.0 !in keys { assert SelectIn(junction, Parent<P, K>(), keys) == rest; }
    }
  }

  /** The pairs of all chunks hold each parent's pairs once for every chunk it occurs in. */
  lemma {:induction false} PairsRepeat<P, K, T>(junction: seq<(P, K)>, keys: seq<P>, child: K -> Option<T>, p: P)
    ensures JoinOf(PairsOf(junction, keys), child, p) == Repeated(JoinOf(junction, child, p), Chunks(keys, p))
    decreases |keys|
  {
    if keys != [] {
      PairsRepeat(junction, AfterChunk(keys), child, p);
      var a := SelectIn(junction, Parent<P, K>(), Chunk(keys));
      JoinSplit(a, PairsOf(junction, AfterChunk(keys)), child, p);
      SelectedJoin(junction, Chunk(keys), child, p);
      ChunksStep(keys, p);
    }
  }

  lemma {:induction false} SameJoin<P, K, T>(pairs: seq<(P, K)>, f: K -> Option<T>, g: K -> Option<T>, p: P)
    requires forall i :: 0 <= i < |pairs| ==> f(pairs[i].1) == g(pairs[i].1)
    ensures JoinOf(pairs, f, p) == JoinOf(pairs, g, p)
  {
    if pairs != [] { SameJoin(pairs[1..], f, g, p); }
  }

  function Targets<P, K>(pairs: seq<(P, K)>): seq<K> {
    seq(|pairs|, i requires 0 <= i < |pairs| => pairs[i].1)
  }

  lemma TargetsFound<P, K(!new), T>(pairs: seq<(P, K)>, keys: seq<K>, byKey: map<K, T>, rows: seq<T>, keyOf: T -> K,
                                    p: P)
    requires ByKey(byKey, keys, rows, keyOf) && forall k :: k in keys <==> k in Targets(pairs)
    ensures JoinOf(pairs, FoundIn(byKey), p) == JoinOf(pairs, LastIn(rows, keyOf), p)
  {
    forall i | 0 <= i < |pairs| ensures FoundIn(byKey)(pairs[i].1) == LastIn(rows, keyOf)(pairs[i].1) {
      assert Targets(pairs)[i] == pairs[i].1;
      assert Found(byKey, pairs[i].1) == LastOf(rows, keyOf, pairs[i].1);
    }
    SameJoin(pairs, FoundIn(byKey), LastIn(rows, keyOf), p);
  }

  /** Each parent has the children its pairs point to, once for every chunk it occurs in. */
  method LoadJunction<P(!new, ==), K(!new, ==), T>(keys: seq<P>, junction: seq<(P, K)>, rows: seq<T>, keyOf: T -> K,
                                                    le: (K, K) -> bool)
    returns (m: map<P, seq<T>>)
    requires Total(le)
    ensures forall p :: Lookup(m, p) == Repeated(JoinOf(junction, LastIn(rows, keyOf), p), Chunks(keys, p))
  {
    var pairs := LoadPairs(keys, junction);
    var sorted := Sort(Targets(pairs), le);
    SortSorts(Targets(pairs), le);
    SortMembers(Targets(pairs), le);
    var childKeys := Dedup(sorted, le);
    var byKey := LoadByKey(childKeys, rows, keyOf);
    m := Assemble(pairs, byKey);
    forall p ensures Lookup(m, p) == Repeated(JoinOf(junction, LastIn(rows, keyOf), p), Chunks(keys, p)) {
      TargetsFound(pairs, childKeys, byKey, rows, keyOf, p);
      PairsRepeat(junction, keys, LastIn(rows, keyOf), p);
    }
  }

  // ---- The junction join ----

  /** Every pair of the parent with every child row of the pair's key. */
  function FullJoin<P(==), K(==), T>(junction: seq<(P, K)>, rows: seq<T>, keyOf: T -> K, p: P): seq<T> {
    if junction == [] then []
    else (
      (if junction[0].0 == p then RowsOf(rows, keyOf, junction[0].1) else [])
      + FullJoin(junction[1..], rows, keyOf, p)
    )
  }

  ghost predicate UniqueKeys<K, T>(rows: seq<T>, keyOf: T -> K) {
    forall i, j :: 0 <= i < j < |rows| ==> keyOf(rows[i]) != keyOf(rows[j])
  }

  lemma {:induction false} UniqueRow<K, T>(rows: seq<T>, keyOf: T -> K, k: K)
    requires UniqueKeys(rows, keyOf)
    ensures RowsOf(rows, keyOf, k) == if LastOf(rows, keyOf, k).Some? then [LastOf(rows, keyOf, k).value] else []
  {
    if rows != [] {
      UniqueRow(rows[1..], keyOf, k);
      if keyOf(rows[0]) == k { NoRows(rows[1..], keyOf, k); }
    }
  }

  lemma {:induction false} NoRows<K, T>(rows: seq<T>, keyOf: T -> K, k: K)
    requires forall i :: 0 <= i < |rows| ==> keyOf(rows[i]) != k
    ensures RowsOf(rows, keyOf, k) == [] && LastOf(rows, keyOf, k) == None
  {
    if rows != [] { NoRows(rows[1..], keyOf, k); }
  }

  lemma {:induction false} JoinIsFull<P, K, T>(junction: seq<(P, K)>, rows: seq<T>, keyOf: T -> K, p: P)
    requires UniqueKeys(rows, keyOf)
    ensures JoinOf(junction, LastIn(rows, keyOf), p) == FullJoin(junction, rows, keyOf, p)
  {
    if junction != [] {
      JoinIsFull(junction[1..], rows, keyOf, p);
      UniqueRow(rows, keyOf, junction[0].1);
    }
  }

  /** With distinct parent keys and unique child keys the loader gives each parent exactly the
      junction join, in junction order, and nobody else gets anything. */
  lemma JunctionIsTheJoin<P, K, T>(m: map<P, seq<T>>, keys: seq<P>, junction: seq<(P, K)>, rows: seq<T>,
                                   keyOf: T -> K, p: P)
    requires Lookup(m, p) == Repeated(JoinOf(junction, LastIn(rows, keyOf), p), Chunks(keys, p))
    requires Distinct(keys) && UniqueKeys(rows, keyOf)
    ensures Lookup(m, p) == if p in keys then FullJoin(junction, rows, keyOf, p) else []
  {
    DistinctInOneChunk(keys, p);
    RepeatedOnce(JoinOf(junction, LastIn(rows, keyOf), p));
    JoinIsFull(junction, rows, keyOf, p);
  }
}
