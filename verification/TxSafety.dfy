/** Commit emissions are sound for every script, exact when nothing unwinds, and silent otherwise. */
module TxSafety {
  import opened Values
  import opened Filter
  import opened LiveSpec
  import opened TxSpec

  // ---- Replaying recorded rows ----

  lemma {:induction false} ReplayMore(a: seq<Change>, b: seq<Change>, t: string, m: multiset<Row>, m1: multiset<Row>,
                                      m2: multiset<Row>)
    requires Replays(a, t, m, m1) && Replays(b, t, m1, m2)
    ensures Replays(a + b, t, m, m2)
  {
    if a == [] {
      assert a + b == b;
    } else {
      assert (a + b)[0] == a[0] && (a + b)[1..] == a[1..] + b;
      if Replays(a[1..], t, m, m1) {
        ReplayMore(a[1..], b, t, m, m1, m2);
      } else {
        ReplayMore(a[1..], b, t, Changed(a[0], m), m1, m2);
      }
    }
  }

  lemma {:induction false} ReplayNone(cs: seq<Change>, t: string, m: multiset<Row>)
    ensures Replays(cs, t, m, m)
  {
    if cs != [] { ReplayNone(cs[1..], t, m); }
  }

  lemma {:induction false} ReplayTouches(cs: seq<Change>, t: string, m: multiset<Row>, m': multiset<Row>)
    requires Replays(cs, t, m, m') && m != m'
    ensures exists i :: 0 <= i < |cs| && Lower(cs[i].table) == t
  {
    if Replays(cs[1..], t, m, m') {
      ReplayTouches(cs[1..], t, m, m');
      var i :| 0 <= i < |cs[1..]| && Lower(cs[1..][i].table) == t;
      assert cs[i + 1] == cs[1..][i];
    } else {
      assert Applies(cs[0], t, m);
    }
  }

  lemma MergedCovered(duty: Duty, p: Pending, q: Pending, a: Db, b: Db, c: Db, t: string)
    requires Covered(duty, p, a, b, t) && Covered(duty, q, b, c, t)
    ensures Covered(duty, Merged(p, q), a, c, t)
  {
    if duty.Rows? && t in duty.tracked {
      ReplayMore(p.changes, q.changes, t, Content(a, t), Content(b, t), Content(c, t));
    } else {
      MergedNames(p, q, t);
    }
  }

  lemma MergedNames(p: Pending, q: Pending, t: string)
    ensures Claims(p, t) || Claims(q, t) ==> Claims(Merged(p, q), t)
    ensures Touches(p.changes, t) || Touches(q.changes, t) ==> Touches(Merged(p, q).changes, t)
  {
    var cs := p.changes + q.changes;
    assert forall i :: 0 <= i < |p.changes| ==> cs[i] == p.changes[i];
    assert forall i :: 0 <= i < |q.changes| ==> cs[|p.changes| + i] == q.changes[i];
  }

  lemma MergedHonest(duty: Duty, p: Pending, q: Pending, a: Db, b: Db, c: Db)
    requires Honest(duty, p, a, b) && Honest(duty, q, b, c)
    ensures Honest(duty, Merged(p, q), a, c)
  {
    if !p.all && !q.all {
      forall t ensures Covered(duty, Merged(p, q), a, c, t) { MergedCovered(duty, p, q, a, b, c, t); }
    }
  }

  /** A record that names more than it must is still honest about an unchanged database. */
  lemma StaleHonest(duty: Duty, p: Pending, a: Db)
    requires duty.Rows? ==> forall i :: 0 <= i < |p.changes| ==> Lower(p.changes[i].table) in duty.tracked
    ensures Honest(duty, p, a, a)
  {
    forall t ensures Covered(duty, p, a, a, t) { ReplayNone(p.changes, t, Content(a, t)); }
  }

  /** What an honest write records is an honest record. */
  lemma HonestRecord(duty: Duty, w: Write, before: Db)
    requires HonestWrite(duty, w, before)
    ensures Honest(duty, Recorded(w), before, w.after)
  {
    var p := Recorded(w);
    if !p.all {
      forall t ensures Covered(duty, p, before, w.after, t) {
        assert Accounts(duty, w, before, t);
        if Declares(w, t) { DeclaredIsClaimed(w, t); }
      }
    }
  }

  lemma DeclaredIsClaimed(w: Write, t: string)
    requires Declares(w, t)
    ensures Claims(Recorded(w), t)
  {
  }

  // ---- Levels ----

  lemma MergedAssociative(a: Pending, b: Pending, c: Pending)
    ensures Merged(Merged(a, b), c) == Merged(a, Merged(b, c))
    ensures Merged(a, EMPTY_PENDING) == a && Merged(EMPTY_PENDING, a) == a
  {
  }

  lemma {:induction false} MergeAllSplit(a: seq<Pending>, b: seq<Pending>)
    ensures MergeAll(a + b) == Merged(MergeAll(a), MergeAll(b))
  {
    if a == [] {
      assert a + b == b;
      MergedAssociative(MergeAll(b), EMPTY_PENDING, EMPTY_PENDING);
    } else {
      assert (a + b)[0] == a[0] && (a + b)[1..] == a[1..] + b;
      MergeAllSplit(a[1..], b);
      MergedAssociative(a[0], MergeAll(a[1..]), MergeAll(b));
    }
  }

  lemma MergeOne(p: Pending)
    ensures MergeAll([p]) == p
  {
  }

  lemma PopMerge(levels: seq<Pending>)
    requires levels != []
    ensures MergeAll(levels) == Merged(MergeAll(Popped(levels)), Top(levels))
  {
    var n := |levels| - 1;
    assert levels == Popped(levels) + [Top(levels)];
    MergeAllSplit(Popped(levels), [Top(levels)]);
    MergeOne(Top(levels));
  }

  /** The levels after a script: those under the old top are untouched, and the old top together
      with everything above it now holds the old top's record followed by `added`. */
  predicate Grew(before: seq<Pending>, after: seq<Pending>, added: Pending) {
    before != [] && |after| >= |before| && after[..|before| - 1] == before[..|before| - 1] &&
    MergeAll(after[|before| - 1..]) == Merged(before[|before| - 1], added)
  }

  lemma GrewTwice(a: seq<Pending>, b: seq<Pending>, c: seq<Pending>, p: Pending, q: Pending)
    requires Grew(a, b, p) && Grew(b, c, q)
    ensures Grew(a, c, Merged(p, q))
  {
    var i, j := |a| - 1, |b| - 1;
    assert c[..i] == c[..j][..i] == b[..j][..i] == b[..i];
    assert b[i..] == b[i..j] + [b[j]];
    assert c[i..] == c[..j][i..] + c[j..] && c[..j][i..] == b[i..j];
    MergeAllSplit(b[i..j], [b[j]]);
    MergeOne(b[j]);
    MergeAllSplit(b[i..j], c[j..]);
    MergedAssociative(MergeAll(b[i..j]), b[j], q);
    MergedAssociative(a[i], p, q);
  }

  lemma NotedGrew(levels: seq<Pending>, p: Pending)
    requires levels != []
    ensures Grew(levels, Noted(levels, p), p)
  {
  }

  /** What a body recorded above a fresh level, cut at that level. */
  lemma BodyAbove(levels: seq<Pending>, after: seq<Pending>, d: Pending)
    requires levels != [] && Grew(levels + [EMPTY_PENDING], after, d)
    ensures |after| > |levels| && after[..|levels|] == levels && MergeAll(after[|levels|..]) == d
  {
  }

  lemma SplitAt(levels: seq<Pending>, after: seq<Pending>, d: Pending)
    requires levels != [] && |after| >= |levels| && after[..|levels|] == levels && MergeAll(after[|levels|..]) == d
    ensures Grew(levels, after, d)
  {
  }

  lemma ClosedGrew(levels: seq<Pending>, after: seq<Pending>, d: Pending)
    requires levels != [] && Grew(levels + [EMPTY_PENDING], after, d)
    ensures Grew(levels, after, d)
    ensures Grew(levels, Noted(Popped(after), Top(after)), d)
    ensures Grew(levels, Popped(after), MergeAll(Popped(after)[|levels|..]))
  {
    BodyAbove(levels, after, d);
    SplitAt(levels, after, d);
    var kept := Popped(after);
    assert kept[..|levels|] == levels;
    SplitAt(levels, kept, MergeAll(kept[|levels|..]));
    NotedGrew(kept, Top(after));
    GrewTwice(levels, kept, Noted(kept, Top(after)), MergeAll(kept[|levels|..]), Top(after));
    assert Popped(after[|levels|..]) == kept[|levels|..] && Top(after[|levels|..]) == Top(after);
    PopMerge(after[|levels|..]);
  }

  // ---- Savepoints ----

  predicate StackGrew(before: seq<Savepoint>, after: seq<Savepoint>, depth: nat) {
    |before| <= |after| && after[..|before|] == before &&
    forall i :: |before| <= i < |after| ==> after[i].name >= depth
  }

  lemma StackGrewTwice(a: seq<Savepoint>, b: seq<Savepoint>, c: seq<Savepoint>, d: nat, e: nat)
    requires StackGrew(a, b, d) && StackGrew(b, c, e) && d <= e
    ensures StackGrew(a, c, d)
  {
  }

  /** Whatever the body left on the stack, closing by name reaches the savepoint it opened. */
  lemma NewestIsOwn(before: seq<Savepoint>, own: Savepoint, after: seq<Savepoint>)
    requires StackGrew(before + [own], after, own.name + 1)
    ensures Newest(after, own.name) == |before| && after[|before|] == own && after[..|before|] == before
  {
    assert after[|before|] == after[..|before| + 1][|before|];
    assert after[..|before|] == after[..|before| + 1][..|before|];
    assert |before| <= Newest(after, own.name);
  }

  lemma ClosedStack(q: Sql, after: Sql, depth: nat, end: End)
    requires StackGrew(Opened(q, depth).stack, after.stack, depth + 1)
    ensures StackGrew(q.stack, ClosedSql(after, depth, end).stack, depth)
    ensures ClosedSql(after, depth, end).db == if RollsBack(end) then q.db else after.db
  {
    var own := Savepoint(depth, q.db);
    NewestIsOwn(q.stack, own, after.stack);
    assert StackGrew(q.stack, q.stack + [own], depth);
    StackGrewTwice(q.stack, q.stack + [own], after.stack, depth, depth + 1);
    if RollsBack(end) {
      var kept := after.stack[..|q.stack| + 1];
      assert kept == q.stack + [own];
      assert StackGrew(q.stack + [own], kept, depth + 1);
      NewestIsOwn(q.stack, own, kept);
    }
  }

  // ---- Every script ----

  predicate TrackedOnly(duty: Duty, p: Pending) {
    duty.Rows? ==> forall i :: 0 <= i < |p.changes| ==> Lower(p.changes[i].table) in duty.tracked
  }

  /** From `s` to `s'`, `d` was recorded, and the levels and savepoints stayed in step. */
  predicate InStep(duty: Duty, s: TxState, s': TxState, d: Pending) {
    Grew(s.levels, s'.levels, d) && StackGrew(s.sql.stack, s'.sql.stack, s.depth) && s.depth <= s'.depth &&
    TrackedOnly(duty, d)
  }

  lemma InStepTwice(duty: Duty, s: TxState, s1: TxState, s2: TxState, p: Pending, q: Pending)
    requires InStep(duty, s, s1, p) && InStep(duty, s1, s2, q)
    ensures InStep(duty, s, s2, Merged(p, q))
  {
    GrewTwice(s.levels, s1.levels, s2.levels, p, q);
    StackGrewTwice(s.sql.stack, s1.sql.stack, s2.sql.stack, s.depth, s1.depth);
  }

  /** What is left of a record when its newest level is dropped. */
  lemma DroppedLevel(duty: Duty, levels: seq<Pending>, after: seq<Pending>, d: Pending)
    requires levels != [] && Grew(levels + [EMPTY_PENDING], after, d) && TrackedOnly(duty, d)
    ensures |Popped(after)| >= |levels| && TrackedOnly(duty, MergeAll(Popped(after)[|levels|..]))
  {
    BodyAbove(levels, after, d);
    assert Popped(after[|levels|..]) == Popped(after)[|levels|..];
    PopMerge(after[|levels|..]);
    var e := MergeAll(Popped(after)[|levels|..]);
    assert forall i :: 0 <= i < |e.changes| ==> e.changes[i] == d.changes[i];
  }

  lemma ClosedInStep(duty: Duty, s: TxState, after: TxState, end: End, d: Pending) returns (e: Pending)
    requires s.levels != [] && InStep(duty, Entered(s), after, d)
    ensures InStep(duty, s, Closed(after, s.depth, end), e) && (!end.Fails? ==> e == d)
    ensures Closed(after, s.depth, end).sql.db == if RollsBack(end) then s.sql.db else after.sql.db
  {
    ClosedGrew(s.levels, after.levels, d);
    ClosedStack(s.sql, after.sql, s.depth, end);
    if end.Fails? {
      DroppedLevel(duty, s.levels, after.levels, d);
      e := MergeAll(Popped(after.levels)[|s.levels|..]);
    } else {
      e := d;
    }
  }

  /** The levels and the savepoint stack stay in step through every script, even when closures unwind
      and are caught, or closing statements fail. The record is honest unless a write survives in a
      closure whose ROLLBACK TO failed; without any surviving write the database is as it was. */
  lemma {:induction false} RanSafe(duty: Duty, s: TxState, p: Script) returns (d: Pending)
    requires s.levels != [] && HonestRun(duty, s, p)
    ensures InStep(duty, s, Ran(s, p), d)
    ensures !Exposed(p) ==> Honest(duty, d, s.sql.db, Ran(s, p).sql.db)
    ensures !HasSurvivor(p) ==> Ran(s, p).sql.db == s.sql.db
    decreases p
  {
    match p {
      case Done =>
        d := EMPTY_PENDING;
        DoneSafe(duty, s);
      case Exec(w, next) =>
        var first := Recorded(w);
        HonestRecord(duty, w, s.sql.db);
        NotedGrew(s.levels, first);
        var rest := RanSafe(duty, Wrote(s, w), next);
        InStepTwice(duty, s, Wrote(s, w), Ran(s, p), first, rest);
        if !Exposed(p) { MergedHonest(duty, first, rest, s.sql.db, w.after, Ran(s, p).sql.db); }
        d := Merged(first, rest);
      case Nested(body, end, next) =>
        var inner := RanSafe(duty, Entered(s), body);
        var after := Ran(Entered(s), body);
        var closed := Closed(after, s.depth, end);
        var first := ClosedInStep(duty, s, after, end, inner);
        var rest := RanSafe(duty, closed, next);
        InStepTwice(duty, s, closed, Ran(s, p), first, rest);
        if !Exposed(p) {
          ClosedHonest(duty, s, after, closed, body, end, inner, first);
          MergedHonest(duty, first, rest, s.sql.db, closed.sql.db, Ran(s, p).sql.db);
        }
        d := Merged(first, rest);
    }
  }

  lemma ClosedHonest(duty: Duty, s: TxState, after: TxState, closed: TxState, body: Script, end: End, d: Pending,
                     e: Pending)
    requires TrackedOnly(duty, e) && (!end.Fails? ==> e == d)
    requires closed.sql.db == if RollsBack(end) then s.sql.db else after.sql.db
    requires !RollsBack(end) ==> !Exposed(body) && (end.Fails? ==> !HasSurvivor(body))
    requires !Exposed(body) ==> Honest(duty, d, s.sql.db, after.sql.db)
    requires !HasSurvivor(body) ==> after.sql.db == s.sql.db
    ensures Honest(duty, e, s.sql.db, closed.sql.db)
  {
    if end.Fails? { StaleHonest(duty, e, s.sql.db); }
  }

  lemma DoneSafe(duty: Duty, s: TxState)
    requires s.levels != []
    ensures InStep(duty, s, s, EMPTY_PENDING) && Honest(duty, EMPTY_PENDING, s.sql.db, s.sql.db)
  {
    StaleHonest(duty, EMPTY_PENDING, s.sql.db);
  }

  // ---- Emissions ----

  /** A record that is honest about rows is enough to cover every table that differs. */
  lemma MessagesCover(tracked: set<string>, p: Pending, a: Db, b: Db, ms: seq<Msg>)
    requires Honest(Rows(tracked), p, a, b) && !p.all
    requires RowMsgs(p.changes) + TableMsgs(p.tables - ChangedTables(p.changes)) == ms
    ensures EmissionCovers(a, b, ms)
  {
    forall t | Content(a, t) != Content(b, t)
      ensures exists i :: 0 <= i < |ms| && MsgNames(ms[i], a, b, t)
    {
      assert Covered(Rows(tracked), p, a, b, t);
      if t in tracked {
        ReplayTouches(p.changes, t, Content(a, t), Content(b, t));
        assert MsgNames(ms[0], a, b, t);
      } else {
        var n :| n in p.tables && Lower(n) == t;
        assert n in p.tables - ChangedTables(p.changes);
        assert ms[|ms| - 1] == Invalidate(Some(p.tables - ChangedTables(p.changes)));
        assert MsgNames(ms[|ms| - 1], a, b, t);
      }
    }
  }

  /** A record that is honest about names is enough to mention every table that differs. */
  lemma MessagesName(p: Pending, a: Db, b: Db, ms: seq<Msg>)
    requires Honest(Names, p, a, b) && !p.all
    requires RowMsgs(p.changes) + TableMsgs(p.tables - ChangedTables(p.changes)) == ms
    ensures EmissionNames(a, b, ms)
  {
    forall t | Content(a, t) != Content(b, t) ensures exists i :: 0 <= i < |ms| && Mentions(ms[i], t) {
      assert Covered(Names, p, a, b, t);
      if Touches(p.changes, t) {
        assert Mentions(ms[0], t);
      } else {
        var n :| n in p.tables && Lower(n) == t;
        assert n in p.tables - ChangedTables(p.changes);
        assert ms[|ms| - 1] == Invalidate(Some(p.tables - ChangedTables(p.changes)));
        assert Mentions(ms[|ms| - 1], t);
      }
    }
  }

  lemma AllCovers(a: Db, b: Db, ms: seq<Msg>, i: nat)
    requires i < |ms| && ms[i] == Invalidate(None)
    ensures EmissionCovers(a, b, ms)
  {
  }

  lemma RecordIsWhole(duty: Duty, start: Db, p: Script) returns (d: Pending)
    requires HonestRun(duty, Begun(start), p) && !Exposed(p)
    ensures d == MergeAll(Ran(Begun(start), p).levels) && Honest(duty, d, start, Ran(Begun(start), p).sql.db)
  {
    var s := Ran(Begun(start), p);
    d := RanSafe(duty, Begun(start), p);
    MergedAssociative(d, EMPTY_PENDING, EMPTY_PENDING);
    assert s.levels[0..] == s.levels;
  }

  /** If every ROLLBACK TO succeeds, nothing is exposed. */
  lemma {:induction false} RolledBackIsNotExposed(p: Script)
    requires RollbacksSucceed(p)
    ensures !Exposed(p)
    decreases p
  {
    match p {
      case Done =>
      case Exec(_, next) => RolledBackIsNotExposed(next);
      case Nested(body, _, next) =>
        RolledBackIsNotExposed(body);
        RolledBackIsNotExposed(next);
    }
  }

  /** If the hook reports the rows, the commit of any script emits messages that cover every table it
      changed, unless a write survives in a closure whose ROLLBACK TO failed. */
  lemma CommitCovers(tracked: set<string>, start: Db, p: Script)
    requires HonestRun(Rows(tracked), Begun(start), p) && !Exposed(p)
    ensures var (db, ms) := Finished(start, Ran(Begun(start), p), Commit(true)); EmissionCovers(start, db, ms)
  {
    var s := Ran(Begun(start), p);
    var d := RecordIsWhole(Rows(tracked), start, p);
    if d.all {
      AllCovers(start, s.sql.db, CommitEmission(s.levels), 0);
    } else {
      MessagesCover(tracked, d, start, s.sql.db, CommitEmission(s.levels));
    }
  }

  /** If each statement's changed tables are at least named, the commit of any script mentions every
      table it changed. */
  lemma CommitNames(start: Db, p: Script)
    requires HonestRun(Names, Begun(start), p) && !Exposed(p)
    ensures var (db, ms) := Finished(start, Ran(Begun(start), p), Commit(true)); EmissionNames(start, db, ms)
  {
    var s := Ran(Begun(start), p);
    var d := RecordIsWhole(Names, start, p);
    var ms := CommitEmission(s.levels);
    if d.all {
      assert ms[0] == Invalidate(None) && forall t :: Mentions(ms[0], t);
    } else {
      MessagesName(d, start, s.sql.db, ms);
    }
  }

  /** A statement outside any transaction covers what it changed. */
  lemma AutocommitCovers(tracked: set<string>, before: Db, w: Write)
    requires w.Statement? && HonestWrite(Rows(tracked), w, before)
    ensures EmissionCovers(before, w.after, AutoEmission(w.claim, w.seen, w.rows))
  {
    var ms := AutoEmission(w.claim, w.seen, w.rows);
    HonestRecord(Rows(tracked), w, before);
    if w.claim == Unparsed {
      assert ms[|ms| - 1] == Invalidate(None);
      AllCovers(before, w.after, ms, |ms| - 1);
    } else {
      if w.claim.Tables? { assert w.claim.names + w.seen == w.seen + w.claim.names; }
      MessagesCover(tracked, Recorded(w), before, w.after, ms);
    }
  }

  /** It announces exactly what it declares and what the hook reported; a statement that cannot be parsed
      announces everything after its rows. */
  lemma AutocommitIsExact(w: Write)
    requires w.Statement?
    ensures var ms := AutoEmission(w.claim, w.seen, w.rows);
            if OfUnknownEffect(w)
            then exists front :: Announces(front, {}, w.rows) && ms == front + [Invalidate(None)]
            else Announces(ms, Declared(w), w.rows)
  {
    var ms := AutoEmission(w.claim, w.seen, w.rows);
    if OfUnknownEffect(w) {
      RowlessIsRest({}, w.rows);
      var front := RowMsgs(w.rows);
      assert Announces(front, {}, w.rows) && ms == front + [Invalidate(None)];
    } else {
      RowlessIsRest(Declared(w), w.rows);
      if w.claim.Tables? { assert w.claim.names + w.seen == Declared(w); }
    }
  }

  lemma RowlessIsRest(tables: set<string>, rows: seq<Change>)
    ensures Rowless(tables, rows) == tables - ChangedTables(rows)
  {
  }

  /** Direct work on a connection: with all rows of the tracked tables reported, what is emitted covers
      the changes if and only if no other table changed. */
  lemma DirectCoversTracked(tracked: set<string>, before: Db, after: Db, rows: seq<Change>)
    requires forall i :: 0 <= i < |rows| ==> Lower(rows[i].table) in tracked
    requires forall t <- tracked :: Replays(rows, t, Content(before, t), Content(after, t))
    ensures EmissionCovers(before, after, DirectEmission(rows)) <==>
            forall t :: t !in tracked ==> Content(before, t) == Content(after, t)
  {
    if forall t :: t !in tracked ==> Content(before, t) == Content(after, t) {
      forall t | Content(before, t) != Content(after, t)
        ensures exists i :: 0 <= i < |DirectEmission(rows)| && MsgNames(DirectEmission(rows)[i], before, after, t)
      {
        TrackedIsNamed(tracked, before, after, rows, t);
      }
    } else {
      var t :| t !in tracked && Content(before, t) != Content(after, t);
      UntrackedIsMissed(tracked, before, after, rows, t);
    }
  }

  lemma TrackedIsNamed(tracked: set<string>, before: Db, after: Db, rows: seq<Change>, t: string)
    requires t in tracked && Content(before, t) != Content(after, t) &&
             Replays(rows, t, Content(before, t), Content(after, t))
    ensures exists i :: 0 <= i < |DirectEmission(rows)| && MsgNames(DirectEmission(rows)[i], before, after, t)
  {
    ReplayTouches(rows, t, Content(before, t), Content(after, t));
    assert MsgNames(DirectEmission(rows)[0], before, after, t);
  }

  lemma UntrackedIsMissed(tracked: set<string>, before: Db, after: Db, rows: seq<Change>, t: string)
    requires forall i :: 0 <= i < |rows| ==> Lower(rows[i].table) in tracked
    requires t !in tracked && Content(before, t) != Content(after, t)
    ensures !EmissionCovers(before, after, DirectEmission(rows))
  {
  }

  // ---- Precision ----

  lemma KeptStep(p: Script)
    ensures Kept(p) == match p
              case Done => EMPTY_PENDING
              case Exec(w, next) => Merged(Recorded(w), Kept(next))
              case Nested(body, end, next) => Merged(if end.Fails? then EMPTY_PENDING else Kept(body), Kept(next))
  {
  }

  lemma NotedTwice(levels: seq<Pending>, p: Pending, q: Pending)
    requires levels != []
    ensures Noted(Noted(levels, p), q) == Noted(levels, Merged(p, q)) && Noted(levels, EMPTY_PENDING) == levels
  {
    MergedAssociative(Top(levels), p, q);
    MergedAssociative(Top(levels), EMPTY_PENDING, EMPTY_PENDING);
  }

  lemma ClosedKeeps(s: TxState, after: TxState, end: End, inner: Pending)
    requires s.levels != [] && end != Unwinds && after.levels == Noted(s.levels + [EMPTY_PENDING], inner)
    ensures Closed(after, s.depth, end).levels == Noted(s.levels, if end.Fails? then EMPTY_PENDING else inner)
    ensures Closed(after, s.depth, end).depth == s.depth
  {
    MergedAssociative(inner, EMPTY_PENDING, EMPTY_PENDING);
    NotedTwice(s.levels, inner, inner);
    assert Popped(after.levels) == s.levels && Top(after.levels) == inner;
  }

  /** Without unwinding the levels are level with the nesting, and hold exactly what was kept. */
  lemma {:induction false} RanKeeps(s: TxState, p: Script)
    requires s.levels != [] && NeverUnwinds(p)
    ensures Ran(s, p).levels == Noted(s.levels, Kept(p)) && Ran(s, p).depth == s.depth
    decreases p
  {
    KeptStep(p);
    match p {
      case Done => NotedTwice(s.levels, EMPTY_PENDING, EMPTY_PENDING);
      case Exec(w, next) =>
        RanKeeps(Wrote(s, w), next);
        NotedTwice(s.levels, Recorded(w), Kept(next));
      case Nested(body, end, next) =>
        var after := Ran(Entered(s), body);
        RanKeeps(Entered(s), body);
        ClosedKeeps(s, after, end, Kept(body));
        RanKeeps(Closed(after, s.depth, end), next);
        NotedTwice(s.levels, if end.Fails? then EMPTY_PENDING else Kept(body), Kept(next));
    }
  }

  /** When nothing unwinds, a commit invalidates everything exactly if a write of unknown effect was kept;
      otherwise it announces exactly what was declared and reported outside failed savepoints. */
  lemma CommitIsExact(start: Db, p: Script)
    requires NeverUnwinds(p)
    ensures var ms := Finished(start, Ran(Begun(start), p), Commit(true)).1;
            if KeptUnknown(p) then ms == [Invalidate(None)] else Announces(ms, KeptTables(p), KeptRows(p))
  {
    var k := Kept(p);
    RanKeeps(Begun(start), p);
    MergedAssociative(k, EMPTY_PENDING, EMPTY_PENDING);
    MergeOne(k);
    assert MergeAll(Ran(Begun(start), p).levels) == k;
    RowlessIsRest(k.tables, k.changes);
  }

  /** Whatever failed, unwound or was caught: the database is the one that the rolled-back savepoints leave,
      and closing by name never reached a savepoint of a caller. */
  lemma {:induction false} RanIsEffect(s: TxState, p: Script)
    ensures Ran(s, p).sql.db == Effect(p, s.sql.db) && s.depth <= Ran(s, p).depth
    ensures StackGrew(s.sql.stack, Ran(s, p).sql.stack, s.depth)
    decreases p
  {
    match p {
      case Done =>
      case Exec(w, next) => RanIsEffect(Wrote(s, w), next);
      case Nested(body, end, next) =>
        var after := Ran(Entered(s), body);
        RanIsEffect(Entered(s), body);
        ClosedStack(s.sql, after.sql, s.depth, end);
        var closed := Closed(after, s.depth, end);
        RanIsEffect(closed, next);
        StackGrewTwice(s.sql.stack, closed.sql.stack, Ran(s, p).sql.stack, s.depth, closed.depth);
    }
  }

  /** When every savepoint is released, none is left open and the next one gets the same name again. */
  lemma {:induction false} ReleasedLeaveNothing(s: TxState, p: Script)
    requires AllReleased(p)
    ensures Ran(s, p).sql.stack == s.sql.stack && Ran(s, p).depth == s.depth
    decreases p
  {
    match p {
      case Done =>
      case Exec(w, next) => ReleasedLeaveNothing(Wrote(s, w), next);
      case Nested(body, end, next) =>
        var after, own := Ran(Entered(s), body), Savepoint(s.depth, s.sql.db);
        ReleasedLeaveNothing(Entered(s), body);
        assert StackGrew(s.sql.stack + [own], after.sql.stack, own.name + 1);
        NewestIsOwn(s.sql.stack, own, after.sql.stack);
        if end.Fails? { assert RolledBack(after.sql, s.depth).stack == s.sql.stack + [own]; }
        ReleasedLeaveNothing(Closed(after, s.depth, end), next);
    }
  }

  // ---- The assumption is needed ----

  /** A write that does nothing, and one that changes table `t` and says so. */
  function Idle(db: Db): Write {
    Statement(db, ReadOnly, {}, [])
  }

  function Mark(after: Db, t: string): Write {
    Statement(after, Tables({t}), {}, [])
  }

  function Muted(p: Script, db: Db): Script {
    match p
    case Done => Done
    case Exec(_, next) => Exec(Idle(db), Muted(next, db))
    case Nested(body, end, next) => Nested(Muted(body, db), end, Muted(next, db))
  }

  /** The first surviving write changes the database to `after`; every other write does nothing. */
  function Marked(p: Script, db: Db, after: Db, t: string): Script {
    match p
    case Done => Done
    case Exec(_, next) => Exec(Mark(after, t), Muted(next, after))
    case Nested(body, end, next) =>
      if !RollsBack(end) && HasSurvivor(body) then Nested(Marked(body, db, after, t), end, Muted(next, after))
      else Nested(Muted(body, db), end, Marked(next, db, after, t))
  }

  /** The same for the first exposed write. */
  function Losing(p: Script, db: Db, after: Db, t: string): Script {
    match p
    case Done => Done
    case Exec(_, next) => Exec(Idle(db), Losing(next, db, after, t))
    case Nested(body, end, next) =>
      if end.Fails? && !end.rolledBack && HasSurvivor(body)
      then Nested(Marked(body, db, after, t), end, Muted(next, after))
      else if !RollsBack(end) && Exposed(body) then Nested(Losing(body, db, after, t), end, Muted(next, after))
      else Nested(Muted(body, db), end, Losing(next, db, after, t))
  }

  lemma {:induction false} MutedShape(p: Script, db: Db)
    ensures SameShape(p, Muted(p, db)) && Kept(Muted(p, db)) == EMPTY_PENDING
    ensures NeverUnwinds(p) ==> NeverUnwinds(Muted(p, db))
    decreases p
  {
    match p {
      case Done =>
      case Exec(_, next) => MutedShape(next, db);
      case Nested(body, _, next) =>
        MutedShape(body, db);
        MutedShape(next, db);
    }
  }

  lemma {:induction false} MarkedShape(p: Script, db: Db, after: Db, t: string)
    ensures SameShape(p, Marked(p, db, after, t))
    ensures NeverUnwinds(p) ==> NeverUnwinds(Marked(p, db, after, t))
    decreases p
  {
    match p {
      case Done =>
      case Exec(_, next) => MutedShape(next, after);
      case Nested(body, _, next) =>
        MarkedShape(body, db, after, t);
        MarkedShape(next, db, after, t);
        MutedShape(body, db);
        MutedShape(next, after);
    }
  }

  lemma {:induction false} LosingShape(p: Script, db: Db, after: Db, t: string)
    ensures SameShape(p, Losing(p, db, after, t)) && Kept(Losing(p, db, after, t)) == EMPTY_PENDING
    ensures NeverUnwinds(p) ==> NeverUnwinds(Losing(p, db, after, t))
    decreases p
  {
    match p {
      case Done =>
      case Exec(_, next) => LosingShape(next, db, after, t);
      case Nested(body, end, next) =>
        MutedShape(next, after);
        if end.Fails? && !end.rolledBack && HasSurvivor(body) {
          MarkedShape(body, db, after, t);
        } else if !RollsBack(end) && Exposed(body) {
          LosingShape(body, db, after, t);
        } else {
          MutedShape(body, db);
          LosingShape(next, db, after, t);
        }
    }
  }

  /** The database after a savepoint. */
  lemma ClosedDb(s: TxState, body: Script, end: End) returns (closed: TxState)
    requires s.levels != []
    ensures closed == Closed(Ran(Entered(s), body), s.depth, end) && closed.levels != []
    ensures closed.sql.db == if RollsBack(end) then s.sql.db else Ran(Entered(s), body).sql.db
  {
    closed := Closed(Ran(Entered(s), body), s.depth, end);
    RanIsEffect(s, Nested(body, end, Done));
    RanIsEffect(Entered(s), body);
    RanKeepsLevels(Entered(s), body);
  }

  lemma {:induction false} RanKeepsLevels(s: TxState, p: Script)
    ensures |Ran(s, p).levels| >= |s.levels|
    decreases p
  {
    match p {
      case Done =>
      case Exec(w, next) => RanKeepsLevels(Wrote(s, w), next);
      case Nested(body, end, next) =>
        RanKeepsLevels(Entered(s), body);
        RanKeepsLevels(Closed(Ran(Entered(s), body), s.depth, end), next);
    }
  }

  lemma IdleIsHonest(duty: Duty, db: Db)
    ensures HonestWrite(duty, Idle(db), db)
  {
  }

  lemma {:induction false} MutedRuns(duty: Duty, s: TxState, p: Script)
    requires s.levels != []
    ensures HonestRun(duty, s, Muted(p, s.sql.db)) && Ran(s, Muted(p, s.sql.db)).sql.db == s.sql.db
    decreases p
  {
    match p {
      case Done =>
      case Exec(_, next) =>
        IdleIsHonest(duty, s.sql.db);
        MutedRuns(duty, Wrote(s, Idle(s.sql.db)), next);
      case Nested(body, end, next) =>
        MutedRuns(duty, Entered(s), body);
        var closed := ClosedDb(s, Muted(body, s.sql.db), end);
        MutedRuns(duty, closed, next);
    }
  }

  /** The marked write is the only one that matters. */
  ghost predicate Marks(duty: Duty, s: TxState, after: Db, t: string) {
    s.levels != [] && HonestWrite(duty, Mark(after, t), s.sql.db)
  }

  lemma {:induction false} MarkedRuns(duty: Duty, s: TxState, p: Script, after: Db, t: string)
    requires Marks(duty, s, after, t) && HasSurvivor(p)
    ensures var p' := Marked(p, s.sql.db, after, t); HonestRun(duty, s, p') && Ran(s, p').sql.db == after
    decreases p
  {
    match p {
      case Exec(_, next) => MutedRuns(duty, Wrote(s, Mark(after, t)), next);
      case Nested(body, end, next) =>
        if !RollsBack(end) && HasSurvivor(body) {
          MarkedRuns(duty, Entered(s), body, after, t);
          var closed := ClosedDb(s, Marked(body, s.sql.db, after, t), end);
          MutedRuns(duty, closed, next);
        } else {
          MutedRuns(duty, Entered(s), body);
          var closed := ClosedDb(s, Muted(body, s.sql.db), end);
          MarkedRuns(duty, closed, next, after, t);
        }
    }
  }

  lemma {:induction false} LosingRuns(duty: Duty, s: TxState, p: Script, after: Db, t: string)
    requires Marks(duty, s, after, t) && Exposed(p)
    ensures var p' := Losing(p, s.sql.db, after, t); HonestRun(duty, s, p') && Ran(s, p').sql.db == after
    decreases p
  {
    match p {
      case Exec(_, next) =>
        IdleIsHonest(duty, s.sql.db);
        LosingRuns(duty, Wrote(s, Idle(s.sql.db)), next, after, t);
      case Nested(body, end, next) =>
        if end.Fails? && !end.rolledBack && HasSurvivor(body) {
          MarkedRuns(duty, Entered(s), body, after, t);
          var closed := ClosedDb(s, Marked(body, s.sql.db, after, t), end);
          MutedRuns(duty, closed, next);
        } else if !RollsBack(end) && Exposed(body) {
          LosingRuns(duty, Entered(s), body, after, t);
          var closed := ClosedDb(s, Losing(body, s.sql.db, after, t), end);
          MutedRuns(duty, closed, next);
        } else {
          MutedRuns(duty, Entered(s), body);
          var closed := ClosedDb(s, Muted(body, s.sql.db), end);
          LosingRuns(duty, closed, next, after, t);
        }
    }
  }

  ghost predicate CommitIsCovered(start: Db, p: Script) {
    var (db, ms) := Finished(start, Ran(Begun(start), p), Commit(true)); EmissionCovers(start, db, ms)
  }

  lemma MarkIsHonest(start: Db, after: Db, t: string)
    requires Lower(t) == t && forall x :: x != t ==> Content(start, x) == Content(after, x)
    ensures HonestWrite(Rows({}), Mark(after, t), start)
  {
  }

  /** In every script that never unwinds, an exposed write can be lost: with some honest writes the
      commit changes a table that no message mentions. */
  lemma FailedRollbackLosesWrites(p: Script) returns (start: Db, p': Script)
    requires NeverUnwinds(p) && Exposed(p)
    ensures SameShape(p, p') && HonestRun(Rows({}), Begun(start), p') && !CommitIsCovered(start, p')
  {
    var row: Row := map[];
    start := map[];
    var after: Db := map["t" := multiset{row}];
    assert Lower("t") == "t" by { assert Lower("t")[0] == LowerChar('t'); }
    MarkIsHonest(start, after, "t");
    p' := Losing(p, start, after, "t");
    LosingRuns(Rows({}), Begun(start), p, after, "t");
    LosingShape(p, start, after, "t");
    CommitIsExact(start, p');
    assert Content(start, "t") != Content(after, "t") by { assert Content(after, "t")[row] == 1; }
    assert Finished(start, Ran(Begun(start), p'), Commit(true)) == (after, []);
  }

  lemma {:induction false} ShapeDecides(p: Script, p': Script)
    requires SameShape(p, p')
    ensures HasSurvivor(p) == HasSurvivor(p') && Exposed(p) == Exposed(p')
    decreases p
  {
    match p {
      case Done =>
      case Exec(_, next) => ShapeDecides(next, p'.next);
      case Nested(body, _, next) =>
        ShapeDecides(body, p'.body);
        ShapeDecides(next, p'.next);
    }
  }

  /** A shape of script that never unwinds is covered for all honest writes if and only if no write is
      exposed to a failed ROLLBACK TO. */
  lemma CoverageIsExact(p: Script)
    requires NeverUnwinds(p)
    ensures !Exposed(p) <==>
            forall tracked, start, p' :: SameShape(p, p') && HonestRun(Rows(tracked), Begun(start), p') ==>
              CommitIsCovered(start, p')
  {
    if Exposed(p) {
      var start, p' := FailedRollbackLosesWrites(p);
    } else {
      forall tracked, start, p' | SameShape(p, p') && HonestRun(Rows(tracked), Begun(start), p')
        ensures CommitIsCovered(start, p')
      {
        ShapeDecides(p, p');
        CommitCovers(tracked, start, p');
      }
    }
  }
}
