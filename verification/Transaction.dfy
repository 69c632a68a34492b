/** The transaction object: its fields are updated in place, one level of pending invalidations
    for each savepoint that is open, and every method does what its function on values says. */
module Transaction {
  import opened Values
  import opened Filter
  import opened LiveSpec
  import opened TxSpec
  import TxSafety

  class Tx {
    /** The database at BEGIN, which SQLite keeps for a rollback. */
    const begun: Db
    var sql: Sql
    var open: bool
    var spDepth: nat
    var pending: seq<Pending>

    function View(): TxState reads this {
      TxState(sql, spDepth, pending)
    }

    constructor (db: Db)
      ensures View() == Begun(db) && open && begun == db
    {
      begun := db;
      sql, open, spDepth, pending := Sql(db, []), true, 0, [EMPTY_PENDING];
    }

    method CollectWrite(claim: Claim, seen: set<string>, rows: seq<Change>)
      modifies this`pending
      ensures pending == Noted(old(pending), Recorded(Statement(sql.db, claim, seen, rows)))
    {
      if pending == [] {
        return;
      }
      var p := pending[|pending| - 1];
      p := p.(tables := p.tables + seen, changes := p.changes + rows);
      match claim {
        case ReadOnly =>
        case Tables(names) =>
          assert p.tables + names == pending[|pending| - 1].tables + (seen + names);
          p := p.(tables := p.tables + names);
        case Unparsed => p := p.(all := true);
      }
      pending := pending[|pending| - 1 := p];
    }

    method CollectWriteAll(seen: set<string>, rows: seq<Change>)
      modifies this`pending
      ensures pending == Noted(old(pending), Recorded(FailedBatch(sql.db, seen, rows)))
    {
      if pending == [] {
        return;
      }
      var p := pending[|pending| - 1];
      pending := pending[|pending| - 1 := Pending(true, p.tables + seen, p.changes + rows)];
    }

    method Execute(w: Write)
      modifies this`sql, this`pending
      ensures View() == Wrote(old(View()), w)
    {
      sql := sql.(db := w.after);
      match w {
        case Statement(_, claim, seen, rows) => CollectWrite(claim, seen, rows);
        case FailedBatch(_, seen, rows) => CollectWriteAll(seen, rows);
      }
    }

    method MergeUp(level: Pending)
      modifies this`pending
      ensures pending == Noted(old(pending), level)
    {
      if pending != [] {
        var parent := pending[|pending| - 1];
        pending := pending[|pending| - 1 :=
          Pending(parent.all || level.all, parent.tables + level.tables, parent.changes + level.changes)];
      }
    }

    /** `RELEASE`, or `ROLLBACK TO` and then `RELEASE`; the first failure skips the rest. */
    method CloseSavepoint(name: nat, end: End)
      modifies this`sql
      ensures sql == ClosedSql(old(sql), name, end)
    {
      if end.Fails? {
        if !end.rolledBack {
          return;
        }
        sql := RolledBack(sql, name);
      }
      if end != Unwinds && end.released {
        sql := Released(sql, name);
      }
    }

    method Enter()
      modifies this`sql, this`spDepth, this`pending
      ensures View() == Entered(old(View()))
    {
      sql := Opened(sql, spDepth);
      spDepth := spDepth + 1;
      pending := pending + [EMPTY_PENDING];
    }

    /** What follows a closure that returned: the level goes to its parent, or is dropped. */
    method Leave(depth: nat, end: End)
      requires end != Unwinds
      modifies this`sql, this`spDepth, this`pending
      ensures View() == Closed(old(View()), depth, end)
    {
      spDepth := depth;
      var level := Top(pending);
      pending := Popped(pending);
      if end.Succeeds? {
        MergeUp(level);
      }
      CloseSavepoint(depth, end);
    }

    /** The closure is a script; it may unwind, which leaves depth, level and savepoint behind. */
    method Nest(body: Script, end: End)
      modifies this`sql, this`spDepth, this`pending
      ensures View() == Closed(Ran(Entered(old(View())), body), old(spDepth), end)
      decreases body, 1
    {
      var depth := spDepth;
      Enter();
      Run(body);
      if end != Unwinds {
        Leave(depth, end);
      }
    }

    method Run(p: Script)
      modifies this`sql, this`spDepth, this`pending
      ensures View() == Ran(old(View()), p)
      decreases p, 0
    {
      match p {
        case Done =>
        case Exec(w, next) =>
          Execute(w);
          Run(next);
        case Nested(body, end, next) =>
          Nest(body, end);
          Run(next);
      }
    }

    method EmitPending() returns (ms: seq<Msg>)
      modifies this`pending
      ensures ms == CommitEmission(old(pending)) && pending == []
    {
      var levels := pending;
      pending := [];
      var all, tables, changes := false, {}, [];
      for i := 0 to |levels|
        invariant Pending(all, tables, changes) == MergeAll(levels[..i])
        invariant pending == []
      {
        TxSafety.MergeAllSplit(levels[..i], [levels[i]]);
        TxSafety.MergeOne(levels[i]);
        assert levels[..i + 1] == levels[..i] + [levels[i]];
        all := all || levels[i].all;
        tables := tables + levels[i].tables;
        changes := changes + levels[i].changes;
      }
      assert levels[..|levels|] == levels;
      if all {
        return [Invalidate(None)];
      }
      var changed := set i | 0 <= i < |changes| :: changes[i].table;
      ms := [];
      if changes != [] {
        ms := ms + [Changes(changes)];
      }
      tables := tables - changed;
      if tables != {} {
        ms := ms + [Invalidate(Some(tables))];
      }
    }

    /** COMMIT, and the emission if SQLite accepts it; a refused commit is rolled back by the drop. */
    method Commit(accepted: bool) returns (ms: seq<Msg>)
      requires open
      modifies this`open, this`pending
      ensures open == !accepted
      ensures ms == Finished(begun, old(View()), TxSpec.Commit(accepted)).1
      ensures accepted ==> sql.db == Finished(begun, old(View()), TxSpec.Commit(accepted)).0
      ensures !accepted ==> ms == [] && View() == old(View())
    {
      if !accepted {
        return [];
      }
      open := false;
      ms := EmitPending();
    }

    /** The drop of a transaction that is still open: back to the database at BEGIN, and no message. */
    method Drop()
      modifies this`sql, this`open
      ensures sql.db == if old(open) then Finished(begun, old(View()), Abandon).0 else old(sql.db)
      ensures sql == if old(open) then Sql(begun, []) else old(sql)
      ensures pending == old(pending) && !open
    {
      if open {
        sql := Sql(begun, []);
        open := false;
      }
    }
  }
}
