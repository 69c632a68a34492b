/** Transactions and nested savepoints: what a transaction's invalidation levels record, next to
    what SQLite's savepoint stack restores, for every script of statements and savepoints. */
module TxSpec {
  import opened Values
  import opened Filter
  import opened LiveSpec

  /** What a statement's text claims to write. */
  datatype Claim = ReadOnly | Tables(names: set<string>) | Unparsed

  /** A statement or batch as executed: the database it leaves, and what the pre-update hook saw.
      A failed batch may have applied some of its statements. */
  datatype Write =
    | Statement(after: Db, claim: Claim, seen: set<string>, rows: seq<Change>)
    | FailedBatch(after: Db, seen: set<string>, rows: seq<Change>)

  /** How a savepoint closure ends, and which of the closing statements succeed. */
  datatype End =
    | Succeeds(released: bool)
    | Fails(rolledBack: bool, released: bool)
    | Unwinds

  /** What runs inside a transaction. An unwinding savepoint followed by more work was caught. */
  datatype Script =
    | Done
    | Exec(write: Write, next: Script)
    | Nested(body: Script, end: End, next: Script)

  // ---- SQLite ----

  datatype Savepoint = Savepoint(name: nat, saved: Db)

  datatype Sql = Sql(db: Db, stack: seq<Savepoint>)

  /** The position of the newest savepoint of that name; `|stack|` if there is none. */
  function Newest(stack: seq<Savepoint>, name: nat): (i: nat)
    ensures i <= |stack|
    ensures i < |stack| ==> stack[i].name == name && forall j :: i < j < |stack| ==> stack[j].name != name
    ensures i == |stack| ==> forall j :: 0 <= j < |stack| ==> stack[j].name != name
  {
    if stack == [] then 0
    else if stack[|stack| - 1].name == name then |stack| - 1
    else
      var i := Newest(stack[..|stack| - 1], name);
      if i == |stack| - 1 then |stack| else i
  }

  function Opened(q: Sql, name: nat): Sql {
    q.(stack := q.stack + [Savepoint(name, q.db)])
  }

  /** `RELEASE name` drops the savepoint and everything above it. */
  function Released(q: Sql, name: nat): Sql {
    q.(stack := q.stack[..Newest(q.stack, name)])
  }

  /** `ROLLBACK TO name` restores the database and keeps the savepoint itself. */
  function RolledBack(q: Sql, name: nat): Sql {
    var i := Newest(q.stack, name);
    if i == |q.stack| then q else Sql(q.stack[i].saved, q.stack[..i + 1])
  }

  // ---- The transaction ----

  datatype Pending = Pending(all: bool, tables: set<string>, changes: seq<Change>)

  const EMPTY_PENDING := Pending(false, {}, [])

  function Merged(a: Pending, b: Pending): Pending {
    Pending(a.all || b.all, a.tables + b.tables, a.changes + b.changes)
  }

  function MergeAll(levels: seq<Pending>): Pending {
    if levels == [] then EMPTY_PENDING else Merged(levels[0], MergeAll(levels[1..]))
  }

  function Recorded(w: Write): Pending {
    match w
    case Statement(_, ReadOnly, seen, rows) => Pending(false, seen, rows)
    case Statement(_, Tables(names), seen, rows) => Pending(false, seen + names, rows)
    case Statement(_, Unparsed, seen, rows) => Pending(true, seen, rows)
    case FailedBatch(_, seen, rows) => Pending(true, seen, rows)
  }

  datatype TxState = TxState(sql: Sql, depth: nat, levels: seq<Pending>)

  /** Merges into the newest level; without levels there is nowhere to record. */
  function Noted(levels: seq<Pending>, p: Pending): seq<Pending> {
    if levels == [] then [] else levels[..|levels| - 1] + [Merged(levels[|levels| - 1], p)]
  }

  function Popped(levels: seq<Pending>): seq<Pending> {
    if levels == [] then [] else levels[..|levels| - 1]
  }

  function Top(levels: seq<Pending>): Pending {
    if levels == [] then EMPTY_PENDING else levels[|levels| - 1]
  }

  function Wrote(s: TxState, w: Write): TxState {
    s.(sql := s.sql.(db := w.after), levels := Noted(s.levels, Recorded(w)))
  }

  function Entered(s: TxState): TxState {
    TxState(Opened(s.sql, s.depth), s.depth + 1, s.levels + [EMPTY_PENDING])
  }

  function ClosedSql(q: Sql, depth: nat, end: End): Sql {
    match end
    case Succeeds(released) => if released then Released(q, depth) else q
    case Fails(false, _) => q
    case Fails(true, released) => if released then Released(RolledBack(q, depth), depth) else RolledBack(q, depth)
    case Unwinds => q
  }

  /** Closing the savepoint opened at `depth`. A level is merged into its parent before RELEASE, and
      dropped with ROLLBACK TO; an unwinding closure skips both and leaves the level behind. */
  function Closed(s: TxState, depth: nat, end: End): TxState {
    var sql := ClosedSql(s.sql, depth, end);
    match end
    case Succeeds(_) => TxState(sql, depth, Noted(Popped(s.levels), Top(s.levels)))
    case Fails(_, _) => TxState(sql, depth, Popped(s.levels))
    case Unwinds => s
  }

  function Ran(s: TxState, p: Script): TxState
    decreases p
  {
    match p
    case Done => s
    case Exec(w, next) => Ran(Wrote(s, w), next)
    case Nested(body, end, next) => Ran(Closed(Ran(Entered(s), body), s.depth, end), next)
  }

  function Begun(db: Db): TxState {
    TxState(Sql(db, []), 0, [EMPTY_PENDING])
  }

  // ---- Emission ----

  function ChangedTables(cs: seq<Change>): set<string> {
    set i | 0 <= i < |cs| :: cs[i].table
  }

  function RowMsgs(changes: seq<Change>): seq<Msg> {
    if changes == [] then [] else [Changes(changes)]
  }

  function TableMsgs(tables: set<string>): seq<Msg> {
    if tables == {} then [] else [Invalidate(Some(tables))]
  }

  /** What a successful COMMIT emits. */
  function CommitEmission(levels: seq<Pending>): seq<Msg> {
    var m := MergeAll(levels);
    if m.all then [Invalidate(None)]
    else RowMsgs(m.changes) + TableMsgs(m.tables - ChangedTables(m.changes))
  }

  /** What a statement outside any transaction emits. */
  function AutoEmission(claim: Claim, seen: set<string>, rows: seq<Change>): seq<Msg> {
    RowMsgs(rows) +
    match claim
    case ReadOnly => TableMsgs(seen - ChangedTables(rows))
    case Tables(names) => TableMsgs(names + seen - ChangedTables(rows))
    case Unparsed => [Invalidate(None)]
  }

  /** What direct work on a connection emits: only what the hook captured, and names only without rows.
      The hook names exactly the tables of its rows. */
  function DirectEmission(rows: seq<Change>): seq<Msg> {
    if rows != [] then [Changes(rows)] else TableMsgs(ChangedTables(rows))
  }

  datatype Finish = Commit(accepted: bool) | Rollback | Abandon

  /** The database afterwards and the messages sent; a refused COMMIT ends in the drop's rollback. */
  function Finished(start: Db, s: TxState, f: Finish): (Db, seq<Msg>) {
    if f == Commit(true) then (s.sql.db, CommitEmission(s.levels)) else (start, [])
  }

  // ---- What is assumed of statements and of SQLite ----

  /** What statements are relied on for. `Rows`: the hook reports every changed row of the tables whose
      columns it knows, and a parsed statement claims every other table it changes. `Names`: each changed
      table is at least claimed by the text or seen by the hook. */
  datatype Duty = Rows(tracked: set<string>) | Names

  ghost predicate Honest(duty: Duty, p: Pending, before: Db, after: Db) {
    (duty.Rows? ==> forall i :: 0 <= i < |p.changes| ==> Lower(p.changes[i].table) in duty.tracked) &&
    (p.all || forall t :: Covered(duty, p, before, after, t))
  }

  ghost predicate Covered(duty: Duty, p: Pending, before: Db, after: Db, t: string) {
    match duty
    case Names => Content(before, t) != Content(after, t) ==> Claims(p, t) || Touches(p.changes, t)
    case Rows(tracked) =>
      if t in tracked then Replays(p.changes, t, Content(before, t), Content(after, t))
      else Content(before, t) != Content(after, t) ==> Claims(p, t)
  }

  predicate Claims(p: Pending, t: string) {
    exists b <- p.tables :: Lower(b) == t
  }

  predicate Touches(cs: seq<Change>, t: string) {
    exists i :: 0 <= i < |cs| && Lower(cs[i].table) == t
  }

  /** The text of the write does not tell what it did. */
  predicate OfUnknownEffect(w: Write) {
    w.FailedBatch? || w.claim == Unparsed
  }

  /** The text names the table, or the hook saw it written. */
  predicate Declares(w: Write, t: string) {
    (exists b <- w.seen :: Lower(b) == t) ||
    (w.Statement? && w.claim.Tables? && exists b <- w.claim.names :: Lower(b) == t)
  }

  /** What the duty asks of a write for one table: a tracked table's rows are reported, and any other
      table that changes is declared. */
  ghost predicate Accounts(duty: Duty, w: Write, before: Db, t: string) {
    match duty
    case Names => Content(before, t) != Content(w.after, t) ==> Declares(w, t) || Touches(w.rows, t)
    case Rows(tracked) =>
      if t in tracked then Replays(w.rows, t, Content(before, t), Content(w.after, t))
      else Content(before, t) != Content(w.after, t) ==> Declares(w, t)
  }

  /** A write whose effect is unknown owes nothing, except that the hook reports rows of tracked tables only. */
  ghost predicate HonestWrite(duty: Duty, w: Write, before: Db) {
    (duty.Rows? ==> forall i :: 0 <= i < |w.rows| ==> Lower(w.rows[i].table) in duty.tracked) &&
    (OfUnknownEffect(w) || forall t :: Accounts(duty, w, before, t))
  }

  ghost predicate HonestRun(duty: Duty, s: TxState, p: Script)
    decreases p
  {
    match p
    case Done => true
    case Exec(w, next) => HonestWrite(duty, w, s.sql.db) && HonestRun(duty, Wrote(s, w), next)
    case Nested(body, end, next) =>
      HonestRun(duty, Entered(s), body) &&
      HonestRun(duty, Closed(Ran(Entered(s), body), s.depth, end), next)
  }

  /** Every table that differs is mentioned by some message. */
  ghost predicate EmissionNames(db: Db, db': Db, ms: seq<Msg>) {
    forall t :: Content(db, t) != Content(db', t) ==> exists i :: 0 <= i < |ms| && Mentions(ms[i], t)
  }

  predicate Mentions(m: Msg, t: string) {
    match m
    case Invalidate(None) => true
    case Invalidate(Some(ts)) => exists b <- ts :: Lower(b) == t
    case Changes(cs) => Touches(cs, t)
    case _ => false
  }

  predicate RollbacksSucceed(p: Script) {
    match p
    case Done => true
    case Exec(_, next) => RollbacksSucceed(next)
    case Nested(body, end, next) =>
      (end.Fails? ==> end.rolledBack) && RollbacksSucceed(body) && RollbacksSucceed(next)
  }

  /** A write whose effect is not undone inside the script. */
  predicate HasSurvivor(p: Script) {
    match p
    case Done => false
    case Exec(_, _) => true
    case Nested(body, end, next) => (!RollsBack(end) && HasSurvivor(body)) || HasSurvivor(next)
  }

  predicate RollsBack(end: End) {
    end.Fails? && end.rolledBack
  }

  /** A write that survives inside a closure whose ROLLBACK TO fails. */
  predicate Exposed(p: Script) {
    match p
    case Done => false
    case Exec(_, next) => Exposed(next)
    case Nested(body, end, next) =>
      (end.Fails? && !end.rolledBack && HasSurvivor(body)) || (!RollsBack(end) && Exposed(body)) || Exposed(next)
  }

  /** Scripts that differ in what their writes do, and in nothing else. */
  predicate SameShape(p: Script, p': Script) {
    match p
    case Done => p' == Done
    case Exec(_, next) => p'.Exec? && SameShape(next, p'.next)
    case Nested(body, end, next) => p'.Nested? && p'.end == end && SameShape(body, p'.body) && SameShape(next, p'.next)
  }

  predicate NeverUnwinds(p: Script) {
    match p
    case Done => true
    case Exec(_, next) => NeverUnwinds(next)
    case Nested(body, end, next) => end != Unwinds && NeverUnwinds(body) && NeverUnwinds(next)
  }

  // ---- What a script keeps, read off its writes ----

  /** What a script does to the database: a rolled-back savepoint leaves it as it was, and otherwise the
      last write decides. */
  function Effect(p: Script, db: Db): Db {
    match p
    case Done => db
    case Exec(w, next) => Effect(next, w.after)
    case Nested(body, end, next) => Effect(next, if RollsBack(end) then db else Effect(body, db))
  }

  /** A write of unknown effect outside every failed savepoint. */
  predicate KeptUnknown(p: Script) {
    match p
    case Done => false
    case Exec(w, next) => OfUnknownEffect(w) || KeptUnknown(next)
    case Nested(body, end, next) => (!end.Fails? && KeptUnknown(body)) || KeptUnknown(next)
  }

  function Declared(w: Write): set<string> {
    if w.Statement? && w.claim.Tables? then w.seen + w.claim.names else w.seen
  }

  /** The tables declared by writes outside every failed savepoint. */
  function KeptTables(p: Script): set<string> {
    match p
    case Done => {}
    case Exec(w, next) => Declared(w) + KeptTables(next)
    case Nested(body, end, next) => (if end.Fails? then {} else KeptTables(body)) + KeptTables(next)
  }

  /** The rows reported for writes outside every failed savepoint, in order. */
  function KeptRows(p: Script): seq<Change> {
    match p
    case Done => []
    case Exec(w, next) => w.rows + KeptRows(next)
    case Nested(body, end, next) => (if end.Fails? then [] else KeptRows(body)) + KeptRows(next)
  }

  function Kept(p: Script): Pending {
    Pending(KeptUnknown(p), KeptTables(p), KeptRows(p))
  }

  /** Every savepoint that returns is released, and none unwinds. */
  predicate AllReleased(p: Script) {
    match p
    case Done => true
    case Exec(_, next) => AllReleased(next)
    case Nested(body, end, next) =>
      end != Unwinds && end.released && (end.Fails? ==> end.rolledBack) && AllReleased(body) && AllReleased(next)
  }

  // ---- Messages, spelled out ----

  /** The tables that have no row among the reported ones. */
  function Rowless(tables: set<string>, rows: seq<Change>): set<string> {
    set n <- tables | forall i :: 0 <= i < |rows| ==> rows[i].table != n
  }

  /** First the reported rows, then the tables that are not among them; nothing empty is sent. */
  predicate Announces(ms: seq<Msg>, tables: set<string>, rows: seq<Change>) {
    var rest := Rowless(tables, rows);
    ms == (if rows == [] then [] else [Changes(rows)]) + (if rest == {} then [] else [Invalidate(Some(rest))])
  }
}
