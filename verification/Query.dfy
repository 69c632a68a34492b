/** The query builder: WHERE trees, the SQL text and parameters they render to, and a reader of that
    text with SQLite's meaning for it. Printers take the text that follows them. */
module Query {
  import opened Values
  import opened Digits
  import opened Names

  datatype Op = Eq | Ne | Lt | Le | Gt | Ge | Like

  datatype Expr =
    | Cmp(col: string, op: Op, value: Value)
    | LikeEscaped(col: string, pattern: string, escape: char)
    | InList(col: string, values: seq<Value>)
    | IsNull(col: string, negated: bool)
    | And(left: Expr, right: Expr)
    | Or(left: Expr, right: Expr)

  // ---- Combinators ----

  /** `Col::eq`: a comparison with NULL becomes a test for NULL. */
  function ColEq(col: string, v: Value): Expr {
    if v == Null then IsNull(col, false) else Cmp(col, Eq, v)
  }

  function ColNe(col: string, v: Value): Expr {
    if v == Null then IsNull(col, true) else Cmp(col, Ne, v)
  }

  datatype Where = AndWhere(e: Expr) | OrWhere(e: Expr)

  function Combined(w: Option<Expr>, c: Where): Expr {
    match w
    case None => c.e
    case Some(x) => if c.AndWhere? then And(x, c.e) else Or(x, c.e)
  }

  /** Any sequence of `and_where` and `or_where` calls. */
  function WhereOf(cs: seq<Where>): Option<Expr> {
    if cs == [] then None else Some(Combined(WhereOf(cs[..|cs| - 1]), cs[|cs| - 1]))
  }

  // ---- Meaning ----

  /** How SQLite compares two values under an operator, and what LIKE with an escape says. */
  datatype Engine = Engine(compare: (Op, Value, Value) -> Tri, like: (Value, Value, Value) -> Tri)

  function Cell(row: Row, col: string): Value {
    if col in row then row[col] else Null
  }

  function InMeaning(g: Engine, cell: Value, vs: seq<Value>): Tri {
    if vs == [] then False else Or3(g.compare(Eq, cell, vs[0]), InMeaning(g, cell, vs[1..]))
  }

  /** The meaning of a tree, straight from its values. */
  function Meaning(g: Engine, e: Expr, row: Row): Tri {
    match e
    case Cmp(c, op, v) => g.compare(op, Cell(row, c), v)
    case LikeEscaped(c, p, x) => g.like(Cell(row, c), Text(p), Text([x]))
    case InList(c, vs) => InMeaning(g, Cell(row, c), vs)
    case IsNull(c, negated) => Truth((Cell(row, c) == Null) != negated)
    case And(a, b) => And3(Meaning(g, a, row), Meaning(g, b, row))
    case Or(a, b) => Or3(Meaning(g, a, row), Meaning(g, b, row))
  }

  // ---- Rendering ----

  function OpText(op: Op): string {
    match op
    case Eq => "=" case Ne => "<>" case Lt => "<" case Le => "<=" case Gt => ">" case Ge => ">=" case Like => "LIKE"
  }

  /** The parameters a tree appends, left to right. */
  function ParamsOf(e: Expr): seq<Value> {
    match e
    case Cmp(_, _, v) => [v]
    case LikeEscaped(_, p, x) => [Text(p), Text([x])]
    case InList(_, vs) => vs
    case IsNull(_, _) => []
    case And(a, b) => ParamsOf(a) + ParamsOf(b)
    case Or(a, b) => ParamsOf(a) + ParamsOf(b)
  }

  function Quoted(name: string, k: string): string {
    ['"'] + (name + (['"'] + k))
  }

  function WordText(w: string, k: string): string {
    [' '] + (w + k)
  }

  function Placeholder(n: nat, k: string): string {
    ['?'] + (Decimal(n) + k)
  }

  /** Placeholders `first` to `last`, comma separated, and the closing parenthesis. */
  function ListText(first: nat, last: nat, k: string): string
    decreases last - first
  {
    if last <= first then Placeholder(first, [')'] + k)
    else Placeholder(first, [','] + ([' '] + ListText(first + 1, last, k)))
  }

  /** The text of a tree when `n` parameters come before it. */
  function TextOf(e: Expr, n: nat, k: string): string {
    match e
    case Cmp(c, op, _) => Quoted(c, WordText(OpText(op), [' '] + Placeholder(n + 1, k)))
    case LikeEscaped(c, _, _) =>
      Quoted(c, WordText("LIKE", [' '] + Placeholder(n + 1, WordText("ESCAPE", [' '] + Placeholder(n + 2, k)))))
    case InList(c, vs) =>
      if vs == [] then "0 = 1" + k
      else Quoted(c, WordText("IN", [' '] + (['('] + ListText(n + 1, n + |vs|, k))))
    case IsNull(c, negated) =>
      Quoted(c, WordText("IS", if negated then WordText("NOT", WordText("NULL", k)) else WordText("NULL", k)))
    case And(a, b) =>
      ['('] + TextOf(a, n, WordText("AND", [' '] + TextOf(b, n + |ParamsOf(a)|, [')'] + k)))
    case Or(a, b) =>
      ['('] + TextOf(a, n, WordText("OR", [' '] + TextOf(b, n + |ParamsOf(a)|, [')'] + k)))
  }

  // ---- The rendered language ----

  /** A predicate as SQLite parses it, with numbered placeholders. */
  datatype Pred =
    | PCmp(col: string, op: Op, n: nat)
    | PLike(col: string, pattern: nat, escape: nat)
    | PIn(col: string, list: seq<nat>)
    | PNever
    | PNull(col: string, negated: bool)
    | PAnd(left: Pred, right: Pred)
    | POr(left: Pred, right: Pred)

  /** The value bound to placeholder `?n`; SQLite takes NULL for one that is not bound. */
  function Bound(params: seq<Value>, n: nat): Value {
    if 1 <= n <= |params| then params[n - 1] else Null
  }

  function BoundAll(params: seq<Value>, ns: seq<nat>): seq<Value> {
    if ns == [] then [] else [Bound(params, ns[0])] + BoundAll(params, ns[1..])
  }

  function Sql(g: Engine, p: Pred, params: seq<Value>, row: Row): Tri {
    match p
    case PCmp(c, op, n) => g.compare(op, Cell(row, c), Bound(params, n))
    case PLike(c, n, m) => g.like(Cell(row, c), Bound(params, n), Bound(params, m))
    case PIn(c, ns) => InMeaning(g, Cell(row, c), BoundAll(params, ns))
    case PNever => False
    case PNull(c, negated) => Truth((Cell(row, c) == Null) != negated)
    case PAnd(a, b) => And3(Sql(g, a, params, row), Sql(g, b, params, row))
    case POr(a, b) => Or3(Sql(g, a, params, row), Sql(g, b, params, row))
  }

  // ---- Reading ----

  predicate IsWordChar(c: char) {
    'A' <= c <= 'Z' || c == '<' || c == '=' || c == '>'
  }

  function ReadLetters(t: string): (r: (string, string))
    ensures |r.1| <= |t|
  {
    if t != "" && IsWordChar(t[0]) then
      var r := ReadLetters(t[1..]);
      ([t[0]] + r.0, r.1)
    else ("", t)
  }

  /** A space and a keyword or operator. */
  function ReadWord(t: string): (r: Option<(string, string)>)
    ensures r.Some? ==> |r.value.1| < |t|
  {
    var t1 :- Expect(t, ' ');
    Some(ReadLetters(t1))
  }

  function ReadPlaceholder(t: string): (r: Option<(nat, string)>)
    ensures r.Some? ==> |r.value.1| < |t|
  {
    var t1 :- Expect(t, '?');
    ReadDigitsShrinks(t1, 0);
    Some(ReadDigits(t1, 0))
  }

  function ReadList(t: string): (r: Option<(seq<nat>, string)>)
    ensures r.Some? ==> |r.value.1| < |t|
    decreases |t|
  {
    var n :- ReadPlaceholder(t);
    if n.1 != "" && n.1[0] == ')' then Some(([n.0], n.1[1..]))
    else
      var t1 :- Expect(n.1, ',');
      var t2 :- Expect(t1, ' ');
      var ns :- ReadList(t2);
      Some(([n.0] + ns.0, ns.1))
  }

  function OpNamed(w: string): Option<Op> {
    if w == "=" then Some(Eq) else if w == "<>" then Some(Ne) else if w == "<" then Some(Lt)
    else if w == "<=" then Some(Le) else if w == ">" then Some(Gt) else if w == ">=" then Some(Ge)
    else if w == "LIKE" then Some(Like) else None
  }

  function ReadNull(col: string, t: string): (r: Option<(Pred, string)>)
    ensures r.Some? ==> |r.value.1| < |t|
  {
    var w :- ReadWord(t);
    if w.0 == "NULL" then Some((PNull(col, false), w.1))
    else if w.0 == "NOT" then
      var v :- ReadWord(w.1);
      if v.0 == "NULL" then Some((PNull(col, true), v.1)) else None
    else None
  }

  function ReadIn(col: string, t: string): (r: Option<(Pred, string)>)
    ensures r.Some? ==> |r.value.1| < |t|
  {
    var t1 :- Expect(t, ' ');
    var t2 :- Expect(t1, '(');
    var ns :- ReadList(t2);
    Some((PIn(col, ns.0), ns.1))
  }

  function ReadCmp(col: string, op: Op, t: string): (r: Option<(Pred, string)>)
    ensures r.Some? ==> |r.value.1| < |t|
  {
    var t1 :- Expect(t, ' ');
    var n :- ReadPlaceholder(t1);
    var w := ReadWord(n.1);
    if op == Like && w.Some? && w.value.0 == "ESCAPE" then
      var t2 :- Expect(w.value.1, ' ');
      var m :- ReadPlaceholder(t2);
      Some((PLike(col, n.0, m.0), m.1))
    else Some((PCmp(col, op, n.0), n.1))
  }

  function ReadLeaf(t: string): (r: Option<(Pred, string)>)
    ensures r.Some? ==> |r.value.1| < |t|
  {
    var t1 :- Expect(t, '"');
    var c :- ReadName(t1);
    var w :- ReadWord(c.1);
    if w.0 == "IS" then ReadNull(c.0, w.1)
    else if w.0 == "IN" then ReadIn(c.0, w.1)
    else
      var op :- OpNamed(w.0);
      ReadCmp(c.0, op, w.1)
  }

  function ReadPred(t: string): (r: Option<(Pred, string)>)
    ensures r.Some? ==> |r.value.1| < |t|
    decreases |t|
  {
    if t != "" && t[0] == '(' then
      var a :- ReadPred(t[1..]);
      var w :- ReadWord(a.1);
      var t1 :- Expect(w.1, ' ');
      var b :- ReadPred(t1);
      var t2 :- Expect(b.1, ')');
      if w.0 == "AND" then Some((PAnd(a.0, b.0), t2))
      else if w.0 == "OR" then Some((POr(a.0, b.0), t2))
      else None
    else if t != "" && t[0] == '0' then (if |t| >= 5 && t[..5] == "0 = 1" then Some((PNever, t[5..])) else None)
    else ReadLeaf(t)
  }
}
