/** Rendering keeps the meaning: the text of a WHERE tree is read back as a predicate that has the
    tree's three-valued result on every row, whatever parameters and text surround it. */
module QueryProof {
  import opened Values
  import opened Digits
  import opened Names
  import opened Query

  // ---- Reading tokens back ----

  predicate Letters(w: string) {
    forall i :: 0 <= i < |w| ==> IsWordChar(w[i])
  }

  /** Text that ends a word or a number. */
  predicate Ends(k: string) {
    k == "" || (!IsWordChar(k[0]) && !IsDigit(k[0]))
  }

  lemma {:induction false} LettersRead(w: string, k: string)
    requires Letters(w) && Ends(k)
    ensures ReadLetters(w + k) == (w, k)
  {
    if w == "" {
      assert w + k == k;
    } else {
      LettersRead(w[1..], k);
      assert (w + k)[0] == w[0] && (w + k)[1..] == w[1..] + k;
      assert [w[0]] + w[1..] == w;
    }
  }

  lemma WordReads(w: string, k: string)
    requires Letters(w) && Ends(k)
    ensures ReadWord(WordText(w, k)) == Some((w, k))
  {
    Expected(' ', w + k);
    LettersRead(w, k);
  }

  lemma PlaceholderReads(n: nat, k: string)
    requires Ends(k)
    ensures ReadPlaceholder(Placeholder(n, k)) == Some((n, k))
  {
    Expected('?', Decimal(n) + k);
    DecimalReads(n, k);
  }

  function Range(first: nat, count: nat): seq<nat> {
    seq(count, i requires 0 <= i < count => first + i)
  }

  lemma {:induction false} ListReads(first: nat, last: nat, k: string)
    requires first <= last
    ensures ReadList(ListText(first, last, k)) == Some((Range(first, last - first + 1), k))
    decreases last - first
  {
    if first == last {
      PlaceholderReads(first, [')'] + k);
      assert ([')'] + k)[1..] == k;
      assert Range(first, 1) == [first];
    } else {
      var next := first + 1;
      var rest := ListText(next, last, k);
      ListReads(next, last, k);
      MoreReads(first, rest, Range(next, last - next + 1), k);
      RangeCons(first, last - first);
    }
  }

  lemma RangeCons(first: nat, count: nat)
    ensures [first] + Range(first + 1, count) == Range(first, count + 1)
  {
  }

  lemma MoreReads(n: nat, rest: string, ns: seq<nat>, k: string)
    requires ReadList(rest) == Some((ns, k))
    ensures ReadList(Placeholder(n, [','] + ([' '] + rest))) == Some(([n] + ns, k))
  {
    PlaceholderReads(n, [','] + ([' '] + rest));
    Expected(',', [' '] + rest);
    Expected(' ', rest);
  }

  // ---- Reading predicates back ----

  /** What may follow a predicate: no word or number goes on, and no ESCAPE comes next. */
  predicate Follows(k: string) {
    Ends(k) && (ReadWord(k).Some? ==> ReadWord(k).value.0 != "ESCAPE")
  }

  /** No printed column name holds a quote; an empty list prints no name. */
  predicate PlainNames(e: Expr) {
    match e
    case And(a, b) => PlainNames(a) && PlainNames(b)
    case Or(a, b) => PlainNames(a) && PlainNames(b)
    case InList(c, vs) => vs == [] || PlainName(c)
    case _ => PlainName(e.col)
  }

  /** The predicate a tree stands for when `n` parameters come before it. */
  function PredOf(e: Expr, n: nat): Pred {
    match e
    case Cmp(c, op, _) => PCmp(c, op, n + 1)
    case LikeEscaped(c, _, _) => PLike(c, n + 1, n + 2)
    case InList(c, vs) => if vs == [] then PNever else PIn(c, Range(n + 1, |vs|))
    case IsNull(c, negated) => PNull(c, negated)
    case And(a, b) => PAnd(PredOf(a, n), PredOf(b, n + |ParamsOf(a)|))
    case Or(a, b) => POr(PredOf(a, n), PredOf(b, n + |ParamsOf(a)|))
  }

  lemma OpReads(op: Op)
    ensures Letters(OpText(op)) && OpNamed(OpText(op)) == Some(op) && OpText(op) != "IS" && OpText(op) != "IN"
  {
  }

  lemma CmpReads(c: string, op: Op, n: nat, k: string)
    requires Follows(k)
    ensures ReadCmp(c, op, [' '] + Placeholder(n, k)) == Some((PCmp(c, op, n), k))
  {
    Expected(' ', Placeholder(n, k));
    PlaceholderReads(n, k);
  }

  lemma LikeReads(c: string, n: nat, m: nat, k: string)
    requires Follows(k)
    ensures ReadCmp(c, Like, [' '] + Placeholder(n, WordText("ESCAPE", [' '] + Placeholder(m, k))))
            == Some((PLike(c, n, m), k))
  {
    var k1 := WordText("ESCAPE", [' '] + Placeholder(m, k));
    Expected(' ', Placeholder(n, k1));
    PlaceholderReads(n, k1);
    WordReads("ESCAPE", [' '] + Placeholder(m, k));
    Expected(' ', Placeholder(m, k));
    PlaceholderReads(m, k);
  }

  lemma InReads(c: string, first: nat, last: nat, k: string)
    requires first <= last
    ensures ReadIn(c, [' '] + (['('] + ListText(first, last, k))) == Some((PIn(c, Range(first, last - first + 1)), k))
  {
    Expected(' ', ['('] + ListText(first, last, k));
    Expected('(', ListText(first, last, k));
    ListReads(first, last, k);
  }

  lemma NullReads(c: string, negated: bool, k: string)
    requires Ends(k)
    ensures ReadNull(c, if negated then WordText("NOT", WordText("NULL", k)) else WordText("NULL", k))
            == Some((PNull(c, negated), k))
  {
    WordReads("NULL", k);
    if negated { WordReads("NOT", WordText("NULL", k)); }
  }

  /** A column and the word after it. */
  lemma HeadReads(c: string, w: string, k: string)
    requires PlainName(c) && Letters(w) && Ends(k)
    ensures var t := Quoted(c, WordText(w, k));
            t != "" && t[0] == '"' && Expect(t, '"') == Some(c + (['"'] + WordText(w, k))) &&
            ReadName(c + (['"'] + WordText(w, k))) == Some((c, WordText(w, k))) &&
            ReadWord(WordText(w, k)) == Some((w, k))
  {
    Expected('"', c + (['"'] + WordText(w, k)));
    NameReads(c, WordText(w, k));
    WordReads(w, k);
  }

  predicate Leaf(t: string, r: (Pred, string)) {
    t != "" && t[0] == '"' && ReadLeaf(t) == Some(r)
  }

  lemma CmpLeaf(c: string, op: Op, n: nat, k: string)
    requires PlainName(c) && Follows(k)
    ensures Leaf(Quoted(c, WordText(OpText(op), [' '] + Placeholder(n, k))), (PCmp(c, op, n), k))
  {
    OpReads(op);
    HeadReads(c, OpText(op), [' '] + Placeholder(n, k));
    CmpReads(c, op, n, k);
  }

  lemma LikeLeaf(c: string, n: nat, m: nat, k: string)
    requires PlainName(c) && Follows(k)
    ensures Leaf(Quoted(c, WordText("LIKE", [' '] + Placeholder(n, WordText("ESCAPE", [' '] + Placeholder(m, k))))),
                 (PLike(c, n, m), k))
  {
    OpReads(Like);
    HeadReads(c, "LIKE", [' '] + Placeholder(n, WordText("ESCAPE", [' '] + Placeholder(m, k))));
    LikeReads(c, n, m, k);
  }

  lemma InLeaf(c: string, first: nat, last: nat, k: string)
    requires PlainName(c) && first <= last
    ensures Leaf(Quoted(c, WordText("IN", [' '] + (['('] + ListText(first, last, k)))),
                        (PIn(c, Range(first, last - first + 1)), k))
  {
    HeadReads(c, "IN", [' '] + (['('] + ListText(first, last, k)));
    InReads(c, first, last, k);
  }

  lemma NullLeaf(c: string, negated: bool, k: string)
    requires PlainName(c) && Ends(k)
    ensures Leaf(Quoted(c,
                        WordText("IS", if negated then WordText("NOT", WordText("NULL", k)) else WordText("NULL", k))),
                 (PNull(c, negated), k))
  {
    HeadReads(c, "IS", if negated then WordText("NOT", WordText("NULL", k)) else WordText("NULL", k));
    NullReads(c, negated, k);
  }

  lemma CmpIsLeaf(e: Expr, n: nat, k: string)
    requires e.Cmp? && PlainName(e.col) && Follows(k)
    ensures Leaf(TextOf(e, n, k), (PredOf(e, n), k))
  {
    CmpLeaf(e.col, e.op, n + 1, k);
  }

  lemma LikeIsLeaf(e: Expr, n: nat, k: string)
    requires e.LikeEscaped? && PlainName(e.col) && Follows(k)
    ensures Leaf(TextOf(e, n, k), (PredOf(e, n), k))
  {
    LikeLeaf(e.col, n + 1, n + 2, k);
  }

  lemma InIsLeaf(e: Expr, n: nat, k: string)
    requires e.InList? && e.values != [] && PlainName(e.col)
    ensures Leaf(TextOf(e, n, k), (PredOf(e, n), k))
  {
    InLeaf(e.col, n + 1, n + |e.values|, k);
  }

  lemma NullIsLeaf(e: Expr, n: nat, k: string)
    requires e.IsNull? && PlainName(e.col) && Ends(k)
    ensures Leaf(TextOf(e, n, k), (PredOf(e, n), k))
  {
    NullLeaf(e.col, e.negated, k);
  }

  lemma LeafReads(e: Expr, n: nat, k: string)
    requires !e.And? && !e.Or? && PlainName(e.col) && Follows(k) && (e.InList? ==> e.values != [])
    ensures Leaf(TextOf(e, n, k), (PredOf(e, n), k))
  {
    if e.Cmp? {
      CmpIsLeaf(e, n, k);
    } else if e.LikeEscaped? {
      LikeIsLeaf(e, n, k);
    } else if e.InList? {
      InIsLeaf(e, n, k);
    } else {
      NullIsLeaf(e, n, k);
    }
  }

  lemma NeverReads(k: string)
    ensures ReadPred("0 = 1" + k) == Some((PNever, k))
  {
    var t := "0 = 1" + k;
    assert t[0] == '0' && t[..5] == "0 = 1" && t[5..] == k;
  }

  lemma JoinFollows(w: string, k: string)
    requires w == "AND" || w == "OR"
    ensures Follows(WordText(w, [' '] + k))
  {
    WordReads(w, [' '] + k);
  }

  /** The text of a tree is read back as its predicate, and nothing that follows it is touched. */
  lemma {:induction false} TreeReads(e: Expr, n: nat, k: string)
    requires PlainNames(e) && Follows(k)
    ensures ReadPred(TextOf(e, n, k)) == Some((PredOf(e, n), k))
    decreases e
  {
    if e.And? || e.Or? {
      var w := if e.And? then "AND" else "OR";
      var m := n + |ParamsOf(e.left)|;
      var kb := SideText(w, e.right, m, k);
      TreeReads(e.left, n, WordText(w, [' '] + kb));
      TreeReads(e.right, m, [')'] + k);
      JoinStep(TextOf(e.left, n, WordText(w, [' '] + kb)), PredOf(e.left, n), w, kb, PredOf(e.right, m), k);
      NodeText(e, w, n, m, k);
    } else {
      OneReads(e, n, k);
    }
  }

  lemma NodeText(e: Expr, w: string, n: nat, m: nat, k: string)
    requires (e.And? && w == "AND") || (e.Or? && w == "OR")
    requires m == n + |ParamsOf(e.left)|
    ensures TextOf(e, n, k) == ['('] + TextOf(e.left, n, WordText(w, [' '] + TextOf(e.right, m, [')'] + k)))
    ensures PredOf(e, n) == if w == "AND" then PAnd(PredOf(e.left, n), PredOf(e.right, m))
              else POr(PredOf(e.left, n), PredOf(e.right, m))
  {
  }

  /** The right side's text, which leaves room for the joining word before it. */
  lemma SideText(w: string, b: Expr, m: nat, k: string) returns (kb: string)
    requires w == "AND" || w == "OR"
    ensures kb == TextOf(b, m, [')'] + k) && Follows(WordText(w, [' '] + kb)) && Follows([')'] + k)
  {
    kb := TextOf(b, m, [')'] + k);
    JoinFollows(w, kb);
  }

  lemma OneReads(e: Expr, n: nat, k: string)
    requires !e.And? && !e.Or? && PlainNames(e) && Follows(k)
    ensures ReadPred(TextOf(e, n, k)) == Some((PredOf(e, n), k))
  {
    if e.InList? && e.values == [] {
      NeverReads(k);
    } else {
      LeafReads(e, n, k);
    }
  }

  lemma JoinStep(ta: string, pa: Pred, w: string, kb: string, pb: Pred, k: string)
    requires (w == "AND" || w == "OR") && ReadPred(ta) == Some((pa, WordText(w, [' '] + kb)))
    requires ReadPred(kb) == Some((pb, [')'] + k))
    ensures ReadPred(['('] + ta) == Some((if w == "AND" then PAnd(pa, pb) else POr(pa, pb), k))
  {
    WordReads(w, [' '] + kb);
    Expected(' ', kb);
    Expected(')', k);
    assert (['('] + ta)[1..] == ta;
  }

  // ---- The meaning ----

  lemma {:induction false} BoundRange(params: seq<Value>, n: nat, vs: seq<Value>)
    requires n + |vs| <= |params| && params[n..n + |vs|] == vs
    ensures BoundAll(params, Range(n + 1, |vs|)) == vs
    decreases |vs|
  {
    if vs != [] {
      assert params[n + 1..n + 1 + |vs[1..]|] == vs[1..];
      BoundRange(params, n + 1, vs[1..]);
      assert Range(n + 1, |vs|)[1..] == Range(n + 2, |vs| - 1);
      assert params[n] == vs[0];
    }
  }

  /** The parameters `ps` stand in `params` from position `n` on. */
  predicate StandAt(params: seq<Value>, n: nat, ps: seq<Value>) {
    n + |ps| <= |params| && params[n..n + |ps|] == ps
  }

  lemma SidesStand(params: seq<Value>, n: nat, a: seq<Value>, b: seq<Value>)
    requires StandAt(params, n, a + b)
    ensures StandAt(params, n, a) && StandAt(params, n + |a|, b)
  {
    var all := params[n..n + |a + b|];
    assert params[n..n + |a|] == all[..|a|];
    assert params[n + |a|..n + |a| + |b|] == all[|a|..];
  }

  lemma LeafMeans(g: Engine, e: Expr, n: nat, params: seq<Value>, row: Row)
    requires !e.And? && !e.Or? && StandAt(params, n, ParamsOf(e))
    ensures Sql(g, PredOf(e, n), params, row) == Meaning(g, e, row)
  {
    match e {
      case Cmp(_, _, _) => assert params[n] == ParamsOf(e)[0];
      case LikeEscaped(_, _, _) => assert params[n] == ParamsOf(e)[0] && params[n + 1] == ParamsOf(e)[1];
      case InList(_, vs) => if vs != [] { BoundRange(params, n, vs); }
      case IsNull(_, _) =>
    }
  }

  lemma {:induction false} SqlMeans(g: Engine, e: Expr, n: nat, params: seq<Value>, row: Row)
    requires StandAt(params, n, ParamsOf(e))
    ensures Sql(g, PredOf(e, n), params, row) == Meaning(g, e, row)
    decreases e
  {
    if e.And? || e.Or? {
      var m := n + |ParamsOf(e.left)|;
      SidesStand(params, n, ParamsOf(e.left), ParamsOf(e.right));
      SqlMeans(g, e.left, n, params, row);
      SqlMeans(g, e.right, m, params, row);
      JoinMeans(g, e, n, m, params, row);
    } else {
      LeafMeans(g, e, n, params, row);
    }
  }

  lemma JoinMeans(g: Engine, e: Expr, n: nat, m: nat, params: seq<Value>, row: Row)
    requires (e.And? || e.Or?) && m == n + |ParamsOf(e.left)|
    requires Sql(g, PredOf(e.left, n), params, row) == Meaning(g, e.left, row)
    requires Sql(g, PredOf(e.right, m), params, row) == Meaning(g, e.right, row)
    ensures Sql(g, PredOf(e, n), params, row) == Meaning(g, e, row)
  {
  }

  /** Whatever parameters come before and after, and whatever text follows, what SQLite reads in the
      rendered text has the tree's three-valued result on every row. */
  lemma RenderKeepsMeaning(g: Engine, e: Expr, before: seq<Value>, after: seq<Value>, k: string, row: Row)
    requires PlainNames(e) && Follows(k)
    ensures var r := ReadPred(TextOf(e, |before|, k));
            r.Some? && r.value.1 == k &&
            Sql(g, r.value.0, before + ParamsOf(e) + after, row) == Meaning(g, e, row)
  {
    TreeReads(e, |before|, k);
    var params := before + ParamsOf(e) + after;
    assert StandAt(params, |before|, ParamsOf(e));
    SqlMeans(g, e, |before|, params, row);
  }

  // ---- Placeholders ----

  function Numbers(p: Pred): seq<nat> {
    match p
    case PCmp(_, _, n) => [n]
    case PLike(_, n, m) => [n, m]
    case PIn(_, ns) => ns
    case PNever => []
    case PNull(_, _) => []
    case PAnd(a, b) => Numbers(a) + Numbers(b)
    case POr(a, b) => Numbers(a) + Numbers(b)
  }

  lemma RangeSplit(first: nat, a: nat, b: nat)
    ensures Range(first, a) + Range(first + a, b) == Range(first, a + b)
  {
  }

  /** The placeholders are the next numbers in order, each used once. */
  lemma {:induction false} PlaceholdersAreConsecutive(e: Expr, n: nat)
    ensures Numbers(PredOf(e, n)) == Range(n + 1, |ParamsOf(e)|)
  {
    match e {
      case And(a, b) =>
        PlaceholdersAreConsecutive(a, n);
        PlaceholdersAreConsecutive(b, n + |ParamsOf(a)|);
        RangeSplit(n + 1, |ParamsOf(a)|, |ParamsOf(b)|);
      case Or(a, b) =>
        PlaceholdersAreConsecutive(a, n);
        PlaceholdersAreConsecutive(b, n + |ParamsOf(a)|);
        RangeSplit(n + 1, |ParamsOf(a)|, |ParamsOf(b)|);
      case Cmp(_, _, _) => assert Range(n + 1, 1) == [n + 1];
      case LikeEscaped(_, _, _) => assert Range(n + 1, 2) == [n + 1, n + 2];
      case InList(_, vs) => assert vs == [] ==> Range(n + 1, 0) == [];
      case IsNull(_, _) => assert Range(n + 1, 0) == [];
    }
  }

  // ---- Combinators ----

  /** Comparing with a value through `eq` is True exactly for rows that hold that value, NULL
      included; `ne` is True exactly for rows that hold another one, but never for NULL cells
      against a value. */
  lemma EqualityHandlesNull(g: Engine, c: string, v: Value, row: Row)
    requires forall x, y :: g.compare(Eq, x, y) == if x == Null || y == Null then Unknown else Truth(SqlEqual(x, y))
    requires forall x, y :: g.compare(Ne, x, y) == if x == Null || y == Null then Unknown else Truth(!SqlEqual(x, y))
    ensures Meaning(g, ColEq(c, v), row) == True <==> SqlEqual(Cell(row, c), v)
    ensures Meaning(g, ColNe(c, v), row) == True <==> !SqlEqual(Cell(row, c), v) && (v != Null ==> Cell(row, c) != Null)
  {
  }

  /** The result of a list of conditions, added from left to right. */
  function Folded(g: Engine, cs: seq<Where>, row: Row): Option<Tri> {
    if cs == [] then None else
    var c, w := cs[|cs| - 1], Folded(g, cs[..|cs| - 1], row);
    var x := Meaning(g, c.e, row);
    Some(if w.None? then x else if c.AndWhere? then And3(w.value, x) else Or3(w.value, x))
  }

  lemma {:induction false} WhereFolds(g: Engine, cs: seq<Where>, row: Row)
    ensures WhereOf(cs).Some? <==> cs != []
    ensures cs != [] ==> Folded(g, cs, row) == Some(Meaning(g, WhereOf(cs).value, row))
  {
    if cs != [] { WhereFolds(g, cs[..|cs| - 1], row); }
  }
}
