/** When rendered text reads back: counting quotes shows that a column name with a quote in it, which
    is printed without doubling the quote, is never read back. */
module QueryQuotes {
  import opened Values
  import opened Digits
  import opened Names
  import opened Query
  import opened QueryProof

  // ---- Each reader takes as many quotes as the names it read account for ----

  lemma {:induction false} LettersTakeNone(t: string)
    ensures Quotes(ReadLetters(t).1) == Quotes(t)
  {
    if t != "" && IsWordChar(t[0]) { LettersTakeNone(t[1..]); }
  }

  lemma {:induction false} DigitsTakeNone(t: string, acc: nat)
    ensures Quotes(ReadDigits(t, acc).1) == Quotes(t)
  {
    if t != "" && IsDigit(t[0]) { DigitsTakeNone(t[1..], acc * 10 + (t[0] as int - '0' as int)); }
  }

  lemma WordTakesNone(t: string)
    requires ReadWord(t).Some?
    ensures Quotes(ReadWord(t).value.1) == Quotes(t)
  {
    LettersTakeNone(t[1..]);
  }

  lemma PlaceholderTakesNone(t: string)
    requires ReadPlaceholder(t).Some?
    ensures Quotes(ReadPlaceholder(t).value.1) == Quotes(t)
  {
    DigitsTakeNone(t[1..], 0);
  }

  lemma {:induction false} ListTakesNone(t: string)
    requires ReadList(t).Some?
    ensures Quotes(ReadList(t).value.1) == Quotes(t)
    decreases |t|
  {
    PlaceholderTakesNone(t);
    var n := ReadPlaceholder(t).value;
    if !(n.1 != "" && n.1[0] == ')') {
      var t2 := n.1[1..][1..];
      assert Expect(Expect(n.1, ',').value, ' ') == Some(t2);
      ListTakesNone(t2);
    }
  }

  lemma NullTakesNone(c: string, t: string)
    requires ReadNull(c, t).Some?
    ensures Quotes(ReadNull(c, t).value.1) == Quotes(t)
  {
    WordTakesNone(t);
    var w := ReadWord(t).value;
    if w.0 != "NULL" { WordTakesNone(w.1); }
  }

  lemma InTakesNone(c: string, t: string)
    requires ReadIn(c, t).Some?
    ensures Quotes(ReadIn(c, t).value.1) == Quotes(t)
  {
    ListTakesNone(t[1..][1..]);
  }

  lemma CmpTakesNone(c: string, op: Op, t: string)
    requires ReadCmp(c, op, t).Some?
    ensures Quotes(ReadCmp(c, op, t).value.1) == Quotes(t)
  {
    PlaceholderTakesNone(t[1..]);
    var n := ReadPlaceholder(t[1..]).value;
    var w := ReadWord(n.1);
    if op == Like && w.Some? && w.value.0 == "ESCAPE" {
      WordTakesNone(n.1);
      PlaceholderTakesNone(w.value.1[1..]);
    }
  }

  /** The quotes that a predicate's text holds, if every quote in a name is doubled. */
  function QuotesOf(p: Pred): nat {
    match p
    case PCmp(c, _, _) => 2 + 2 * Quotes(c)
    case PLike(c, _, _) => 2 + 2 * Quotes(c)
    case PIn(c, _) => 2 + 2 * Quotes(c)
    case PNever => 0
    case PNull(c, _) => 2 + 2 * Quotes(c)
    case PAnd(a, b) => QuotesOf(a) + QuotesOf(b)
    case POr(a, b) => QuotesOf(a) + QuotesOf(b)
  }

  lemma LeafTakes(t: string)
    requires ReadLeaf(t).Some?
    ensures Quotes(t) == QuotesOf(ReadLeaf(t).value.0) + Quotes(ReadLeaf(t).value.1)
  {
    NameTakes(t[1..]);
    var c := ReadName(t[1..]).value;
    WordTakesNone(c.1);
    var w := ReadWord(c.1).value;
    if w.0 == "IS" {
      NullTakesNone(c.0, w.1);
    } else if w.0 == "IN" {
      InTakesNone(c.0, w.1);
    } else {
      CmpTakesNone(c.0, OpNamed(w.0).value, w.1);
    }
  }

  lemma NeverTakesNone(t: string)
    requires |t| >= 5 && t[..5] == "0 = 1"
    ensures Quotes(t) == Quotes(t[5..])
  {
    QuotesSplit(t[..5], t[5..]);
    assert t == t[..5] + t[5..];
    PlainHasNone("0 = 1");
  }

  lemma {:induction false} PredTakes(t: string)
    requires ReadPred(t).Some?
    ensures Quotes(t) == QuotesOf(ReadPred(t).value.0) + Quotes(ReadPred(t).value.1)
    decreases |t|
  {
    if t != "" && t[0] == '(' {
      PredTakes(t[1..]);
      var a := ReadPred(t[1..]).value;
      WordTakesNone(a.1);
      var t1 := ReadWord(a.1).value.1[1..];
      PredTakes(t1);
    } else if t != "" && t[0] == '0' {
      NeverTakesNone(t);
    } else {
      LeafTakes(t);
    }
  }

  // ---- What is printed ----

  /** The quotes that are printed for a tree. */
  function Printed(e: Expr): nat {
    match e
    case And(a, b) => Printed(a) + Printed(b)
    case Or(a, b) => Printed(a) + Printed(b)
    case InList(c, vs) => if vs == [] then 0 else 2 + Quotes(c)
    case _ => 2 + Quotes(e.col)
  }

  lemma {:induction false} DecimalHasNone(n: nat, k: string)
    ensures Quotes(Decimal(n) + k) == Quotes(k)
  {
    if n < 10 {
      OneMore(Digit(n), k);
    } else {
      assert Decimal(n) + k == Decimal(n / 10) + ([Digit(n % 10)] + k);
      DecimalHasNone(n / 10, [Digit(n % 10)] + k);
      OneMore(Digit(n % 10), k);
    }
  }

  lemma PlaceholderPrints(n: nat, k: string)
    ensures Quotes(Placeholder(n, k)) == Quotes(k)
  {
    OneMore('?', Decimal(n) + k);
    DecimalHasNone(n, k);
  }

  lemma WordPrints(w: string, k: string)
    requires PlainName(w)
    ensures Quotes(WordText(w, k)) == Quotes(k)
  {
    OneMore(' ', w + k);
    QuotesSplit(w, k);
    PlainHasNone(w);
  }

  lemma NamePrints(name: string, k: string)
    ensures Quotes(Quoted(name, k)) == 2 + Quotes(name) + Quotes(k)
  {
    OneMore('"', name + (['"'] + k));
    QuotesSplit(name, ['"'] + k);
    OneMore('"', k);
  }

  lemma {:induction false} ListPrints(first: nat, last: nat, k: string)
    ensures Quotes(ListText(first, last, k)) == Quotes(k)
    decreases last - first
  {
    if last <= first {
      PlaceholderPrints(first, [')'] + k);
      OneMore(')', k);
    } else {
      var rest := ListText(first + 1, last, k);
      ListPrints(first + 1, last, k);
      PlaceholderPrints(first, [','] + ([' '] + rest));
      OneMore(',', [' '] + rest);
      OneMore(' ', rest);
    }
  }

  lemma {:induction false} TreePrints(e: Expr, n: nat, k: string)
    ensures Quotes(TextOf(e, n, k)) == Printed(e) + Quotes(k)
    decreases e
  {
    if e.And? || e.Or? {
      var w := if e.And? then "AND" else "OR";
      var m := n + |ParamsOf(e.left)|;
      var kb := TextOf(e.right, m, [')'] + k);
      NodeText(e, w, n, m, k);
      TreePrints(e.left, n, WordText(w, [' '] + kb));
      TreePrints(e.right, m, [')'] + k);
      OneMore('(', TextOf(e.left, n, WordText(w, [' '] + kb)));
      WordPrints(w, [' '] + kb);
      OneMore(' ', kb);
      OneMore(')', k);
    } else {
      LeafPrints(e, n, k);
    }
  }

  lemma LeafPrints(e: Expr, n: nat, k: string)
    requires !e.And? && !e.Or?
    ensures Quotes(TextOf(e, n, k)) == Printed(e) + Quotes(k)
  {
    if e.InList? {
      ListLeafPrints(e, n, k);
    } else {
      NamedLeafPrints(e, n, k);
    }
  }

  lemma NamedLeafPrints(e: Expr, n: nat, k: string)
    requires e.Cmp? || e.LikeEscaped? || e.IsNull?
    ensures Quotes(TextOf(e, n, k)) == 2 + Quotes(e.col) + Quotes(k)
  {
    match e
    case Cmp(c, op, _) => CmpPrints(c, op, n + 1, k);
    case LikeEscaped(c, _, _) => LikePrints(c, n + 1, n + 2, k);
    case IsNull(c, negated) => NullPrints(c, negated, k);
  }

  lemma ListLeafPrints(e: Expr, n: nat, k: string)
    requires e.InList?
    ensures Quotes(TextOf(e, n, k)) == Printed(e) + Quotes(k)
  {
    if e.values == [] {
      QuotesSplit("0 = 1", k);
      PlainHasNone("0 = 1");
    } else {
      InPrints(e.col, n + 1, n + |e.values|, k);
    }
  }

  lemma CmpPrints(c: string, op: Op, n: nat, k: string)
    ensures Quotes(Quoted(c, WordText(OpText(op), [' '] + Placeholder(n, k)))) == 2 + Quotes(c) + Quotes(k)
  {
    NamePrints(c, WordText(OpText(op), [' '] + Placeholder(n, k)));
    WordPrints(OpText(op), [' '] + Placeholder(n, k));
    OneMore(' ', Placeholder(n, k));
    PlaceholderPrints(n, k);
  }

  lemma LikePrints(c: string, n: nat, m: nat, k: string)
    ensures Quotes(Quoted(c, WordText("LIKE", [' '] + Placeholder(n, WordText("ESCAPE", [' '] + Placeholder(m, k))))))
         == 2 + Quotes(c) + Quotes(k)
  {
    var escape := WordText("ESCAPE", [' '] + Placeholder(m, k));
    NamePrints(c, WordText("LIKE", [' '] + Placeholder(n, escape)));
    WordPrints("LIKE", [' '] + Placeholder(n, escape));
    OneMore(' ', Placeholder(n, escape));
    PlaceholderPrints(n, escape);
    WordPrints("ESCAPE", [' '] + Placeholder(m, k));
    OneMore(' ', Placeholder(m, k));
    PlaceholderPrints(m, k);
  }

  lemma InPrints(c: string, first: nat, last: nat, k: string)
    ensures Quotes(Quoted(c, WordText("IN", [' '] + (['('] + ListText(first, last, k))))) == 2 + Quotes(c) + Quotes(k)
  {
    var list := ListText(first, last, k);
    NamePrints(c, WordText("IN", [' '] + (['('] + list)));
    WordPrints("IN", [' '] + (['('] + list));
    OneMore(' ', ['('] + list);
    OneMore('(', list);
    ListPrints(first, last, k);
  }

  lemma NullPrints(c: string, negated: bool, k: string)
    ensures Quotes(TextOf(IsNull(c, negated), 0, k)) == 2 + Quotes(c) + Quotes(k)
  {
    var rest := if negated then WordText("NOT", WordText("NULL", k)) else WordText("NULL", k);
    NamePrints(c, WordText("IS", rest));
    WordPrints("IS", rest);
    WordPrints("NOT", WordText("NULL", k));
    WordPrints("NULL", k);
  }

  // ---- The theorem ----

  lemma {:induction false} DoublingCosts(e: Expr, n: nat)
    ensures QuotesOf(PredOf(e, n)) >= Printed(e)
    ensures QuotesOf(PredOf(e, n)) == Printed(e) ==> PlainNames(e)
    decreases e
  {
    if e.And? || e.Or? {
      DoublingCosts(e.left, n);
      DoublingCosts(e.right, n + |ParamsOf(e.left)|);
    } else {
      PlainHasNone(e.col);
    }
  }

  /** The text of a tree is read back as its predicate, with nothing else taken, if and only if no
      column name printed holds a quote. */
  lemma ReadsBackExactly(e: Expr, n: nat, k: string)
    requires Follows(k)
    ensures ReadPred(TextOf(e, n, k)) == Some((PredOf(e, n), k)) <==> PlainNames(e)
  {
    if PlainNames(e) {
      TreeReads(e, n, k);
    } else if ReadPred(TextOf(e, n, k)) == Some((PredOf(e, n), k)) {
      PredTakes(TextOf(e, n, k));
      TreePrints(e, n, k);
      DoublingCosts(e, n);
    }
  }
}
