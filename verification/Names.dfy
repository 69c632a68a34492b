/** Reading SQL text from the left: a fixed beginning, and a name in double quotes. */
module Names {
  import opened Values

  /** What follows `w`, if the text begins with it. */
  function Strip(t: string, w: string): (r: Option<string>)
    ensures r.Some? ==> |r.value| + |w| == |t|
  {
    if |w| <= |t| && t[..|w|] == w then Some(t[|w|..]) else None
  }

  lemma Stripped(w: string, k: string)
    ensures Strip(w + k, w) == Some(k)
  {
  }

  lemma NotStripped(t: string, w: string, i: nat)
    requires i < |w| && i < |t| && t[i] != w[i]
    ensures Strip(t, w).None?
  {
  }

  /** A quoted name after its opening quote, and what follows it; two quotes stand for one. */
  function ReadName(t: string): (r: Option<(string, string)>)
    ensures r.Some? ==> |r.value.1| < |t|
    decreases |t|
  {
    if t == "" then None
    else if t[0] != '"' then
      var r :- ReadName(t[1..]);
      Some(([t[0]] + r.0, r.1))
    else if |t| > 1 && t[1] == '"' then
      var r :- ReadName(t[2..]);
      Some((['"'] + r.0, r.1))
    else Some(("", t[1..]))
  }

  predicate PlainName(name: string) {
    '"' !in name
  }

  lemma {:induction false} NameReads(name: string, k: string)
    requires PlainName(name) && (k == "" || k[0] != '"')
    ensures ReadName(name + (['"'] + k)) == Some((name, k))
  {
    var t := name + (['"'] + k);
    if name == "" {
      assert t[0] == '"' && t[1..] == k;
    } else {
      NameReads(name[1..], k);
      assert t[0] == name[0] && t[1..] == name[1..] + (['"'] + k);
      assert [name[0]] + name[1..] == name;
    }
  }

  // ---- Counting quotes ----

  function Quotes(t: string): nat {
    if t == "" then 0 else (if t[0] == '"' then 1 else 0) + Quotes(t[1..])
  }

  lemma {:induction false} QuotesSplit(a: string, b: string)
    ensures Quotes(a + b) == Quotes(a) + Quotes(b)
  {
    if a == "" {
      assert a + b == b;
    } else {
      assert (a + b)[0] == a[0] && (a + b)[1..] == a[1..] + b;
      QuotesSplit(a[1..], b);
    }
  }

  lemma {:induction false} PlainHasNone(t: string)
    ensures Quotes(t) == 0 <==> PlainName(t)
  {
    if t != "" {
      PlainHasNone(t[1..]);
      assert t == [t[0]] + t[1..];
    }
  }

  lemma OneMore(c: char, t: string)
    ensures Quotes([c] + t) == (if c == '"' then 1 else 0) + Quotes(t)
  {
    assert ([c] + t)[1..] == t;
  }

  /** A name takes its closing quote and two for each of its own. */
  lemma {:induction false} NameTakes(t: string)
    requires ReadName(t).Some?
    ensures Quotes(t) == 2 * Quotes(ReadName(t).value.0) + 1 + Quotes(ReadName(t).value.1)
    decreases |t|
  {
    if t[0] != '"' {
      NameTakes(t[1..]);
      OneMore(t[0], ReadName(t[1..]).value.0);
    } else if |t| > 1 && t[1] == '"' {
      NameTakes(t[2..]);
      OneMore('"', ReadName(t[2..]).value.0);
      assert t[1..][1..] == t[2..];
    }
  }

  lemma StripTakes(t: string, w: string)
    requires Strip(t, w).Some?
    ensures Quotes(t) == Quotes(w) + Quotes(Strip(t, w).value)
  {
    QuotesSplit(w, t[|w|..]);
    assert t == w + t[|w|..];
  }

  /** The word ends in its only quote. */
  predicate Opens(w: string) {
    w != "" && w[|w| - 1] == '"' && PlainName(w[..|w| - 1])
  }

  lemma OpensOnce(w: string)
    requires Opens(w)
    ensures Quotes(w) == 1
  {
    var stem := w[..|w| - 1];
    assert w == stem + ['"'];
    QuotesSplit(stem, ['"']);
    PlainHasNone(stem);
    OneMore('"', []);
  }

  lemma OpeningTakes(t: string, w: string)
    requires Opens(w) && Strip(t, w).Some?
    ensures Quotes(t) == 1 + Quotes(Strip(t, w).value)
  {
    OpensOnce(w);
    StripTakes(t, w);
  }

  /** Reading a word that opens a name, and the name, takes two quotes for each one in the name. */
  lemma OpenedTakes(t: string, w: string)
    requires Opens(w) && Strip(t, w).Some? && ReadName(Strip(t, w).value).Some?
    ensures var r := ReadName(Strip(t, w).value).value; Quotes(t) == 2 + 2 * Quotes(r.0) + Quotes(r.1)
  {
    OpensOnce(w);
    StripTakes(t, w);
    NameTakes(Strip(t, w).value);
  }

  /** Printing them without doubling takes one for each. */
  lemma OpenedPrints(w: string, name: string, k: string)
    requires Opens(w)
    ensures Quotes(w + (name + ("\"" + k))) == 2 + Quotes(name) + Quotes(k)
  {
    OpensOnce(w);
    QuotesSplit(w, name + ("\"" + k));
    QuotesSplit(name, "\"" + k);
    OneMore('"', k);
  }
}
