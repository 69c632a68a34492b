/** SQL text as the migration crate reads it: white space outside quotes, keywords, identifiers. */
module SqlText {
  import opened Values

  /** The Unicode White_Space property. */
  predicate IsWhitespace(c: char) {
    var n := c as int;
    9 <= n <= 13 || n == 0x20 || n == 0x85 || n == 0xA0 || n == 0x1680 || 0x2000 <= n <= 0x200A ||
    n == 0x2028 || n == 0x2029 || n == 0x202F || n == 0x205F || n == 0x3000
  }

  predicate IsQuote(c: char) {
    c == '\'' || c == '"'
  }

  // ---- Normal form ----

  /** What the normalizer still emits for `s`, when it is inside `quote`, has `pending` white space
      to emit and has or has not emitted anything yet. */
  function Folded(s: string, quote: Option<char>, pending: bool, empty: bool): string {
    if s == "" then ""
    else if quote.Some? then
      [s[0]] + Folded(s[1..], if s[0] == quote.value then None else quote, pending, false)
    else if IsWhitespace(s[0]) then Folded(s[1..], None, true, empty)
    else (
      (if pending && !empty then " " else "") + [s[0]] +
      Folded(s[1..], if IsQuote(s[0]) then Some(s[0]) else None, false, false)
    )
  }

  function Normalized(s: string): string {
    Folded(s, None, false, true)
  }

  /** One character of input: what it emits, and the state after it. */
  function Emitted(c: char, quote: Option<char>, pending: bool, empty: bool): string {
    if quote.Some? then [c] else if IsWhitespace(c) then "" else if pending && !empty then [' ', c] else [c]
  }

  function QuoteAfter(c: char, quote: Option<char>): Option<char> {
    if quote.Some? then (if c == quote.value then None else quote)
    else if !IsWhitespace(c) && IsQuote(c) then Some(c) else None
  }

  lemma FoldedStep(s: string, i: nat, quote: Option<char>, pending: bool, r: string)
    requires i < |s| && (quote.Some? ==> r != "")
    ensures var p := if quote.Some? then pending else IsWhitespace(s[i]);
            var r' := r + Emitted(s[i], quote, pending, r == "");
            r + Folded(s[i..], quote, pending, r == "")
              == r' + Folded(s[i + 1..], QuoteAfter(s[i], quote), p, r' == "")
  {
  }

  method NormalizeWsOutsideQuotes(s: string) returns (r: string)
    ensures r == Normalized(s)
  {
    r := "";
    var quote: Option<char> := None;
    var pending := false;
    for i := 0 to |s|
      invariant Normalized(s) == r + Folded(s[i..], quote, pending, r == "")
      invariant quote.Some? ==> r != ""
    {
      FoldedStep(s, i, quote, pending, r);
      var c := s[i];
      if quote.Some? {
        r := r + [c];
        if c == quote.value {
          quote := None;
        }
      } else if IsWhitespace(c) {
        pending := true;
        assert r + "" == r;
      } else {
        if pending && r != "" {
          assert r + [' ', c] == r + " " + [c];
          r := r + " ";
        }
        pending := false;
        if IsQuote(c) {
          quote := Some(c);
        }
        r := r + [c];
      }
    }
    assert s[|s|..] == "" && r + "" == r;
  }

  /** The reference: words separated by white space outside quotes, where a doubled quote inside a
      quoted stretch stands for itself. `cur` is the word read so far. */
  function WordsFrom(s: string, quote: Option<char>, cur: string): seq<string>
    decreases |s|
  {
    if s == "" then Word(cur)
    else if quote.Some? then
      if |s| > 1 && s[0] == quote.value && s[1] == quote.value then WordsFrom(s[2..], quote, cur + s[..2])
      else WordsFrom(s[1..], if s[0] == quote.value then None else quote, cur + [s[0]])
    else if IsWhitespace(s[0]) then Word(cur) + WordsFrom(s[1..], None, "")
    else WordsFrom(s[1..], if IsQuote(s[0]) then Some(s[0]) else None, cur + [s[0]])
  }

  function Word(cur: string): seq<string> {
    if cur == "" then [] else [cur]
  }

  function Words(s: string): seq<string> {
    WordsFrom(s, None, "")
  }

  function Spaced(ws: seq<string>): string {
    if ws == [] then "" else if |ws| == 1 then ws[0] else ws[0] + " " + Spaced(ws[1..])
  }

  /** Toggling at every quote reads a doubled quote the same way. */
  lemma ToggleAtQuote(s: string, q: char, cur: string)
    requires s != "" && s[0] == q && IsQuote(q)
    ensures WordsFrom(s, Some(q), cur) == WordsFrom(s[1..], None, cur + [q])
  {
    if |s| > 1 && s[1] == q {
      assert s[1..][0] == q && s[1..][1..] == s[2..] && s[..2] == [q] + [q];
      assert cur + [q] + [q] == cur + s[..2];
    }
  }

  lemma SpacedCons(w: string, ws: seq<string>)
    ensures Spaced([w] + ws) == w + (if ws == [] then "" else " " + Spaced(ws))
  {
  }

  /** A started word ends up in front, unless it is still empty. */
  lemma {:induction false} WordsAreNotEmpty(s: string, quote: Option<char>, cur: string)
    ensures cur != "" ==> WordsFrom(s, quote, cur) != []
    ensures forall i :: 0 <= i < |WordsFrom(s, quote, cur)| ==> WordsFrom(s, quote, cur)[i] != ""
    decreases |s|
  {
    if s == "" {
    } else if quote.Some? {
      if |s| > 1 && s[0] == quote.value && s[1] == quote.value {
        WordsAreNotEmpty(s[2..], quote, cur + s[..2]);
      } else {
        WordsAreNotEmpty(s[1..], if s[0] == quote.value then None else quote, cur + [s[0]]);
      }
    } else if IsWhitespace(s[0]) {
      WordsAreNotEmpty(s[1..], None, "");
    } else {
      WordsAreNotEmpty(s[1..], if IsQuote(s[0]) then Some(s[0]) else None, cur + [s[0]]);
    }
  }

  lemma SpacedEmpty(ws: seq<string>)
    requires forall i :: 0 <= i < |ws| ==> ws[i] != ""
    ensures Spaced(ws) == "" <==> ws == []
  {
  }

  /** What remains to be emitted continues the word being read. */
  lemma {:induction false} FoldedIsSpaced(s: string, quote: Option<char>, cur: string)
    requires quote.Some? ==> IsQuote(quote.value) && cur != ""
    ensures Spaced(WordsFrom(s, quote, cur)) == cur + Folded(s, quote, false, cur == "")
    decreases |s|
  {
    if s == "" {
    } else if quote.Some? {
      var q := if s[0] == quote.value then None else quote;
      if q.None? { ToggleAtQuote(s, s[0], cur); }
      FoldedIsSpaced(s[1..], q, cur + [s[0]]);
      assert cur + [s[0]] + Folded(s[1..], q, false, false) == cur + Folded(s, quote, false, false);
    } else if IsWhitespace(s[0]) {
      FoldedIsSpaced(s[1..], None, "");
      WordsAreNotEmpty(s[1..], None, "");
      SpacedEmpty(WordsFrom(s[1..], None, ""));
      PendingIsOneSpace(s[1..]);
      SpacedCons(cur, WordsFrom(s[1..], None, ""));
      assert [] + WordsFrom(s[1..], None, "") == WordsFrom(s[1..], None, "");
      PendingAtStart(s[1..]);
    } else {
      var q := if IsQuote(s[0]) then Some(s[0]) else None;
      FoldedIsSpaced(s[1..], q, cur + [s[0]]);
      assert cur + [s[0]] + Folded(s[1..], q, false, false) == cur + Folded(s, None, false, cur == "");
    }
  }

  lemma {:induction false} PendingAtStart(s: string)
    ensures Folded(s, None, true, true) == Folded(s, None, false, true)
  {
  }

  /** Pending white space becomes one space, if a word follows. */
  lemma {:induction false} PendingIsOneSpace(s: string)
    ensures var rest := Folded(s, None, false, true);
            Folded(s, None, true, false) == if rest == "" then "" else " " + rest
  {
    if s != "" && IsWhitespace(s[0]) {
      PendingIsOneSpace(s[1..]);
      PendingAtStart(s[1..]);
    }
  }

  /** Normalizing joins the words by single spaces. */
  lemma NormalizedIsSpacedWords(s: string)
    ensures Normalized(s) == Spaced(Words(s))
  {
    FoldedIsSpaced(s, None, "");
  }

  /** Reading the normal form gives the same words. */
  lemma {:induction false} FoldedKeepsWords(s: string, quote: Option<char>, cur: string)
    requires quote.Some? ==> IsQuote(quote.value) && cur != ""
    ensures WordsFrom(Folded(s, quote, false, cur == ""), quote, cur) == WordsFrom(s, quote, cur)
    decreases |s|
  {
    var t := Folded(s, quote, false, cur == "");
    if s == "" {
    } else if quote.Some? {
      var q := if s[0] == quote.value then None else quote;
      assert t[0] == s[0] && t[1..] == Folded(s[1..], q, false, false);
      if q.None? {
        ToggleAtQuote(s, s[0], cur);
        ToggleAtQuote(t, s[0], cur);
      }
      FoldedKeepsWords(s[1..], q, cur + [s[0]]);
    } else if IsWhitespace(s[0]) {
      FoldedKeepsWords(s[1..], None, "");
      PendingAtStart(s[1..]);
      PendingIsOneSpace(s[1..]);
      var rest := Folded(s[1..], None, false, true);
      if cur == "" {
        assert Word(cur) + WordsFrom(s[1..], None, "") == WordsFrom(s[1..], None, "");
      } else if rest == "" {
        assert Word(cur) + [] == Word(cur);
      } else {
        assert t[0] == ' ' && t[1..] == rest;
      }
    } else {
      var q := if IsQuote(s[0]) then Some(s[0]) else None;
      assert t[0] == s[0] && t[1..] == Folded(s[1..], q, false, false);
      FoldedKeepsWords(s[1..], q, cur + [s[0]]);
    }
  }

  /** Two texts have the same normal form exactly when they have the same words: only white space
      outside quotes is forgotten. */
  lemma SameNormalFormMeansSameWords(a: string, b: string)
    ensures Normalized(a) == Normalized(b) <==> Words(a) == Words(b)
  {
    NormalizedIsSpacedWords(a);
    NormalizedIsSpacedWords(b);
    FoldedKeepsWords(a, None, "");
    FoldedKeepsWords(b, None, "");
  }

  lemma NormalizedTwice(s: string)
    ensures Normalized(Normalized(s)) == Normalized(s)
  {
    FoldedKeepsWords(s, None, "");
    NormalizedIsSpacedWords(s);
    NormalizedIsSpacedWords(Normalized(s));
  }

  // ---- Keywords and identifiers ----

  function TrimStart(s: string): string {
    if s != "" && IsWhitespace(s[0]) then TrimStart(s[1..]) else s
  }

  predicate IsWordChar(c: char) {
    'a' <= c <= 'z' || 'A' <= c <= 'Z' || '0' <= c <= '9' || c == '_'
  }

  /** The rest after a leading keyword, or None. */
  function StripKeyword(s: string, kw: string): Option<string> {
    var t := TrimStart(s);
    if |t| < |kw| || !SameName(t[..|kw|], kw) then None
    else if |t| > |kw| && IsWordChar(t[|kw|]) then None
    else Some(t[|kw|..])
  }

  /** The text of a quoted identifier up to its closing quote; a doubled quote is one quote. */
  function QuotedText(s: string, q: char): Option<string> {
    if s == "" then None
    else if s[0] != q then Prefixed(s[0], QuotedText(s[1..], q))
    else if |s| > 1 && s[1] == q then Prefixed(q, QuotedText(s[2..], q))
    else Some("")
  }

  function Prefixed(c: char, s: Option<string>): Option<string> {
    if s.None? then None else Some([c] + s.value)
  }

  function TextBefore(s: string, c: char): Option<string> {
    if s == "" then None else if s[0] == c then Some("") else Prefixed(s[0], TextBefore(s[1..], c))
  }

  function BareName(s: string): string {
    if s == "" || IsWhitespace(s[0]) || s[0] == '(' then "" else [s[0]] + BareName(s[1..])
  }

  function ParseLeadingIdentifier(s: string): Option<string> {
    var t := TrimStart(s);
    if t == "" then None
    else if t[0] == '"' || t[0] == '`' then QuotedText(t[1..], t[0])
    else if t[0] == '[' then TextBefore(t[1..], ']')
    else if BareName(t) == "" then None
    else Some(BareName(t))
  }

  function OrElse(s: Option<string>, t: string): string {
    if s.Some? then s.value else t
  }

  /** The name in `CREATE [UNIQUE] INDEX [IF NOT EXISTS] name`. */
  function IndexName(ddl: string): Option<string> {
    var a := StripKeyword(ddl, "CREATE");
    if a.None? then None else
    var b := StripKeyword(OrElse(StripKeyword(a.value, "UNIQUE"), a.value), "INDEX");
    if b.None? then None else NameAfterIndex(b.value)
  }

  function NameAfterIndex(b: string): Option<string> {
    var c := StripKeyword(b, "IF");
    if c.None? then ParseLeadingIdentifier(b) else
    var d := StripKeyword(c.value, "NOT");
    if d.None? then None else
    var e := StripKeyword(d.value, "EXISTS");
    if e.None? then None else ParseLeadingIdentifier(e.value)
  }

  predicate IsUniqueIndex(ddl: string) {
    var a := StripKeyword(ddl, "CREATE");
    a.Some? && StripKeyword(a.value, "UNIQUE").Some?
  }

  function Doubled(s: string, q: char): string {
    if s == "" then "" else (if s[0] == q then [q, q] else [s[0]]) + Doubled(s[1..], q)
  }

  function QuoteIdentifier(name: string): string {
    "\"" + Doubled(name, '"') + "\""
  }

  lemma {:induction false} DoubledReadsBack(name: string, q: char, rest: string)
    requires rest == "" || rest[0] != q
    ensures QuotedText(Doubled(name, q) + ([q] + rest), q) == Some(name)
  {
    var s := Doubled(name, q) + ([q] + rest);
    if name == "" {
      assert s[0] == q && (|s| > 1 ==> s[1] == rest[0]);
    } else {
      var t := Doubled(name[1..], q) + ([q] + rest);
      DoubledReadsBack(name[1..], q, rest);
      assert [name[0]] + name[1..] == name;
      if name[0] == q {
        assert s == [q, q] + t && s[2..] == t;
      } else {
        assert s == [name[0]] + t && s[1..] == t;
      }
    }
  }

  /** Every name, quotes and white space included, survives quoting. */
  lemma QuotedIdentifierReadsBack(name: string, rest: string)
    requires rest == "" || rest[0] != '"'
    ensures ParseLeadingIdentifier(QuoteIdentifier(name) + rest) == Some(name)
  {
    var s := QuoteIdentifier(name) + rest;
    assert s[0] == '"' && s[1..] == Doubled(name, '"') + (['"'] + rest);
    assert TrimStart(s) == s;
    DoubledReadsBack(name, '"', rest);
  }

  // ---- The name of an index, however it is written ----

  datatype Spelling = DoubleQuoted | Backticked | Bracketed | Bare

  function Written(w: Spelling, name: string): string {
    match w
    case DoubleQuoted => QuoteIdentifier(name)
    case Backticked => "`" + (Doubled(name, '`') + "`")
    case Bracketed => "[" + (name + "]")
    case Bare => name
  }

  predicate EndsName(c: char) {
    IsWhitespace(c) || c == '('
  }

  /** Which names a spelling can write, before which text. Bare names must not look quoted. */
  predicate Writes(w: Spelling, name: string, rest: string) {
    match w
    case DoubleQuoted => rest == "" || rest[0] != '"'
    case Backticked => rest == "" || rest[0] != '`'
    case Bracketed => ']' !in name
    case Bare =>
      name != "" && name[0] !in "\"`[" && (forall c <- name :: !EndsName(c)) && (rest == "" || EndsName(rest[0]))
  }

  lemma {:induction false} BracketReadsBack(name: string, rest: string)
    requires ']' !in name
    ensures TextBefore(name + ("]" + rest), ']') == Some(name)
  {
    var s := name + ("]" + rest);
    if name != "" {
      BracketReadsBack(name[1..], rest);
      assert s[0] == name[0] && s[1..] == name[1..] + ("]" + rest) && [name[0]] + name[1..] == name;
    }
  }

  lemma {:induction false} BareReadsBack(name: string, rest: string)
    requires (forall c <- name :: !EndsName(c)) && (rest == "" || EndsName(rest[0]))
    ensures BareName(name + rest) == name
  {
    if name == "" {
      assert name + rest == rest;
    } else {
      BareReadsBack(name[1..], rest);
      assert name[0] in name && (name + rest)[0] == name[0] && (name + rest)[1..] == name[1..] + rest &&
             [name[0]] + name[1..] == name;
    }
  }

  predicate ReadAs(s: string, name: string) {
    s != "" && !IsWhitespace(s[0]) && ParseLeadingIdentifier(s) == Some(name)
  }

  lemma SpelledReadsBack(w: Spelling, name: string, rest: string)
    requires Writes(w, name, rest)
    ensures ReadAs(Written(w, name) + rest, name)
  {
    match w {
      case DoubleQuoted => QuotedIdentifierReadsBack(name, rest);
      case Backticked => BacktickedReadsBack(name, rest);
      case Bracketed => BracketedReadsBack(name, rest);
      case Bare => BareIsRead(name, rest);
    }
  }

  lemma BacktickedReadsBack(name: string, rest: string)
    requires rest == "" || rest[0] != '`'
    ensures ReadAs(Written(Backticked, name) + rest, name)
  {
    var s := Written(Backticked, name) + rest;
    DoubledReadsBack(name, '`', rest);
    assert s[0] == '`' && s[1..] == Doubled(name, '`') + (['`'] + rest);
    assert TrimStart(s) == s;
  }

  lemma BracketedReadsBack(name: string, rest: string)
    requires ']' !in name
    ensures ReadAs(Written(Bracketed, name) + rest, name)
  {
    var s := Written(Bracketed, name) + rest;
    BracketReadsBack(name, rest);
    assert s[0] == '[' && s[1..] == name + ("]" + rest);
    assert TrimStart(s) == s;
  }

  lemma BareIsRead(name: string, rest: string)
    requires Writes(Bare, name, rest)
    ensures ReadAs(name + rest, name)
  {
    var s := name + rest;
    BareReadsBack(name, rest);
    assert s[0] == name[0] && name[0] in name;
    assert TrimStart(s) == s;
  }

  function KeywordText(kw: string, t: string): string {
    " " + (kw + t)
  }

  /** `CREATE [UNIQUE] INDEX [IF NOT EXISTS] `, and what follows. */
  function CreateIndex(unique: bool, ifNotExists: bool, q: string): string {
    "CREATE" + UniqueIndex(unique, IfNotExists(ifNotExists, " " + q))
  }

  function UniqueIndex(unique: bool, t: string): string {
    if unique then KeywordText("UNIQUE", KeywordText("INDEX", t)) else KeywordText("INDEX", t)
  }

  function IfNotExists(ifNotExists: bool, t: string): string {
    if ifNotExists then KeywordText("IF", KeywordText("NOT", KeywordText("EXISTS", t))) else t
  }

  /** An index is found under exactly its name: unique or not, with or without IF NOT EXISTS, and
      however the name is written, unless a bare name reads as the keyword IF. */
  lemma CreatedIndexIsNamed(unique: bool, ifNotExists: bool, w: Spelling, name: string, rest: string)
    requires Writes(w, name, rest) && (ifNotExists || StripKeyword(Written(w, name) + rest, "IF") == None)
    ensures IndexName(CreateIndex(unique, ifNotExists, Written(w, name) + rest)) == Some(name)
    ensures IsUniqueIndex(CreateIndex(unique, ifNotExists, Written(w, name) + rest)) == unique
  {
    var q := Written(w, name) + rest;
    SpelledReadsBack(w, name, rest);
    SpacedName(q);
    NameRead(ifNotExists, q);
    IndexRead(unique, IfNotExists(ifNotExists, " " + q));
  }

  lemma IndexRead(unique: bool, b: string)
    requires b != "" && b[0] == ' '
    ensures IndexName("CREATE" + UniqueIndex(unique, b)) == NameAfterIndex(b)
    ensures IsUniqueIndex("CREATE" + UniqueIndex(unique, b)) == unique
  {
    CreateKeyword(UniqueIndex(unique, b));
    KeywordRead("INDEX", b);
    OtherKeywordRead("INDEX", b, "UNIQUE");
    if unique { KeywordRead("UNIQUE", KeywordText("INDEX", b)); }
  }

  lemma NameRead(ifNotExists: bool, q: string)
    requires q != "" && (ifNotExists || StripKeyword(" " + q, "IF") == None)
    ensures NameAfterIndex(IfNotExists(ifNotExists, " " + q)) == ParseLeadingIdentifier(" " + q)
  {
    if ifNotExists {
      var b := " " + q;
      KeywordRead("IF", KeywordText("NOT", KeywordText("EXISTS", b)));
      KeywordRead("NOT", KeywordText("EXISTS", b));
      KeywordRead("EXISTS", b);
    }
  }

  lemma KeywordRead(kw: string, b: string)
    requires kw != "" && !IsWhitespace(kw[0]) && b != "" && !IsWordChar(b[0])
    ensures StripKeyword(KeywordText(kw, b), kw) == Some(b)
  {
    SpaceThen(kw + b);
    KeywordStripped(kw, b, KeywordText(kw, b));
  }

  lemma OtherKeywordRead(kw: string, b: string, other: string)
    requires kw != "" && !IsWhitespace(kw[0]) && other != "" && LowerChar(kw[0]) != LowerChar(other[0])
    ensures StripKeyword(KeywordText(kw, b), other) == None
  {
    SpaceThen(kw + b);
    OtherKeyword(KeywordText(kw, b), other, kw[0]);
  }

  /** A space before text that starts with none changes neither its first keyword nor its name. */
  lemma SpacedName(q: string)
    requires q != "" && !IsWhitespace(q[0])
    ensures ParseLeadingIdentifier(" " + q) == ParseLeadingIdentifier(q)
    ensures StripKeyword(" " + q, "IF") == StripKeyword(q, "IF")
  {
    SpaceThen(q);
  }

  lemma SpaceThen(t: string)
    requires t != "" && !IsWhitespace(t[0])
    ensures TrimStart(" " + t) == t
  {
  }

  lemma CreateKeyword(a: string)
    requires a != "" && !IsWordChar(a[0])
    ensures StripKeyword("CREATE" + a, "CREATE") == Some(a)
  {
  }

  lemma KeywordStripped(kw: string, rest: string, s: string)
    requires kw != "" && TrimStart(s) == kw + rest && rest != "" && !IsWordChar(rest[0])
    ensures StripKeyword(s, kw) == Some(rest)
  {
  }

  lemma OtherKeyword(s: string, kw: string, c: char)
    requires kw != "" && TrimStart(s) != "" && TrimStart(s)[0] == c && LowerChar(c) != LowerChar(kw[0])
    ensures StripKeyword(s, kw) == None
  {
  }

  // ---- Nothing else is read as an index ----

  lemma {:induction false} TrimmedAt(s: string) returns (i: nat)
    ensures i <= |s| && TrimStart(s) == s[i..] && (forall j :: 0 <= j < i ==> IsWhitespace(s[j]))
    ensures i == |s| || !IsWhitespace(s[i])
  {
    if s != "" && IsWhitespace(s[0]) {
      var n := TrimmedAt(s[1..]);
      i := n + 1;
      assert forall j :: 0 < j < i ==> s[j] == s[1..][j - 1];
    } else {
      i := 0;
    }
  }

  /** White space, the keyword in any case, and `rest`, which does not go on with the word. */
  predicate KeywordAt(s: string, kw: string, rest: string, i: nat) {
    i + |kw| <= |s| && (forall j :: 0 <= j < i ==> IsWhitespace(s[j])) &&
    SameName(s[i..i + |kw|], kw) && rest == s[i + |kw|..] && (rest == "" || !IsWordChar(rest[0]))
  }

  ghost predicate KeywordThen(s: string, kw: string, rest: string) {
    exists i: nat :: KeywordAt(s, kw, rest, i)
  }

  lemma KeywordIsNoSpace(s: string, kw: string, rest: string, i: nat)
    requires KeywordAt(s, kw, rest, i) && kw != "" && 'A' <= kw[0] <= 'Z'
    ensures i < |s| && !IsWhitespace(s[i])
  {
    assert Lower(s[i..i + |kw|])[0] == LowerChar(s[i]) && Lower(kw)[0] == LowerChar(kw[0]);
  }

  /** A keyword is taken exactly where it stands, as a whole word. */
  lemma StrippedExactly(s: string, kw: string, rest: string)
    requires kw != "" && 'A' <= kw[0] <= 'Z'
    ensures StripKeyword(s, kw) == Some(rest) <==> KeywordThen(s, kw, rest)
  {
    var i := TrimmedAt(s);
    var t := s[i..];
    if StripKeyword(s, kw) == Some(rest) {
      assert t[..|kw|] == s[i..i + |kw|] && t[|kw|..] == s[i + |kw|..];
      assert KeywordAt(s, kw, rest, i);
    }
    if k: nat :| KeywordAt(s, kw, rest, k) {
      KeywordIsNoSpace(s, kw, rest, k);
      assert k == i;
      assert t[..|kw|] == s[i..i + |kw|] && t[|kw|..] == s[i + |kw|..];
    }
  }

  /** Only what begins with CREATE INDEX or CREATE UNIQUE INDEX is an index. */
  lemma OnlyIndexesAreNamed(ddl: string) returns (a: string, b: string)
    requires IndexName(ddl).Some?
    ensures KeywordThen(ddl, "CREATE", a)
    ensures KeywordThen(a, "INDEX", b) || exists u :: KeywordThen(a, "UNIQUE", u) && KeywordThen(u, "INDEX", b)
  {
    a := StripKeyword(ddl, "CREATE").value;
    StrippedExactly(ddl, "CREATE", a);
    var u := OrElse(StripKeyword(a, "UNIQUE"), a);
    b := StripKeyword(u, "INDEX").value;
    StrippedExactly(u, "INDEX", b);
    if StripKeyword(a, "UNIQUE").Some? { StrippedExactly(a, "UNIQUE", u); }
  }

  /** An index is unique exactly if it is created so. */
  lemma UniqueIsExact(ddl: string)
    ensures IsUniqueIndex(ddl) <==> exists a, u :: KeywordThen(ddl, "CREATE", a) && KeywordThen(a, "UNIQUE", u)
  {
    if IsUniqueIndex(ddl) {
      var a := StripKeyword(ddl, "CREATE").value;
      var u := StripKeyword(a, "UNIQUE").value;
      StrippedExactly(ddl, "CREATE", a);
      StrippedExactly(a, "UNIQUE", u);
    }
    if a, u :| KeywordThen(ddl, "CREATE", a) && KeywordThen(a, "UNIQUE", u) {
      StrippedExactly(ddl, "CREATE", a);
      StrippedExactly(a, "UNIQUE", u);
    }
  }

  /** The same reading with a cursor, as the crate does it. */
  method ReadQuoted(s: string, q: char) returns (r: Option<string>)
    ensures r == QuotedText(s, q)
  {
    var i, text := 0, "";
    assert s[0..] == s;
    AfterNothing(QuotedText(s, q));
    while i < |s|
      invariant 0 <= i <= |s|
      invariant QuotedText(s, q) == After(text, QuotedText(s[i..], q))
    {
      var c := s[i];
      ReadStep(s, i, q, text);
      i := i + 1;
      if c == q {
        if i == |s| || s[i] != q {
          return Some(text);
        }
        i := i + 1;
      }
      text := text + [c];
    }
    r := None;
  }

  function After(text: string, rest: Option<string>): Option<string> {
    if rest.None? then None else Some(text + rest.value)
  }

  lemma AfterNothing(rest: Option<string>)
    ensures After("", rest) == rest
  {
    if rest.Some? { assert "" + rest.value == rest.value; }
  }

  lemma ReadStep(s: string, i: nat, q: char, text: string)
    requires i < |s|
    ensures var c, t := s[i], s[i..];
            After(text, QuotedText(t, q)) ==
            if c != q then After(text + [c], QuotedText(s[i + 1..], q))
            else if i + 1 < |s| && s[i + 1] == q then After(text + [q], QuotedText(s[i + 2..], q))
            else Some(text)
  {
    var t := s[i..];
    assert t[1..] == s[i + 1..] && text + "" == text;
    if i + 1 < |s| { assert t[2..] == s[i + 2..]; }
    var r1 := QuotedText(s[i + 1..], q);
    if r1.Some? { assert text + [s[i]] + r1.value == text + ([s[i]] + r1.value); }
    if i + 1 < |s| {
      var r2 := QuotedText(s[i + 2..], q);
      if r2.Some? { assert text + [q] + r2.value == text + ([q] + r2.value); }
    }
  }
}
