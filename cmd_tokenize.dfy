/**
  Cmd_TokenizeString of source/cmd.c, the splitting part: a command line is
  cut into at most MAX_STRING_TOKENS tokens. White space separates tokens,
  a newline ends the line, an unquoted `;` is a token of its own and a
  quoted token is stored without its quotes. Each token remembers the
  offset in the line where it starts.

  The tokens are written, each followed by a NUL, into the fixed buffer
  cmd_data of MAX_STRING_CHARS bytes; `dataUsed` counts the bytes written
  there.
 */
module CmdTokenize {
  import opened CmdText

  datatype Token = Token(text: string, offset: nat)

  /** Tokens of a line and the number of bytes they take in cmd_data. */
  datatype Scan = Scan(tokens: seq<Token>, dataUsed: nat)

  function Texts(toks: seq<Token>): (r: seq<string>)
    ensures |r| == |toks|
    ensures forall j :: 0 <= j < |toks| ==> r[j] == toks[j].text
  {
    if toks == [] then [] else [toks[0].text] + Texts(toks[1..])
  }

  function Offsets(toks: seq<Token>): (r: seq<nat>)
    ensures |r| == |toks|
    ensures forall j :: 0 <= j < |toks| ==> r[j] == toks[j].offset
  {
    if toks == [] then [] else [toks[0].offset] + Offsets(toks[1..])
  }

  /** First position at or after `p` that is not a blank, or is a newline. */
  function SkipBlanksAt(s: string, p: nat): (k: nat)
    requires p <= |s|
    ensures p <= k <= |s|
    ensures forall j :: p <= j < k ==> IsBlank(s[j]) && s[j] != '\n'
    ensures k < |s| ==> !IsBlank(s[k]) || s[k] == '\n'
    decreases |s| - p
  {
    if p < |s| && IsBlank(s[p]) && s[p] != '\n' then SkipBlanksAt(s, p + 1) else p
  }

  predicate IsWordChar(c: char) {
    !IsBlank(c) && c != '"' && c != ';'
  }

  /** End of an unquoted token starting at `p`. */
  function WordEndAt(s: string, p: nat): (k: nat)
    requires p <= |s|
    ensures p <= k <= |s|
    ensures forall j :: p <= j < k ==> IsWordChar(s[j])
    ensures k < |s| ==> !IsWordChar(s[k])
    decreases |s| - p
  {
    if p < |s| && IsWordChar(s[p]) then WordEndAt(s, p + 1) else p
  }

  /** Position of the first quote at or after `p`, |s| when there is none. */
  function QuoteEndAt(s: string, p: nat): (k: nat)
    requires p <= |s|
    ensures p <= k <= |s|
    ensures forall j :: p <= j < k ==> s[j] != '"'
    ensures k < |s| ==> s[k] == '"'
    decreases |s| - p
  {
    if p < |s| && s[p] != '"' then QuoteEndAt(s, p + 1) else p
  }

  /** One step of the tokenizer from position `p`: no more tokens, a last
      token that runs to the end of the data inside an open quote (written
      without a terminating NUL), or a token followed by more input at
      `next`. `bytes` is what the token takes in cmd_data. */
  datatype Step =
    | End
    | Last(tok: Token, bytes: nat)
    | More(tok: Token, bytes: nat, next: nat)

  /** The token found at `p`. A token starts after the blanks; it is `;`
      alone, the text between a quote and the next quote, or a run of
      bytes that are neither blank, quote nor `;`. A newline or the end of
      the data ends the line. */
  function NextToken(s: string, p: nat): (r: Step)
    requires p <= |s|
    ensures r.Last? ==> p <= r.tok.offset < |s| && r.bytes <= 2 * (|s| - p)
    ensures r.More? ==> p <= r.tok.offset < r.next <= |s| && r.bytes <= 2 * (r.next - p)
  {
    var k := SkipBlanksAt(s, p);
    if k == |s| || s[k] == '\n' then End
    else if s[k] == ';' then More(Token(";", k), 2, k + 1)
    else if s[k] == '"' then
      var q := QuoteEndAt(s, k + 1);
      if q == |s| then Last(Token(s[k + 1..], k), q - (k + 1))
      else More(Token(s[k + 1..q], k), q - k, q + 1)
    else
      var w := WordEndAt(s, k);
      More(Token(s[k..w], k), w - k + 1, w)
  }

  function Prepend(t: Token, bytes: nat, rest: Scan): Scan {
    Scan([t] + rest.tokens, bytes + rest.dataUsed)
  }

  /** The tokens of `s` from position `p` on, at most `budget` of them. */
  function ScanAt(s: string, p: nat, budget: nat): Scan
    requires p <= |s|
    decreases |s| - p
  {
    if budget == 0 then Scan([], 0)
    else
      match NextToken(s, p)
      case End => Scan([], 0)
      case Last(t, n) => Scan([t], n)
      case More(t, n, next) => Prepend(t, n, ScanAt(s, next, budget - 1))
  }

  /** The tokens of a whole line. */
  function Tokens(s: string): Scan {
    ScanAt(s, 0, MAX_STRING_TOKENS)
  }

  /** The scan after `toks` (taking `used` bytes) were already produced. */
  function After(toks: seq<Token>, used: nat, r: Scan): Scan {
    Scan(toks + r.tokens, used + r.dataUsed)
  }

  /** Skips white space up to a newline. */
  method SkipBlanks(s: string, p: nat) returns (k: nat)
    requires p <= |s|
    ensures k == SkipBlanksAt(s, p)
  {
    k := p;
    while k < |s| && IsBlank(s[k]) && s[k] != '\n'
      invariant p <= k <= |s|
      invariant SkipBlanksAt(s, p) == SkipBlanksAt(s, k)
    {
      k := k + 1;
    }
  }

  /** Copies the bytes of a quoted token up to the closing quote. */
  method CopyQuoted(s: string, p: nat) returns (q: nat, tok: string)
    requires p <= |s|
    ensures q == QuoteEndAt(s, p) && tok == s[p..q]
  {
    q := p;
    tok := "";
    while q < |s| && s[q] != '"'
      invariant p <= q <= |s|
      invariant QuoteEndAt(s, p) == QuoteEndAt(s, q)
      invariant tok == s[p..q]
    {
      tok := tok + [s[q]];
      q := q + 1;
    }
  }

  /** Copies the bytes of an unquoted token. */
  method CopyWord(s: string, p: nat) returns (w: nat, tok: string)
    requires p <= |s|
    ensures w == WordEndAt(s, p) && tok == s[p..w]
  {
    w := p;
    tok := "";
    while w < |s| && IsWordChar(s[w])
      invariant p <= w <= |s|
      invariant WordEndAt(s, p) == WordEndAt(s, w)
      invariant tok == s[p..w]
    {
      tok := tok + [s[w]];
      w := w + 1;
    }
  }

  /** The body of the loop of Cmd_TokenizeString: skips the blanks at `p`
      and reads one token. */
  method ReadToken(s: string, p: nat) returns (r: Step)
    requires p <= |s|
    ensures r == NextToken(s, p)
  {
    var k := SkipBlanks(s, p);
    if k == |s| || s[k] == '\n' {
      return End;
    }
    if s[k] == ';' {
      return More(Token(";", k), 2, k + 1);
    }
    if s[k] == '"' {
      var q, tok := CopyQuoted(s, k + 1);
      if q == |s| {
        // end of data inside the quotes: the token is not terminated
        return Last(Token(tok, k), |tok|);
      }
      return More(Token(tok, k), |tok| + 1, q + 1);
    }
    var w, tok := CopyWord(s, k);
    return More(Token(tok, k), |tok| + 1, w);
  }

  /** Cmd_TokenizeString's loop over the (already copied) line `s`: tokens
      are read until the line ends or MAX_STRING_TOKENS were read. */
  method Tokenize(s: string) returns (toks: seq<Token>, used: nat)
    ensures Scan(toks, used) == Tokens(s)
  {
    toks := [];
    used := 0;
    var p := 0;
    while |toks| < MAX_STRING_TOKENS
      invariant p <= |s| && |toks| <= MAX_STRING_TOKENS
      invariant Tokens(s) == After(toks, used, ScanAt(s, p, MAX_STRING_TOKENS - |toks|))
      decreases |s| - p
    {
      ScanOne(s, p, MAX_STRING_TOKENS - |toks|, toks, used);
      var step := ReadToken(s, p);
      match step
      case End =>
        return;
      case Last(t, n) =>
        toks := toks + [t];
        used := used + n;
        return;
      case More(t, n, next) =>
        toks := toks + [t];
        used := used + n;
        p := next;
    }
    assert toks + [] == toks;
  }

  /** One pass of the tokenizer loop, in terms of the scan still to come. */
  lemma ScanOne(s: string, p: nat, budget: nat, toks: seq<Token>, used: nat)
    requires p <= |s| && budget > 0
    ensures var st := NextToken(s, p);
            && (st.End? ==> After(toks, used, ScanAt(s, p, budget)) == Scan(toks, used))
            && (st.Last? ==> After(toks, used, ScanAt(s, p, budget)) == Scan(toks + [st.tok], used + st.bytes))
            && (st.More? ==> After(toks, used, ScanAt(s, p, budget))
                             == After(toks + [st.tok], used + st.bytes, ScanAt(s, st.next, budget - 1)))
  {
    match NextToken(s, p)
    case End =>
      assert toks + [] == toks;
    case Last(t, n) =>
    case More(t, n, next) =>
      var later := ScanAt(s, next, budget - 1);
      assert toks + ([t] + later.tokens) == (toks + [t]) + later.tokens;
  }

  /** `r` holds at most `budget` tokens whose offsets lie in [p, n) and
      strictly increase, taking at most two bytes of cmd_data per byte of
      the n - p scanned bytes. */
  ghost predicate Bounded(r: Scan, p: nat, n: nat, budget: nat) {
    && |r.tokens| <= budget
    && (forall j :: 0 <= j < |r.tokens| ==> p <= r.tokens[j].offset < n)
    && (forall j, k :: 0 <= j < k < |r.tokens| ==> r.tokens[j].offset < r.tokens[k].offset)
    && r.dataUsed <= 2 * (n - p)
  }

  lemma PrependBounded(t: Token, bytes: nat, rest: Scan, p: nat, next: nat, n: nat, budget: nat)
    requires p <= t.offset < next <= n && bytes <= 2 * (next - p) && budget > 0
    requires Bounded(rest, next, n, budget - 1)
    ensures Bounded(Prepend(t, bytes, rest), p, n, budget)
  {
    var r := Prepend(t, bytes, rest);
    forall j, k | 0 <= j < k < |r.tokens| ensures r.tokens[j].offset < r.tokens[k].offset {
      assert r.tokens[k] == rest.tokens[k - 1];
      if j > 0 {
        assert r.tokens[j] == rest.tokens[j - 1];
      }
    }
  }

  /** Every scan is bounded: it respects the token cap, its offsets point
      into the scanned part in increasing order, and it never needs more
      than two bytes of cmd_data per byte of input. */
  lemma {:induction false} ScanBounds(s: string, p: nat, budget: nat)
    requires p <= |s|
    ensures Bounded(ScanAt(s, p, budget), p, |s|, budget)
    decreases |s| - p
  {
    if budget > 0 {
      match NextToken(s, p)
      case End =>
      case Last(t, n) =>
      case More(t, n, next) =>
        ScanBounds(s, next, budget - 1);
        PrependBounded(t, n, ScanAt(s, next, budget - 1), p, next, |s|, budget);
    }
  }

  // -----------------------------------------------------------------------
  // Properties of the token splitting

  /** The offsets handed out are strictly increasing and point into the
      line, and the token cap is respected. */
  lemma TokenOffsets(s: string)
    ensures |Tokens(s).tokens| <= MAX_STRING_TOKENS
    ensures forall j :: 0 <= j < |Tokens(s).tokens| ==> Tokens(s).tokens[j].offset < |s|
    ensures forall j, k :: 0 <= j < k < |Tokens(s).tokens| ==>
              Tokens(s).tokens[j].offset < Tokens(s).tokens[k].offset
  {
    ScanBounds(s, 0, MAX_STRING_TOKENS);
  }

  lemma {:induction false} WordEndPlain(s: string, p: nat, e: nat)
    requires p <= e <= |s|
    requires forall j :: p <= j < e ==> IsWordChar(s[j])
    requires e < |s| ==> !IsWordChar(s[e])
    ensures WordEndAt(s, p) == e
    decreases e - p
  {
    if p < e {
      WordEndPlain(s, p + 1, e);
    }
  }

  lemma {:induction false} QuoteEndPlain(s: string, p: nat, e: nat)
    requires p <= e <= |s|
    requires forall j :: p <= j < e ==> s[j] != '"'
    requires e < |s| ==> s[e] == '"'
    ensures QuoteEndAt(s, p) == e
    decreases e - p
  {
    if p < e {
      QuoteEndPlain(s, p + 1, e);
    }
  }

  predicate IsWord(w: string) {
    w != [] && forall j :: 0 <= j < |w| ==> IsWordChar(w[j])
  }

  /** An unquoted `;` between two words is a token of its own. */
  lemma SemicolonToken(a: string, b: string)
    requires IsWord(a) && IsWord(b)
    ensures Tokens(a + ";" + b).tokens ==
              [Token(a, 0), Token(";", |a|), Token(b, |a| + 1)]
  {
    var s := a + ";" + b;
    assert s[0] == a[0];
    assert SkipBlanksAt(s, 0) == 0;
    WordEndPlain(s, 0, |a|);
    assert s[..|a|] == a;
    assert NextToken(s, 0) == More(Token(a, 0), |a| + 1, |a|);
    assert s[|a|] == ';';
    assert SkipBlanksAt(s, |a|) == |a|;
    assert NextToken(s, |a|) == More(Token(";", |a|), 2, |a| + 1);
    assert s[|a| + 1] == b[0];
    assert SkipBlanksAt(s, |a| + 1) == |a| + 1;
    WordEndPlain(s, |a| + 1, |s|);
    assert s[|a| + 1..|s|] == b;
    assert NextToken(s, |a| + 1) == More(Token(b, |a| + 1), |b| + 1, |s|);
    assert NextToken(s, |s|) == End;
    var n := MAX_STRING_TOKENS;
    assert ScanAt(s, |s|, n - 3).tokens == [];
    assert ScanAt(s, |a| + 1, n - 2).tokens == [Token(b, |a| + 1)];
    assert ScanAt(s, |a|, n - 1).tokens == [Token(";", |a|), Token(b, |a| + 1)];
  }

  /** A quoted token is stored without its quotes; blanks and `;` inside
      the quotes belong to the token. */
  lemma QuotedToken(b: string)
    requires forall j :: 0 <= j < |b| ==> b[j] != '"'
    ensures Tokens("\"" + b + "\"").tokens == [Token(b, 0)]
  {
    var s := "\"" + b + "\"";
    assert SkipBlanksAt(s, 0) == 0;
    QuoteEndPlain(s, 1, |s| - 1);
    assert s[1..|s| - 1] == b;
    assert NextToken(s, 0) == More(Token(b, 0), |b| + 1, |s|);
    assert NextToken(s, |s|) == End;
    assert ScanAt(s, |s|, MAX_STRING_TOKENS - 1).tokens == [];
  }

  /** Tokenizing stops at a newline outside quotes: what follows it is not
      looked at. */
  lemma {:induction false} NewlineEndsLine(a: string, b: string, p: nat, budget: nat)
    requires p <= |a|
    requires forall j :: 0 <= j < |a| ==> a[j] != '"'
    ensures ScanAt(a + "\n" + b, p, budget) == ScanAt(a, p, budget)
    decreases |a| - p
  {
    if budget > 0 {
      NextTokenBeforeNewline(a, b, p);
      var st := NextToken(a, p);
      if st.More? {
        NewlineEndsLine(a, b, st.next, budget - 1);
        assert ScanAt(a + "\n" + b, p, budget)
            == Prepend(st.tok, st.bytes, ScanAt(a + "\n" + b, st.next, budget - 1));
      }
    }
  }

  lemma NextTokenBeforeNewline(a: string, b: string, p: nat)
    requires p <= |a|
    requires forall j :: 0 <= j < |a| ==> a[j] != '"'
    ensures NextToken(a + "\n" + b, p) == NextToken(a, p)
    ensures NextToken(a, p).More? ==> NextToken(a, p).next <= |a|
  {
    var s := a + "\n" + b;
    var k := SkipBlanksAt(a, p);
    SkipBlanksPrefix(a, b, p);
    if k < |a| {
      assert s[k] == a[k];
      if a[k] != ';' {
        var w := WordEndAt(a, k);
        WordEndPrefix(a, b, k);
        assert s[k..w] == a[k..w];
      }
    } else {
      assert s[k] == '\n';
    }
  }

  lemma {:induction false} SkipBlanksPrefix(a: string, b: string, p: nat)
    requires p <= |a|
    ensures SkipBlanksAt(a + "\n" + b, p) == SkipBlanksAt(a, p)
    decreases |a| - p
  {
    var s := a + "\n" + b;
    if p < |a| {
      assert s[p] == a[p];
      if IsBlank(a[p]) && a[p] != '\n' {
        SkipBlanksPrefix(a, b, p + 1);
      }
    } else {
      assert s[p] == '\n';
    }
  }

  lemma {:induction false} WordEndPrefix(a: string, b: string, p: nat)
    requires p <= |a|
    ensures WordEndAt(a + "\n" + b, p) == WordEndAt(a, p)
    decreases |a| - p
  {
    var s := a + "\n" + b;
    if p < |a| {
      assert s[p] == a[p];
      if IsWordChar(a[p]) {
        WordEndPrefix(a, b, p + 1);
      }
    } else {
      assert s[p] == '\n';
    }
  }

  // -----------------------------------------------------------------------
  // cmd_data is too small for some lines

  /** cmd_data, the buffer the token texts are written into. */
  const CMD_DATA_SIZE: nat := MAX_STRING_CHARS

  /** The line `aaaaaaa;aaaaaaa;...;aaaaaaa` of `groups` groups of seven
      letters followed by a semicolon, then seven more letters. */
  function DenseLine(groups: nat): (s: string)
    ensures |s| == 8 * groups + 7
  {
    seq(8 * groups + 7, i => if i % 8 == 7 then ';' else 'a')
  }

  /** The tokens of DenseLine(groups) from the start of group `m`. */
  lemma DenseGroup(groups: nat, m: nat)
    requires m <= groups
    ensures m < groups ==>
              && NextToken(DenseLine(groups), 8 * m) == More(Token("aaaaaaa", 8 * m), 8, 8 * m + 7)
              && NextToken(DenseLine(groups), 8 * m + 7) == More(Token(";", 8 * m + 7), 2, 8 * (m + 1))
    ensures m == groups ==>
              && NextToken(DenseLine(groups), 8 * m) == More(Token("aaaaaaa", 8 * m), 8, 8 * m + 7)
              && NextToken(DenseLine(groups), 8 * m + 7) == End
  {
    var s := DenseLine(groups);
    var p := 8 * m;
    assert s[p] == 'a';
    assert SkipBlanksAt(s, p) == p;
    var w := if m < groups then p + 7 else |s|;
    WordEndPlain(s, p, w);
    assert s[p..p + 7] == "aaaaaaa";
    if m < groups {
      assert s[p + 7] == ';';
      assert SkipBlanksAt(s, p + 7) == p + 7;
    }
  }

  /** The bytes the scan of DenseLine(groups) writes from the start of
      group `m`: ten per group, then eight for the last group's letters. */
  lemma {:induction false} DenseScan(s: string, groups: nat, m: nat, budget: nat)
    requires s == DenseLine(groups)
    requires m <= groups && budget >= 2 * (groups - m) + 1
    ensures ScanAt(s, 8 * m, budget).dataUsed == 10 * (groups - m) + 8
    decreases groups - m
  {
    DenseGroupScan(s, groups, m, budget);
    if m < groups {
      DenseScan(s, groups, m + 1, budget - 2);
    }
  }

  /** The tokens of DenseLine(groups) from the start of group `m`: two per
      group, then the last group's letters. */
  lemma {:induction false} DenseCount(s: string, groups: nat, m: nat, budget: nat)
    requires s == DenseLine(groups)
    requires m <= groups && budget >= 2 * (groups - m) + 1
    ensures |ScanAt(s, 8 * m, budget).tokens| == 2 * (groups - m) + 1
    decreases groups - m
  {
    DenseGroupCount(s, groups, m, budget);
    if m < groups {
      DenseCount(s, groups, m + 1, budget - 2);
    }
  }

  /** The scan from the start of group `m` writes the group's letters and
      its `;` (10 bytes), then the scan from the next group; for the last
      group, its letters alone (8 bytes). */
  lemma DenseGroupScan(s: string, groups: nat, m: nat, budget: nat)
    requires s == DenseLine(groups)
    requires m <= groups && budget >= 2 * (groups - m) + 1
    ensures NextToken(s, 8 * m) == More(Token("aaaaaaa", 8 * m), 8, 8 * m + 7)
    ensures m < groups ==> NextToken(s, 8 * (m + 1)) == More(Token("aaaaaaa", 8 * (m + 1)), 8, 8 * (m + 1) + 7)
    ensures m < groups ==>
              ScanAt(s, 8 * m, budget).dataUsed == 10 + ScanAt(s, 8 * (m + 1), budget - 2).dataUsed
    ensures m == groups ==> ScanAt(s, 8 * m, budget).dataUsed == 8
  {
    DenseGroup(groups, m);
    if m < groups {
      DenseGroup(groups, m + 1);
    }
    DenseGroupSteps(s, groups, m, budget);
  }

  /** The scan from the start of group `m` yields the group's letters and
      its `;`, then the tokens from the next group; for the last group, its
      letters alone. */
  lemma DenseGroupCount(s: string, groups: nat, m: nat, budget: nat)
    requires s == DenseLine(groups)
    requires m <= groups && budget >= 2 * (groups - m) + 1
    ensures NextToken(s, 8 * m) == More(Token("aaaaaaa", 8 * m), 8, 8 * m + 7)
    ensures m < groups ==> NextToken(s, 8 * (m + 1)) == More(Token("aaaaaaa", 8 * (m + 1)), 8, 8 * (m + 1) + 7)
    ensures m < groups ==>
              |ScanAt(s, 8 * m, budget).tokens| == 2 + |ScanAt(s, 8 * (m + 1), budget - 2).tokens|
    ensures m == groups ==> |ScanAt(s, 8 * m, budget).tokens| == 1
  {
    DenseGroup(groups, m);
    if m < groups {
      DenseGroup(groups, m + 1);
    }
    DenseGroupSteps(s, groups, m, budget);
  }

  /** The scan from the start of group `m`, two steps at a time. */
  lemma DenseGroupSteps(s: string, groups: nat, m: nat, budget: nat)
    requires s == DenseLine(groups)
    requires m <= groups && budget >= 2 * (groups - m) + 1
    ensures m < groups ==>
              ScanAt(s, 8 * m, budget) ==
              Prepend(Token("aaaaaaa", 8 * m), 8, Prepend(Token(";", 8 * m + 7), 2, ScanAt(s, 8 * (m + 1), budget - 2)))
    ensures m == groups ==> ScanAt(s, 8 * m, budget) == Scan([Token("aaaaaaa", 8 * m)], 8)
  {
    var p := 8 * m;
    DenseGroup(groups, m);
    var tail := ScanAt(s, p + 7, budget - 1);
    assert ScanAt(s, p, budget) == Prepend(Token("aaaaaaa", p), 8, tail);
    if m < groups {
      assert tail == Prepend(Token(";", p + 7), 2, ScanAt(s, 8 * (m + 1), budget - 2));
    } else {
      assert tail == Scan([], 0);
    }
  }

  /** As written, the 1023-byte line of 127 groups `aaaaaaa;` and a final
      `aaaaaaa` is split into 255 tokens that write 1278 bytes into the
      1024-byte cmd_data. The command buffer would split this line at its
      first `;`; a line of the same kind reaches the tokenizer as the value
      of a variable, which the statement `set x "..."` can hold with its
      semicolons inside quotes (see DenseVariableOverflows). */
  lemma TokenDataOverflow(s: string)
    requires s == DenseLine(127)
    ensures |s| == MAX_STRING_CHARS - 1
    ensures |Tokens(s).tokens| == 255
    ensures Tokens(s).dataUsed == 1278 > CMD_DATA_SIZE
  {
    DenseScan(s, 127, 0, MAX_STRING_TOKENS);
    DenseCount(s, 127, 0, MAX_STRING_TOKENS);
  }

  /** Room for every line the tokenizer accepts: two bytes per input byte. */
  const CMD_DATA_SIZE_NEEDED: nat := 2 * MAX_STRING_CHARS

  /** With cmd_data of 2 * MAX_STRING_CHARS bytes, every line of the
      length the tokenizer is given (it copies at most MAX_STRING_CHARS - 1
      bytes) fits. */
  lemma TokenDataFits(s: string)
    requires |s| < MAX_STRING_CHARS
    ensures Tokens(s).dataUsed < CMD_DATA_SIZE_NEEDED
  {
    ScanBounds(s, 0, MAX_STRING_TOKENS);
  }

  // -----------------------------------------------------------------------
  // Token storage: cmd_argv[i] points into cmd_data, and Cmd_Argv reads a
  // token up to the first NUL

  const NUL: char := '\0'

  predicate NoNul(text: string) {
    forall j :: 0 <= j < |text| ==> text[j] != NUL
  }

  /** The C string at position `i` of `data`: the bytes up to the first
      NUL (or the end of the data). */
  function CString(data: seq<char>, i: nat): (r: string)
    requires i <= |data|
    ensures NoNul(r) && |r| <= |data| - i
    decreases |data| - i
  {
    if i == |data| || data[i] == NUL then [] else [data[i]] + CString(data, i + 1)
  }

  /** `data` with `text` written from position `at` on. */
  function Store(data: seq<char>, at: nat, text: string): (r: seq<char>)
    requires at + |text| <= |data|
    ensures |r| == |data|
    ensures forall j :: 0 <= j < |text| ==> r[at + j] == text[j]
    ensures forall j :: 0 <= j < |data| && !(at <= j < at + |text|) ==> r[j] == data[j]
  {
    data[..at] + text + data[at + |text|..]
  }

  /** A C string depends only on the bytes from its start on. */
  lemma {:induction false} CStringSuffix(a: seq<char>, b: seq<char>, i: nat)
    requires i <= |a| && i <= |b| && a[i..] == b[i..]
    ensures CString(a, i) == CString(b, i)
    decreases |a| - i
  {
    if i < |a| {
      assert a[i] == a[i..][0] == b[i..][0] == b[i];
      assert a[i + 1..] == a[i..][1..] == b[i..][1..] == b[i + 1..];
      CStringSuffix(a, b, i + 1);
    }
  }

  lemma {:induction false} CStringStoredFrom(data: seq<char>, at: nat, text: string, k: nat)
    requires at + |text| <= |data| && NoNul(text) && k <= |text|
    ensures CString(Store(data, at, text), at + k) == text[k..] + CString(data, at + |text|)
    decreases |text| - k
  {
    var d := Store(data, at, text);
    if k == |text| {
      assert d[at + |text|..] == data[at + |text|..];
      CStringSuffix(d, data, at + |text|);
    } else {
      assert d[at + k] == text[k] != NUL;
      assert CString(d, at + k) == [text[k]] + CString(d, at + k + 1);
      CStringStoredFrom(data, at, text, k + 1);
      assert text[k..] == [text[k]] + text[k + 1..];
    }
  }

  /** Reading back a token stored without a NUL: the token, then whatever
      the data already held after it. */
  lemma CStringStored(data: seq<char>, at: nat, text: string)
    requires at + |text| <= |data| && NoNul(text)
    ensures CString(Store(data, at, text), at) == text + CString(data, at + |text|)
  {
    CStringStoredFrom(data, at, text, 0);
  }

  /** How Cmd_TokenizeString stores the token of one step at `at` in
      cmd_data, as written: every token is followed by a NUL except the
      last one inside an open quote, which returns before writing it. */
  function StoreStep(data: seq<char>, at: nat, r: Step): (d: seq<char>)
    requires r.Last? || r.More?
    requires at + |r.tok.text| + 1 <= |data|
    ensures |d| == |data|
  {
    if r.Last? then Store(data, at, r.tok.text) else Store(data, at, r.tok.text + [NUL])
  }

  /** As written, the token of a line that ends inside an open quote
      reads back followed by whatever cmd_data held after it. */
  lemma UnterminatedStepReadsOn(s: string, p: nat, data: seq<char>, at: nat)
    requires p <= |s| && NoNul(s) && NextToken(s, p).Last?
    requires at + |NextToken(s, p).tok.text| + 1 <= |data|
    ensures var r := NextToken(s, p);
            CString(StoreStep(data, at, r), at) == r.tok.text + CString(data, at + |r.tok.text|)
  {
    var r := NextToken(s, p);
    var k := SkipBlanksAt(s, p);
    assert r.tok.text == s[k + 1..];
    forall j | 0 <= j < |r.tok.text| ensures r.tok.text[j] != NUL {
      assert r.tok.text[j] == s[k + 1 + j];
    }
    CStringStored(data, at, r.tok.text);
  }

  /** As written, Cmd_Argv of an unterminated quoted token reads on into
      the bytes an earlier line left in cmd_data. After `echo abcdefghij`
      the data holds `echo`, NUL, `abcdefghij`, NUL; the line `text " hi`
      (what `text $qt hi` expands to) stores `text` and its NUL over
      `echo`, then ` hi` without a NUL, and its second token reads back as
      ` hidefghij`. */
  lemma UnterminatedTokenReadsOn(data: seq<char>, s: string)
    requires data == "text" + [NUL] + "abcdefghij" + [NUL]
    requires s == "text \" hi"
    ensures NextToken(s, 4) == Last(Token(" hi", 5), 3)
    ensures CString(StoreStep(data, 5, NextToken(s, 4)), 5) == " hidefghij" != " hi"
  {
    OpenQuoteStep(s);
    CStringStored(data, 5, " hi");
    StaleTail(data);
    assert " hi" + "defghij" == " hidefghij";
    assert (" hidefghij")[3] != (" hi" + [NUL])[3];
  }

  /** The line `text " hi` ends at position 4 with an open quote. */
  lemma OpenQuoteStep(s: string)
    requires s == "text \" hi"
    ensures NextToken(s, 4) == Last(Token(" hi", 5), 3)
  {
    assert SkipBlanksAt(s, 4) == 5 by {
      assert SkipBlanksAt(s, 5) == 5;
    }
    assert QuoteEndAt(s, 6) == 9 by {
      assert QuoteEndAt(s, 9) == 9;
      assert QuoteEndAt(s, 8) == 9;
      assert QuoteEndAt(s, 7) == 9;
    }
    assert s[6..] == " hi";
  }

  /** What the earlier line left after position 8. */
  lemma StaleTail(data: seq<char>)
    requires data == "text" + [NUL] + "abcdefghij" + [NUL]
    ensures CString(data, 8) == "defghij"
  {
    assert Store(data, 8, "defghij" + [NUL]) == data;
    TerminatedTokenRead(data, 8, "defghij");
  }

  /** Writing the NUL after every token, the evident intent: Cmd_Argv reads
      back exactly the token, whatever cmd_data held before. */
  function StoreTerminated(data: seq<char>, at: nat, text: string): (d: seq<char>)
    requires at + |text| + 1 <= |data|
    ensures |d| == |data|
  {
    Store(data, at, text + [NUL])
  }

  lemma TerminatedTokenRead(data: seq<char>, at: nat, text: string)
    requires at + |text| + 1 <= |data| && NoNul(text)
    ensures CString(StoreTerminated(data, at, text), at) == text
  {
    var d2 := Store(data, at + |text|, [NUL]);
    assert Store(d2, at, text) == Store(data, at, text + [NUL]);
    CStringStored(d2, at, text);
    assert d2[at + |text|] == NUL;
  }

  // -----------------------------------------------------------------------
  // cmd_args: Cmd_Args and Cmd_ArgsFrom strcat the token texts into it,
  // one space apart, with nothing bounding the write

  /** cmd_args, the buffer the joined arguments are written into. */
  const CMD_ARGS_SIZE: nat := MAX_STRING_CHARS

  /** A token takes its text and a NUL in cmd_data, except a quoted token
      left open at the end of the line, which gets no NUL. */
  lemma StepBytes(s: string, p: nat)
    requires p <= |s|
    ensures NextToken(s, p).More? ==> NextToken(s, p).bytes == |NextToken(s, p).tok.text| + 1
    ensures NextToken(s, p).Last? ==>
              NextToken(s, p).bytes == |NextToken(s, p).tok.text| && s[NextToken(s, p).tok.offset] == '"'
  {
    var k := SkipBlanksAt(s, p);
    if k < |s| && s[k] != '\n' && s[k] != ';' {
      if s[k] == '"' {
        var q := QuoteEndAt(s, k + 1);
        if q == |s| {
          assert |s[k + 1..]| == q - (k + 1);
        } else {
          assert |s[k + 1..q]| == q - (k + 1);
        }
      } else {
        var w := WordEndAt(s, k);
        assert |s[k..w]| == w - k;
      }
    }
  }

  /** The join of `r`'s token texts and its NUL against the bytes `r` took
      in cmd_data: at most one byte more (the NUL an open quoted token did
      not get), and exactly as many when `exact`. */
  predicate JoinMatches(r: Scan, exact: bool) {
    && (r.tokens == [] ==> r.dataUsed == 0)
    && (r.tokens != [] ==> r.dataUsed <= |Join(Texts(r.tokens))| + 1 <= r.dataUsed + 1)
    && (r.tokens != [] && exact ==> |Join(Texts(r.tokens))| + 1 == r.dataUsed)
  }

  predicate QuoteFree(s: string, p: nat) {
    forall j :: p <= j < |s| ==> s[j] != '"'
  }

  /** Every scan's join matches its storage, exactly on a line without
      quotes. */
  lemma {:induction false} ScanJoin(s: string, p: nat, budget: nat)
    requires p <= |s|
    ensures JoinMatches(ScanAt(s, p, budget), QuoteFree(s, p))
    decreases |s| - p
  {
    if budget > 0 {
      StepBytes(s, p);
      match NextToken(s, p)
      case End =>
        assert ScanAt(s, p, budget) == Scan([], 0);
      case Last(t, n) =>
        assert ScanAt(s, p, budget) == Scan([t], n);
        assert Texts([t]) == [t.text];
      case More(t, n, next) =>
        ScanJoin(s, next, budget - 1);
        var rest := ScanAt(s, next, budget - 1);
        assert ScanAt(s, p, budget) == Prepend(t, n, rest);
        assert QuoteFree(s, p) ==> QuoteFree(s, next);
        PrependMatches(t, n, rest, QuoteFree(s, p));
    } else {
      assert ScanAt(s, p, budget) == Scan([], 0);
    }
  }

  /** A token stored with its NUL keeps the join matching. */
  lemma PrependMatches(t: Token, n: nat, rest: Scan, exact: bool)
    requires n == |t.text| + 1
    requires JoinMatches(rest, exact)
    ensures JoinMatches(Prepend(t, n, rest), exact)
  {
    JoinPrepend(t, rest.tokens);
  }

  /** One more token in front adds its text and a space to the join. */
  lemma JoinPrepend(t: Token, toks: seq<Token>)
    ensures toks == [] ==> Join(Texts([t] + toks)) == t.text
    ensures toks != [] ==> |Join(Texts([t] + toks))| == |t.text| + 1 + |Join(Texts(toks))|
  {
    var texts := [t.text] + Texts(toks);
    assert Texts([t] + toks) == texts;
    if toks != [] {
      assert texts[1..] == Texts(toks);
    } else {
      assert texts == [t.text];
    }
  }

  /** As written, the tokens of the dense line of 126 groups, of which the
      first is `aaaaaaa`: Cmd_Args joins the other 252 into 1259 bytes and
      writes them and a NUL, 1260 bytes, into the 1024-byte cmd_args. */
  lemma ArgsOverflow(s: string)
    requires s == DenseLine(126)
    ensures |Tokens(s).tokens| == 253 && Texts(Tokens(s).tokens)[0] == "aaaaaaa"
    ensures |ArgsFrom(Texts(Tokens(s).tokens), 1)| + 1 == 1260 > CMD_ARGS_SIZE
  {
    var b := MAX_STRING_TOKENS;
    DenseScan(s, 126, 0, b);
    DenseCount(s, 126, 0, b);
    DenseGroupSteps(s, 126, 0, b);
    forall j | 0 <= j < |s| ensures s[j] != '"' {
    }
    assert QuoteFree(s, 0);
    ScanJoin(s, 0, b);
    var texts := Texts(Tokens(s).tokens);
    assert |Join(texts)| == |texts[0]| + 1 + |Join(texts[1..])|;
  }

  /** Room for every join the tokens of an accepted line can make. */
  const CMD_ARGS_SIZE_NEEDED: nat := 2 * MAX_STRING_CHARS

  /** With cmd_args of 2 * MAX_STRING_CHARS bytes, the arguments of every
      line the tokenizer is given, joined from any token on, fit with
      their NUL. */
  lemma ArgsFit(s: string, from: int)
    requires |s| < MAX_STRING_CHARS
    ensures |ArgsFrom(Texts(Tokens(s).tokens), from)| + 1 <= CMD_ARGS_SIZE_NEEDED
  {
    var texts := Texts(Tokens(s).tokens);
    ArgsFromWithin(texts, from);
    ScanJoin(s, 0, MAX_STRING_TOKENS);
    ScanBounds(s, 0, MAX_STRING_TOKENS);
  }
}
