/**
  Cmd_MacroExpandString of source/cmd.c: rewrites the `$name` references
  of a command line before it is tokenized.

  Outside alias mode a name is looked up as a macro (a built-in function
  that formats a short value), then as a variable that is not private
  (its value is substituted and scanned again), then as `qt` (a quote) or
  `sc` (a semicolon); anything else expands to nothing. In alias mode only
  the positional parameters `$0`..`$9` and `$@` of the alias invocation
  are expanded. Text inside quotes is left alone, `$$` stands for `$`,
  and a line that would grow to MAX_STRING_CHARS bytes, needs 100
  substitutions, or ends inside quotes is discarded.
 */
module CmdExpand {
  import opened CmdText

  /** A console variable as the interpreter sees it: its current value and
      the flags it tests (CVAR_PRIVATE, CVAR_CUSTOM, CVAR_VOLATILE). */
  datatype Cvar = Cvar(value: string, isPrivate: bool, custom: bool, volatile: bool)

  /** What an expansion may consult. A macro is given as the text its
      function would format; `argv` is the current tokenization, whose
      tokens are the positional parameters in alias mode. */
  datatype Env = Env(macros: map<string, string>, cvars: map<string, Cvar>,
                     aliasMode: bool, argv: seq<string>)

  /** The first `n` characters of `s`, or all of `s` when it is shorter. */
  function Truncate(s: string, n: nat): (r: string)
    ensures |r| <= n && |r| <= |s| && r == s[..|r|]
    ensures |s| <= n ==> r == s
  {
    if |s| <= n then s else s[..n]
  }

  /** First position at or after `p` holding a byte above the space, or
      the end of `s`. */
  function BlanksEnd(s: string, p: nat): (k: nat)
    requires p <= |s|
    ensures p <= k <= |s|
    decreases |s| - p
  {
    if p < |s| && IsBlank(s[p]) then BlanksEnd(s, p + 1) else p
  }

  /** End of the run of bytes above the space starting at `p`. */
  function WordEnd(s: string, p: nat): (k: nat)
    requires p <= |s|
    ensures p <= k <= |s|
    decreases |s| - p
  {
    if p < |s| && !IsBlank(s[p]) then WordEnd(s, p + 1) else p
  }

  /** Position of the first `}` at or after `p`, or the end of `s`. */
  function BraceEnd(s: string, p: nat): (k: nat)
    requires p <= |s|
    ensures p <= k <= |s|
    decreases |s| - p
  {
    if p < |s| && s[p] != '}' then BraceEnd(s, p + 1) else p
  }

  /** BlanksEnd stops at the first byte above the space. */
  lemma {:induction false} BlanksEndSpec(s: string, p: nat)
    requires p <= |s|
    ensures forall j :: p <= j < BlanksEnd(s, p) ==> IsBlank(s[j])
    ensures BlanksEnd(s, p) < |s| ==> !IsBlank(s[BlanksEnd(s, p)])
    decreases |s| - p
  {
    if p < |s| && IsBlank(s[p]) {
      BlanksEndSpec(s, p + 1);
    }
  }

  /** WordEnd stops at the first blank. */
  lemma {:induction false} WordEndSpec(s: string, p: nat)
    requires p <= |s|
    ensures forall j :: p <= j < WordEnd(s, p) ==> !IsBlank(s[j])
    ensures WordEnd(s, p) < |s| ==> IsBlank(s[WordEnd(s, p)])
    decreases |s| - p
  {
    if p < |s| && !IsBlank(s[p]) {
      WordEndSpec(s, p + 1);
    }
  }

  /** BraceEnd stops at the first closing brace. */
  lemma {:induction false} BraceEndSpec(s: string, p: nat)
    requires p <= |s|
    ensures forall j :: p <= j < BraceEnd(s, p) ==> s[j] != '}'
    ensures BraceEnd(s, p) < |s| ==> s[BraceEnd(s, p)] == '}'
    decreases |s| - p
  {
    if p < |s| && s[p] != '}' {
      BraceEndSpec(s, p + 1);
    }
  }

  /** A macro name and the position just after it. */
  datatype Name = Name(name: string, end: nat)

  /** The name starting at `p`: `{`, an optional `$`, then everything up
      to a closing `}` (which is consumed) or the end; otherwise a run of
      bytes above the space. */
  function ParseName(s: string, p: nat): (r: Name)
    requires p <= |s|
    ensures p <= r.end <= |s|
  {
    if p < |s| && s[p] == '{' then
      var q := if p + 1 < |s| && s[p + 1] == '$' then p + 2 else p + 1;
      var c := BraceEnd(s, q);
      Name(s[q..c], if c < |s| then c + 1 else c)
    else
      var w := WordEnd(s, p);
      Name(s[p..w], w)
  }

  /** A braced name holds no closing brace and ends at one or at the end
      of the line; any other name is the run of bytes above the space
      that starts at `p`. */
  lemma ParseNameSpec(s: string, p: nat)
    requires p <= |s|
    ensures var r := ParseName(s, p);
            if p < |s| && s[p] == '{' then
              (forall j :: 0 <= j < |r.name| ==> r.name[j] != '}') &&
              (r.end < |s| ==> s[r.end - 1] == '}')
            else
              r.name == s[p..r.end] && (forall j :: 0 <= j < |r.name| ==> !IsBlank(r.name[j])) &&
              (r.end < |s| ==> IsBlank(s[r.end]))
  {
    if p < |s| && s[p] == '{' {
      var q := if p + 1 < |s| && s[p + 1] == '$' then p + 2 else p + 1;
      BraceEndSpec(s, q);
    } else {
      WordEndSpec(s, p);
    }
  }

  /** How a name is replaced: not at all, or by `text`, which is scanned
      again when `rescan` holds. */
  datatype Resolution = Skip | Value(text: string, rescan: bool)

  /** The replacement for `name` when the line is already `len` bytes
      long. A macro formats into a buffer of MAX_STRING_CHARS - len bytes,
      so at most MAX_STRING_CHARS - len - 1 characters of it are used. */
  function Resolve(name: string, env: Env, len: nat): (r: Resolution)
    requires name != [] && len < MAX_STRING_CHARS
    ensures env.aliasMode && r.Value? ==>
              |name| == 1 && !r.rescan &&
              (IsDigit(name[0]) || name[0] == '@')
    ensures !env.aliasMode ==> r.Value?
    ensures r.Value? && r.rescan ==>
              !env.aliasMode && name !in env.macros && name in env.cvars &&
              !env.cvars[name].isPrivate && r.text == env.cvars[name].value
    ensures !env.aliasMode && name in env.macros ==> len + |r.text| < MAX_STRING_CHARS
  {
    if env.aliasMode then
      if |name| != 1 then Skip
      else if IsDigit(name[0]) then Value(Argv(env.argv, name[0] as int - '0' as int), false)
      else if name[0] == '@' then Value(ArgsFrom(env.argv, 1), false)
      else Skip
    else if name in env.macros then
      Value(Truncate(env.macros[name], MAX_STRING_CHARS - len - 1), false)
    else if name in env.cvars && !env.cvars[name].isPrivate then
      Value(env.cvars[name].value, true)
    else if name == "qt" then Value("\"", false)
    else if name == "sc" then Value(";", false)
    else Value("", false)
  }

  /** Substitutions allowed for one line. */
  const EXPANSION_LIMIT: nat := 100

  /** The state of the expansion loop: the line so far, the position
      looked at, whether that position is inside quotes, the number of
      substitutions made and the length the line is accounted for (`len`
      is not lowered when `$$` becomes `$`). */
  datatype State = State(scan: string, i: nat, inq: bool, count: nat, len: nat)

  predicate Running(st: State) {
    st.i <= |st.scan| <= st.len < MAX_STRING_CHARS && st.count < EXPANSION_LIMIT
  }

  /** The outcome of one pass of the loop: a result, or the next state. */
  datatype Next = Stop(result: Option<string>) | Go(st: State)

  /** One pass of the loop at position `st.i`: a quote toggles the quote
      state; outside quotes a `$` at the end stops the scan, `$$` becomes
      `$`, and `$name` is replaced as Resolve says, unless the line would
      grow to MAX_STRING_CHARS bytes or this is the 100th substitution.
      Every pass either makes a substitution or moves on without growing
      the part left to scan. */
  function Step(st: State, env: Env): (r: Next)
    requires Running(st) && st.i < |st.scan|
    ensures r.Go? ==> Running(r.st)
    ensures r.Go? ==> r.st.count == st.count + 1 ||
                      (r.st.count == st.count && |r.st.scan| - r.st.i < |st.scan| - st.i)
    ensures r.Stop? && r.result.Some? ==> r.result.value == st.scan
  {
    var scan, i := st.scan, st.i;
    var inq := if scan[i] == '"' then !st.inq else st.inq;
    if inq || scan[i] != '$' then Go(st.(i := i + 1, inq := inq))
    else if i + 1 == |scan| then Stop(Some(scan))
    else if scan[i + 1] == '$' then Go(st.(scan := scan[..i] + scan[i + 1..], i := i + 1, inq := false))
    else
      var n := ParseName(scan, BlanksEnd(scan, i + 1));
      if n.name == [] then Go(st.(i := i + 1, inq := false))
      else
        match Resolve(n.name, env, st.len)
        case Skip => Go(st.(i := i + 1, inq := false))
        case Value(tok, rescan) =>
          if st.len + |tok| >= MAX_STRING_CHARS || st.count + 1 == EXPANSION_LIMIT then Stop(None)
          else Go(State(scan[..i] + tok + scan[n.end..], if rescan then i else i + |tok|,
                        false, st.count + 1, st.len + |tok|))
  }

  /** The expansion from state `st` on; at the end of the line the result
      is the line, unless it ends inside quotes. */
  function ExpandFrom(st: State, env: Env): Option<string>
    requires Running(st)
    decreases EXPANSION_LIMIT - st.count, |st.scan| - st.i, 1
  {
    if st.i == |st.scan| then (if st.inq then None else Some(st.scan))
    else Continue(st, Step(st, env), env)
  }

  /** The expansion after the pass that took `st` to `r`. */
  function Continue(st: State, r: Next, env: Env): Option<string>
    requires Running(st) && st.i < |st.scan| && r == Step(st, env)
    decreases EXPANSION_LIMIT - st.count, |st.scan| - st.i, 0
  {
    match r
    case Stop(res) => res
    case Go(next) => ExpandFrom(next, env)
  }

  /** The expansion of a whole line, None when it is discarded. */
  function MacroExpand(text: string, env: Env): Option<string> {
    if |text| >= MAX_STRING_CHARS then None
    else ExpandFrom(State(text, 0, false, 0, |text|), env)
  }

  // -----------------------------------------------------------------------
  // The expansion loop

  /** Skips the bytes up to and including the space after a `$`. */
  method SkipBlankBytes(s: string, p: nat) returns (k: nat)
    requires p <= |s|
    ensures k == BlanksEnd(s, p)
  {
    k := p;
    while k < |s| && IsBlank(s[k])
      invariant p <= k <= |s|
      invariant BlanksEnd(s, p) == BlanksEnd(s, k)
    {
      k := k + 1;
    }
  }

  /** Copies a braced name up to the closing brace. */
  method CopyBraced(s: string, p: nat) returns (c: nat, name: string)
    requires p <= |s|
    ensures c == BraceEnd(s, p) && name == s[p..c]
  {
    c := p;
    name := "";
    while c < |s| && s[c] != '}'
      invariant p <= c <= |s|
      invariant BraceEnd(s, p) == BraceEnd(s, c)
      invariant name == s[p..c]
    {
      name := name + [s[c]];
      c := c + 1;
    }
  }

  /** Copies a name made of bytes above the space. */
  method CopyWordName(s: string, p: nat) returns (w: nat, name: string)
    requires p <= |s|
    ensures w == WordEnd(s, p) && name == s[p..w]
  {
    w := p;
    name := "";
    while w < |s| && !IsBlank(s[w])
      invariant p <= w <= |s|
      invariant WordEnd(s, p) == WordEnd(s, w)
      invariant name == s[p..w]
    {
      name := name + [s[w]];
      w := w + 1;
    }
  }

  /** Copies the name after a `$` into the temporary buffer. */
  method ReadName(s: string, p: nat) returns (r: Name)
    requires p <= |s|
    ensures r == ParseName(s, p)
  {
    if p < |s| && s[p] == '{' {
      var q := p + 1;
      if q < |s| && s[q] == '$' {
        q := q + 1;
      }
      var c, name := CopyBraced(s, q);
      return Name(name, if c < |s| then c + 1 else c);
    }
    var w, name := CopyWordName(s, p);
    return Name(name, w);
  }

  /** Replaces the `$name` at position `i` (outside quotes, not `$$`). */
  method ExpandName(scan: string, i: nat, count: nat, len: nat, env: Env) returns (r: Next)
    requires Running(State(scan, i, false, count, len)) && i + 1 < |scan|
    requires scan[i] == '$' && scan[i + 1] != '$'
    ensures r == Step(State(scan, i, false, count, len), env)
  {
    var st := State(scan, i, false, count, len);
    var b := SkipBlankBytes(scan, i + 1);
    var n := ReadName(scan, b);
    if n.name == [] {
      r := Go(st.(i := i + 1, inq := false));
    } else {
      match Resolve(n.name, env, len)
      case Skip =>
        r := Go(st.(i := i + 1, inq := false));
      case Value(tok, rescan) =>
        if len + |tok| >= MAX_STRING_CHARS || count + 1 == EXPANSION_LIMIT {
          r := Stop(None);
        } else {
          r := Go(State(scan[..i] + tok + scan[n.end..], if rescan then i else i + |tok|,
                        false, count + 1, len + |tok|));
        }
    }
  }

  /** The loop of Cmd_MacroExpandString. */
  method MacroExpandString(text: string, env: Env) returns (r: Option<string>)
    ensures r == MacroExpand(text, env)
  {
    if |text| >= MAX_STRING_CHARS {
      return None;
    }
    var scan := text;
    var i: nat := 0;
    var inq := false;
    var count: nat := 0;
    var len: nat := |text|;
    while i < |scan|
      invariant Running(State(scan, i, inq, count, len))
      invariant MacroExpand(text, env) == ExpandFrom(State(scan, i, inq, count, len), env)
      decreases EXPANSION_LIMIT - count, |scan| - i
    {
      ghost var st := State(scan, i, inq, count, len);
      if scan[i] == '"' {
        inq := !inq;
      }
      if inq || scan[i] != '$' {
        i := i + 1;
      } else if i + 1 == |scan| {
        return Some(scan);
      } else if scan[i + 1] == '$' {
        // `$$` stands for a single `$`
        scan := scan[..i] + scan[i + 1..];
        i := i + 1;
      } else {
        var next := ExpandName(scan, i, count, len, env);
        if next.Stop? {
          return next.result;
        }
        scan, i, inq, count, len := next.st.scan, next.st.i, next.st.inq, next.st.count, next.st.len;
      }
      assert Step(st, env) == Go(State(scan, i, inq, count, len));
    }
    if inq {
      return None;
    }
    return Some(scan);
  }

  // -----------------------------------------------------------------------
  // Properties of the expansion

  /** An expanded line always fits a line buffer. */
  lemma {:induction false} ExpandFromFits(st: State, env: Env)
    requires Running(st)
    ensures ExpandFrom(st, env).Some? ==> |ExpandFrom(st, env).value| < MAX_STRING_CHARS
    decreases EXPANSION_LIMIT - st.count, |st.scan| - st.i
  {
    if st.i < |st.scan| {
      match Step(st, env)
      case Stop(r) =>
      case Go(next) => ExpandFromFits(next, env);
    }
  }

  lemma ExpandedLineFits(text: string, env: Env)
    ensures MacroExpand(text, env).Some? ==> |MacroExpand(text, env).value| < MAX_STRING_CHARS
  {
    if |text| < MAX_STRING_CHARS {
      ExpandFromFits(State(text, 0, false, 0, |text|), env);
    }
  }

  predicate NoDollar(s: string) {
    forall j :: 0 <= j < |s| ==> s[j] != '$'
  }

  /** Text without `$` is not changed; it is kept exactly when its quotes
      are balanced. */
  lemma {:induction false} InertFrom(s: string, i: nat, inq: bool, count: nat, len: nat, env: Env)
    requires Running(State(s, i, inq, count, len)) && NoDollar(s)
    requires inq <==> QuoteCount(s[..i]) % 2 == 1
    ensures ExpandFrom(State(s, i, inq, count, len), env) ==
              if QuoteCount(s) % 2 == 1 then None else Some(s)
    decreases |s| - i
  {
    if i == |s| {
      assert s[..i] == s;
    } else {
      var inq' := InertStep(s, i, inq, count, len, env);
      InertFrom(s, i + 1, inq', count, len, env);
    }
  }

  /** One pass of InertFrom: the byte at `i` is passed over and the quote
      state still tracks the parity of the quotes before the position. */
  lemma InertStep(s: string, i: nat, inq: bool, count: nat, len: nat, env: Env) returns (inq': bool)
    requires Running(State(s, i, inq, count, len)) && NoDollar(s) && i < |s|
    requires inq <==> QuoteCount(s[..i]) % 2 == 1
    ensures Running(State(s, i + 1, inq', count, len))
    ensures inq' <==> QuoteCount(s[..i + 1]) % 2 == 1
    ensures ExpandFrom(State(s, i, inq, count, len), env) == ExpandFrom(State(s, i + 1, inq', count, len), env)
  {
    assert s[..i + 1] == s[..i] + [s[i]];
    QuoteCountAppend(s[..i], s[i]);
    var st := State(s, i, inq, count, len);
    inq' := if s[i] == '"' then !inq else inq;
    assert s[i] != '$';
    PassOver(st, env);
    assert st.(i := i + 1, inq := inq') == State(s, i + 1, inq', count, len);
  }

  lemma InertText(s: string, env: Env)
    requires NoDollar(s)
    ensures MacroExpand(s, env) ==
              if |s| >= MAX_STRING_CHARS || QuoteCount(s) % 2 == 1 then None else Some(s)
  {
    if |s| < MAX_STRING_CHARS {
      assert s[..0] == [];
      InertFrom(s, 0, false, 0, |s|, env);
    }
  }

  /** Text that neither holds a `$` nor a quote. */
  predicate Plain(s: string) {
    forall j :: 0 <= j < |s| ==> s[j] != '$' && s[j] != '"'
  }

  /** A byte that is not a `$` outside quotes is passed over, toggling the
      quote state when it is a quote. */
  lemma PassOver(st: State, env: Env)
    requires Running(st) && st.i < |st.scan| && (st.inq || st.scan[st.i] != '$')
    ensures Running(st.(i := st.i + 1))
    ensures ExpandFrom(st, env) ==
              ExpandFrom(st.(i := st.i + 1, inq := if st.scan[st.i] == '"' then !st.inq else st.inq), env)
  {
    var r := Step(st, env);
    assert r == Go(st.(i := st.i + 1, inq := if st.scan[st.i] == '"' then !st.inq else st.inq));
    assert ExpandFrom(st, env) == Continue(st, r, env);
  }

  /** Scanning over plain text outside quotes changes nothing. */
  lemma {:induction false} PlainRun(s: string, i: nat, j: nat, count: nat, len: nat, env: Env)
    requires i <= j && Running(State(s, j, false, count, len))
    requires forall k :: i <= k < j ==> s[k] != '$' && s[k] != '"'
    ensures ExpandFrom(State(s, i, false, count, len), env) ==
              ExpandFrom(State(s, j, false, count, len), env)
    decreases j - i
  {
    if i < j {
      var st := State(s, i, false, count, len);
      assert s[i] != '$' && s[i] != '"';
      PassOver(st, env);
      assert st.(i := i + 1, inq := false) == State(s, i + 1, false, count, len);
      PlainRun(s, i + 1, j, count, len, env);
    }
  }

  /** Plain text in front of the position of interest is passed over. */
  lemma PlainPrefix(p: string, rest: string, count: nat, len: nat, env: Env)
    requires Plain(p) && Running(State(p + rest, 0, false, count, len))
    ensures ExpandFrom(State(p + rest, 0, false, count, len), env) ==
              ExpandFrom(State(p + rest, |p|, false, count, len), env)
  {
    var s := p + rest;
    forall k | 0 <= k < |p| ensures s[k] != '$' && s[k] != '"' {
      assert s[k] == p[k];
    }
    PlainRun(s, 0, |p|, count, len, env);
  }

  /** Plain text outside quotes up to the end is kept as it is. */
  lemma PlainTail(s: string, i: nat, count: nat, len: nat, env: Env)
    requires Running(State(s, i, false, count, len)) && Plain(s[i..])
    ensures ExpandFrom(State(s, i, false, count, len), env) == Some(s)
  {
    forall k | i <= k < |s| ensures s[k] != '$' && s[k] != '"' {
      assert s[k] == s[i..][k - i];
    }
    PlainRun(s, i, |s|, count, len, env);
  }

  lemma PlainConcat(a: string, b: string)
    requires Plain(a) && Plain(b)
    ensures Plain(a + b)
  {
    forall k | 0 <= k < |a + b| ensures (a + b)[k] != '$' && (a + b)[k] != '"' {
      if k < |a| {
        assert (a + b)[k] == a[k];
      } else {
        assert (a + b)[k] == b[k - |a|];
      }
    }
  }

  /** `$$` is replaced by a single `$`. */
  lemma DollarEscape(p: string, q: string, env: Env)
    requires Plain(p) && Plain(q) && |p| + 2 + |q| < MAX_STRING_CHARS
    ensures MacroExpand(p + "$$" + q, env) == Some(p + "$" + q)
  {
    var s := p + "$$" + q;
    var len := |s|;
    assert s == p + ("$$" + q);
    PlainPrefix(p, "$$" + q, 0, len, env);
    assert s[|p|] == '$' && s[|p| + 1] == '$';
    var s' := s[..|p|] + s[|p| + 1..];
    assert s' == p + "$" + q && s'[|p| + 1..] == q;
    assert Step(State(s, |p|, false, 0, len), env) == Go(State(s', |p| + 1, false, 0, len));
    PlainTail(s', |p| + 1, 0, len, env);
  }

  /** A name that starts with a byte above the space and runs up to a
      blank or the end. */
  predicate IsName(name: string) {
    name != [] && name[0] != '{' && name[0] != '$' && forall j :: 0 <= j < |name| ==> !IsBlank(name[j])
  }

  lemma ParsePlainName(p: string, name: string, q: string)
    requires IsName(name) && (q == [] || IsBlank(q[0]))
    ensures ParseName(p + "$" + name + q, BlanksEnd(p + "$" + name + q, |p| + 1)) ==
              Name(name, |p| + 1 + |name|)
  {
    var pre := p + "$";
    var s := pre + name + q;
    var b := |pre|;
    var e := b + |name|;
    forall j | b <= j < e ensures !IsBlank(s[j]) {
      assert s[j] == (pre + name)[j] == name[j - b];
    }
    if q != [] {
      assert s[e] == q[0];
    }
    assert s[b..e] == name;
    assert e < |s| ==> IsBlank(s[e]);
    ParseWordName(s, b, e);
  }

  lemma ParseWordName(s: string, b: nat, e: nat)
    requires b < e <= |s| && s[b] != '{'
    requires forall j :: b <= j < e ==> !IsBlank(s[j])
    requires e < |s| ==> IsBlank(s[e])
    ensures BlanksEnd(s, b) == b
    ensures ParseName(s, b) == Name(s[b..e], e)
  {
    WordEndPlainRun(s, b, e);
  }

  lemma {:induction false} WordEndPlainRun(s: string, p: nat, e: nat)
    requires p <= e <= |s|
    requires forall j :: p <= j < e ==> !IsBlank(s[j])
    requires e < |s| ==> IsBlank(s[e])
    ensures WordEnd(s, p) == e
    decreases e - p
  {
    if p < e {
      WordEndPlainRun(s, p + 1, e);
    }
  }

  /** Position `st.i` holds a `$` outside quotes, not followed by another
      `$`, and the name after it is `n`. */
  predicate DollarAt(st: State, n: Name) {
    Running(st) && !st.inq && st.i + 1 < |st.scan| &&
    st.scan[st.i] == '$' && st.scan[st.i + 1] != '$' &&
    n == ParseName(st.scan, BlanksEnd(st.scan, st.i + 1)) && n.name != []
  }

  /** One substitution of the `$` at position `i` by `tok`, which leads to
      the state `next` unless a limit is reached. */
  lemma SubstitutionStep(st: State, env: Env, n: Name, tok: string, rescan: bool, next: State)
    requires DollarAt(st, n)
    requires Resolve(n.name, env, st.len) == Value(tok, rescan)
    requires next == State(st.scan[..st.i] + tok + st.scan[n.end..],
                           if rescan then st.i else st.i + |tok|,
                           false, st.count + 1, st.len + |tok|)
    ensures st.len + |tok| >= MAX_STRING_CHARS || st.count + 1 == EXPANSION_LIMIT ==>
              ExpandFrom(st, env) == None
    ensures st.len + |tok| < MAX_STRING_CHARS && st.count + 1 < EXPANSION_LIMIT ==>
              Running(next) && ExpandFrom(st, env) == ExpandFrom(next, env)
  {
    var scan, i := st.scan, st.i;
    assert scan[i] != '"';
    assert ParseName(scan, BlanksEnd(scan, i + 1)) == n;
    var r := Step(st, env);
    assert r == if st.len + |tok| >= MAX_STRING_CHARS || st.count + 1 == EXPANSION_LIMIT then Stop(None)
                else Go(next);
    assert ExpandFrom(st, env) == Continue(st, r, env);
  }

  /** The name after the `$` that follows `p` in `p $name q`. */
  lemma DollarNameParsed(s: string, p: string, name: string, q: string)
    requires s == p + "$" + name + q
    requires IsName(name) && (q == [] || IsBlank(q[0]))
    ensures s[|p|] == '$' && s[|p| + 1] == name[0]
    ensures ParseName(s, BlanksEnd(s, |p| + 1)) == Name(name, |p| + 1 + |name|)
  {
    ParsePlainName(p, name, q);
  }

  /** Replacing `$name` in `p $name q` leaves `p` and `q` around the value. */
  lemma SpliceAround(s: string, p: string, name: string, q: string, tok: string)
    requires s == p + "$" + name + q
    ensures s[..|p|] + tok + s[|p| + 1 + |name|..] == p + tok + q
  {
    assert s[..|p|] == p && s[|p| + 1 + |name|..] == q;
  }

  /** In `p $name q` the scan stops at the `$` before `name`, and the
      substitution leaves `p tok q`. */
  lemma DollarNameAt(s: string, s': string, p: string, name: string, q: string,
                     st: State, n: Name, tok: string)
    requires s == p + "$" + name + q && s' == p + tok + q
    requires IsName(name) && (q == [] || IsBlank(q[0]))
    requires st.scan == s && st.i == |p| && !st.inq && Running(st)
    requires n == Name(name, |p| + 1 + |name|)
    ensures DollarAt(st, n)
    ensures st.scan[..st.i] + tok + st.scan[n.end..] == s'
  {
    DollarNameParsed(s, p, name, q);
    SpliceAround(s, p, name, q, tok);
  }

  /** The first substitution in a line `s = p $name q`, which becomes
      `s' = p tok q`. */
  lemma DollarNameStep(s: string, s': string, p: string, name: string, q: string, len: nat,
                       env: Env, tok: string, rescan: bool)
    requires s == p + "$" + name + q && s' == p + tok + q
    requires IsName(name) && (q == [] || IsBlank(q[0]))
    requires |s| <= len < MAX_STRING_CHARS
    requires Resolve(name, env, len) == Value(tok, rescan)
    ensures ExpandFrom(State(s, |p|, false, 0, len), env) ==
              if len + |tok| >= MAX_STRING_CHARS then None
              else ExpandFrom(State(s', if rescan then |p| else |p| + |tok|, false, 1, len + |tok|), env)
  {
    var st := State(s, |p|, false, 0, len);
    var n := Name(name, |p| + 1 + |name|);
    DollarNameAt(s, s', p, name, q, st, n, tok);
    var next := State(s', if rescan then |p| else |p| + |tok|, false, 1, len + |tok|);
    SubstitutionStep(st, env, n, tok, rescan, next);
  }

  /** The expansion of a line `p $rest` with plain `p` starts at the `$`. */
  lemma PlainBeforeDollar(s: string, p: string, name: string, q: string, env: Env)
    requires s == p + "$" + name + q && Plain(p) && |s| < MAX_STRING_CHARS
    ensures MacroExpand(s, env) == ExpandFrom(State(s, |p|, false, 0, |s|), env)
  {
    assert s == p + ("$" + name + q);
    PlainPrefix(p, "$" + name + q, 0, |s|, env);
  }

  /** A line `p $name q` with plain `p` after its first substitution. */
  lemma FirstSubstitution(s: string, s': string, p: string, name: string, q: string,
                          env: Env, tok: string, rescan: bool)
    requires s == p + "$" + name + q && s' == p + tok + q
    requires Plain(p) && IsName(name) && (q == [] || IsBlank(q[0])) && |s| < MAX_STRING_CHARS
    requires Resolve(name, env, |s|) == Value(tok, rescan)
    ensures MacroExpand(s, env) ==
              if |s| + |tok| >= MAX_STRING_CHARS then None
              else ExpandFrom(State(s', if rescan then |p| else |p| + |tok|, false, 1, |s| + |tok|), env)
  {
    var start := ExpandFrom(State(s, |p|, false, 0, |s|), env);
    PlainBeforeDollar(s, p, name, q, env);
    assert MacroExpand(s, env) == start;
    DollarNameStep(s, s', p, name, q, |s|, env, tok, rescan);
  }

  /** `$name` for a variable that is not private (and no macro of that
      name) is replaced by the variable's value, which is scanned again. */
  lemma VariableSubstituted(p: string, name: string, q: string, env: Env)
    requires !env.aliasMode && name !in env.macros
    requires name in env.cvars && !env.cvars[name].isPrivate
    requires Plain(p) && Plain(q) && Plain(env.cvars[name].value)
    requires IsName(name) && (q == [] || IsBlank(q[0]))
    requires |p| + 1 + |name| + |q| + |env.cvars[name].value| < MAX_STRING_CHARS
    ensures MacroExpand(p + "$" + name + q, env) == Some(p + env.cvars[name].value + q)
  {
    var s := p + "$" + name + q;
    var v := env.cvars[name].value;
    var s' := p + v + q;
    FirstSubstitution(s, s', p, name, q, env, v, true);
    assert s'[|p|..] == v + q;
    PlainConcat(v, q);
    PlainTail(s', |p|, 1, |s| + |v|, env);
  }

  /** `$name` for a name that is no macro, no public variable and neither
      `qt` nor `sc` expands to nothing. */
  lemma UnknownNameRemoved(p: string, name: string, q: string, env: Env)
    requires !env.aliasMode && name !in env.macros
    requires name !in env.cvars || env.cvars[name].isPrivate
    requires name != "qt" && name != "sc"
    requires Plain(p) && Plain(q)
    requires IsName(name) && (q == [] || IsBlank(q[0]))
    requires |p| + 1 + |name| + |q| < MAX_STRING_CHARS
    ensures MacroExpand(p + "$" + name + q, env) == Some(p + q)
  {
    var s := p + "$" + name + q;
    FirstSubstitution(s, p + q, p, name, q, env, "", false);
    assert (p + q)[|p|..] == q;
    PlainTail(p + q, |p|, 1, |s|, env);
  }

  /** A variable whose value refers to itself is caught by the
      substitution limit (or by the length limit) and the line is
      discarded. */
  lemma {:induction false} SelfReferenceFrom(name: string, count: nat, len: nat, env: Env)
    requires !env.aliasMode && name !in env.macros
    requires name in env.cvars && !env.cvars[name].isPrivate
    requires env.cvars[name].value == "$" + name
    requires IsName(name) && 1 + |name| <= len < MAX_STRING_CHARS && count < EXPANSION_LIMIT
    ensures ExpandFrom(State("$" + name, 0, false, count, len), env) == None
    decreases EXPANSION_LIMIT - count
  {
    SelfReferenceStep(name, count, len, env);
    if len + 1 + |name| < MAX_STRING_CHARS && count + 1 < EXPANSION_LIMIT {
      SelfReferenceFrom(name, count + 1, len + 1 + |name|, env);
    }
  }

  /** One pass over `$name` when the variable holds `$name`: the line is
      unchanged, one substitution is counted and the length grows. */
  lemma SelfReferenceStep(name: string, count: nat, len: nat, env: Env)
    requires !env.aliasMode && name !in env.macros
    requires name in env.cvars && !env.cvars[name].isPrivate
    requires env.cvars[name].value == "$" + name
    requires IsName(name) && 1 + |name| <= len < MAX_STRING_CHARS && count < EXPANSION_LIMIT
    ensures len + 1 + |name| >= MAX_STRING_CHARS || count + 1 == EXPANSION_LIMIT ==>
              ExpandFrom(State("$" + name, 0, false, count, len), env) == None
    ensures len + 1 + |name| < MAX_STRING_CHARS && count + 1 < EXPANSION_LIMIT ==>
              ExpandFrom(State("$" + name, 0, false, count, len), env) ==
              ExpandFrom(State("$" + name, 0, false, count + 1, len + 1 + |name|), env)
  {
    var st := State("$" + name, 0, false, count, len);
    var n := Name(name, 1 + |name|);
    SelfReferenceAt(name, st, n, env);
    var next := State("$" + name, 0, false, count + 1, len + 1 + |name|);
    SubstitutionStep(st, env, n, "$" + name, true, next);
  }

  /** In the line `$name` the scan stops at the `$`, and the variable's
      value `$name` replaces the whole line by itself, to be scanned again. */
  lemma SelfReferenceAt(name: string, st: State, n: Name, env: Env)
    requires !env.aliasMode && name !in env.macros
    requires name in env.cvars && !env.cvars[name].isPrivate
    requires env.cvars[name].value == "$" + name
    requires IsName(name) && st.scan == "$" + name && st.i == 0 && !st.inq && Running(st)
    requires n == Name(name, 1 + |name|)
    ensures DollarAt(st, n) && st.scan[..st.i] + st.scan + st.scan[n.end..] == st.scan
    ensures Resolve(n.name, env, st.len) == Value(st.scan, true)
  {
    var s := st.scan;
    assert s == [] + "$" + name + [] == [] + s + [];
    DollarNameAt(s, s, [], name, [], st, n, s);
    VariableResolves(name, env, st.len);
  }

  /** A public variable that no macro shadows resolves to its value, which
      is scanned again. */
  lemma VariableResolves(name: string, env: Env, len: nat)
    requires !env.aliasMode && name !in env.macros
    requires name in env.cvars && !env.cvars[name].isPrivate
    requires name != [] && len < MAX_STRING_CHARS
    ensures Resolve(name, env, len) == Value(env.cvars[name].value, true)
  {
  }

  lemma SelfReference(name: string, env: Env)
    requires !env.aliasMode && name !in env.macros
    requires name in env.cvars && !env.cvars[name].isPrivate
    requires env.cvars[name].value == "$" + name
    requires IsName(name) && 1 + |name| < MAX_STRING_CHARS
    ensures MacroExpand("$" + name, env) == None
  {
    SelfReferenceFrom(name, 0, 1 + |name|, env);
  }

  /** In alias mode `$d` is replaced by positional parameter d of the
      alias invocation, and the replacement is not scanned again. */
  lemma PositionalParameter(p: string, d: char, q: string, env: Env)
    requires env.aliasMode && IsDigit(d)
    requires Plain(p) && Plain(q) && (q == [] || IsBlank(q[0]))
    requires |p| + 2 + |q| + |Argv(env.argv, d as int - '0' as int)| < MAX_STRING_CHARS
    ensures MacroExpand(p + "$" + [d] + q, env) ==
              Some(p + Argv(env.argv, d as int - '0' as int) + q)
  {
    LiteralSubstituted(p, [d], q, env, Argv(env.argv, d as int - '0' as int));
  }

  /** A line `p $name q` whose name resolves to `tok`, which is not scanned
      again and fits: the result is `p tok q`. */
  lemma LiteralSubstituted(p: string, name: string, q: string, env: Env, tok: string)
    requires Plain(p) && Plain(q) && IsName(name) && (q == [] || IsBlank(q[0]))
    requires |p| + 1 + |name| + |q| + |tok| < MAX_STRING_CHARS
    requires Resolve(name, env, |p| + 1 + |name| + |q|) == Value(tok, false)
    ensures MacroExpand(p + "$" + name + q, env) == Some(p + tok + q)
  {
    var s := p + "$" + name + q;
    var s' := p + tok + q;
    FirstSubstitution(s, s', p, name, q, env, tok, false);
    assert s'[|p| + |tok|..] == q;
    PlainTail(s', |p| + |tok|, 1, |s| + |tok|, env);
  }

  /** Outside alias mode `$qt` and `$sc` that no macro or public variable
      claims become a quote and a semicolon, which are not scanned again. */
  lemma EscapeSubstituted(p: string, name: string, q: string, env: Env)
    requires name == "qt" || name == "sc"
    requires !env.aliasMode && name !in env.macros
    requires name !in env.cvars || env.cvars[name].isPrivate
    requires Plain(p) && Plain(q) && (q == [] || IsBlank(q[0]))
    requires |p| + 4 + |q| < MAX_STRING_CHARS
    ensures MacroExpand(p + "$" + name + q, env) == Some(p + (if name == "qt" then "\"" else ";") + q)
  {
    LiteralSubstituted(p, name, q, env, if name == "qt" then "\"" else ";");
  }

  /** In alias mode `$@` is replaced by the arguments of the alias
      invocation, which are not scanned again. */
  lemma ArgumentsSubstituted(p: string, q: string, env: Env)
    requires env.aliasMode
    requires Plain(p) && Plain(q) && (q == [] || IsBlank(q[0]))
    requires |p| + 2 + |q| + |ArgsFrom(env.argv, 1)| < MAX_STRING_CHARS
    ensures MacroExpand(p + "$@" + q, env) == Some(p + ArgsFrom(env.argv, 1) + q)
  {
    assert p + "$@" + q == p + "$" + "@" + q;
    LiteralSubstituted(p, "@", q, env, ArgsFrom(env.argv, 1));
  }

  /** Outside alias mode a macro wins over a variable of the same name:
      `$name` becomes the macro's text, cut to the space left in the line,
      and that text is not scanned again. */
  lemma MacroSubstituted(p: string, name: string, q: string, env: Env)
    requires !env.aliasMode && name in env.macros
    requires Plain(p) && Plain(q) && IsName(name) && (q == [] || IsBlank(q[0]))
    requires |p| + 1 + |name| + |q| < MAX_STRING_CHARS
    ensures var len := |p| + 1 + |name| + |q|;
            MacroExpand(p + "$" + name + q, env) ==
              Some(p + Truncate(env.macros[name], MAX_STRING_CHARS - len - 1) + q)
  {
    var len := |p| + 1 + |name| + |q|;
    LiteralSubstituted(p, name, q, env, Truncate(env.macros[name], MAX_STRING_CHARS - len - 1));
  }

  /** In alias mode a name longer than one byte is left as it is. */
  lemma AliasModeKeepsLongNames(p: string, name: string, q: string, env: Env)
    requires env.aliasMode && IsName(name) && |name| > 1
    requires Plain(p) && Plain(name) && Plain(q) && (q == [] || IsBlank(q[0]))
    requires |p| + 1 + |name| + |q| < MAX_STRING_CHARS
    ensures MacroExpand(p + "$" + name + q, env) == Some(p + "$" + name + q)
  {
    var s := p + "$" + name + q;
    SkippedLine(s, p, name, q, env);
    assert s[|p| + 1..] == name + q;
    PlainConcat(name, q);
    PlainTail(s, |p| + 1, 0, |s|, env);
  }

  /** A line `p $name q` with plain `p` whose name Resolve skips. */
  lemma SkippedLine(s: string, p: string, name: string, q: string, env: Env)
    requires s == p + "$" + name + q
    requires Plain(p) && IsName(name) && (q == [] || IsBlank(q[0])) && |s| < MAX_STRING_CHARS
    requires Resolve(name, env, |s|) == Skip
    ensures MacroExpand(s, env) == ExpandFrom(State(s, |p| + 1, false, 0, |s|), env)
  {
    assert s == p + ("$" + name + q);
    PlainPrefix(p, "$" + name + q, 0, |s|, env);
    SkippedName(s, p, name, q, |s|, env);
  }

  /** A `$name` that Resolve skips is passed over. */
  lemma SkippedName(s: string, p: string, name: string, q: string, len: nat, env: Env)
    requires s == p + "$" + name + q
    requires IsName(name) && (q == [] || IsBlank(q[0]))
    requires |s| <= len < MAX_STRING_CHARS
    requires Resolve(name, env, len) == Skip
    ensures ExpandFrom(State(s, |p|, false, 0, len), env) == ExpandFrom(State(s, |p| + 1, false, 0, len), env)
  {
    DollarNameParsed(s, p, name, q);
    assert Step(State(s, |p|, false, 0, len), env) == Go(State(s, |p| + 1, false, 0, len));
  }

  /** `${$name}` reads the variable `name` itself: with `name` holding
      "foo" and `foo` holding "bar", the line becomes "foo". */
  lemma BracedDollarName(s: string, env: Env)
    requires s == "${$name}"
    requires !env.aliasMode && "name" !in env.macros
    requires "name" in env.cvars && !env.cvars["name"].isPrivate
    requires env.cvars["name"].value == "foo"
    ensures MacroExpand(s, env) == Some("foo")
  {
    BracedNameParsed(s);
    assert s[..0] + "foo" + s[8..] == "foo";
    var st := State(s, 0, false, 0, 8);
    assert MacroExpand(s, env) == ExpandFrom(st, env);
    SubstitutionStep(st, env, Name("name", 8), "foo", true, State("foo", 0, false, 1, 11));
    assert Plain("foo"[0..]);
    PlainTail("foo", 0, 1, 11, env);
  }

  /** The name read from `${$name}` is `name`. */
  lemma BracedNameParsed(s: string)
    requires s == "${$name}"
    ensures BlanksEnd(s, 1) == 1 && ParseName(s, 1) == Name("name", 8)
  {
    assert s[3] == 'n' && s[4] == 'a' && s[5] == 'm' && s[6] == 'e' && s[7] == '}';
    assert BraceEnd(s, 7) == 7;
    assert BraceEnd(s, 5) == BraceEnd(s, 7);
    assert BraceEnd(s, 3) == BraceEnd(s, 5);
    assert s[3..7] == "name";
  }

}
