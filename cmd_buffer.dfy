/**
  The bounded command text buffer of source/cmd.c (Cbuf_*): a fixed-size
  character array, the number of bytes in use, the wait count set by the
  `wait` command and the alias expansion counter that guards against alias
  loops.
 */
module CmdBuffer {
  import opened CmdText

  /** True when byte `k` of `s` ends a statement: a newline, or a `;` with an
      even number of quotes before it. */
  predicate IsDelimiter(s: string, k: nat)
    requires k < |s|
  {
    s[k] == '\n' || (s[k] == ';' && QuoteCount(s[..k]) % 2 == 0)
  }

  /** Index of the first delimiter of `s`, |s| when there is none. */
  function LineEnd(s: string): (i: nat)
    ensures i <= |s|
    ensures i < |s| ==> IsDelimiter(s, i)
    ensures forall k :: 0 <= k < i ==> !IsDelimiter(s, k)
  {
    LineEndFrom(s, 0)
  }

  function LineEndFrom(s: string, j: nat): (i: nat)
    requires j <= |s|
    requires forall k :: 0 <= k < j ==> !IsDelimiter(s, k)
    ensures j <= i <= |s|
    ensures i < |s| ==> IsDelimiter(s, i)
    ensures forall k :: 0 <= k < i ==> !IsDelimiter(s, k)
    decreases |s| - j
  {
    if j == |s| || IsDelimiter(s, j) then j else LineEndFrom(s, j + 1)
  }

  /** Number of bytes of the next statement that are handed to the executor:
      the statement up to its delimiter, cut to fit a line of
      MAX_STRING_CHARS bytes. */
  function Cut(s: string): (n: nat)
    ensures n <= |s| && n <= MAX_STRING_CHARS - 1
  {
    if LineEnd(s) > MAX_STRING_CHARS - 1 then MAX_STRING_CHARS - 1 else LineEnd(s)
  }

  /** The statement executed next. */
  function Line(s: string): string {
    s[..Cut(s)]
  }

  /** What stays queued: everything after the cut and the one byte after it. */
  function Rest(s: string): string {
    if Cut(s) == |s| then [] else s[Cut(s) + 1..]
  }

  /** The queued text after Cbuf_AddTextEx of `s` into a buffer of
      `capacity` bytes: `s` is appended when it fits, otherwise nothing
      changes. */
  function Appended(queued: string, s: string, capacity: nat): (r: string)
    ensures |queued| <= |r| && r[..|queued|] == queued
    ensures |r| <= capacity || r == queued
  {
    if |queued| + |s| <= capacity then queued + s else queued
  }

  /** The queued text after Cbuf_InsertTextEx of `s`: `s` and a newline go
      in front when `s` is not empty and they fit, otherwise nothing
      changes. */
  function Inserted(queued: string, s: string, capacity: nat): (r: string)
    ensures |queued| <= |r| && r[|r| - |queued|..] == queued
    ensures |r| <= capacity || r == queued
  {
    if s != [] && |queued| + |s| + 1 <= capacity then s + "\n" + queued else queued
  }

  /** Each flush step makes progress, and only one byte between the line and
      the rest is dropped. */
  lemma LineRestSplit(s: string)
    requires s != []
    ensures |Rest(s)| < |s|
    ensures Cut(s) < |s| ==> s == Line(s) + [s[Cut(s)]] + Rest(s)
    ensures Cut(s) == |s| ==> Line(s) == s && Rest(s) == []
  {
    if Cut(s) < |s| {
      assert s == s[..Cut(s)] + [s[Cut(s)]] + s[Cut(s) + 1..];
    }
  }

  /** Two statements separated by `;`, neither holding a quote, newline or
      `;`, are taken one at a time. */
  lemma {:induction false} SplitAtSemicolon(a: string, b: string)
    requires |a| < MAX_STRING_CHARS
    requires forall k :: 0 <= k < |a| ==> a[k] != '"' && a[k] != ';' && a[k] != '\n'
    ensures Line(a + ";" + b) == a
    ensures Rest(a + ";" + b) == b
  {
    var s := a + ";" + b;
    assert s[..|a|] == a;
    forall k | 0 <= k < |a| ensures !IsDelimiter(s, k) {
      assert s[k] == a[k];
    }
    NoQuotes(a);
    assert IsDelimiter(s, |a|);
    assert LineEnd(s) == |a|;
    assert s[|a| + 1..] == b;
  }

  lemma {:induction false} NoQuotes(a: string)
    requires forall k :: 0 <= k < |a| ==> a[k] != '"'
    ensures QuoteCount(a) == 0
  {
    if a != [] {
      NoQuotes(a[..|a| - 1]);
    }
  }

  /** A `;` inside a quoted string does not end the statement. */
  lemma QuotedSemicolonKept(a: string, b: string, c: string)
    requires forall k :: 0 <= k < |a| ==> a[k] != '"' && a[k] != ';' && a[k] != '\n'
    requires forall k :: 0 <= k < |b| ==> b[k] != '"' && b[k] != '\n'
    ensures LineEnd(a + "\"" + b + ";" + c) > |a| + 1 + |b|
  {
    var s := a + "\"" + b + ";" + c;
    var q := |a| + 1 + |b|;
    assert s[..|a|] == a;
    NoQuotes(a);
    forall k | 0 <= k < |a| ensures !IsDelimiter(s, k) {
      assert s[k] == a[k];
    }
    assert !IsDelimiter(s, |a|);
    forall k | |a| < k <= q ensures !IsDelimiter(s, k) {
      OddInsideQuote(a, b, s, k);
    }
  }

  lemma OddInsideQuote(a: string, b: string, s: string, k: nat)
    requires forall j :: 0 <= j < |a| ==> a[j] != '"'
    requires forall j :: 0 <= j < |b| ==> b[j] != '"' && b[j] != '\n'
    requires |a| + 1 + |b| <= |s| && s[..|a| + 1 + |b|] == a + "\"" + b
    requires |a| < k <= |a| + 1 + |b| && k < |s|
    requires s[k] == ';' || (k < |a| + 1 + |b| && s[k] == b[k - |a| - 1])
    ensures !IsDelimiter(s, k)
  {
    var pre := s[..k];
    assert pre == a + "\"" + b[..k - |a| - 1];
    NoQuotes(a);
    NoQuotes(b[..k - |a| - 1]);
    QuoteCountConcat(a + "\"", b[..k - |a| - 1]);
    QuoteCountAppend(a, '"');
    if k < |a| + 1 + |b| {
      assert s[k] != '\n';
    }
  }

  lemma {:induction false} QuoteCountConcat(x: string, y: string)
    ensures QuoteCount(x + y) == QuoteCount(x) + QuoteCount(y)
    decreases |y|
  {
    if y != [] {
      var y' := y[..|y| - 1];
      assert x + y == (x + y') + [y[|y| - 1]];
      assert y == y' + [y[|y| - 1]];
      QuoteCountConcat(x, y');
      QuoteCountAppend(x + y', y[|y| - 1]);
      QuoteCountAppend(y', y[|y| - 1]);
    } else {
      assert x + y == x;
    }
  }

  /** A statement longer than a line is cut after MAX_STRING_CHARS - 1
      bytes, the byte after the cut is dropped and the remainder of the
      statement stays queued, to run as a statement of its own. */
  lemma LongStatementSplit(s: string)
    requires LineEnd(s) > MAX_STRING_CHARS - 1
    ensures |Line(s)| == MAX_STRING_CHARS - 1
    ensures Rest(s) == s[MAX_STRING_CHARS..]
    ensures !IsDelimiter(s, MAX_STRING_CHARS - 1)
  {
  }

  class CommandBuffer {
    /** cmdbuf_t.text; its length is cmdbuf_t.maxsize. */
    const text: array<char>
    var cursize: nat
    var waitCount: int
    var aliasCount: int

    ghost predicate Valid()
      reads this`cursize
    {
      cursize <= text.Length
    }

    /** The queued text. */
    ghost function Contents(): string
      reads this, text
      requires Valid()
    {
      text[..cursize]
    }

    /** Cbuf_Init: an empty buffer of `maxsize` bytes. */
    constructor (maxsize: nat)
      ensures Valid() && fresh(text)
      ensures text.Length == maxsize && Contents() == []
      ensures waitCount == 0 && aliasCount == 0
    {
      text := new char[maxsize];
      cursize := 0;
      waitCount := 0;
      aliasCount := 0;
    }

    /** Cbuf_AddTextEx: appends `s` when it fits, otherwise reports an
        overflow and changes nothing. */
    method AddText(s: string) returns (overflow: bool)
      requires Valid()
      modifies this`cursize, text
      ensures Valid()
      ensures overflow <==> old(cursize) + |s| > text.Length
      ensures overflow ==> cursize == old(cursize) && text[..] == old(text[..])
      ensures !overflow ==> Contents() == old(Contents()) + s
      ensures !overflow ==> cursize == old(cursize) + |s|
      ensures Contents() == Appended(old(Contents()), s, text.Length)
    {
      if cursize + |s| > text.Length {
        return true;
      }
      forall k | 0 <= k < |s| {
        text[cursize + k] := s[k];
      }
      assert text[..cursize + |s|] == old(text[..cursize]) + s;
      cursize := cursize + |s|;
      return false;
    }

    /** Cbuf_Alloc: reserves `length` bytes at the end for the caller to
        fill, returning their offset, or nothing when they do not fit. */
    method Alloc(length: nat) returns (offset: Option<nat>)
      requires Valid()
      modifies this`cursize
      ensures Valid()
      ensures offset.None? <==> old(cursize) + length > text.Length
      ensures offset.None? ==> cursize == old(cursize)
      ensures offset.Some? ==> offset.value == old(cursize) && cursize == old(cursize) + length
      ensures Contents()[..old(cursize)] == old(Contents())
    {
      if cursize + length > text.Length {
        return None;
      }
      offset := Some(cursize);
      cursize := cursize + length;
    }

    /** Cbuf_InsertTextEx: puts `s` and a newline in front of the queued
        text. Empty text is ignored; text that does not fit is reported and
        nothing changes. */
    method InsertText(s: string) returns (overflow: bool)
      requires Valid()
      modifies this`cursize, text
      ensures Valid()
      ensures overflow <==> s != [] && old(cursize) + |s| + 1 > text.Length
      ensures (s == [] || overflow) ==> cursize == old(cursize) && text[..] == old(text[..])
      ensures s != [] && !overflow ==> Contents() == s + "\n" + old(Contents())
      ensures s != [] && !overflow ==> cursize == old(cursize) + |s| + 1
      ensures Contents() == Inserted(old(Contents()), s, text.Length)
    {
      if |s| == 0 {
        return false;
      }
      if cursize + |s| + 1 > text.Length {
        return true;
      }
      ghost var before := text[..cursize];
      var l := |s|;
      forall k | 0 <= k < cursize {
        text[l + 1 + k] := text[k];
      }
      forall k | 0 <= k < l {
        text[k] := s[k];
      }
      text[l] := '\n';
      cursize := cursize + l + 1;
      assert text[..cursize] == s + "\n" + before by {
        forall k | 0 <= k < cursize ensures text[..cursize][k] == (s + "\n" + before)[k] {
        }
      }
      return false;
    }

    /** The search at the top of the loop of Cbuf_ExecuteEx: scans the
        queued text for a newline or for a `;` outside quotes. */
    method FindLineEnd() returns (i: nat)
      requires Valid()
      ensures i == LineEnd(Contents())
    {
      ghost var s := text[..cursize];
      i := 0;
      var quotes := 0;
      while i < cursize
        invariant 0 <= i <= cursize
        invariant quotes == QuoteCount(s[..i])
        invariant forall k :: 0 <= k < i ==> !IsDelimiter(s, k)
      {
        if text[i] == '"' {
          quotes := quotes + 1;
        }
        if quotes % 2 == 0 && text[i] == ';' {
          break;
        }
        if text[i] == '\n' {
          break;
        }
        assert s[..i + 1] == s[..i] + [s[i]];
        QuoteCountAppend(s[..i], s[i]);
        i := i + 1;
      }
      assert i < cursize ==> IsDelimiter(s, i);
    }

    /** Drops the first `n` queued bytes, moving the rest down to the front. */
    method Discard(n: nat)
      requires Valid() && n <= cursize
      modifies this`cursize, text
      ensures Valid()
      ensures Contents() == old(Contents())[n..]
    {
      ghost var s := Contents();
      var remaining := cursize - n;
      forall k | 0 <= k < remaining {
        text[k] := text[k + n];
      }
      cursize := remaining;
      assert Contents() == s[n..] by {
        forall k | 0 <= k < cursize ensures text[..cursize][k] == s[n..][k] {
        }
      }
    }

    /** One pass of the loop of Cbuf_ExecuteEx: finds the end of the next
        statement, copies at most MAX_STRING_CHARS - 1 bytes of it into the
        line, and moves the text after the cut and one more byte down to the
        front. */
    method TakeLine() returns (line: string)
      requires Valid() && cursize > 0
      modifies this`cursize, text
      ensures Valid()
      ensures line == Line(old(Contents()))
      ensures Contents() == Rest(old(Contents()))
    {
      ghost var s := Contents();
      var i := FindLineEnd();
      if i > MAX_STRING_CHARS - 1 {
        i := MAX_STRING_CHARS - 1;
      }
      assert i == Cut(s);
      line := text[..i];
      assert line == Line(s);
      if i == cursize {
        cursize := 0;
      } else {
        Discard(i + 1);
      }
    }
  }
}
