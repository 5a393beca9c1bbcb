/**
  Pure definitions behind the console's argument accessors in
  source/cmd.c: the token that holds a byte offset of the command string
  (Cmd_FindArgForOffset) and the caret rewriting of the `_echo` command
  (Cmd_ColoredEcho_f).
 */
module CmdArgs {

  /** Token offsets as the tokenizer records them: strictly increasing. */
  ghost predicate Increasing(offsets: seq<nat>) {
    forall j, k :: 0 <= j < k < |offsets| ==> offsets[j] < offsets[k]
  }

  /** The loop of Cmd_FindArgForOffset from index `i` on: it stops at the
      first token that starts after `offset` and answers the one before. */
  function ArgForOffsetFrom(offsets: seq<nat>, offset: nat, i: nat): (r: nat)
    requires 1 <= i
    decreases |offsets| - i
  {
    if i >= |offsets| || offset < offsets[i] then i - 1
    else ArgForOffsetFrom(offsets, offset, i + 1)
  }

  function ArgForOffset(offsets: seq<nat>, offset: nat): nat {
    ArgForOffsetFrom(offsets, offset, 1)
  }

  /** The answer is a token (token 0 when there is none), every later
      token starts after `offset`, and every token from 1 up to the answer
      starts at or before it. */
  lemma {:induction false} ArgForOffsetFromSpec(offsets: seq<nat>, offset: nat, i: nat)
    requires 1 <= i <= |offsets| || (i == 1 && offsets == [])
    requires forall j :: 1 <= j < i ==> offsets[j] <= offset
    ensures var r := ArgForOffsetFrom(offsets, offset, i);
            i - 1 <= r && (offsets != [] ==> r < |offsets|) &&
            (forall j :: 1 <= j <= r ==> offsets[j] <= offset) &&
            (r + 1 < |offsets| ==> offset < offsets[r + 1])
    decreases |offsets| - i
  {
    if i < |offsets| && offsets[i] <= offset {
      ArgForOffsetFromSpec(offsets, offset, i + 1);
    }
  }

  lemma ArgForOffsetSpec(offsets: seq<nat>, offset: nat)
    ensures var r := ArgForOffset(offsets, offset);
            (offsets == [] ==> r == 0) && (offsets != [] ==> r < |offsets|) &&
            (forall j :: 1 <= j <= r ==> offsets[j] <= offset) &&
            (r + 1 < |offsets| ==> offset < offsets[r + 1])
  {
    ArgForOffsetFromSpec(offsets, offset, 1);
  }

  /** The token found for the offset a token starts at is that token. */
  lemma ArgForOffsetInverse(offsets: seq<nat>, k: nat)
    requires Increasing(offsets) && k < |offsets|
    ensures ArgForOffset(offsets, offsets[k]) == k
  {
    ArgForOffsetSpec(offsets, offsets[k]);
    var r := ArgForOffset(offsets, offsets[k]);
    if 1 <= r {
      assert offsets[r] <= offsets[k];
    }
    if r + 1 < |offsets| {
      assert offsets[k] < offsets[r + 1];
    }
  }

  // -----------------------------------------------------------------------
  // _echo

  /** The rewriting of Cmd_ColoredEcho_f: `^^` prints one caret, a caret
      before any other character becomes the colour escape `esc` before
      it, and every other character (a caret at the end included) is
      copied. */
  function ColorText(src: string, esc: char): (r: string)
    ensures |r| <= |src|
    decreases |src|
  {
    if src == [] then []
    else if src[0] == '^' && |src| >= 2 then
      (if src[1] == '^' then "^" else [esc, src[1]]) + ColorText(src[2..], esc)
    else [src[0]] + ColorText(src[1..], esc)
  }

  /** ColorText of `src` from position `i` on, indexing rather than slicing. */
  function ColorFrom(src: string, i: nat, esc: char): string
    requires i <= |src|
    decreases |src| - i
  {
    if i == |src| then []
    else if src[i] == '^' && i + 1 < |src| then
      (if src[i + 1] == '^' then "^" else [esc, src[i + 1]]) + ColorFrom(src, i + 2, esc)
    else [src[i]] + ColorFrom(src, i + 1, esc)
  }

  lemma {:induction false} ColorFromText(src: string, i: nat, esc: char)
    requires i <= |src|
    ensures ColorFrom(src, i, esc) == ColorText(src[i..], esc)
    decreases |src| - i
  {
    if i < |src| {
      assert src[i..][1..] == src[i + 1..];
      if src[i] == '^' && i + 1 < |src| {
        assert src[i..][2..] == src[i + 2..];
        ColorFromText(src, i + 2, esc);
      } else {
        ColorFromText(src, i + 1, esc);
      }
    }
  }

  /** The loop of Cmd_ColoredEcho_f over its argument string. */
  method ColorString(src: string, esc: char) returns (out: string)
    ensures out == ColorText(src, esc)
  {
    out := "";
    var i := 0;
    while i < |src|
      invariant 0 <= i <= |src|
      invariant out + ColorFrom(src, i, esc) == ColorFrom(src, 0, esc)
      decreases |src| - i
    {
      var piece, next := [src[i]], i + 1;
      if src[i] == '^' && i + 1 < |src| {
        piece := if src[i + 1] == '^' then "^" else [esc, src[i + 1]];
        next := i + 2;
      }
      assert ColorFrom(src, i, esc) == piece + ColorFrom(src, next, esc);
      assert (out + piece) + ColorFrom(src, next, esc) == out + ColorFrom(src, i, esc);
      out, i := out + piece, next;
    }
    ColorFromText(src, 0, esc);
  }

  /** Doubles every caret. */
  function EscapeCarets(s: string): (r: string)
    ensures |r| >= |s|
  {
    if s == [] then []
    else (if s[0] == '^' then "^^" else [s[0]]) + EscapeCarets(s[1..])
  }

  /** `_echo` of text whose carets are doubled prints the text itself. */
  lemma {:induction false} ColorTextOfEscaped(s: string, esc: char)
    ensures ColorText(EscapeCarets(s), esc) == s
  {
    if s != [] {
      var e := EscapeCarets(s);
      ColorTextOfEscaped(s[1..], esc);
      if s[0] == '^' {
        assert e == "^^" + EscapeCarets(s[1..]);
        assert e[2..] == EscapeCarets(s[1..]);
      } else {
        assert e == [s[0]] + EscapeCarets(s[1..]);
        assert e[1..] == EscapeCarets(s[1..]);
      }
      assert s == [s[0]] + s[1..];
    }
  }

  /** Text without carets is printed as it is. */
  lemma {:induction false} ColorTextPlain(s: string, esc: char)
    requires forall j :: 0 <= j < |s| ==> s[j] != '^'
    ensures ColorText(s, esc) == s
  {
    if s != [] {
      ColorTextPlain(s[1..], esc);
      assert s == [s[0]] + s[1..];
    }
  }
}
