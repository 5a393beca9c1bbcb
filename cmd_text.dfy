/**
  Limits, character classes and small string helpers shared by the console
  command interpreter of source/cmd.c.

  A C string is modelled as the sequence of its characters before the
  terminating NUL, so no modelled string contains '\0'.
 */
module CmdText {

  /** Size of a command line buffer, terminator included. */
  const MAX_STRING_CHARS: nat := 1024
  /** Largest number of tokens one command line is split into. */
  const MAX_STRING_TOKENS: nat := 256
  /** Alias expansions allowed between two drains of the command buffer. */
  const ALIAS_LOOP_COUNT: nat := 16
  /** Capacity of the global command buffer. */
  const CMD_BUFFER_SIZE: nat := 0x10000

  /** A value that may be missing: NULL in the C code. */
  datatype Option<T> = None | Some(value: T)

  /** The tokenizer's and expander's notion of white space: every byte up to
      and including the space character. */
  predicate IsBlank(c: char) {
    c <= ' '
  }

  predicate IsDigit(c: char) {
    '0' <= c <= '9'
  }

  /** Number of double quotes in `s`. */
  function QuoteCount(s: string): nat {
    if s == [] then 0
    else QuoteCount(s[..|s| - 1]) + (if s[|s| - 1] == '"' then 1 else 0)
  }

  lemma QuoteCountAppend(s: string, c: char)
    ensures QuoteCount(s + [c]) == QuoteCount(s) + (if c == '"' then 1 else 0)
  {
    assert (s + [c])[..|s + [c]| - 1] == s;
  }

  /** `args` separated by single spaces: the string Cmd_Args and
      Cmd_ArgsFrom build with strcat. */
  function Join(args: seq<string>): string {
    if |args| == 0 then ""
    else if |args| == 1 then args[0]
    else args[0] + " " + Join(args[1..])
  }

  /** Cmd_Argv: the token at `arg`, or the empty string out of range. */
  function Argv(argv: seq<string>, arg: int): (r: string)
    ensures 0 <= arg < |argv| ==> r == argv[arg]
    ensures (arg < 0 || arg >= |argv|) ==> r == ""
  {
    if 0 <= arg < |argv| then argv[arg] else ""
  }

  /** Cmd_ArgsFrom: the tokens from `from` on, joined; empty when `from` is
      out of range. */
  function ArgsFrom(argv: seq<string>, from: int): string {
    if from < 0 || from >= |argv| then "" else Join(argv[from..])
  }

  /** Joining fewer arguments never takes more bytes. */
  lemma {:induction false} ArgsFromWithin(argv: seq<string>, from: int)
    ensures |ArgsFrom(argv, from)| <= |Join(argv)|
    decreases |argv|
  {
    if 0 < from < |argv| {
      assert argv[1..][from - 1..] == argv[from..];
      ArgsFromWithin(argv[1..], from - 1);
      assert |Join(argv)| == |argv[0]| + 1 + |Join(argv[1..])|;
    } else if from == 0 {
      assert argv[0..] == argv;
    }
  }

  // ---------------------------------------------------------------------
  // atoi, as used by the `wait` command

  /** isspace() of the C library. */
  predicate IsCSpace(c: char) {
    c == ' ' || c == '\t' || c == '\n' || c == 11 as char || c == 12 as char || c == '\r'
  }

  /** Number of leading characters of `s` satisfying isspace(). */
  function SpacePrefix(s: string): (n: nat)
    ensures n <= |s|
    ensures forall k :: 0 <= k < n ==> IsCSpace(s[k])
    ensures n < |s| ==> !IsCSpace(s[n])
  {
    if s != [] && IsCSpace(s[0]) then 1 + SpacePrefix(s[1..]) else 0
  }

  /** Longest prefix of `s` made of decimal digits. */
  function DigitPrefix(s: string): (d: string)
    ensures |d| <= |s| && d == s[..|d|]
    ensures forall k :: 0 <= k < |d| ==> IsDigit(d[k])
    ensures |d| < |s| ==> !IsDigit(s[|d|])
  {
    if s != [] && IsDigit(s[0]) then [s[0]] + DigitPrefix(s[1..]) else []
  }

  /** Value of a string of decimal digits. */
  function DecimalValue(d: string): nat
    requires forall k :: 0 <= k < |d| ==> IsDigit(d[k])
  {
    if d == [] then 0
    else
      assert IsDigit(d[|d| - 1]);
      10 * DecimalValue(d[..|d| - 1]) + (d[|d| - 1] as int - '0' as int)
  }

  /** atoi(): optional white space, an optional sign, then decimal digits;
      anything else stops the conversion. */
  function Atoi(s: string): int {
    var t := s[SpacePrefix(s)..];
    if t != [] && t[0] == '-' then -(DecimalValue(DigitPrefix(t[1..])) as int)
    else if t != [] && t[0] == '+' then DecimalValue(DigitPrefix(t[1..]))
    else DecimalValue(DigitPrefix(t))
  }

  /** Decimal representation of `n`, most significant digit first. */
  function DecimalString(n: nat): (d: string)
    ensures |d| > 0
    ensures forall k :: 0 <= k < |d| ==> IsDigit(d[k])
  {
    var digit := ['0' + (n % 10) as char];
    if n < 10 then digit else DecimalString(n / 10) + digit
  }

  lemma {:induction false} DecimalValueOfString(n: nat)
    ensures DecimalValue(DecimalString(n)) == n
  {
    var d := DecimalString(n);
    if n >= 10 {
      DecimalValueOfString(n / 10);
      assert d[..|d| - 1] == DecimalString(n / 10);
    }
  }

  lemma {:induction false} DigitPrefixOfDigits(d: string)
    requires forall k :: 0 <= k < |d| ==> IsDigit(d[k])
    ensures DigitPrefix(d) == d
  {
    if d != [] {
      DigitPrefixOfDigits(d[1..]);
    }
  }

  /** atoi reads back every non-negative number written in decimal, so
      `wait 3` sets a wait count of 3. */
  lemma AtoiDecimal(n: nat)
    ensures Atoi(DecimalString(n)) == n
  {
    var d := DecimalString(n);
    assert !IsCSpace(d[0]);
    assert d[SpacePrefix(d)..] == d;
    DigitPrefixOfDigits(d);
    DecimalValueOfString(n);
  }

  /** A leading minus sign negates the value. */
  lemma AtoiNegative(n: nat)
    ensures Atoi("-" + DecimalString(n)) == -(n as int)
  {
    var d := DecimalString(n);
    var s := "-" + d;
    assert s[SpacePrefix(s)..] == s;
    assert s[1..] == d;
    DigitPrefixOfDigits(d);
    DecimalValueOfString(n);
  }
}
