/**
  The getopt-like option parser of the console, Cmd_ParseOptions in
  source/cmd.c. A command describes its options by a table of entries:
  `sh` is the short letter, followed by ':' when the option takes an
  argument, and `lo` is the long name. One call looks at the argument at
  `optind` and either reports the next option, or says that no options
  are left, or reports an error.
 */
module CmdOptions {

  /** One entry of an option table. The C table ends with an entry whose
      `sh` is NULL; here the table is the sequence of the entries before it. */
  datatype CmdOption = CmdOption(sh: string, lo: string, help: string)

  /** Every entry has a short letter. */
  predicate WellFormed(opts: seq<CmdOption>) {
    forall k :: 0 <= k < |opts| ==> opts[k].sh != []
  }

  predicate TakesArgument(o: CmdOption) {
    |o.sh| >= 2 && o.sh[1] == ':'
  }

  /** The parser's part of the console state: the arguments (an argument
      of the form `--name=value` is cut at the '=' in place), the index of
      the next argument, the option argument and the option just looked at. */
  datatype OptState = OptState(argv: seq<string>, optind: nat, optarg: string, optopt: string)

  predicate Ready(st: OptState) {
    st.optind <= |st.argv|
  }

  /** What a call returns: -1 (`Finished`), '?' (`Unknown`), ':'
      (`MissingArgument`), or the short letter of the option found.
      `Crashed` is the NULL dereference of the code as written. */
  datatype Outcome = Finished | Unknown | MissingArgument | Matched(letter: char) | Crashed

  /** The value Cmd_ParseOptions returns for an outcome. */
  function ReturnCode(o: Outcome): int
    requires !o.Crashed?
  {
    match o
    case Finished => -1
    case Unknown => '?' as int
    case MissingArgument => ':' as int
    case Matched(c) => c as int
  }

  datatype Parsed = Parsed(outcome: Outcome, st: OptState)

  /** Index of the first entry whose long name is `name`, or |opts| (the
      terminator) when there is none. */
  function LongIndex(opts: seq<CmdOption>, name: string, from: nat): (k: nat)
    requires from <= |opts|
    ensures from <= k <= |opts|
    decreases |opts| - from
  {
    if from == |opts| || opts[from].lo == name then from else LongIndex(opts, name, from + 1)
  }

  /** Index of the first entry whose short letter is `c`, or |opts|. */
  function ShortIndex(opts: seq<CmdOption>, c: char, from: nat): (k: nat)
    requires WellFormed(opts) && from <= |opts|
    ensures from <= k <= |opts|
    decreases |opts| - from
  {
    if from == |opts| || opts[from].sh[0] == c then from else ShortIndex(opts, c, from + 1)
  }

  /** Position of the first '=' at or after `from`, or |s|. */
  function EqualsAt(s: string, from: nat): (k: nat)
    requires from <= |s|
    ensures from <= k <= |s|
    decreases |s| - from
  {
    if from == |s| || s[from] == '=' then from else EqualsAt(s, from + 1)
  }

  /** The end of a call once option `o` has been found: an option that
      takes an argument and got none with `=` consumes the next argument,
      and is missing its argument when there is none. */
  function Accept(o: CmdOption, st: OptState, hasValue: bool): (r: Parsed)
    requires o.sh != [] && st.optind < |st.argv|
  {
    if !hasValue && TakesArgument(o) then
      if st.optind + 1 == |st.argv| then Parsed(MissingArgument, st)
      else Parsed(Matched(o.sh[0]), st.(optarg := st.argv[st.optind + 1], optind := st.optind + 2))
    else Parsed(Matched(o.sh[0]), st.(optind := st.optind + 1))
  }

  /** A long option `--name` or `--name=value`, with `s` the argument. */
  function LongOption(opts: seq<CmdOption>, st: OptState, s: string): (r: Parsed)
    requires WellFormed(opts) && st.optind < |st.argv| && |s| > 2
  {
    var eq := EqualsAt(s, 2);
    var arg := s[..eq];
    var st1 := st.(argv := st.argv[st.optind := arg], optopt := arg);
    var k := LongIndex(opts, arg[2..], 0);
    if k == |opts| then Parsed(Unknown, st1)
    else if eq < |s| then
      // an option without argument given `=value` is only warned about
      Accept(opts[k], if TakesArgument(opts[k]) then st1.(optarg := s[eq + 1..]) else st1, true)
    else Accept(opts[k], st1, false)
  }

  /** One call of Cmd_ParseOptions. */
  function Parse(opts: seq<CmdOption>, st: OptState): (r: Parsed)
    requires WellFormed(opts) && Ready(st)
  {
    if st.optind == |st.argv| then Parsed(Finished, st.(optarg := "", optopt := ""))
    else
      var s := st.argv[st.optind];
      if s == [] || s[0] != '-' then Parsed(Finished, st.(optarg := s, optopt := ""))
      else if |s| >= 2 && s[1] == '-' then
        if |s| == 2 then
          var next := st.optind + 1;
          Parsed(Finished, st.(optind := next, optopt := s,
                               optarg := if next < |st.argv| then st.argv[next] else ""))
        else LongOption(opts, st, s)
      else if |s| != 2 then Parsed(Unknown, st.(optopt := s))
      else
        var k := ShortIndex(opts, s[1], 0);
        if k == |opts| then Parsed(Unknown, st.(optopt := s))
        else Accept(opts[k], st.(optopt := s), false)
  }

  /** Cmd_ParseOptions as written: for `--name=value` with an unknown
      name it reads the argument flag of the table's terminator, whose
      `sh` is NULL. */
  function ParseAsWritten(opts: seq<CmdOption>, st: OptState): (r: Parsed)
    requires WellFormed(opts) && Ready(st)
  {
    if st.optind < |st.argv| && IsLongWithValue(st.argv[st.optind])
       && LongIndex(opts, st.argv[st.optind][2..EqualsAt(st.argv[st.optind], 2)], 0) == |opts|
    then Parsed(Crashed, st)
    else Parse(opts, st)
  }

  predicate IsLongWithValue(s: string) {
    |s| > 2 && s[0] == '-' && s[1] == '-' && EqualsAt(s, 2) < |s|
  }

  // -----------------------------------------------------------------------
  // The parser

  method FindLong(opts: seq<CmdOption>, name: string) returns (k: nat)
    ensures k == LongIndex(opts, name, 0)
  {
    k := 0;
    while k < |opts| && opts[k].lo != name
      invariant k <= |opts|
      invariant LongIndex(opts, name, 0) == LongIndex(opts, name, k)
    {
      k := k + 1;
    }
  }

  method FindShort(opts: seq<CmdOption>, c: char) returns (k: nat)
    requires WellFormed(opts)
    ensures k == ShortIndex(opts, c, 0)
  {
    k := 0;
    while k < |opts| && opts[k].sh[0] != c
      invariant k <= |opts|
      invariant ShortIndex(opts, c, 0) == ShortIndex(opts, c, k)
    {
      k := k + 1;
    }
  }

  method FindEquals(s: string) returns (k: nat)
    requires |s| >= 2
    ensures k == EqualsAt(s, 2)
  {
    k := 2;
    while k < |s| && s[k] != '='
      invariant 2 <= k <= |s|
      invariant EqualsAt(s, 2) == EqualsAt(s, k)
    {
      k := k + 1;
    }
  }

  /** Cmd_ParseOptions, with the NULL dereference repaired: an unknown
      long option given a value is reported as unknown. */
  method ParseOptions(opts: seq<CmdOption>, st: OptState) returns (r: Parsed)
    requires WellFormed(opts) && Ready(st)
    ensures r == Parse(opts, st)
  {
    var argv, optind, optarg := st.argv, st.optind, st.optarg;
    if optind == |argv| {
      return Parsed(Finished, st.(optarg := "", optopt := ""));
    }
    var s := argv[optind];
    if s == [] || s[0] != '-' {
      return Parsed(Finished, st.(optarg := s, optopt := ""));
    }
    var k: nat;
    var hasValue := false;
    if |s| >= 2 && s[1] == '-' {
      if |s| == 2 {
        optind := optind + 1;
        optarg := if optind < |argv| then argv[optind] else "";
        return Parsed(Finished, OptState(argv, optind, optarg, s));
      }
      var eq := FindEquals(s);
      hasValue := eq < |s|;
      argv := argv[optind := s[..eq]];
      k := FindLong(opts, s[2..eq]);
      assert s[..eq][2..] == s[2..eq];
      if k < |opts| && hasValue && TakesArgument(opts[k]) {
        optarg := s[eq + 1..];
      }
      s := s[..eq];
    } else {
      if |s| != 2 {
        return Parsed(Unknown, st.(optopt := s));
      }
      k := FindShort(opts, s[1]);
    }
    if k == |opts| {
      return Parsed(Unknown, OptState(argv, optind, optarg, s));
    }
    var o := opts[k];
    if !hasValue && TakesArgument(o) {
      if optind + 1 == |argv| {
        return Parsed(MissingArgument, OptState(argv, optind, optarg, s));
      }
      optind := optind + 1;
      optarg := argv[optind];
    }
    optind := optind + 1;
    return Parsed(Matched(o.sh[0]), OptState(argv, optind, optarg, s));
  }

  // -----------------------------------------------------------------------
  // Properties

  /** The table search stops at the first entry with that long name. */
  lemma {:induction false} LongIndexSpec(opts: seq<CmdOption>, name: string, from: nat)
    requires from <= |opts|
    ensures var k := LongIndex(opts, name, from);
            (k < |opts| ==> opts[k].lo == name) && forall j :: from <= j < k ==> opts[j].lo != name
    decreases |opts| - from
  {
    if from < |opts| && opts[from].lo != name {
      LongIndexSpec(opts, name, from + 1);
    }
  }

  /** The table search stops at the first entry with that short letter. */
  lemma {:induction false} ShortIndexSpec(opts: seq<CmdOption>, c: char, from: nat)
    requires WellFormed(opts) && from <= |opts|
    ensures var k := ShortIndex(opts, c, from);
            (k < |opts| ==> opts[k].sh[0] == c) && forall j :: from <= j < k ==> opts[j].sh[0] != c
    decreases |opts| - from
  {
    if from < |opts| && opts[from].sh[0] != c {
      ShortIndexSpec(opts, c, from + 1);
    }
  }

  /** The search for '=' stops at the first one. */
  lemma {:induction false} EqualsAtSpec(s: string, from: nat)
    requires from <= |s|
    ensures var k := EqualsAt(s, from);
            (k < |s| ==> s[k] == '=') && forall j :: from <= j < k ==> s[j] != '='
    decreases |s| - from
  {
    if from < |s| && s[from] != '=' {
      EqualsAtSpec(s, from + 1);
    }
  }

  /** How a call moves `optind`: an error leaves it where it is, an
      option moves it past itself and its argument, and the end of the
      options leaves it at the first operand (past a `--`). The argument
      count never changes and only the argument looked at may be cut
      short. The state stays ready for the next call. */
  lemma ParseProgress(opts: seq<CmdOption>, st: OptState)
    requires WellFormed(opts) && Ready(st)
    ensures var r := Parse(opts, st);
            Ready(r.st) && |r.st.argv| == |st.argv| && !r.outcome.Crashed? &&
            (r.outcome.Unknown? || r.outcome.MissingArgument? ==> r.st.optind == st.optind) &&
            (r.outcome.Matched? ==> st.optind < r.st.optind <= st.optind + 2) &&
            (r.outcome.Finished? ==> st.optind <= r.st.optind <= st.optind + 1) &&
            (forall j :: 0 <= j < |st.argv| && j != st.optind ==> r.st.argv[j] == st.argv[j]) &&
            (st.optind < |st.argv| ==> r.st.argv[st.optind] <= st.argv[st.optind])
  {
  }

  /** A reported letter is the short letter of an entry of the table, and
      a missing argument is reported only for an option that takes one
      when no argument follows. */
  lemma MatchedFromTable(opts: seq<CmdOption>, st: OptState)
    requires WellFormed(opts) && Ready(st)
    ensures var r := Parse(opts, st);
            (r.outcome.Matched? ==> exists k :: 0 <= k < |opts| && opts[k].sh[0] == r.outcome.letter) &&
            (r.outcome.MissingArgument? ==>
               st.optind + 1 == |st.argv| && exists k :: 0 <= k < |opts| && TakesArgument(opts[k]))
  {
  }

  /** `-x` for an option `x` without argument is reported and passed over. */
  lemma ShortOption(opts: seq<CmdOption>, st: OptState, k: nat)
    requires WellFormed(opts) && Ready(st) && st.optind < |st.argv|
    requires k < |opts| && !TakesArgument(opts[k]) && forall j :: 0 <= j < k ==> opts[j].sh[0] != opts[k].sh[0]
    requires st.argv[st.optind] == ['-', opts[k].sh[0]] && opts[k].sh[0] != '-'
    ensures Parse(opts, st) ==
              Parsed(Matched(opts[k].sh[0]), st.(optind := st.optind + 1, optopt := st.argv[st.optind]))
  {
    ShortLookup(opts, k);
  }

  /** `-x value` for an option `x:` consumes both arguments, and reports
      a missing argument when `-x` is the last one. */
  lemma ShortOptionWithArgument(opts: seq<CmdOption>, st: OptState, k: nat)
    requires WellFormed(opts) && Ready(st) && st.optind < |st.argv|
    requires k < |opts| && TakesArgument(opts[k]) && forall j :: 0 <= j < k ==> opts[j].sh[0] != opts[k].sh[0]
    requires st.argv[st.optind] == ['-', opts[k].sh[0]] && opts[k].sh[0] != '-'
    ensures var r := Parse(opts, st);
            if st.optind + 1 == |st.argv| then r == Parsed(MissingArgument, st.(optopt := st.argv[st.optind]))
            else r == Parsed(Matched(opts[k].sh[0]),
                             st.(optind := st.optind + 2, optarg := st.argv[st.optind + 1],
                                 optopt := st.argv[st.optind]))
  {
    ShortLookup(opts, k);
  }

  lemma {:induction false} ShortLookup(opts: seq<CmdOption>, k: nat)
    requires WellFormed(opts) && k < |opts|
    requires forall j :: 0 <= j < k ==> opts[j].sh[0] != opts[k].sh[0]
    ensures ShortIndex(opts, opts[k].sh[0], 0) == k
  {
    ShortIndexSpec(opts, opts[k].sh[0], 0);
  }

  lemma {:induction false} LongLookup(opts: seq<CmdOption>, k: nat)
    requires k < |opts| && forall j :: 0 <= j < k ==> opts[j].lo != opts[k].lo
    ensures LongIndex(opts, opts[k].lo, 0) == k
  {
    LongIndexSpec(opts, opts[k].lo, 0);
  }

  /** `--name=value` for an option that takes an argument sets the
      argument to `value`, cuts the argument in place at the '=' and moves
      past it. */
  lemma LongOptionWithValue(opts: seq<CmdOption>, st: OptState, k: nat, value: string)
    requires WellFormed(opts) && Ready(st) && st.optind < |st.argv|
    requires k < |opts| && TakesArgument(opts[k]) && forall j :: 0 <= j < k ==> opts[j].lo != opts[k].lo
    requires opts[k].lo != [] && forall j :: 0 <= j < |opts[k].lo| ==> opts[k].lo[j] != '='
    requires st.argv[st.optind] == "--" + opts[k].lo + "=" + value
    ensures Parse(opts, st) ==
              Parsed(Matched(opts[k].sh[0]),
                     OptState(st.argv[st.optind := "--" + opts[k].lo], st.optind + 1, value, "--" + opts[k].lo))
  {
    var s := st.argv[st.optind];
    var lo := opts[k].lo;
    EqualsAtSpec(s, 2);
    var eq := EqualsAt(s, 2);
    forall j | 2 <= j < 2 + |lo| ensures s[j] != '=' {
      assert s[j] == lo[j - 2];
    }
    assert s[2 + |lo|] == '=';
    assert eq == 2 + |lo|;
    assert s[..eq] == "--" + lo && s[..eq][2..] == lo && s[eq + 1..] == value;
    LongLookup(opts, k);
  }

  /** `--` ends the options: the next argument, if any, is the first
      operand. */
  lemma Terminator(opts: seq<CmdOption>, st: OptState)
    requires WellFormed(opts) && Ready(st) && st.optind < |st.argv| && st.argv[st.optind] == "--"
    ensures var r := Parse(opts, st);
            r.outcome == Finished && r.st.optind == st.optind + 1 &&
            r.st.optarg == (if st.optind + 1 < |st.argv| then st.argv[st.optind + 1] else "")
  {
  }

  /** A lone `-` and a cluster such as `-ab` are unknown options. */
  lemma DashAloneUnknown(opts: seq<CmdOption>, st: OptState)
    requires WellFormed(opts) && Ready(st) && st.optind < |st.argv|
    requires var s := st.argv[st.optind]; s != [] && s[0] == '-' && (|s| == 1 || (|s| > 2 && s[1] != '-'))
    ensures Parse(opts, st) == Parsed(Unknown, st.(optopt := st.argv[st.optind]))
  {
  }

  /** As written, `--name=value` with a name the table does not hold
      dereferences the terminator entry. */
  lemma UnknownLongValueCrashes(opts: seq<CmdOption>, st: OptState)
    requires opts == [CmdOption("h", "help", "display this message")]
    requires st.argv == ["alias", "--bogus=1"] && st.optind == 1
    ensures ParseAsWritten(opts, st).outcome == Crashed
  {
    var s := st.argv[1];
    assert EqualsAt(s, 7) == 7;
    assert EqualsAt(s, 2) == 7 by {
      assert EqualsAt(s, 2) == EqualsAt(s, 5) == EqualsAt(s, 7);
    }
    assert s[2..7] == "bogus";
  }

  /** Repaired, the same input is an unknown option: the argument is cut
      at the '=' and `optind` stays where it is. */
  lemma UnknownLongValueRejected(opts: seq<CmdOption>, st: OptState)
    requires WellFormed(opts) && Ready(st) && st.optind < |st.argv| && IsLongWithValue(st.argv[st.optind])
    requires var s := st.argv[st.optind]; LongIndex(opts, s[2..EqualsAt(s, 2)], 0) == |opts|
    ensures var s := st.argv[st.optind];
            var arg := s[..EqualsAt(s, 2)];
            Parse(opts, st) == Parsed(Unknown, st.(argv := st.argv[st.optind := arg], optopt := arg))
            && ParseAsWritten(opts, st).outcome == Crashed
  {
    var s := st.argv[st.optind];
    assert s[..EqualsAt(s, 2)][2..] == s[2..EqualsAt(s, 2)];
  }
}
