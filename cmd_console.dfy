/**
  The console of source/cmd.c as one object: the command buffer, the
  alias, command and macro registries with their hash indexes, the
  tokenized current line with its option-parsing state, and the commands
  the console registers itself (`alias`, `unalias`, `wait`, `text`,
  `complete`, `exec`, `echo`, `_echo`, ...). Cmd_ExecuteString tokenizes a
  line and dispatches it; Cbuf_ExecuteEx feeds the buffer to it statement
  by statement.

  Variables belong to another subsystem and appear as a map from name to
  value and flags; the script files `exec` can load appear as a map from
  file name to contents; whether a line can be forwarded to a server is a
  flag.
 */
module CmdConsole {
  import opened CmdText
  import opened CmdBuffer
  import opened CmdTokenize
  import opened CmdExpand
  import opened CmdOptions
  import opened CmdRegistry
  import opened CmdArgs

  /** Size of the file name buffer of `exec`, terminator included. */
  const MAX_QPATH: nat := 64

  /** The option table of `unalias`. */
  const UNALIAS_OPTIONS: seq<CmdOption> :=
    [CmdOption("h", "help", "display this message"), CmdOption("a", "all", "delete everything")]

  /** The commands Cmd_Init registers, in order. */
  function ConsoleCommands(): seq<Entry<Handler>> {
    [Entry("cmdlist", CmdList), Entry("macrolist", MacroList), Entry("exec", Exec),
     Entry("echo", Echo), Entry("_echo", ColoredEcho), Entry("alias", AliasCmd),
     Entry("unalias", UnaliasCmd), Entry("wait", Wait), Entry("text", Text),
     Entry("complete", Complete)]
  }

  /** The registry entries for a table of handlers. */
  function Registrations(table: seq<Entry<Handler>>): (r: Commands)
    ensures |r| == |table|
    ensures forall k :: 0 <= k < |table| ==> r[k] == Entry(table[k].name, Some(table[k].value))
  {
    if table == [] then [] else [Entry(table[0].name, Some(table[0].value))] + Registrations(table[1..])
  }

  /** What `alias` did. */
  datatype AliasReply = AliasListed | AliasIsCommand | AliasIsCvar | AliasShown(value: Option<string>) | AliasDefined

  /** What `unalias` did. */
  datatype UnaliasReply = UnaliasUsage | UnaliasCleared | UnaliasBadOption | UnaliasMissingName | UnaliasUndefined | UnaliasRemoved

  /** What Cmd_ExecuteString did with a line. */
  datatype Dispatched =
    | NoTokens
    | Ran(h: Handler)
    | Forwarded
    | NotConnected
    | Runaway
    | AliasQueued(overflow: bool)
    | AliasFailed
    | CvarCommand
    | UnknownCommand

  /** Why the flush loop returned. */
  datatype Flush = Drained | Waiting | OutOfFuel

  /** The line Cmd_TokenizeString splits: none for an empty text, the
      expansion (none when it is discarded) when asked for, else the text. */
  function LineOf(text: string, macroExpand: bool, env: Env): Option<string>
  {
    if text == [] then None
    else if macroExpand then MacroExpand(text, env)
    else Some(text)
  }

  /** The first half of Cmd_TokenizeString: the line that is split. */
  method LineOfText(text: string, macroExpand: bool, env: Env) returns (e: Option<string>)
    ensures e == LineOf(text, macroExpand, env)
  {
    e := None;
    if text != [] {
      if macroExpand {
        e := MacroExpandString(text, env);
      } else {
        e := Some(text);
      }
    }
  }

  /** What the console's commands read and change, as values: the current
      line and its option state, the registries, the variables and script
      files, and the command buffer (its queued text, its size, the `wait`
      count and the alias counter). */
  datatype Snapshot = Snapshot(
    argv: seq<string>, optind: nat, optarg: string, optopt: string,
    aliases: seq<Entry<string>>, commands: Commands, macros: seq<Entry<string>>,
    cvars: map<string, Cvar>, files: map<string, string>,
    queued: string, capacity: nat, waitCount: int, aliasCount: int)

  /** The aliases after `alias name text...`: defined unless the name is a
      command or a variable, or no text follows it. */
  function AliasDefinition(s: Snapshot): seq<Entry<string>> {
    if |s.argv| >= 3 && Lookup(s.commands, s.argv[1]).None? && s.argv[1] !in s.cvars
    then Define(s.aliases, s.argv[1], CmdText.ArgsFrom(s.argv, 2))
    else s.aliases
  }

  /** The aliases after `unalias` once its options are parsed: `-a` deletes
      them all, an operand deletes the alias it names (if any), anything
      else keeps them. */
  function Unaliased(aliases: seq<Entry<string>>, outcome: Outcome, optarg: string, argv: seq<string>)
    : seq<Entry<string>>
  {
    if outcome == Matched('a') then []
    else if outcome == Finished && optarg != "" then Delete(aliases, CmdText.Argv(argv, 1))
    else aliases
  }

  /** The text `exec` puts in front of the buffer: the script the one
      argument names, or nothing. */
  function ExecScript(files: map<string, string>, argv: seq<string>): string {
    if |argv| != 2 then []
    else
      match ScriptFor(files, Truncate(argv[1], MAX_QPATH - 1))
      case Some(f) => f
      case None => []
  }

  /** The effect of running handler `h` on the console in state `s`,
      leaving it in state `t`. Every handler keeps the macros, variables,
      script files, buffer size and alias counter; each changes only what
      its command is for. */
  predicate Handled(h: Handler, s: Snapshot, t: Snapshot) {
    && t.macros == s.macros && t.cvars == s.cvars && t.files == s.files
    && t.capacity == s.capacity && t.aliasCount == s.aliasCount
    && (h != UnaliasCmd ==>
          t.argv == s.argv && t.optind == s.optind && t.optarg == s.optarg && t.optopt == s.optopt)
    && (h != Wait ==> t.waitCount == s.waitCount)
    && (h != AliasCmd && h != UnaliasCmd ==> t.aliases == s.aliases)
    && (h != Complete ==> t.commands == s.commands)
    && (h != Text && h != Exec ==> t.queued == s.queued)
    && match h
       case AliasCmd => t.aliases == AliasDefinition(s)
       case UnaliasCmd =>
         s.optind <= |s.argv| ==>
           var p := Parse(UNALIAS_OPTIONS, OptState(s.argv, s.optind, s.optarg, s.optopt));
           t.argv == p.st.argv && t.optind == p.st.optind && t.optarg == p.st.optarg &&
           t.optopt == p.st.optopt && t.aliases == Unaliased(s.aliases, p.outcome, t.optarg, t.argv)
       case Wait => t.waitCount == if |s.argv| > 1 then Atoi(s.argv[1]) else 1
       case Text => t.queued == Appended(Appended(s.queued, CmdText.ArgsFrom(s.argv, 1), s.capacity), "\n", s.capacity)
       case Complete =>
         t.commands == if |s.argv| < 2 then s.commands else AddPlaceholder(s.commands, s.cvars, s.argv[1]).list
       case Exec => t.queued == Inserted(s.queued, ExecScript(s.files, s.argv), s.capacity)
       case _ => true
  }

  /** The effect of running the alias `text` on the console in state `s`,
      leaving it in state `t` with outcome `d`: refused after
      ALIAS_LOOP_COUNT expansions; otherwise the text is expanded in alias
      mode against `s.argv`, and a successful expansion is put in front of
      the queued text and counted. Only the queued text and the counter
      change. */
  predicate AliasRan(text: string, macroHash: map<string, string>, s: Snapshot, d: Dispatched, t: Snapshot) {
    && t == s.(queued := t.queued, aliasCount := t.aliasCount)
    && if s.aliasCount == ALIAS_LOOP_COUNT then
         d == Runaway && t.aliasCount == s.aliasCount && t.queued == s.queued
       else
         var e := MacroExpand(text, Env(macroHash, s.cvars, true, s.argv));
         (e.None? ==> d == AliasFailed && t.aliasCount == s.aliasCount && t.queued == s.queued) &&
         (e.Some? ==> d.AliasQueued? && t.aliasCount == s.aliasCount + 1 &&
                      (d.overflow <==> e.value != [] && |s.queued| + |e.value| + 1 > s.capacity) &&
                      t.queued == Inserted(s.queued, e.value, s.capacity))
  }

  /** The tokens Cmd_TokenizeString leaves for the line `e`. */
  function Tokenized(e: Option<string>): (r: seq<string>)
    ensures e.None? ==> r == []
    ensures e.Some? ==> |r| == |Tokens(Truncate(e.value, MAX_STRING_CHARS - 1)).tokens|
  {
    if e.None? then [] else Texts(Tokens(Truncate(e.value, MAX_STRING_CHARS - 1)).tokens)
  }

  class Console {
    const buffer: CommandBuffer

    /** Aliases in definition order, and their hash index. */
    var aliases: seq<Entry<string>>
    var aliasHash: map<string, string>
    /** Commands in registration order (a placeholder has no handler), and
        their hash index. */
    var commands: Commands
    var commandHash: map<string, Option<Handler>>
    /** Macros, newest first, each with the text its function formats now,
        and their hash index. */
    var macros: seq<Entry<string>>
    var macroHash: map<string, string>

    var cvars: map<string, Cvar>
    var files: map<string, string>
    var connected: bool

    /** The current line: its tokens, where each starts in `cmdString`,
        the line as tokenized and the length it had before it was cut to
        fit. */
    var argv: seq<string>
    var offsets: seq<nat>
    var cmdString: string
    var cmdStringLen: nat

    var optind: nat
    var optarg: string
    var optopt: string

    ghost predicate Valid()
      reads this`aliases, this`aliasHash, this`commands, this`commandHash, this`macros, this`macroHash
      reads this`argv, this`offsets, this`cmdString, buffer`cursize
    {
      buffer.Valid() && buffer.text.Length == CMD_BUFFER_SIZE && Registries() && LineValid()
    }

    /** Each hash index agrees with its list. */
    ghost predicate Registries()
      reads this`aliases, this`aliasHash, this`commands, this`commandHash, this`macros, this`macroHash
    {
      Indexed(aliases, aliasHash) && Indexed(commands, commandHash) && Indexed(macros, macroHash)
    }

    /** The tokens are within the limit, and each but the first starts, in
        increasing order, inside the command string. */
    ghost predicate LineValid()
      reads this`argv, this`offsets, this`cmdString
    {
      |offsets| == |argv| <= MAX_STRING_TOKENS && Increasing(offsets) &&
      (forall k :: 1 <= k < |offsets| ==> offsets[k] <= |cmdString|)
    }

    /** The console as a value. */
    ghost function Snap(): Snapshot
      reads this, buffer, buffer.text
      requires buffer.Valid()
    {
      Snapshot(argv, optind, optarg, optopt, aliases, commands, macros, cvars, files,
               buffer.Contents(), buffer.text.Length, buffer.waitCount, buffer.aliasCount)
    }

    /** Cbuf_Init and the list set-up of Cmd_Init: an empty buffer and
        empty registries. The console's own commands are then added with
        Register(ConsoleCommands()), see ConsoleCommandsRegistered. */
    constructor ()
      ensures Valid() && fresh(buffer) && fresh(buffer.text)
      ensures commands == [] && cvars == map[]
      ensures aliases == [] && macros == [] && argv == []
      ensures buffer.Contents() == [] && buffer.aliasCount == 0 && buffer.waitCount == 0
    {
      buffer := new CommandBuffer(CMD_BUFFER_SIZE);
      aliases, aliasHash := [], map[];
      commands, commandHash := [], map[];
      macros, macroHash := [], map[];
      cvars, files, connected := map[], map[], false;
      argv, offsets, cmdString, cmdStringLen := [], [], "", 0;
      optind, optarg, optopt := 1, "", "";
    }

    /** Cmd_Register: registers a table of commands in order. */
    method Register(table: seq<Entry<Handler>>)
      requires Valid()
      modifies this`commands, this`commandHash
      ensures Valid()
      ensures commands == RegisterTable(old(commands), cvars, table)
    {
      var i := 0;
      while i < |table|
        invariant 0 <= i <= |table|
        invariant Valid()
        invariant RegisterTable(commands, cvars, table[i..]) == RegisterTable(old(commands), cvars, table)
      {
        assert table[i..][1..] == table[i + 1..];
        var r := RegCommand(table[i].name, table[i].value);
        i := i + 1;
      }
    }

    // ---------------------------------------------------------------------
    // Lookups through the hash indexes

    /** Cmd_AliasFind: the alias's text, found through the hash index, is
        the one the list holds. */
    method AliasFind(name: string) returns (r: Option<string>)
      requires Valid()
      ensures r == Lookup(aliases, name)
    {
      LookupIndexed(aliases, aliasHash, name);
      r := if name in aliasHash then Some(aliasHash[name]) else None;
    }

    /** Cmd_Find: the command entry, found through the hash index. */
    method CommandFind(name: string) returns (r: Option<Option<Handler>>)
      requires Valid()
      ensures r == Lookup(commands, name)
    {
      LookupIndexed(commands, commandHash, name);
      r := if name in commandHash then Some(commandHash[name]) else None;
    }

    /** Cmd_FindMacro. */
    method MacroFind(name: string) returns (r: Option<string>)
      requires Valid()
      ensures r == Lookup(macros, name)
    {
      LookupIndexed(macros, macroHash, name);
      r := if name in macroHash then Some(macroHash[name]) else None;
    }

    // ---------------------------------------------------------------------
    // Registries

    /** Cmd_AliasSet: an existing alias gets the new text where it stands,
        a new one is appended to the list and entered in the index. */
    method AliasSet(name: string, value: string)
      requires Valid()
      modifies this`aliases, this`aliasHash
      ensures Valid()
      ensures aliases == Define(old(aliases), name, value) && aliasHash == old(aliasHash)[name := value]
      ensures Lookup(aliases, name) == Some(value)
      ensures |aliases| == |old(aliases)| + (if Lookup(old(aliases), name).Some? then 0 else 1)
      ensures forall other :: other != name ==> Lookup(aliases, other) == Lookup(old(aliases), other)
    {
      aliases, aliasHash := DefineEntry(aliases, aliasHash, name, value);
    }

    /** Cmd_RegCommand: refused for a name a variable claims or a command
        with a handler; fills a placeholder; otherwise appends. */
    method RegCommand(name: string, h: Handler) returns (result: Registration)
      requires Valid()
      modifies this`commands, this`commandHash
      ensures Valid()
      ensures var r := CmdRegistry.RegCommand(old(commands), cvars, name, h);
              commands == r.list && result == r.result
    {
      commands, commandHash, result := RegisterCommand(commands, commandHash, cvars, name, h);
    }

    /** Cmd_RemoveCommand: drops the entry from the list and the index;
        reports whether there was one. */
    method RemoveCommand(name: string) returns (removed: bool)
      requires Valid()
      modifies this`commands, this`commandHash
      ensures Valid()
      ensures removed <==> Lookup(old(commands), name).Some?
      ensures commands == Delete(old(commands), name) && commandHash == old(commandHash) - {name}
      ensures Lookup(commands, name) == None
    {
      commands, commandHash, removed := RemoveEntry(commands, commandHash, name);
    }

    /** Cmd_AddMacro: refused for a name a variable claims or an existing
        macro; a new macro goes to the front of the list. */
    method AddMacro(name: string, text: string) returns (result: Registration)
      requires Valid()
      modifies this`macros, this`macroHash
      ensures Valid()
      ensures var r := CmdRegistry.AddMacro(old(macros), cvars, name, text);
              macros == r.list && result == r.result
      ensures result == Added ==> Lookup(macros, name) == Some(text)
    {
      AddMacroEffect(macros, cvars, name, text);
      if ClaimedByCvar(cvars, name) {
        result := RefusedCvar;
      } else {
        var found := MacroFind(name);
        if found.Some? {
          result := RefusedExists;
        } else {
          PrependMacro(name, text);
          result := Added;
        }
      }
    }

    /** The list insertion of Cmd_AddMacro: a new entry at the head of the
        list and in the hash index. */
    method PrependMacro(name: string, text: string)
      requires Valid() && Lookup(macros, name).None?
      modifies this`macros, this`macroHash
      ensures Valid() && macros == [Entry(name, text)] + old(macros)
      ensures macroHash == old(macroHash)[name := text]
    {
      LookupIndexed(macros, macroHash, name);
      MacroPrepended(macros, macroHash, name, text);
      macros := [Entry(name, text)] + macros;
      macroHash := macroHash[name := text];
    }

    // ---------------------------------------------------------------------
    // The current line

    /** Cmd_TokenizeString: forgets the previous line, expands `$` names
        when asked (outside alias mode) and splits what remains, cut to
        MAX_STRING_CHARS - 1 bytes, into tokens. An empty line, or one whose
        expansion fails, leaves no tokens and an empty command string. */
    method TokenizeString(text: string, macroExpand: bool)
      requires Valid()
      modifies this`argv, this`offsets, this`cmdString, this`cmdStringLen, this`optind, this`optarg, this`optopt
      ensures Valid()
      ensures optind == 1 && optarg == "" && optopt == ""
      ensures Holds(LineOf(text, macroExpand, Env(macroHash, cvars, false, [])), old(cmdStringLen))
    {
      optind, optarg, optopt := 1, "", "";
      var e := LineOfText(text, macroExpand, Env(macroHash, cvars, false, []));
      SetLine(e);
    }

    /** The current line is `e` as Cmd_TokenizeString leaves it: without a
        line there are no tokens, an empty command string and the old
        length; with one, the command string is the line cut to fit, the
        length is the uncut one, and the tokens and their offsets are those
        of the command string. */
    ghost predicate Holds(e: Option<string>, oldLen: nat)
      reads this`argv, this`offsets, this`cmdString, this`cmdStringLen
    {
      && (e.None? ==> argv == [] && cmdString == "" && cmdStringLen == oldLen)
      && (e.Some? ==>
            cmdString == Truncate(e.value, MAX_STRING_CHARS - 1) && cmdStringLen == |e.value| &&
            argv == Texts(Tokens(cmdString).tokens) && offsets == Offsets(Tokens(cmdString).tokens))
    }

    /** The tokens of Cmd_TokenizeString for the line it arrived at, or none
        when there is no line: the line is copied into the command string,
        cut to fit, and that is split into tokens. */
    method SetLine(e: Option<string>)
      requires Valid()
      modifies this`argv, this`offsets, this`cmdString, this`cmdStringLen
      ensures Valid()
      ensures Holds(e, old(cmdStringLen))
    {
      argv, offsets := [], [];
      cmdString := "";
      if e.Some? {
        cmdStringLen := |e.value|;
        cmdString := Truncate(e.value, MAX_STRING_CHARS - 1);
        var toks, used := Tokenize(cmdString);
        TokenOffsets(cmdString);
        argv, offsets := Texts(toks), Offsets(toks);
      }
    }

    /** Cmd_ArgOffset: where token `arg` starts in the command string (0
        before the first, the full length after the last). The token found
        for a token's own offset is that token. */
    function ArgOffset(arg: int): (r: nat)
      reads this, buffer
      requires Valid()
      ensures 0 <= arg < |argv| ==> r == offsets[arg] && ArgForOffset(offsets, r) == arg
      ensures arg < 0 ==> r == 0
      ensures arg >= |argv| ==> r == cmdStringLen
    {
      if arg < 0 then 0
      else if arg >= |argv| then cmdStringLen
      else ArgForOffsetInverse(offsets, arg); offsets[arg]
    }

    /** Cmd_FindArgForOffset: the loop over the token offsets. */
    method FindArgForOffset(offset: nat) returns (arg: nat)
      requires Valid()
      ensures arg == ArgForOffset(offsets, offset)
      ensures arg < |argv| || (argv == [] && arg == 0)
    {
      ArgForOffsetSpec(offsets, offset);
      var i := 1;
      while i < |offsets|
        invariant 1 <= i
        invariant ArgForOffsetFrom(offsets, offset, i) == ArgForOffset(offsets, offset)
        decreases |offsets| - i
      {
        if offset < offsets[i] {
          break;
        }
        i := i + 1;
      }
      arg := i - 1;
    }

    /** Cmd_ArgsFrom: the tokens from `from` on joined by single spaces,
        built as the strcat loop does; empty when `from` is no token. */
    method ArgsFrom(from: int) returns (r: string)
      ensures r == CmdText.ArgsFrom(argv, from)
    {
      if from < 0 || from >= |argv| {
        return "";
      }
      r := "";
      var i := from;
      while i < |argv| - 1
        invariant from <= i <= |argv| - 1
        invariant r + Join(argv[i..]) == Join(argv[from..])
      {
        JoinStep(argv[i..]);
        assert argv[i..][1..] == argv[i + 1..];
        r := r + argv[i] + " ";
        i := i + 1;
      }
      assert argv[i..] == [argv[i]];
      r := r + argv[i];
    }

    /** Cmd_Args: the tokens after the command name. */
    method Args() returns (r: string)
      ensures r == CmdText.ArgsFrom(argv, 1)
    {
      r := ArgsFrom(1);
    }

    /** Cmd_RawArgs: the command string from the second token on, as typed. */
    function RawArgs(): (r: string)
      reads this, buffer
      requires Valid()
      ensures |argv| < 2 ==> r == ""
      ensures |argv| >= 2 ==> cmdString == cmdString[..offsets[1]] + r
    {
      if |argv| < 2 then "" else cmdString[offsets[1]..]
    }

    /** Cmd_Shift: drops the first token. A line of one token keeps it and
        loses its command string instead. */
    method Shift()
      requires Valid()
      modifies this`argv, this`offsets, this`cmdString
      ensures Valid()
      ensures old(|argv|) == 0 ==> argv == [] && cmdString == old(cmdString)
      ensures old(|argv|) == 1 ==> argv == old(argv) && offsets == old(offsets) && cmdString == ""
      ensures old(|argv|) >= 2 ==>
                argv == old(argv[1..]) && offsets == old(offsets[1..]) && cmdString == old(cmdString)
    {
      if |argv| == 0 {
        return;
      }
      if |argv| == 1 {
        cmdString := "";
        return;
      }
      argv, offsets := argv[1..], offsets[1..];
    }

    /** Cmd_ParseOptions on the current line, with the parser's state kept
        in the console. */
    method ParseOptions(opts: seq<CmdOption>) returns (outcome: Outcome)
      requires Valid() && WellFormed(opts) && optind <= |argv|
      modifies this`argv, this`optind, this`optarg, this`optopt
      ensures Valid()
      ensures var p := Parse(opts, OptState(old(argv), old(optind), old(optarg), old(optopt)));
              outcome == p.outcome && argv == p.st.argv && optind == p.st.optind &&
              optarg == p.st.optarg && optopt == p.st.optopt
    {
      ParseProgress(opts, OptState(argv, optind, optarg, optopt));
      var p := CmdOptions.ParseOptions(opts, OptState(argv, optind, optarg, optopt));
      outcome := p.outcome;
      argv, optind, optarg, optopt := p.st.argv, p.st.optind, p.st.optarg, p.st.optopt;
    }

    // ---------------------------------------------------------------------
    // The console's commands

    /** Cmd_Wait_f: the number of frames to hold the buffer back. */
    method Wait_f()
      requires Valid()
      modifies buffer`waitCount
      ensures Valid()
      ensures buffer.waitCount == if |argv| > 1 then Atoi(argv[1]) else 1
      ensures Handled(Wait, old(Snap()), Snap())
    {
      if |argv| > 1 {
        buffer.waitCount := Atoi(argv[1]);
      } else {
        buffer.waitCount := 1;
      }
    }

    /** Cmd_Text_f: appends the arguments, then a newline, as two separate
        appends of which each happens only when it fits. */
    method Text_f()
      requires Valid()
      modifies buffer`cursize, buffer.text
      ensures Valid()
      ensures var n := buffer.text.Length;
              buffer.Contents() == Appended(Appended(old(buffer.Contents()), CmdText.ArgsFrom(argv, 1), n), "\n", n)
      ensures Handled(Text, old(Snap()), Snap())
    {
      var a := Args();
      var overflow := buffer.AddText(a);
      overflow := buffer.AddText("\n");
    }

    /** Cmd_Alias_f: without a name lists the aliases; refuses a name that
        is a command or a variable; with a name only shows its text;
        otherwise defines it as the rest of the line, which makes the name
        run the alias. */
    method Alias_f() returns (reply: AliasReply)
      requires Valid()
      modifies this`aliases, this`aliasHash
      ensures Valid()
      ensures |argv| < 2 ==> reply == AliasListed
      ensures |argv| >= 2 ==>
                var name := argv[1];
                (reply == AliasIsCommand <==> Lookup(commands, name).Some?) &&
                (reply == AliasIsCvar <==> Lookup(commands, name).None? && name in cvars) &&
                (reply == AliasDefined <==> Lookup(commands, name).None? && name !in cvars && |argv| >= 3) &&
                (reply.AliasShown? ==> reply.value == Lookup(aliases, name))
      ensures reply == AliasDefined ==>
                aliases == Define(old(aliases), argv[1], CmdText.ArgsFrom(argv, 2)) &&
                RouteOf(commands, aliases, cvars, argv[1]) == ToAlias(CmdText.ArgsFrom(argv, 2))
      ensures reply != AliasDefined ==> aliases == old(aliases) && aliasHash == old(aliasHash)
      ensures Handled(AliasCmd, old(Snap()), Snap())
    {
      if |argv| < 2 {
        reply := AliasListed;
      } else {
        var name := argv[1];
        var cmd := CommandFind(name);
        if cmd.Some? {
          reply := AliasIsCommand;
        } else if name in cvars {
          reply := AliasIsCvar;
        } else if |argv| < 3 {
          var a := AliasFind(name);
          reply := AliasShown(a);
        } else {
          var text := ArgsFrom(2);
          AliasReachable(commands, aliases, cvars, name, text);
          AliasSet(name, text);
          reply := AliasDefined;
        }
      }
      assert Snap() == old(Snap()).(aliases := aliases);
    }

    /** Cmd_UnAlias_f: `-h` shows the usage, `-a` deletes every alias, a bad
        option is reported; otherwise the alias named by the first argument
        (not by the parser's `optarg`) is deleted from the list and the
        index. */
    method UnAlias_f() returns (reply: UnaliasReply)
      requires Valid() && optind <= |argv|
      modifies this`aliases, this`aliasHash, this`argv, this`optind, this`optarg, this`optopt
      ensures Valid()
      ensures var p := Parse(UNALIAS_OPTIONS, OptState(old(argv), old(optind), old(optarg), old(optopt)));
              argv == p.st.argv && optind == p.st.optind && optarg == p.st.optarg && optopt == p.st.optopt &&
              (p.outcome == Matched('h') ==> reply == UnaliasUsage) &&
              (p.outcome == Matched('a') ==> reply == UnaliasCleared && aliases == [] && aliasHash == map[]) &&
              (p.outcome !in {Finished, Matched('h'), Matched('a')} ==> reply == UnaliasBadOption) &&
              (p.outcome == Finished && optarg == "" ==> reply == UnaliasMissingName) &&
              (p.outcome == Finished && optarg != "" ==>
                 var name := CmdText.Argv(argv, 1);
                 (reply == UnaliasRemoved <==> Lookup(old(aliases), name).Some?) &&
                 (reply == UnaliasRemoved ==>
                    aliases == Delete(old(aliases), name) && aliasHash == old(aliasHash) - {name} &&
                    Lookup(aliases, name) == None))
      ensures aliases == Unaliased(old(aliases), Parse(UNALIAS_OPTIONS, OptState(old(argv), old(optind), old(optarg), old(optopt))).outcome, optarg, argv)
      ensures reply !in {UnaliasCleared, UnaliasRemoved} ==> aliases == old(aliases) && aliasHash == old(aliasHash)
      ensures Handled(UnaliasCmd, old(Snap()), Snap())
    {
      var outcome := ParseOptions(UNALIAS_OPTIONS);
      reply := Unalias(outcome);
    }

    /** What Cmd_UnAlias_f does once the options are parsed. */
    method Unalias(outcome: Outcome) returns (reply: UnaliasReply)
      requires Valid()
      modifies this`aliases, this`aliasHash
      ensures Valid()
      ensures outcome == Matched('h') ==> reply == UnaliasUsage
      ensures outcome == Matched('a') ==> reply == UnaliasCleared && aliases == [] && aliasHash == map[]
      ensures outcome !in {Finished, Matched('h'), Matched('a')} ==> reply == UnaliasBadOption
      ensures outcome == Finished && optarg == "" ==> reply == UnaliasMissingName
      ensures outcome == Finished && optarg != "" ==>
                var name := CmdText.Argv(argv, 1);
                (reply == UnaliasRemoved <==> Lookup(old(aliases), name).Some?) &&
                (reply == UnaliasRemoved ==>
                   aliases == Delete(old(aliases), name) && aliasHash == old(aliasHash) - {name} &&
                   Lookup(aliases, name) == None)
      ensures aliases == Unaliased(old(aliases), outcome, optarg, argv)
      ensures reply !in {UnaliasCleared, UnaliasRemoved} ==> aliases == old(aliases) && aliasHash == old(aliasHash)
    {
      var list, index := aliases, aliasHash;
      if outcome == Matched('h') {
        reply := UnaliasUsage;
      } else if outcome == Matched('a') {
        list, index := [], map[];
        assert Names(list) == {};
        reply := UnaliasCleared;
      } else if outcome != Finished {
        reply := UnaliasBadOption;
      } else if optarg == "" {
        reply := UnaliasMissingName;
      } else {
        var removed;
        list, index, removed := RemoveEntry(list, index, CmdText.Argv(argv, 1));
        reply := if removed then UnaliasRemoved else UnaliasUndefined;
      }
      assert Indexed(list, index);
      aliases, aliasHash := list, index;
    }

    /** Cmd_Complete_f: registers a placeholder command for the first
        argument unless it names a variable or a command already. */
    method Complete_f() returns (result: Option<Registration>)
      requires Valid()
      modifies this`commands, this`commandHash
      ensures Valid()
      ensures |argv| < 2 ==> result == None && commands == old(commands)
      ensures |argv| >= 2 ==>
                var r := AddPlaceholder(old(commands), cvars, argv[1]);
                commands == r.list && result == Some(r.result)
      ensures Handled(Complete, old(Snap()), Snap())
    {
      if |argv| < 2 {
        result := None;
      } else {
        var list, index, r := PlaceholderEntry(commands, commandHash, cvars, argv[1]);
        commands, commandHash, result := list, index, Some(r);
      }
      assert Snap() == old(Snap()).(commands := commands);
    }

    /** Cmd_Exec_f: with exactly one argument, puts the script of that name
        (or of that name with ".cfg" appended) in front of the queued text. */
    method Exec_f() returns (script: Option<string>)
      requires Valid()
      modifies buffer`cursize, buffer.text
      ensures Valid()
      ensures |argv| != 2 ==> script == None
      ensures |argv| == 2 ==> script == ScriptFor(files, Truncate(argv[1], MAX_QPATH - 1))
      ensures script.Some? && old(buffer.cursize) + |script.value| + 1 <= buffer.text.Length ==>
                buffer.Contents() == (if script.value == [] then [] else script.value + "\n") + old(buffer.Contents())
      ensures script.Some? && script.value != [] && old(buffer.cursize) + |script.value| + 1 > buffer.text.Length ==>
                buffer.Contents() == old(buffer.Contents())
      ensures script.None? ==> buffer.Contents() == old(buffer.Contents())
      ensures buffer.Contents() == Inserted(old(buffer.Contents()), ExecScript(files, argv), buffer.text.Length)
      ensures Handled(Exec, old(Snap()), Snap())
    {
      script := None;
      if |argv| == 2 {
        var path := Truncate(argv[1], MAX_QPATH - 1);
        script := ScriptFor(files, path);
        if script.Some? {
          var overflow := buffer.InsertText(script.value);
        }
      }
      assert Snap() == old(Snap()).(queued := buffer.Contents());
    }

    /** Cmd_ColoredEcho_f: the raw arguments with `^^` printed as one caret
        and `^c` as the colour escape `esc` followed by `c`. */
    method ColoredEcho_f(esc: char) returns (out: string)
      requires Valid()
      ensures out == ColorText(RawArgs(), esc)
      ensures |out| <= |RawArgs()|
    {
      var src := RawArgs();
      out := ColorString(src, esc);
    }

    // ---------------------------------------------------------------------
    // Execution

    /** Runs the handler of a console command against the current line.
        The listing commands and `echo` only print, and the handlers of
        other subsystems are outside this model. */
    method RunHandler(h: Handler)
      requires Valid() && optind <= |argv|
      modifies this, buffer, buffer.text
      ensures Valid()
      ensures buffer.aliasCount == old(buffer.aliasCount)
      ensures Handled(h, old(Snap()), Snap())
    {
      match h {
        case AliasCmd =>
          var reply := Alias_f();
        case UnaliasCmd =>
          var reply := UnAlias_f();
        case Wait =>
          Wait_f();
        case Text =>
          Text_f();
        case Complete =>
          var result := Complete_f();
        case Exec =>
          var script := Exec_f();
        case _ =>
      }
    }

    /** The alias branch of Cmd_ExecuteString: refused after
        ALIAS_LOOP_COUNT expansions since the buffer last drained;
        otherwise the alias text with its positional parameters expanded
        goes in front of the queued text, and only a successful expansion
        counts. */
    method RunAlias(text: string) returns (d: Dispatched)
      requires Valid()
      modifies buffer`aliasCount, buffer`cursize, buffer.text
      ensures Valid()
      ensures AliasRan(text, macroHash, old(Snap()), d, Snap())
    {
      ghost var s := Snap();
      if buffer.aliasCount == ALIAS_LOOP_COUNT {
        d := Runaway;
      } else {
        var e := MacroExpandString(text, Env(macroHash, cvars, true, argv));
        if e.None? {
          d := AliasFailed;
        } else {
          buffer.aliasCount := buffer.aliasCount + 1;
          var overflow := buffer.InsertText(e.value);
          d := AliasQueued(overflow);
        }
      }
      assert Snap() == s.(queued := buffer.Contents(), aliasCount := buffer.aliasCount);
    }

    /** Dispatches the current line in the order of Cmd_ExecuteString. */
    method Dispatch() returns (d: Dispatched)
      requires Valid() && (argv != [] ==> optind <= |argv|)
      modifies this, buffer, buffer.text
      ensures Valid()
      ensures buffer.aliasCount >= old(buffer.aliasCount)
      ensures d == NoTokens <==> old(argv) == []
      ensures old(argv) == [] ==> buffer.Contents() == old(buffer.Contents())
      ensures old(argv) != [] ==>
                var route := RouteOf(old(commands), old(aliases), old(cvars), old(argv)[0]);
                (route.ToCommand? ==> d == Ran(route.h) && Handled(route.h, old(Snap()), Snap())) &&
                (route.ToPlaceholder? ==> d == if old(connected) then Forwarded else NotConnected) &&
                (route.ToAlias? ==> AliasRan(route.text, old(macroHash), old(Snap()), d, Snap())) &&
                (route.ToCvar? ==> d == CvarCommand) &&
                (route.ToServer? ==> d == if old(connected) then Forwarded else UnknownCommand) &&
                (!route.ToCommand? ==>
                   commands == old(commands) && aliases == old(aliases) && macros == old(macros) &&
                   argv == old(argv)) &&
                (!route.ToAlias? && !route.ToCommand? ==> buffer.Contents() == old(buffer.Contents()))
    {
      if argv == [] {
        return NoTokens;
      }
      var name := argv[0];
      var cmd := CommandFind(name);
      if cmd.Some? {
        if cmd.value.Some? {
          RunHandler(cmd.value.value);
          return Ran(cmd.value.value);
        }
        return if connected then Forwarded else NotConnected;
      }
      var a := AliasFind(name);
      if a.Some? {
        d := RunAlias(a.value);
        return;
      }
      if name in cvars {
        return CvarCommand;
      }
      return if connected then Forwarded else UnknownCommand;
    }

    /** Cmd_ExecuteString: tokenizes the line with `$` expansion and
        dispatches it. */
    method ExecuteString(text: string) returns (d: Dispatched)
      requires Valid()
      modifies this, buffer, buffer.text
      ensures Valid()
      ensures buffer.aliasCount >= old(buffer.aliasCount)
      ensures var e := if text == [] then None else MacroExpand(text, Env(old(macroHash), old(cvars), false, []));
              d == NoTokens <==> e.None? || Tokens(Truncate(e.value, MAX_STRING_CHARS - 1)).tokens == []
      ensures var toks := Tokenized(LineOf(text, true, Env(old(macroHash), old(cvars), false, [])));
              toks != [] ==>
                var route := RouteOf(old(commands), old(aliases), old(cvars), toks[0]);
                (route.ToCommand? ==>
                   d == Ran(route.h) &&
                   Handled(route.h, old(Snap()).(argv := toks, optind := 1, optarg := "", optopt := ""), Snap())) &&
                (route.ToPlaceholder? ==> d == if old(connected) then Forwarded else NotConnected) &&
                (route.ToAlias? ==>
                   AliasRan(route.text, old(macroHash),
                            old(Snap()).(argv := toks, optind := 1, optarg := "", optopt := ""), d, Snap())) &&
                (route.ToCvar? ==> d == CvarCommand) &&
                (route.ToServer? ==> d == if old(connected) then Forwarded else UnknownCommand) &&
                (!route.ToAlias? && !route.ToCommand? ==> buffer.Contents() == old(buffer.Contents()))
    {
      TokenizeString(text, true);
      assert argv == Tokenized(LineOf(text, true, Env(macroHash, cvars, false, [])));
      assert Snap() == old(Snap()).(argv := argv, optind := 1, optarg := "", optopt := "");
      d := Dispatch();
    }

    /** Cbuf_ExecuteEx with Cmd_ExecuteString as the executor: runs the
        queued statements in order until the buffer is empty, or a `wait`
        holds it back, or `fuel` statements have run. The alias counter is
        reset only when the buffer has drained. */
    method Execute(fuel: nat) returns (stop: Flush, lines: seq<string>)
      requires Valid()
      modifies this, buffer, buffer.text
      ensures Valid()
      ensures |lines| <= fuel
      ensures stop == Drained <==> buffer.cursize == 0
      ensures stop == Drained ==> buffer.aliasCount == 0
      ensures stop == Waiting ==> buffer.waitCount > 0
      ensures stop == OutOfFuel ==> |lines| == fuel
      ensures stop != Drained ==> buffer.aliasCount >= old(buffer.aliasCount)
      ensures |lines| > 0 ==> lines[0] == Line(old(buffer.Contents()))
      ensures old(buffer.cursize) > 0 && old(buffer.waitCount) > 0 ==>
                stop == Waiting && lines == [] && buffer.Contents() == old(buffer.Contents()) &&
                buffer.aliasCount == old(buffer.aliasCount)
    {
      lines := [];
      while buffer.cursize > 0
        invariant Valid()
        invariant |lines| <= fuel
        invariant buffer.aliasCount >= old(buffer.aliasCount)
        invariant |lines| > 0 ==> lines[0] == Line(old(buffer.Contents()))
        invariant old(buffer.waitCount) > 0 && old(buffer.cursize) > 0 ==> lines == []
        invariant lines == [] ==> buffer.Contents() == old(buffer.Contents()) &&
                                  buffer.cursize == old(buffer.cursize) &&
                                  buffer.waitCount == old(buffer.waitCount) &&
                                  buffer.aliasCount == old(buffer.aliasCount)
        decreases fuel - |lines|
      {
        if buffer.waitCount > 0 {
          return Waiting, lines;
        }
        if |lines| == fuel {
          return OutOfFuel, lines;
        }
        var line := buffer.TakeLine();
        lines := lines + [line];
        var d := ExecuteString(line);
      }
      buffer.aliasCount := 0;
      stop := Drained;
    }
  }

  /** The script `exec` loads for a name: the file of that name, else the
      file with ".cfg" appended. */
  function ScriptFor(files: map<string, string>, path: string): (r: Option<string>)
    ensures r.Some? <==> path in files || Truncate(path + ".cfg", MAX_QPATH - 1) in files
    ensures path in files ==> r == Some(files[path])
  {
    if path in files then Some(files[path])
    else
      var cfg := Truncate(path + ".cfg", MAX_QPATH - 1);
      if cfg in files then Some(files[cfg]) else None
  }

  /** Join peels off its first word. */
  lemma JoinStep(args: seq<string>)
    requires |args| >= 2
    ensures Join(args) == args[0] + " " + Join(args[1..])
  {
  }

  /** The names of the console's commands are distinct. */
  lemma FreshNames()
    ensures forall j, k :: 0 <= j < k < |ConsoleCommands()| ==> ConsoleCommands()[j].name != ConsoleCommands()[k].name
  {
  }

  /** The registry after the registrations of a table, in order. */
  function RegisterTable(cmds: Commands, cvars: map<string, Cvar>, table: seq<Entry<Handler>>): Commands
    decreases |table|
  {
    if table == [] then cmds
    else RegisterTable(CmdRegistry.RegCommand(cmds, cvars, table[0].name, table[0].value).list, cvars, table[1..])
  }

  /** A table of distinct names that no command has and no variable claims
      is appended to the registry as it stands. */
  lemma {:induction false} RegisterFresh(cmds: Commands, cvars: map<string, Cvar>, table: seq<Entry<Handler>>)
    requires forall k :: 0 <= k < |table| ==>
               !ClaimedByCvar(cvars, table[k].name) && Lookup(cmds, table[k].name).None?
    requires forall j, k :: 0 <= j < k < |table| ==> table[j].name != table[k].name
    ensures RegisterTable(cmds, cvars, table) == cmds + Registrations(table)
    decreases |table|
  {
    if table != [] {
      var next := RegisterOne(cmds, cvars, table[0].name, table[0].value);
      var rest := table[1..];
      assert forall k :: 0 <= k < |rest| ==> !ClaimedByCvar(cvars, rest[k].name) && Lookup(next, rest[k].name).None? by {
        forall k | 0 <= k < |rest|
          ensures Lookup(next, rest[k].name).None?
        {
          assert rest[k].name == table[k + 1].name != table[0].name;
        }
      }
      assert forall j, k :: 0 <= j < k < |rest| ==> rest[j].name != rest[k].name by {
        forall j, k | 0 <= j < k < |rest| ensures rest[j].name != rest[k].name {
          assert rest[j] == table[j + 1] && rest[k] == table[k + 1];
        }
      }
      RegisterFresh(next, cvars, rest);
      AppendShift(cmds, Entry(table[0].name, Some(table[0].value)), Registrations(rest));
    }
  }

  lemma AppendShift<T>(a: seq<T>, x: T, b: seq<T>)
    ensures (a + [x]) + b == a + ([x] + b)
  {
  }

  /** Registering a fresh name appends it and leaves every other name as
      it was. */
  lemma RegisterOne(cmds: Commands, cvars: map<string, Cvar>, name: string, h: Handler) returns (next: Commands)
    requires !ClaimedByCvar(cvars, name) && Lookup(cmds, name).None?
    ensures next == CmdRegistry.RegCommand(cmds, cvars, name, h).list == cmds + [Entry(name, Some(h))]
    ensures forall other :: other != name ==> Lookup(next, other) == Lookup(cmds, other)
  {
    next := cmds + [Entry(name, Some(h))];
    forall other | other != name
      ensures Lookup(next, other) == Lookup(cmds, other)
    {
      LookupAfterDefine(cmds, name, Some(h), other);
    }
  }

  /** Cmd_Init's registrations all succeed. */
  lemma ConsoleCommandsRegistered(cmds: Commands, cvars: map<string, Cvar>)
    requires cmds == [] && cvars == map[]
    ensures RegisterTable(cmds, cvars, ConsoleCommands()) == Registrations(ConsoleCommands())
  {
    FreshNames();
    RegisterFresh(cmds, cvars, ConsoleCommands());
  }

  /** A macro put at the front of the list under a new name keeps the
      index consistent. */
  lemma MacroPrepended(macros: seq<Entry<string>>, index: map<string, string>, name: string, text: string)
    requires Indexed(macros, index) && name !in index
    ensures Indexed([Entry(name, text)] + macros, index[name := text])
  {
    var r := [Entry(name, text)] + macros;
    assert Names(r) == Names(macros) + {name} by {
      forall n | n in Names(macros) ensures n in Names(r) {
        var j :| 0 <= j < |macros| && macros[j].name == n;
        assert r[j + 1].name == n;
      }
      assert r[0].name == name;
    }
  }

  /** The 1023-byte statement `set x "..."` can give the variable `x` the
      1015-byte value DenseLine(126), whose semicolons it keeps inside
      quotes. The line `$x` then expands to that value, and tokenizing it
      writes 1268 bytes into the 1024-byte cmd_data. */
  lemma DenseVariableOverflows(env: Env)
    requires !env.aliasMode && "x" !in env.macros
    requires "x" in env.cvars && !env.cvars["x"].isPrivate && env.cvars["x"].value == DenseLine(126)
    ensures MacroExpand("$x", env) == Some(DenseLine(126))
    ensures Tokens(Truncate(DenseLine(126), MAX_STRING_CHARS - 1)).dataUsed == 1268 > CMD_DATA_SIZE
  {
    var v := DenseLine(126);
    forall j | 0 <= j < |v| ensures v[j] != '$' && v[j] != '"' {
    }
    assert [] + "$" + "x" + [] == "$x" && [] + v + [] == v;
    VariableSubstituted([], "x", [], env);
    DenseScan(DenseLine(126), 126, 0, MAX_STRING_TOKENS);
  }

  /** With an alias named `aaaaaaa` and no command of that name, the line
      `$x` (x holding DenseLine(126)) is dispatched to the alias, and when
      its text uses `$@`, Cmd_Args joins the line's other 252 tokens into
      1260 bytes of the 1024-byte cmd_args. */
  lemma DenseArgumentsOverflow(env: Env, cmds: Commands, aliases: seq<Entry<string>>, text: string)
    requires !env.aliasMode && "x" !in env.macros
    requires "x" in env.cvars && !env.cvars["x"].isPrivate && env.cvars["x"].value == DenseLine(126)
    requires Lookup(cmds, "aaaaaaa").None? && Lookup(aliases, "aaaaaaa") == Some(text)
    ensures |Tokenized(MacroExpand("$x", env))| == 253
    ensures RouteOf(cmds, aliases, env.cvars, Tokenized(MacroExpand("$x", env))[0]) == ToAlias(text)
    ensures |CmdText.ArgsFrom(Tokenized(MacroExpand("$x", env)), 1)| + 1 == 1260 > CMD_ARGS_SIZE
  {
    DenseVariableOverflows(env);
    assert Truncate(DenseLine(126), MAX_STRING_CHARS - 1) == DenseLine(126);
    ArgsOverflow(DenseLine(126));
  }
}
