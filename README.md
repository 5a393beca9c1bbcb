# q2pro console interpreter, client prediction and effect pools — a Dafny model

This project models three parts of the q2pro Quake II client and engine:

- The **console command interpreter** of `source/cmd.c`. It covers:
  - the command buffer (`Cbuf_*`): append, insert in front, split off the next statement, and flush with `wait` and the alias-loop counter;
  - the tokenizer (`Cmd_TokenizeString`);
  - the `$` macro expander (`Cmd_MacroExpandString`);
  - the getopt-like option parser (`Cmd_ParseOptions`);
  - the three name registries (commands, aliases, macros), each a list plus a hash index;
  - the argument accessors (`Cmd_Argv`, `Cmd_Args`, `Cmd_ArgsFrom`, `Cmd_RawArgs`, `Cmd_ArgOffset`, `Cmd_FindArgForOffset`, `Cmd_Shift`);
  - dispatch (`Cmd_ExecuteString`);
  - the console's own commands: `wait`, `alias`, `unalias`, `exec`, `text`, `complete` and `echo`.
- **Client-side movement prediction** of `src/client/predict.c`:
  - the 128-slot ring of predicted origins;
  - the prediction-error check;
  - the replay of unacknowledged commands;
  - the pending command;
  - step smoothing.

  Command numbers are unsigned 32-bit values that wrap.
- The **effect allocators** of `src/client/effects.c`:
  - the 32-slot dynamic-light table (`CL_ClearDlights`, `CL_AllocDlight`, `CL_AddDLights`);
  - the particle pool, a free list and an active list threaded through one array (`CL_ClearParticles`, `CL_AllocParticle`);
  - the fly-swarm count (`CL_FlyEffect`, `CL_FlyParticles`);
  - the diminishing-trail counter (`CL_DiminishingTrail`).

Each file takes the form of the code it models.

- Code that mutates state is a `class` whose methods have `modifies` clauses:
  - `CmdBuffer.CommandBuffer` keeps the byte buffer as an `array<char>`;
  - `CmdConsole.Console` holds the registries, the current token vector and the buffer;
  - `Predict.Predictor` keeps the origin ring as an `array<Vec3>`;
  - `Effects.DlightTable` and `Effects.ParticlePool` keep their fixed arrays.
- Every loop of the source is a `while` loop with invariants. The loops that compute a value or rewrite a table are proved equal to a specification function:
  - `Tokens` for the tokenizer;
  - `MacroExpand` for the expander;
  - `Parse` for the option parser;
  - `CheckError` and `Predicted` for prediction;
  - `ChooseDlight` and `Live` for the light table;
  - `ColorText` for the coloured echo.

  The buffer flush (`Execute`) and the diminishing trail (`DiminishingTrail`) are instead specified by the invariants they keep and the state they leave.
- Lemmas then state what the source promises about those functions.

Modules follow the source:

| module | role |
|---|---|
| `CmdText` | limits, C-string helpers, `atoi` |
| `CmdBuffer` | `cmdbuf_t` |
| `CmdTokenize` | tokenizer |
| `CmdExpand` | macro expansion |
| `CmdOptions` | option parsing |
| `CmdRegistry` | name lists and hash indexes as values |
| `CmdArgs` | argument-offset search and coloured echo |
| `CmdConsole` | the interpreter state and the built-in commands |
| `Predict` | prediction |
| `Effects` | effect allocators |

Header constants are not in the modelled files. The model takes their values from the engine's headers:

| constant | value |
|---|---|
| `MAX_STRING_CHARS` | 1024 |
| `MAX_STRING_TOKENS` | 256 |
| `ALIAS_LOOP_COUNT` | 16 |
| `CMD_BUFFER_SIZE` | 65536 |
| `MAX_QPATH` | 64 |
| `CMD_BACKUP` | 128 |
| `MAX_DLIGHTS` | 32 |
| `MAX_PARTICLES` | 4096 |
| `NUMVERTEXNORMALS` | 162 |

Three behaviours of the code worth knowing:

- `${$name}` reads the variable `name` and rescans its value. It is not a double indirection: with `name` holding `foo`, the line becomes `foo` (`CmdExpand.BracedDollarName`).
- A quoted token without a closing quote is still counted as a token. The code stores it without its terminating NUL, so `Cmd_Argv` reads on into whatever an earlier line left in `cmd_data` (see Findings). The model's token is the rest of the line, as if terminated.
- A statement longer than 1023 bytes is cut at 1023 bytes, and the byte at position 1023 is lost. The rest runs as the next statement (`CmdBuffer.LongStatementSplit`).

## Model

| member | source | states |
|---|---|---|
| CmdText.Argv | source/cmd.c:570-575 | The token at a valid index, the empty string for any index outside the token vector |
| CmdText.SpacePrefix | source/cmd.c:49-55 | `atoi`'s leading white space: the longest prefix of C white-space bytes |
| CmdText.DigitPrefix | source/cmd.c:49-55 | `atoi`'s digits: the longest prefix of decimal digits, which is a prefix of the input |
| CmdText.AtoiDecimal | source/cmd.c:49-55 | `atoi` (as used by `wait`) reads back the decimal numeral of every natural number |
| CmdText.AtoiNegative | source/cmd.c:49-55 | `atoi` of `-` followed by a numeral is the negated number |
| CmdText.DecimalValueOfString | source/cmd.c:49-55 | The digit value of a numeral is the number it was written from |
| CmdBuffer.LineEnd | source/cmd.c:166-175 | The first unquoted `;` or newline of the buffer (quote parity counted from the start), or the buffer's length when there is none |
| CmdBuffer.LineEndFrom | source/cmd.c:166-175 | The statement scan from position `j` finds the first delimiter at or after `j` |
| CmdBuffer.Cut | source/cmd.c:177-180 | The statement length is capped at `MAX_STRING_CHARS - 1` |
| CmdBuffer.LineRestSplit | source/cmd.c:182-194 | Buffer = statement, one dropped byte, remaining text; the remaining text is strictly shorter, so the flush makes progress |
| CmdBuffer.SplitAtSemicolon | source/cmd.c:166-194 | `a;b` with plain `a` runs `a` and leaves exactly `b` queued |
| CmdBuffer.NoQuotes | source/cmd.c:166-175 | Text without quotes has quote count 0 |
| CmdBuffer.QuotedSemicolonKept | source/cmd.c:169-172 | A `;` inside an open quote does not end the statement |
| CmdBuffer.OddInsideQuote | source/cmd.c:169-172 | No position inside an open quote, `;` or not, is a delimiter |
| CmdBuffer.QuoteCountConcat | source/cmd.c:166-175 | Quote counts add up over concatenation, so parity is tracked across the whole buffer |
| CmdBuffer.LongStatementSplit | source/cmd.c:177-194 | An overlong statement runs as its first 1023 bytes; byte 1023 is dropped and the rest stays queued |
| CmdBuffer.CommandBuffer.constructor | source/cmd.c:62-67 | Cbuf_Init: an empty buffer of the given size, no wait, alias count 0 |
| CmdBuffer.Appended | source/cmd.c:76-85 | The queued text stays a prefix; the result fits the capacity or is the queued text unchanged |
| CmdBuffer.Inserted | source/cmd.c:107-123 | The queued text stays a suffix; the result fits the capacity or is the queued text unchanged |
| CmdBuffer.CommandBuffer.AddText | source/cmd.c:76-85 | Appends when it fits, otherwise changes nothing and reports overflow (never a partial write); the new contents are `Appended` of the old |
| CmdBuffer.CommandBuffer.Alloc | source/cmd.c:87-97 | Reserves `length` bytes at the end when they fit, keeping the existing contents; no room leaves the size alone |
| CmdBuffer.CommandBuffer.InsertText | source/cmd.c:107-123 | Puts `text` and a newline in front of the queued text when it fits; empty text or overflow change nothing; the new contents are `Inserted` of the old |
| CmdBuffer.CommandBuffer.FindLineEnd | source/cmd.c:166-175 | The loop over the buffer finds `LineEnd` of its contents |
| CmdBuffer.CommandBuffer.TakeLine | source/cmd.c:165-194 | Removes the next statement and its delimiter; returns the statement cut to 1023 bytes, leaving the rest queued |
| CmdBuffer.CommandBuffer.Discard | source/cmd.c:187-194 | Moves the queued text after the first `n` bytes to the front: what stays queued is exactly the old contents without those bytes |
| CmdTokenize.SkipBlanksAt | source/cmd.c:1038-1047 | The first byte after `p` that is not a blank, or is a newline |
| CmdTokenize.WordEndAt | source/cmd.c:1075-1084 | End of an unquoted token: every byte before it is a word byte, the byte at it is not |
| CmdTokenize.QuoteEndAt | source/cmd.c:1061-1069 | The closing quote of a quoted token, or the end of the line |
| CmdTokenize.NextToken | source/cmd.c:1037-1090 | One token: its offset lies after `p`, and it needs at most two bytes of token storage per byte scanned |
| CmdTokenize.SkipBlanks | source/cmd.c:1038-1047 | The blank-skipping loop computes `SkipBlanksAt` |
| CmdTokenize.CopyQuoted | source/cmd.c:1062-1072 | Copies exactly the bytes between the quotes |
| CmdTokenize.CopyWord | source/cmd.c:1076-1085 | Copies exactly the bytes of an unquoted token |
| CmdTokenize.ReadToken | source/cmd.c:1037-1090 | One pass of the tokenizer loop computes `NextToken` |
| CmdTokenize.Tokenize | source/cmd.c:1035-1091 | The tokenizer loop produces exactly the tokens and the storage use of `Tokens` |
| CmdTokenize.ScanBounds | source/cmd.c:1037-1090 | Every scan respects the token cap, gives strictly increasing offsets inside the scanned part, and uses at most two storage bytes per input byte |
| CmdTokenize.TokenOffsets | source/cmd.c:1037-1052 | At most `MAX_STRING_TOKENS` tokens; their offsets into the command string are strictly increasing and inside the line |
| CmdTokenize.SemicolonToken | source/cmd.c:1054-1059 | An unquoted `;` between two words is a token of its own: `a;b` gives `a`, `;`, `b` at offsets 0, `\|a\|`, `\|a\|+1` |
| CmdTokenize.QuotedToken | source/cmd.c:1061-1073 | A quoted token is stored without its quotes |
| CmdTokenize.NewlineEndsLine | source/cmd.c:1043-1045 | Nothing after a newline outside quotes is tokenized |
| CmdTokenize.WordEndPlain | source/cmd.c:1076-1084 | A run of word bytes ended by a non-word byte is one unquoted token |
| CmdTokenize.QuoteEndPlain | source/cmd.c:1064-1069 | A quoted token ends at the first quote |
| CmdTokenize.DenseLine | source/cmd.c:1006-1091 | The `;`-dense line used to show the storage overrun has length `8 * groups + 7` |
| CmdTokenize.DenseScan | source/cmd.c:1037-1090 | From group `m` the tokens of the dense line use `10 * (groups - m) + 8` bytes of storage |
| CmdTokenize.DenseCount | source/cmd.c:1037-1090 | From group `m` the dense line gives `2 * (groups - m) + 1` tokens |
| CmdTokenize.DenseGroupSteps | source/cmd.c:1037-1090 | From the start of a group the scan yields the seven letters (8 bytes) and the `;` (2 bytes), then the scan of the next group; the last group yields its letters alone |
| CmdTokenize.TokenDataOverflow | source/cmd.c:526 | As written: a 1023-byte line yields 255 tokens needing 1278 bytes of the 1024-byte `cmd_data` |
| CmdTokenize.TokenDataFits | source/cmd.c:1033-1091 | With `cmd_data` of `2 * MAX_STRING_CHARS` bytes, every line the tokenizer can receive fits |
| CmdTokenize.CString | source/cmd.c:570-575 | `Cmd_Argv`'s read of a token: the bytes from the token's start up to the first NUL, which holds no NUL and stays inside `cmd_data` |
| CmdTokenize.Store | source/cmd.c:1051-1086 | Writing a token into `cmd_data` sets exactly the bytes it covers and keeps every other byte |
| CmdTokenize.CStringStored | source/cmd.c:1051-1086 | A token written without a NUL reads back as the token followed by the bytes already after it |
| CmdTokenize.UnterminatedStepReadsOn | source/cmd.c:1062-1067 | As written: for every line ending inside an open quote, the last token reads back followed by stale `cmd_data` bytes |
| CmdTokenize.UnterminatedTokenReadsOn | source/cmd.c:1062-1067 | As written: after `echo abcdefghij`, the line `text " hi` leaves its second token reading ` hidefghij` |
| CmdTokenize.TerminatedTokenRead | source/cmd.c:1062-1067 | With the NUL written after every token, `Cmd_Argv` reads back exactly the token, whatever `cmd_data` held |
| CmdTokenize.StepBytes | source/cmd.c:1051-1086 | A token takes its text and a NUL in `cmd_data`; a quoted token left open at the end of the line takes its text only, and starts at a quote |
| CmdTokenize.ScanJoin | source/cmd.c:602-617 | The join `Cmd_Args` builds from a scan's tokens, with its NUL, takes at most one byte more than the tokens took in `cmd_data`, and exactly as many on a line without quotes |
| CmdTokenize.ArgsOverflow | source/cmd.c:602-617 | As written: the dense line of 126 groups gives 253 tokens, the first `aaaaaaa`; joining the other 252 writes 1260 bytes into the 1024-byte `cmd_args` |
| CmdTokenize.ArgsFit | source/cmd.c:646-661 | With `cmd_args` of `2 * MAX_STRING_CHARS` bytes, the join from any token of every line the tokenizer can receive fits with its NUL |
| CmdExpand.Truncate | source/cmd.c:1033 | A cut copy: at most `n` characters, a prefix of the input, and the whole input when it fits |
| CmdExpand.BlanksEndSpec | source/cmd.c:896-899 | Skipping after `$` stops at the first byte above the space |
| CmdExpand.WordEndSpec | source/cmd.c:917-920 | A plain name runs up to the first byte at or below the space |
| CmdExpand.BraceEndSpec | source/cmd.c:903-915 | A braced name runs up to the first `}` |
| CmdExpand.ParseName | source/cmd.c:883-923 | The name after `$` ends within the line |
| CmdExpand.ParseNameSpec | source/cmd.c:903-921 | A braced name has no `}` and ends at one or at the end of the line; otherwise the name is the run of bytes above the space |
| CmdExpand.Resolve | source/cmd.c:929-963 | Alias mode substitutes only one-byte names (`$0`..`$9`, `$@`) and never rescans; only a public variable is rescanned, and its value is the variable's value; a macro's text fits the space left |
| CmdExpand.Step | source/cmd.c:869-987 | One loop pass either counts one more substitution or moves strictly closer to the end; a line it finishes is returned as it stands |
| CmdExpand.SkipBlankBytes | source/cmd.c:896-899 | The skipping loop computes `BlanksEnd` |
| CmdExpand.CopyBraced | source/cmd.c:909-915 | Copies a braced name up to its `}` |
| CmdExpand.CopyWordName | source/cmd.c:917-920 | Copies a plain name |
| CmdExpand.ReadName | source/cmd.c:883-923 | The name-reading code computes `ParseName` |
| CmdExpand.ExpandName | source/cmd.c:925-987 | The substitution of one `$name` computes `Step` |
| CmdExpand.MacroExpandString | source/cmd.c:845-996 | The expansion loop computes `MacroExpand` |
| CmdExpand.ExpandFromFits | source/cmd.c:965-971 | Every expansion that succeeds fits in `MAX_STRING_CHARS - 1` bytes |
| CmdExpand.ExpandedLineFits | source/cmd.c:858-862 | Every expanded line fits a line buffer |
| CmdExpand.InertFrom | source/cmd.c:869-993 | Scanning text without `$` keeps it, and discards it exactly when its quotes are unbalanced |
| CmdExpand.InertText | source/cmd.c:858-995 | Text without `$` is kept as it is, unless it is too long or has an unmatched quote, in which case it is discarded |
| CmdExpand.PassOver | source/cmd.c:873-881 | A byte that is not a `$` outside quotes is passed over, a quote toggling the quote state, and the expansion goes on from the next byte |
| CmdExpand.PlainRun | source/cmd.c:873-881 | Bytes that are neither `$` nor a quote are passed over |
| CmdExpand.PlainPrefix | source/cmd.c:873-881 | A plain prefix is passed over |
| CmdExpand.PlainTail | source/cmd.c:869-995 | A plain tail is kept as it is |
| CmdExpand.DollarEscape | source/cmd.c:890-894 | `$$` becomes a single `$` |
| CmdExpand.SubstitutionStep | source/cmd.c:965-987 | A substitution splices the value in place of `$name`; the line is discarded when it would reach `MAX_STRING_CHARS` or on the 100th substitution; a rescanned value is scanned again from its start |
| CmdExpand.DollarNameAt | source/cmd.c:883-921 | In `p $name q` the scan stops at the `$` and reads `name`; splicing a value in its place leaves `p value q` |
| CmdExpand.PlainBeforeDollar | source/cmd.c:869-881 | The expansion of `p $rest` with plain `p` goes on from the `$` with nothing changed |
| CmdExpand.DollarNameStep | source/cmd.c:965-987 | The substitution of `$name` in `p $name q` yields `p value q` |
| CmdExpand.FirstSubstitution | source/cmd.c:858-987 | The first `$name` of a line with a plain prefix is replaced as `Resolve` says |
| CmdExpand.VariableSubstituted | source/cmd.c:949-954 | `$name` of a public variable is replaced by its value |
| CmdExpand.UnknownNameRemoved | source/cmd.c:955-961 | `$name` that is no macro, no public variable, and not `qt` or `sc` expands to nothing |
| CmdExpand.SelfReferenceFrom | source/cmd.c:979-987 | A variable whose value is `$` plus its own name is rescanned until the substitution limit or the length limit discards the line |
| CmdExpand.SelfReferenceStep | source/cmd.c:965-987 | One substitution in a self-referencing line leaves the line as it was, counts one more substitution and grows the accounted length; at either limit the line is discarded |
| CmdExpand.SelfReferenceAt | source/cmd.c:883-954 | In the line `$name` the scan stops at the `$`, and a variable holding `$name` resolves to that text, to be scanned again |
| CmdExpand.VariableResolves | source/cmd.c:945-954 | A public variable that no macro shadows resolves to its value and is scanned again |
| CmdExpand.SelfReference | source/cmd.c:984-987 | The self-referencing line is discarded |
| CmdExpand.PositionalParameter | source/cmd.c:931-937 | In alias mode `$d` is replaced by argument `d` of the alias invocation |
| CmdExpand.LiteralSubstituted | source/cmd.c:964-981 | A `$name` that resolves to text that is not scanned again and fits in the line is replaced by that text |
| CmdExpand.EscapeSubstituted | source/cmd.c:955-958 | `$qt` and `$sc` that no macro or public variable claims become a quote and a semicolon, which are not scanned again |
| CmdExpand.ArgumentsSubstituted | source/cmd.c:938-939 | In alias mode `$@` becomes the arguments of the alias invocation |
| CmdExpand.MacroSubstituted | source/cmd.c:944-948 | A macro is looked up before any variable of the same name; `$name` becomes the macro's text cut to the space left in the line, not scanned again |
| CmdExpand.AliasModeKeepsLongNames | source/cmd.c:933-935 | In alias mode a name longer than one byte stays as written |
| CmdExpand.SkippedLine | source/cmd.c:925-942 | A name that `Resolve` skips is passed over and scanning resumes after the `$` |
| CmdExpand.SkippedName | source/cmd.c:925-942 | As `SkippedLine`, from any accounted length |
| CmdExpand.BracedDollarName | source/cmd.c:903-908 | `${$name}` reads the variable `name` itself: with `name` holding `foo` the line becomes `foo` |
| CmdOptions.LongIndex | source/cmd.c:728-732 | The long-name search stays within the table |
| CmdOptions.ShortIndex | source/cmd.c:747-751 | The short-letter search stays within the table |
| CmdOptions.EqualsAt | source/cmd.c:725-727 | The `=` search stays within the argument |
| CmdOptions.FindLong | source/cmd.c:728-732 | The table loop finds `LongIndex` |
| CmdOptions.FindShort | source/cmd.c:747-751 | The table loop finds `ShortIndex` |
| CmdOptions.FindEquals | source/cmd.c:725-727 | `strchr` for `=` finds `EqualsAt` |
| CmdOptions.ParseOptions | source/cmd.c:697-774 | One call computes `Parse`, with the unknown `--name=value` case repaired |
| CmdOptions.LongIndexSpec | source/cmd.c:728-732 | The long search stops at the first entry with that name |
| CmdOptions.ShortIndexSpec | source/cmd.c:747-751 | The short search stops at the first entry with that letter |
| CmdOptions.EqualsAtSpec | source/cmd.c:725 | The search stops at the first `=` |
| CmdOptions.ParseProgress | source/cmd.c:697-774 | Errors leave `optind` in place; a match advances it by one or two; the end of the options advances it by at most one (past `--`); argc never changes; only the current argument may be cut short |
| CmdOptions.MatchedFromTable | source/cmd.c:747-773 | A reported letter is some entry's short letter; a missing argument is reported only on the last argument and for an option that takes one |
| CmdOptions.ShortOption | source/cmd.c:742-773 | `-x` for an option without an argument reports `x` and moves past it |
| CmdOptions.ShortOptionWithArgument | source/cmd.c:761-773 | `-x value` consumes both arguments; a trailing `-x` reports a missing argument |
| CmdOptions.ShortLookup | source/cmd.c:747-751 | The first entry with a letter is the one found |
| CmdOptions.LongLookup | source/cmd.c:728-732 | The first entry with a long name is the one found |
| CmdOptions.LongOptionWithValue | source/cmd.c:725-741 | `--name=value` sets the option argument to `value`, cuts the argument at `=` and moves past it |
| CmdOptions.Terminator | source/cmd.c:715-724 | `--` ends the options, and the next argument, if any, is the first operand |
| CmdOptions.DashAloneUnknown | source/cmd.c:742-758 | A lone `-` and a cluster such as `-ab` are unknown options |
| CmdOptions.UnknownLongValueCrashes | source/cmd.c:728-741 | As written: `--bogus=1` reads the terminator entry, whose short name is NULL |
| CmdOptions.UnknownLongValueRejected | source/cmd.c:754-758 | Repaired: an unknown long option with a value is reported unknown, the argument is cut at `=`, and `optind` stays put; as written the same input crashes |
| CmdRegistry.Find | source/cmd.c:229-241 | Position of the first entry with the name, or the list length |
| CmdRegistry.FindEntry | source/cmd.c:229-241 | The list walk computes `Find` |
| CmdRegistry.LookupIndexed | source/cmd.c:229-241 | A hash-index lookup answers as the list does |
| CmdRegistry.LookupAfterDefine | source/cmd.c:254-276 | After a definition the name maps to the new value and every other name is unchanged |
| CmdRegistry.DefineLength | source/cmd.c:254-276 | A definition grows the list only for a new name |
| CmdRegistry.DefineIndexed | source/cmd.c:254-276 | The list and the index stay consistent through a definition |
| CmdRegistry.LookupAfterDelete | source/cmd.c:1180-1193 | After a deletion the name is gone and every other name is unchanged |
| CmdRegistry.DeleteIndexed | source/cmd.c:1180-1193 | The list and the index stay consistent through a deletion |
| CmdRegistry.RemoveEntry | source/cmd.c:1180-1193 | Deletes a name from a list and its index, keeping them consistent; reports whether the name was there; the name is gone and every other name is unchanged |
| CmdRegistry.DefineEntry | source/cmd.c:254-276 | Sets a name in a list and its index, in place or appended, keeping them consistent; the name maps to the value, the list grows only for a new name, and every other name is unchanged |
| CmdRegistry.RegCommandEffect | source/cmd.c:1112-1145 | Refused exactly for a name a variable claims or a command with a handler; fills exactly a placeholder; on success the name maps to the handler and nothing else changes |
| CmdRegistry.RegisterCommand | source/cmd.c:1112-1145 | The list, the index and the result of a registration are those of `RegCommand`, and the index stays consistent |
| CmdRegistry.PlaceholderEffect | source/cmd.c:1426-1463 | `complete` adds a placeholder exactly for a name that is no variable and no command |
| CmdRegistry.PlaceholderEntry | source/cmd.c:1437-1460 | Registers a placeholder on the list and its index exactly as `AddPlaceholder` says, keeping the index in step with the list |
| CmdRegistry.RouteOf | source/cmd.c:1235-1284 | Dispatch order: command (or placeholder), then alias, then variable, then the server |
| CmdRegistry.AliasReachable | source/cmd.c:296-336 | An alias defined under a name that is no command is what that name dispatches to |
| CmdRegistry.CommandShadowsAlias | source/cmd.c:1247-1271 | A registered command takes precedence over an alias of the same name |
| CmdRegistry.AddMacroEffect | source/cmd.c:463-489 | A macro is added exactly for a name that no variable claims and no macro has; it goes to the front, and names stay distinct |
| CmdArgs.ArgForOffsetFromSpec | source/cmd.c:545-554 | The search from index `i` returns the last token starting at or before the offset |
| CmdArgs.ArgForOffsetSpec | source/cmd.c:545-554 | The token found for an offset is the last one starting at or before it (0 with no tokens) |
| CmdArgs.ArgForOffsetInverse | source/cmd.c:535-554 | With increasing offsets, the token found for a token's own offset is that token |
| CmdArgs.ColorText | source/cmd.c:1344-1366 | Coloured echo output is never longer than its input |
| CmdArgs.EscapeCarets | source/cmd.c:1344-1366 | Doubling carets never shortens a string |
| CmdArgs.ColorTextOfEscaped | source/cmd.c:1350-1363 | Echoing a string whose carets are doubled prints the string itself |
| CmdArgs.ColorTextPlain | source/cmd.c:1344-1366 | Text without carets is echoed unchanged |
| CmdArgs.ColorFromText | source/cmd.c:1350-1363 | Scanning by position from `i` gives `ColorText` of the rest of the string |
| CmdArgs.ColorString | source/cmd.c:1350-1363 | The echo loop produces exactly `ColorText` of its input |
| CmdConsole.Registrations | source/cmd.c:1161-1166 | The registry entries of a table, one per row, each with its handler |
| CmdConsole.ConsoleCommandsRegistered | source/cmd.c:1488-1502 | On an empty console, every one of `Cmd_Init`'s registrations succeeds |
| CmdConsole.RegisterFresh | source/cmd.c:1161-1166 | A table of new, distinct names that no variable claims is appended as it stands |
| CmdConsole.RegisterOne | source/cmd.c:1112-1145 | Registering a new name appends it and leaves every other name unchanged |
| CmdConsole.FreshNames | source/cmd.c:1488-1502 | The console's command names are distinct |
| CmdConsole.MacroPrepended | source/cmd.c:480-488 | Putting a new macro at the head keeps the list and the index consistent |
| CmdConsole.ScriptFor | source/cmd.c:1291-1321 | `exec` loads the named file, else the name with `.cfg` appended |
| CmdConsole.LineOfText | source/cmd.c:1021-1031 | The line to split: none for empty text or a failed expansion, the expanded text when expansion is asked for, otherwise the text itself |
| CmdConsole.Console.constructor | source/cmd.c:62-67 | An empty buffer, empty registries and no current line |
| CmdConsole.Console.Register | source/cmd.c:1161-1166 | Registers a table in order |
| CmdConsole.Console.AliasFind | source/cmd.c:229-241 | The hash lookup returns the alias the list holds |
| CmdConsole.Console.CommandFind | source/cmd.c:1098-1110 | The hash lookup returns the command the list holds |
| CmdConsole.Console.MacroFind | source/cmd.c:434-446 | The hash lookup returns the macro the list holds |
| CmdConsole.Console.AliasSet | source/cmd.c:254-276 | Redefines an existing alias in place or appends a new one; the name maps to the new text and no other alias changes |
| CmdConsole.Console.RegCommand | source/cmd.c:1112-1145 | The registry and the result are those of `RegCommand`, with the index kept consistent |
| CmdConsole.Console.RemoveCommand | source/cmd.c:1180-1193 | Removes the entry from the list and the index; reports whether there was one |
| CmdConsole.Console.AddMacro | source/cmd.c:463-489 | As `AddMacro`; an added macro is found under its name |
| CmdConsole.Console.PrependMacro | source/cmd.c:480-488 | Puts a new macro at the head of the list and in the index |
| CmdConsole.Console.TokenizeString | source/cmd.c:1006-1091 | Resets the option state; an empty line or a failed expansion leaves no tokens; otherwise the line, cut to 1023 bytes, is split as `Tokens` says, and the uncut length is kept |
| CmdConsole.Console.SetLine | source/cmd.c:1033-1091 | Stores the line cut to fit, and its tokens and offsets |
| CmdConsole.Console.ArgOffset | source/cmd.c:535-543 | A token's offset (which maps back to that token), 0 before the first, the full length after the last |
| CmdConsole.Console.FindArgForOffset | source/cmd.c:545-554 | The loop computes `ArgForOffset` and returns an existing token |
| CmdConsole.Console.ArgsFrom | source/cmd.c:646-661 | The strcat loop joins the tokens from `from` on with single spaces, with no bound on the length (the overrun of `cmd_args` is `CmdTokenize.ArgsOverflow`; `CmdTokenize.ArgsFit` bounds it for a larger buffer) |
| CmdConsole.Console.Args | source/cmd.c:602-617 | The tokens after the command name, joined by spaces, with no bound on the length (see `CmdTokenize.ArgsOverflow` and `CmdTokenize.ArgsFit`) |
| CmdText.ArgsFromWithin | source/cmd.c:646-661 | Joining from a later token never takes more bytes than joining them all |
| CmdConsole.Console.RawArgs | source/cmd.c:619-624 | The command string from the second token on, as typed; empty with fewer than two tokens |
| CmdConsole.Console.Shift | source/cmd.c:675-695 | Drops the first token and its offset; a one-token line keeps its token and loses its command string |
| CmdConsole.Console.ParseOptions | source/cmd.c:697-774 | Runs `Parse` on the console's own option state |
| CmdConsole.Console.Wait_f | source/cmd.c:49-55 | `wait n` holds the buffer for `atoi(n)` frames, plain `wait` for one |
| CmdConsole.Console.Text_f | source/cmd.c:1421-1424 | Appends the arguments, then a newline, each only when it fits (`Appended` twice) |
| CmdConsole.Console.Alias_f | source/cmd.c:296-336 | Refuses command and variable names; with one argument shows the alias; otherwise defines it as the rest of the line, after which the name dispatches to it |
| CmdConsole.Console.UnAlias_f | source/cmd.c:338-390 | `-h` shows usage, `-a` clears every alias, bad options are reported; otherwise deletes the alias named by the first argument, exactly when it exists |
| CmdConsole.Console.Unalias | source/cmd.c:351-390 | After option parsing: usage for `-h`; `-a` empties the alias list and index; other options are reported; no operand is reported missing; otherwise the named alias is deleted exactly when it exists, and nothing else changes |
| CmdConsole.Console.Complete_f | source/cmd.c:1426-1463 | Adds a placeholder command as `AddPlaceholder` says |
| CmdConsole.Console.Exec_f | source/cmd.c:1291-1321 | With exactly one argument, puts the script in front of the queued text, as `Inserted` says; a script that does not fit leaves the buffer unchanged; any other argument count changes nothing |
| CmdConsole.Console.ColoredEcho_f | source/cmd.c:1344-1366 | Prints `ColorText` of the raw arguments, never longer than they are |
| CmdConsole.Console.RunHandler | source/cmd.c:1247-1256 | Running a handler has exactly the effect `Handled` states for it (alias definition and removal, `wait` count, `text` and `exec` buffer contents, placeholder registration) and leaves every other field alone; the alias count never drops |
| CmdConsole.Console.RunAlias | source/cmd.c:1258-1271 | As `AliasRan` states: refused at ALIAS_LOOP_COUNT; otherwise the text is expanded in alias mode against the current tokens, a failed expansion changes nothing, and a successful one goes in front of the queued text as `Inserted` says and is counted; only the queued text and the counter change |
| CmdConsole.Console.Dispatch | source/cmd.c:1235-1284 | An empty line does nothing; otherwise, as `RouteOf` orders: runs the command with the effect `Handled` states, forwards a placeholder or an unknown name when connected, runs the alias as `AliasRan` states (refused at the loop limit; otherwise the expanded text goes in front of the buffer and is counted, and only the buffer and the counter change), or hands over to the variable |
| CmdConsole.Console.ExecuteString | source/cmd.c:1235-1284 | Nothing runs exactly when the expanded line has no tokens; otherwise the tokens of the expanded line are routed as `RouteOf` orders: a command runs its handler with the effect `Handled` states, a placeholder or unknown name is forwarded when connected, an alias runs as `AliasRan` states against those tokens (its expansion put in front of the buffer and counted, or refused), and a variable is handed over; the alias count never drops |
| CmdConsole.DenseVariableOverflows | source/cmd.c:526 | A variable holding the 1015-byte dense line (settable by a 1023-byte `set` statement) expands under `$x` to that line, whose tokens need 1268 bytes of the 1024-byte `cmd_data` |
| CmdConsole.DenseArgumentsOverflow | source/cmd.c:938-939 | With an alias `aaaaaaa` and no such command, the line `$x` (x holding the dense line) has 253 tokens and goes to the alias, and the `Cmd_Args` its `$@` calls writes 1260 bytes into the 1024-byte `cmd_args` |
| CmdConsole.Console.Execute | source/cmd.c:151-202 | Runs statements in order until the buffer is empty (alias count reset), a `wait` holds it, or the fuel runs out; the first statement run is the buffer's first; a pending wait runs nothing |
| Predict.Add | src/client/predict.c:236 | Unsigned 32-bit addition wraps at 2^32 |
| Predict.Sub | src/client/predict.c:207 | Unsigned 32-bit subtraction wraps at 2^32 |
| Predict.Slot | src/client/predict.c:46 | `n & CMD_MASK` is a ring index congruent to `n` |
| Predict.CheckError | src/client/predict.c:26-71 | The error check leaves the step and step time, clip mask and predicted origin and velocity unchanged |
| Predict.CheckErrorCorrects | src/client/predict.c:45-70 | With prediction on: the ring or the error changes exactly when `1 < \|delta\| <= 640`; then the slot gets the server origin, other slots stay, error*8 = delta, and the step frame moves past the command; otherwise the ring stays |
| Predict.CheckErrorBounded | src/client/predict.c:49-70 | A new error is at most 80 units on each axis |
| Predict.CheckErrorSettles | src/client/predict.c:45-70 | A second check against the same frame finds no error and changes nothing more |
| Predict.NoMissNoCorrection | src/client/predict.c:49-58 | When the slot already holds the server's origin, the check only clears the error |
| Predict.Mask | src/client/predict.c:217-226 | Extended rules only: dead or gibbed players use the dead-solid mask, and players collide unless told to ignore them |
| Predict.Replayed | src/client/predict.c:236-243 | The replayed ring keeps the ring size |
| Predict.ReplayRecords | src/client/predict.c:236-243 | The slot of the j-th replayed command holds the origin after j commands |
| Predict.ReplayKeeps | src/client/predict.c:236-243 | Slots no replayed command maps to are unchanged |
| Predict.PendingSlot | src/client/predict.c:245-258 | The pending command's slot is the next ring slot and differs from every replayed command's slot |
| Predict.NextSlotWraps | src/client/predict.c:236-255 | Slot `current + 1` of the pending command is the slot one past the replayed commands, also when the command numbers wrap at 2^32 |
| Predict.SlotsDistinct | src/client/predict.c:236-255 | Up to `CMD_BACKUP` consecutive commands after `ack` land in distinct ring slots |
| Predict.RunCommands | src/client/predict.c:236-258 | Running the commands keeps the ring size |
| Predict.RunRecords | src/client/predict.c:236-258 | Each of the `current - ack` commands records its origin; a pending command runs with the local move, is recorded in slot `current + 1` and sets the frame to `current`; otherwise the frame is `current - 1` |
| Predict.RunKeeps | src/client/predict.c:236-258 | Slots neither the commands nor the pending command wrote are unchanged |
| Predict.NextStep | src/client/predict.c:264-273 | Once 100 ms have passed the step is exactly `min(rise/8, 32)`; before, it is at least that (what is left of the previous step is added); never above 32, and at least 63/8 for a climb |
| Predict.Smooth | src/client/predict.c:260-278 | On the ground, outside spectator mode and for a rise in [63, 160) over the origin at the last step frame, the step becomes `NextStep`, its time the current time and its frame `frame + 1` (kept at `frame` if that wraps); otherwise step and time are kept and the frame is raised to at least `frame` |
| Predict.Predicted | src/client/predict.c:179-284 | No change when inactive, in a demo, paused, not predicting, or frozen; the error is never touched; otherwise the clip mask is `Mask`, the ring is the replay's, the predicted origin and velocity are the final move's scaled by 1/8, and the step fields are `Smooth` of the old ones (replay count corrected as under Findings) |
| Predict.ReplayContinues | src/client/predict.c:236 | As written: the replay loop guard `++ack <= current` |
| Predict.ReplayGuardAgrees | src/client/predict.c:236 | Without wrap-around the unsigned guard replays exactly `current - ack` commands |
| Predict.ReplayNeverEndsAtTop | src/client/predict.c:236 | As written: with `current` = 2^32 - 1 the guard holds for every value, so the loop never ends |
| Predict.ReplaySkippedAfterWrap | src/client/predict.c:207-236 | As written: ack 2^32 - 2 and current 3 pass the freeze test, yet the loop replays none of the 5 commands |
| Predict.Predictor.State | src/client/predict.c:26-71 | The prediction state keeps a 128-slot ring |
| Predict.Predictor.constructor | src/client/predict.c:179-284 | Model scaffolding, not code of these lines: the zeroed `cl` fields the prediction functions start from (a zero ring and a zero error, step and frame); the client state is cleared outside these files |
| Predict.Predictor.CheckPredictionError | src/client/predict.c:26-71 | The new state is `CheckError` of the old |
| Predict.Predictor.Replay | src/client/predict.c:236-243 | The replay loop, with the count corrected as under Findings: writes the ring as `Replayed` and returns the state after `n` commands |
| Predict.Predictor.SmoothStep | src/client/predict.c:260-278 | The step fields become `Smooth` of their old values |
| Predict.Predictor.PredictMovement | src/client/predict.c:179-284 | The new state is `Predicted` of the old (replay count corrected as under Findings) |
| Effects.FindKey | src/client/effects.c:125-134 | The first light with the key, or none holds it |
| Effects.FindExpired | src/client/effects.c:137-144 | The first light that died before `time`, or none has |
| Effects.ChooseDlight | src/client/effects.c:120-151 | The chosen slot is a slot of the table |
| Effects.ChooseDlightSpec | src/client/effects.c:120-151 | A nonzero key already in use gets its first slot; otherwise the first expired slot; otherwise slot 0 |
| Effects.AllocDlightStable | src/client/effects.c:125-134 | Allocating the same nonzero key again finds the same slot |
| Effects.Live | src/client/effects.c:158-170 | Exactly the lights still alive at `time` |
| Effects.DlightTable.constructor | src/client/effects.c:110-113 | Every slot is cleared |
| Effects.DlightTable.Clear | src/client/effects.c:110-113 | Every slot is cleared |
| Effects.DlightTable.AllocDlight | src/client/effects.c:120-151 | Returns `ChooseDlight`'s slot, reset to hold only the key; every other slot is unchanged |
| Effects.DlightTable.AddDLights | src/client/effects.c:158-170 | Adds exactly the live lights |
| Effects.ParticlePool.constructor | src/client/effects.c:907-917 | Every particle is free, in index order, and none is active |
| Effects.ParticlePool.Clear | src/client/effects.c:907-917 | The free list threads 0..4095 in order; the active list is empty |
| Effects.ParticlePool.AllocParticle | src/client/effects.c:919-932 | None exactly when the free list is empty; otherwise the free head moves to the head of the active list with scale 1, and no other particle changes |
| Effects.AllocKeepsPartition | src/client/effects.c:919-932 | Allocation keeps every particle on exactly one of the two lists |
| Effects.AllocKeepsThreads | src/client/effects.c:924-928 | Relinking the head keeps both lists threaded through `next` |
| Effects.CDiv | src/client/effects.c:1595-1601 | C division by a positive divisor truncates toward zero: for a >= 0 the quotient is the largest q with q·b <= a, for a < 0 the smallest q with a <= q·b |
| Effects.FlyCountSchedule | src/client/effects.c:1580-1604 | An expired swarm restarts a 60 s run with no particles; a running one asks for 0..162, all 162 exactly between the 20 s ramps |
| Effects.FlyWanted | src/client/effects.c:1543-1549 | Every second direction, at most 81 |
| Effects.FlyParticles | src/client/effects.c:1533-1578 | Takes `min(wanted, free)` particles from the head of the free list |
| Effects.Entity.constructor | src/client/effects.c:1314-1398 | Model scaffolding, not code of these lines: a holder for the `centity_t` fields the effects update, with the given trail count and swarm stop time; entities are created outside these files |
| Effects.FlyEffect | src/client/effects.c:1580-1604 | The stop time and count follow `FlyCount`; exactly `min(FlyWanted(count), free)` particles are taken, from the head of the free list |
| Effects.TrailStep | src/client/effects.c:1393-1395 | The trail count drops by 5, but not below 100 |
| Effects.TrailAfterClosed | src/client/effects.c:1393-1395 | After k > 0 steps the count is `max(100, tc - 5k)` |
| Effects.DiminishingTrail | src/client/effects.c:1314-1398 | The trail count follows `TrailAfter` over the steps run; the trail stops early only when the pool is exhausted |

## Left out

- Output: console printing (`Com_Printf`, usage hints), the listing commands (`aliaslist`, `macrolist`, `cmdlist`), `echo`'s printing, and `Cmd_WriteAliases` are not modelled. Their handlers run as no-ops that change no state.
- Forwarding to the server: `Cmd_ForwardToServer` is modelled as the `connected` flag.
- Variable commands: `Cvar_Command` and the other subsystems' handlers are outside the model.
- Macro functions are modelled as the text they would format.
- CmdConsole.Console.Args: the join is returned as an unbounded string; the write into the 1024-byte `cmd_args` is not modelled, and its overrun is the Findings row for source/cmd.c:529.
- CmdConsole.Console.ArgsFrom: the same unbounded join, for the same reason.
- CmdTokenize.NextToken: a quoted token left open at the end of the line is the rest of the line, as if the code wrote its NUL. The code returns before writing it (source/cmd.c:1062-1067), so `Cmd_Argv` reads on into older `cmd_data` bytes; that behaviour is modelled separately by `CmdTokenize.UnterminatedStepReadsOn` (see Findings).
- Completion (`Cmd_Complete_f`'s completer, `Cmd_FindCompleter`) is left out. Generator-based completion lies outside these files.
- Hash buckets are modelled as maps. Their agreement with the lists is an invariant; the hash function and bucket chaining are not modelled.
- CmdConsole.Console.Shift: the memmove of `cmd_string` is left out; the command string is kept and the shifted offsets index it.
- File access: `FS_LoadFile`, `COM_AppendExtension` and `COM_Compress` are modelled as a map from paths to script text.
- Bytes of 0x80 and above are treated as above the space. In the source, `char` may be signed and such bytes compare below it.
- CmdConsole.Console.Execute: a `fuel` bound limits the number of statements, because a handler can keep appending text forever.
- The colour escape character is a parameter.
- Registration: the constructor does only `Cbuf_Init` and the list set-up. `Cmd_Init`'s own registrations are `Register(ConsoleCommands())`, proved to succeed by `ConsoleCommandsRegistered`.
- `CL_PredictAngles` and view angles are left out. Floating point is modelled with reals, so single-precision rounding is not modelled.
- `PmoveNew` (player physics and collision traces, `CL_Trace`, `CL_PointContents`) is a function parameter.
- Particle and light contents other than the key, die time and scale (colour, origin, velocity, alpha) are left out. So are particle physics (`CL_AddParticles`) and the other particle spawners.
- Random numbers (`frand`, `crand`, `Q_rand`) are parameters (`draws`, `fire`). The trail's scale choice by trail count only affects particle contents, which are not modelled.
- Light styles (`CL_ClearLightStyles`, `CL_SetLightStyle`, `CL_AddLightStyles`) and the muzzle flashes lie outside the allocators.
- Effects.FlyEffect: `n * NUMVERTEXNORMALS` is a C `int` product that overflows once `fly_stoptime` lies more than about 13.3 million ms after `cl.time`; the model computes it on unbounded integers.
- Effects.DiminishingTrail: models the trail counter and the pool, not the length-to-count conversion of the trail vector. The count is a parameter.

## Findings

| source | as written | input that shows it | evidently intended | confidence | as-written member | corrected member |
|---|---|---|---|---|---|---|
| source/cmd.c:526 | The tokenizer writes each token plus a NUL into `cmd_data[MAX_STRING_CHARS]`, and a lone `;` takes two bytes | The 1023-byte line `aaaaaaa;` × 127 + `aaaaaaa` gives 255 tokens and writes 1278 bytes; the buffer would split it, but `set x "…"` with 126 groups in quotes followed by `$x` gives a 1015-byte line writing 1268 bytes | Storage large enough for every line the tokenizer accepts (2 × MAX_STRING_CHARS) | not executed | CmdTokenize.TokenDataOverflow | CmdTokenize.TokenDataFits |
| source/cmd.c:728-741 | For `--name=value` with an unknown name, the loop stops at the terminator, and `o->sh[1]` reads through its NULL `sh` | `unalias --bogus=1` | Report the unknown option, as for `--name` without a value | not executed | CmdOptions.UnknownLongValueCrashes | CmdOptions.UnknownLongValueRejected |
| source/cmd.c:1062-1067 | A quoted token with no closing quote returns before its NUL is written into `cmd_data` | `echo abcdefghij`, then `text $qt hi` (expanded to `text " hi`, whose quote the expander does not see): `Cmd_Argv(1)` reads ` hidefghij` | Terminate the last token too, so that `Cmd_Argv` returns the rest of the line | not executed | CmdTokenize.UnterminatedTokenReadsOn | CmdTokenize.TerminatedTokenRead |
| source/cmd.c:529 | `Cmd_Args` and `Cmd_ArgsFrom` `strcat` the joined tokens into `cmd_args[MAX_STRING_CHARS]`, and nothing bounds the write; the join takes as many bytes as the tokens took in `cmd_data` | `alias aaaaaaa "text $@"`, `set x "…"` holding the 126-group dense line, then `$x`: the alias's `$@` makes `Cmd_Args` write 1260 bytes | `cmd_args` as large as the corrected `cmd_data` (2 × MAX_STRING_CHARS), so every join fits | not executed | CmdConsole.DenseArgumentsOverflow | CmdTokenize.ArgsFit |
| src/client/predict.c:236 | The replay guard `++ack <= current` compares unsigned command numbers | `current` = 2^32 - 1 never ends the loop; ack = 2^32 - 2 with current = 3 passes the freeze test but replays nothing | Replay the `current - ack` commands (mod 2^32) | not executed | Predict.ReplayNeverEndsAtTop | Predict.RunRecords |
