# Console image shell: settings, history and command loop

This project models, in Dafny, the console program in
`Src/Console/Console/Program.cs`. The program is an interactive shell that
reads commands (`load`, `info`, `resize`, `save`, `settings`, `history`,
`help`, `exit`/`quit`). It keeps a width/height setting and a command
history, and writes both to flat text files after every change. No image
is ever changed; only the settings and the history have effects.

The project is split into six modules:

- `Wrappers` (`wrappers.dfy`): `Option`.
- `Text` (`text.dfy`): the string operations the program relies on.
  - `String.Split` on a set of separator characters keeps empty pieces. It is proved to undo joining the pieces with their separators again.
  - `String.Trim` uses the set of characters `Char.IsWhiteSpace` accepts.
  - `ToLower` is ASCII lowering.
- `Int32Text` (`int32_text.dfy`): `int.ToString` and `int.TryParse` on the 32-bit range, and the round trip between them.
- `SettingsStore` (`settings_store.dfy`): `UserSettings` with its defaults 800×600, and the file formats of `SettingsManager`.
  - The `LoadSettings` loop is a method, proved to compute a fold over the lines.
  - `SaveSettings`, `LoadHistory` and `SaveHistory` are functions on line sequences. A file is `Option<seq<string>>`, where `None` means it is missing.
- `Commands` (`commands.dfy`): the `UserInterface` state machine written on values.
  - The state is a `Session` with the settings, the history, the running flag and the two file contents.
  - It covers the tokeniser, every command handler, one loop iteration (`LoopStep`) and the loop as a whole (`RunLoop`).
  - Each handler returns an `Outcome` naming the branch taken, which stands for the message printed there.
  - The invariants and frame properties are proved here.
- `Shell` (`shell.dfy`): `class UserInterface`, whose fields `settings`, `history`, `running`, `settingsFile` and `historyFile` are updated in place.
  - Each method is proved to leave the object in the state the corresponding `Commands` function computes from the old state. Every property proved about `Commands` therefore holds of the object.

Two behaviours of the code are easy to misread:

- **Tokens.** The call `command.Split(' ', (char)StringSplitOptions.RemoveEmptyEntries)` reads as if it asked for `RemoveEmptyEntries`, which would drop empty tokens. In fact the cast turns the option into the character U+0001, so the call is `Split(params char[])` with separators `' '` and U+0001 and no option.
  - Empty tokens are kept, so `resize  10 20` (two spaces) fails as a number error (`Commands.DoubleSpaceBreaksResize`).
  - There is always at least one token, so the `parts.Length == 0` early return cannot be taken.
- **End of input.** `Console.ReadLine()` returns `null` at the end of input, and the loop just continues. The real program would then spin forever without reading anything new. The model represents a missing line as `None`: an iteration that changes nothing (`Commands.BlankLineIgnored`).
  - `RunLoop` consumes a finite list of lines. When the list runs out before `exit`, it stops without the final save.

## Model

| member | source | states |
|---|---|---|
| Text.Split | Src/Console/Console/Program.cs:107 | splitting always yields at least one piece, so the `parts.Length == 0` branch is unreachable |
| Text.SplitRejoins | Src/Console/Console/Program.cs:24 | there is one piece more than there are separators in the string, and joining the pieces with those separators gives back the string |
| Text.TrimSpec | Src/Console/Console/Program.cs:93 | `Trim` returns a contiguous part of the line, drops only white space, and leaves no white space at either end; it returns the empty string exactly when the line is all white space |
| Text.AsciiLowerAt | Src/Console/Console/Program.cs:110 | lowering maps each character to its lower-case form in place and keeps the length |
| Int32Text.IntToString | Src/Console/Console/Program.cs:42-43 | definition of the decimal text `Width={...}` and `Height={...}` write: a `-` for negative values, then the digits without leading zeros; its properties are in `Int32Text.FormatThenParse` and `SettingsStore.SavedLineValue` |
| Int32Text.TryParseInt | Src/Console/Console/Program.cs:154 | definition of `int.TryParse`: ASCII white space at both ends, an optional sign, one or more digits, and the 32-bit range; its properties are in `Int32Text.FormatThenParse`, `Int32Text.ParseRejectsOverflow` and `Int32Text.ParseRejectsNonNumerals` |
| Int32Text.FormatThenParse | Src/Console/Console/Program.cs:27-28 | parsing the text `ToString` writes for any 32-bit `int` gives back that `int` |
| Int32Text.ParseRejectsOverflow | Src/Console/Console/Program.cs:154 | the text of an integer outside the 32-bit range does not parse |
| Int32Text.ParseRejectsNonNumerals | Src/Console/Console/Program.cs:202 | any text without a single digit, the empty text included, does not parse |
| SettingsStore.With | Src/Console/Console/Program.cs:204 | setting one field gives it the new value and leaves the other field as it was |
| SettingsStore.ParseSettings | Src/Console/Console/Program.cs:16-30 | definition of the `foreach` fold from the defaults; its properties are in `SettingsStore.ParseIsLastValue`, `SettingsStore.LastLineWins`, `SettingsStore.NoLineKeepsDefault` and `SettingsStore.SettingsRoundTrip` |
| SettingsStore.LoadSettings | Src/Console/Console/Program.cs:14-35 | a missing settings file gives the defaults 800×600; otherwise the `foreach` loop applies the lines in order, starting from the defaults |
| SettingsStore.SaveSettings | Src/Console/Console/Program.cs:37-44 | definition of the two lines `Width=<w>` and `Height=<h>`, in that order; its properties are in `SettingsStore.SavedLineValue` and `SettingsStore.SettingsRoundTrip` |
| SettingsStore.SavedLineValue | Src/Console/Console/Program.cs:41-44 | a line written for one field gives exactly its value to that field and nothing to the other |
| SettingsStore.SettingsRoundTrip | Src/Console/Console/Program.cs:14-44 | loading the two lines `SaveSettings` writes for any 32-bit width and height gives back exactly those values |
| SettingsStore.ParseIsLastValue | Src/Console/Console/Program.cs:22-29 | after loading, each field holds the value of the last line that gives it one, or its default if no line does |
| SettingsStore.LastLineWins | Src/Console/Console/Program.cs:22-29 | a later valid line for a field overrides every earlier one |
| SettingsStore.NoLineKeepsDefault | Src/Console/Console/Program.cs:8-29 | a field that no line gives a valid value keeps its default; this covers empty files, wrong keys and values that do not parse |
| SettingsStore.TwoEqualsIgnored | Src/Console/Console/Program.cs:24-25 | a line with two or more `=` is ignored for both fields |
| SettingsStore.LoadKeepsNonPositive | Src/Console/Console/Program.cs:27-28 | loaded values are not checked for positivity: `Width=-5` and `Height=0` load as they are |
| SettingsStore.SaveHistory | Src/Console/Console/Program.cs:60-66 | the history file receives `min(n, 100)` lines, exactly the last ones of the history and in their order |
| SettingsStore.LoadHistory | Src/Console/Console/Program.cs:49-58 | definition: the lines of the history file as they are, or no lines when the file is missing; its partner is `SettingsStore.HistoryRoundTrip` |
| SettingsStore.HistoryRoundTrip | Src/Console/Console/Program.cs:49-66 | loading the history file written for a history gives back the whole history when it has at most 100 entries, and its last 100 entries otherwise |
| SettingsStore.SaveHistoryIdempotent | Src/Console/Console/Program.cs:64-65 | truncating an already truncated history changes nothing |
| SettingsStore.SaveHistoryAfterAppend | Src/Console/Console/Program.cs:96-97 | the file written after an append depends only on the previous truncated file and the new line |
| Commands.Tokenize | Src/Console/Console/Program.cs:107 | definition of the tokens: `Split` on `' '` and U+0001 with empty tokens kept; its properties are in `Commands.TokensRejoin`, `Commands.DoubleSpaceBreaksResize` and `Text.Split` |
| Commands.Start | Src/Console/Console/Program.cs:79-83 | definition of the initial session: the settings and history loaded from the two files, running; its properties are in `Commands.StartRestoresSaved` |
| Commands.HandleResize | Src/Console/Console/Program.cs:146-172 | definition of the resize handler; its properties are in `Commands.ResizeRule` and `Commands.ResizeScenario` |
| Commands.HandleSettings | Src/Console/Console/Program.cs:180-229 | definition of the settings handler; its properties are in `Commands.SettingsQueryReadOnly`, `Commands.SettingsChangeRule` and `Commands.BadValueScenario` |
| Commands.SavePath | Src/Console/Console/Program.cs:176 | definition of the path `save` reports: token 1 when there are at least two tokens, `output.jpg` otherwise; stated in `Commands.OtherCommandsReadOnly` |
| Commands.ProcessCommand | Src/Console/Console/Program.cs:105-124 | definition of the dispatch on the lowered first token; its properties are in `Commands.ProcessKeepsHistory`, `Commands.ProcessKeepsPositive`, `Commands.ProcessStopsOnlyOnExit`, `Commands.ProcessStopsWithExit`, `Commands.ProcessSettingsFrame` and `Commands.OtherCommandsReadOnly` |
| Commands.LoopStep | Src/Console/Console/Program.cs:90-98 | definition of one pass of the loop body; its properties are in `Commands.BlankLineIgnored`, `Commands.LineRecorded`, `Commands.StepKeepsPositive`, `Commands.StepStopsOnlyOnExit` and `Commands.StepSettingsFrame` |
| Commands.RunLoop | Src/Console/Console/Program.cs:85-101 | definition of the whole loop on a finite list of lines, with the final save once it has stopped; its properties are in `Commands.RunSavesOnStop`, `Commands.RunKeepsPositive`, `Commands.RunRecordsHistory` and `Commands.RunStopsAt` |
| Commands.TokensRejoin | Src/Console/Console/Program.cs:107 | tokens are the pieces between `' '` and U+0001, empty pieces included: one more token than separators, and rejoining them gives the command line |
| Commands.DoubleSpaceBreaksResize | Src/Console/Console/Program.cs:107-108 | `resize  10 20` tokenises as `["resize", "", "10", "20"]` and its resize fails as a number error |
| Commands.ProcessKeepsHistory | Src/Console/Console/Program.cs:105-124 | dispatch never touches the history or its file, and always takes a branch |
| Commands.ProcessKeepsPositive | Src/Console/Console/Program.cs:146-229 | positive width and height stay positive after any command |
| Commands.ProcessStopsOnlyOnExit | Src/Console/Console/Program.cs:110-121 | a command stops the loop exactly when its lowered first token is `exit` or `quit` |
| Commands.ProcessStopsWithExit | Src/Console/Console/Program.cs:121 | `exit` and `quit` clear the running flag, answer `Exit` and change nothing else |
| Commands.ProcessSettingsFrame | Src/Console/Console/Program.cs:146-229 | only a successful resize or settings change alters the settings or their file; each one saves exactly the new settings |
| Commands.ResizeRule | Src/Console/Console/Program.cs:146-172 | `resize` sets exactly `(w, h)` and saves it if and only if there are at least three tokens and tokens 1 and 2 parse as positive `int`s; otherwise nothing changes |
| Commands.SettingsQueryReadOnly | Src/Console/Console/Program.cs:182-194 | `settings` with one token shows the settings and with two prints its usage; neither changes or saves anything |
| Commands.SettingsChangeRule | Src/Console/Console/Program.cs:196-228 | `settings <param> <value>` with `width`/`height` in any case and a positive value sets only that field and saves; a bad value or an unknown parameter changes nothing |
| Commands.OtherCommandsReadOnly | Src/Console/Console/Program.cs:112-178 | `load`, `info`, `save`, `history`, `help` and unknown commands change nothing; `load` and `save` report token 1, and `save` falls back to `output.jpg` |
| Commands.BlankLineIgnored | Src/Console/Console/Program.cs:93-94 | a missing or blank line changes nothing and dispatches nothing |
| Commands.LineRecorded | Src/Console/Console/Program.cs:93-98 | a non-blank line, any command included, is trimmed and appended once to the in-memory history, and the history file is rewritten before dispatch |
| Commands.StepKeepsPositive | Src/Console/Console/Program.cs:90-99 | positive width and height stay positive across an iteration |
| Commands.StepStopsOnlyOnExit | Src/Console/Console/Program.cs:90-121 | an iteration stops the loop if and only if its trimmed line is an `exit` or `quit` command |
| Commands.StepSettingsFrame | Src/Console/Console/Program.cs:90-99 | an iteration changes the settings only through a successful change command, after which the settings file loads back as the new settings |
| Commands.RunSavesOnStop | Src/Console/Console/Program.cs:90-101 | once the loop has stopped, the settings file holds exactly the current settings |
| Commands.RunKeepsPositive | Src/Console/Console/Program.cs:90-101 | positive width and height stay positive over a whole run |
| Commands.RunRecordsHistory | Src/Console/Console/Program.cs:90-99 | a run none of whose lines stops the loop answers every line, and it keeps every non-blank line, trimmed and in order, in the in-memory history; once at least one line has been recorded, the history file holds the last 100 of the history, otherwise it is as it was |
| Commands.RunStopsAt | Src/Console/Console/Program.cs:90-101 | in a run whose first stopping line is line `k`, that line is answered with `Exit` and is the last line read; every non-blank line up to it is recorded in order, and the final save writes the current settings |
| Commands.ResizeScenario | Src/Console/Console/Program.cs:146-161 | the line `resize <w> <h>` with positive `w` and `h` is recorded, sets exactly `(w, h)`, and writes a settings file that loads back as `(w, h)` |
| Commands.BadValueScenario | Src/Console/Console/Program.cs:196-224 | `settings width|height <v>` with a `v` that is not a positive `int` (`abc`, `0`, `-5`) is recorded and changes nothing else |
| Commands.UnknownCommandScenario | Src/Console/Console/Program.cs:96-122 | the unknown command `foobar` is recorded in the history and changes nothing else; the general case follows from `Commands.LineRecorded` and `Commands.OtherCommandsReadOnly` |
| Commands.StartRestoresSaved | Src/Console/Console/Program.cs:79-83 | the session starts from the settings that were last saved, or from the defaults and an empty history when there are no files |
| Shell.UserInterface.constructor | Src/Console/Console/Program.cs:79-83 | the new object holds the settings and history loaded from the two files, and is running |
| Shell.UserInterface.PersistSettings | Src/Console/Console/Program.cs:37-44 | the settings file is rewritten from the current settings, and nothing else changes |
| Shell.UserInterface.HandleResize | Src/Console/Console/Program.cs:146-172 | the in-place handler leaves the object in the state of `Commands.HandleResize`, so `Commands.ResizeRule` holds of it |
| Shell.UserInterface.HandleSettings | Src/Console/Console/Program.cs:180-229 | the in-place handler leaves the object in the state of `Commands.HandleSettings`, so `Commands.SettingsChangeRule` holds of it |
| Shell.UserInterface.ProcessCommand | Src/Console/Console/Program.cs:105-124 | the in-place dispatch leaves the object in the state of `Commands.ProcessCommand` |
| Shell.UserInterface.Step | Src/Console/Console/Program.cs:92-98 | one pass of the loop body on the object is `Commands.LoopStep` |
| Shell.UserInterface.Run | Src/Console/Console/Program.cs:85-103 | the loop on the object, then its final save, is `Commands.RunLoop`: the loop invariant ties each iteration to it |

## Left out

- Console output: the banner, the help text, the messages of each branch, the `info` placeholders and the `history` listing are left out. Each branch is represented only by its `Outcome`.
- The file system: `File.Exists`, `File.ReadAllLines` and `File.WriteAllLines` are modelled as the two file fields.
  - A write always succeeds. The swallowed write failures (`catch { }`) are not modelled.
  - A missing or unreadable file reads as `None`.
  - The existence check of `load` is an outside oracle, so the model only reports the path that was asked for.
- `Console.ReadLine` is replaced by a finite list of lines, `None` standing for the end of input. The endless spin after the end of input shows only as iterations that do nothing.
- `ToLower` is culture-sensitive in the source; the model lowers only the ASCII letters `A` to `Z`.
- Int32Text.TryParseInt: `int.TryParse` is modelled as ASCII white space at both ends, an optional `+` or `-`, one or more ASCII digits, and the 32-bit range. The model leaves out:
  - trailing NUL characters;
  - culture-specific signs.
- `Program.Main` is left out: it only builds the object and calls `Run`.
- `UserSettings` is a reference type in the source but only `UserInterface` ever holds it, so it is modelled as a value held in the `settings` field.
- 32-bit integers appear only as the `int32` range of parsed and stored values. No arithmetic on them can overflow in this program.
