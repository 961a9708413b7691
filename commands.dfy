/** `UserInterface` as a state machine on values: the session state, the
    tokeniser, the command handlers, one iteration of the `while (_running)`
    loop and the loop as a whole. The class in module `Shell` updates the same
    state in place and is proved to follow these functions. */
module Commands {
  import opened Wrappers
  import opened Text
  import opened Int32Text
  import opened SettingsStore

  /** Which branch a handler took; each stands for the message printed on
      that branch. */
  datatype Outcome =
    | Ignored
    | LoadUsage
    | LoadRequested(path: string)
    | ShowInfo
    | ResizeUsage
    | ResizeBadNumber
    | ResizeNotPositive
    | Resized(width: int32, height: int32)
    | Saved(path: string)
    | ShowSettings
    | SettingsUsage
    | UnknownParameter(name: string)
    | InvalidValue(field: Field)
    | FieldSet(field: Field, value: int32)
    | ShowHistory
    | ShowHelp
    | Exit
    | UnknownCommand

  /** The outcomes after which the settings have changed and been saved. */
  predicate IsMutation(o: Outcome) {
    o.Resized? || o.FieldSet?
  }

  /** The fields of `UserInterface` together with the two records on disk. */
  datatype Session = Session(
    settings: Settings,
    history: seq<string>,
    running: bool,
    settingsRecord: Option<seq<string>>,
    historyRecord: Option<seq<string>>)

  datatype Reply = Reply(session: Session, outcome: Outcome)

  datatype Transcript = Transcript(session: Session, outcomes: seq<Outcome>)

  /** The separators `Split(' ', (char)StringSplitOptions.RemoveEmptyEntries)`
      really passes: the cast turns the option into the character U+0001, so
      the call is `Split(params char[])` with two separators and no option. */
  const TokenSeparators: set<char> := {' ', '\U{0001}'}

  /** The tokens of a command line, empty tokens kept. */
  function Tokenize(command: string): seq<string> {
    Split(command, TokenSeparators)
  }

  /** The command name: the first token, lowered. */
  function CommandName(command: string): string {
    AsciiLower(Tokenize(command)[0])
  }

  /** The commands that end the loop. */
  predicate Stops(command: string) {
    CommandName(command) == "exit" || CommandName(command) == "quit"
  }

  /** The parameter name `settings <param> <value>` expects for a field. */
  function ParamName(f: Field): string {
    match f
    case Width => "width"
    case Height => "height"
  }

  /** The constructor: settings and history loaded from the two records,
      and the loop ready to run. */
  function Start(settingsRecord: Option<seq<string>>, historyRecord: Option<seq<string>>): Session {
    var settings := if settingsRecord.Some? then ParseSettings(settingsRecord.value) else Defaults;
    Session(settings, LoadHistory(historyRecord), true, settingsRecord, historyRecord)
  }

  /** `_manager.SaveSettings(_settings)`. */
  function PersistSettings(s: Session): Session {
    s.(settingsRecord := Some(SaveSettings(s.settings)))
  }

  /** `_history.Add(input); _manager.SaveHistory(_history)`. */
  function Record(s: Session, input: string): Session {
    var history := s.history + [input];
    s.(history := history, historyRecord := Some(SaveHistory(history)))
  }

  /** The branch `HandleResize` takes: fewer than three tokens is a usage
      error, then both numbers must parse, then both must be positive. */
  function ResizeCheck(parts: seq<string>): Outcome {
    if |parts| < 3 then ResizeUsage
    else
      match (TryParseInt(parts[1]), TryParseInt(parts[2]))
      case (Some(w), Some(h)) => if w > 0 && h > 0 then Resized(w, h) else ResizeNotPositive
      case _ => ResizeBadNumber
  }

  /** `HandleResize`: on success both fields are set and the settings saved. */
  function HandleResize(s: Session, parts: seq<string>): Reply {
    var o := ResizeCheck(parts);
    if o.Resized? then Reply(PersistSettings(s.(settings := Settings(o.width, o.height))), o)
    else Reply(s, o)
  }

  /** The value branch of `HandleSettings` for one field. */
  function FieldCheck(f: Field, value: string): Outcome {
    match TryParseInt(value)
    case Some(v) => if v > 0 then FieldSet(f, v) else InvalidValue(f)
    case None => InvalidValue(f)
  }

  /** The branch `HandleSettings` takes: one token shows the settings, two is
      a usage error, three or more name a parameter (any case) and a value. */
  function SettingsCheck(parts: seq<string>): Outcome {
    if |parts| == 1 then ShowSettings
    else if |parts| < 3 then SettingsUsage
    else
      var name := AsciiLower(parts[1]);
      if name == ParamName(Width) then FieldCheck(Width, parts[2])
      else if name == ParamName(Height) then FieldCheck(Height, parts[2])
      else UnknownParameter(name)
  }

  /** `HandleSettings`: on success only the named field is set, and the
      settings are saved. */
  function HandleSettings(s: Session, parts: seq<string>): Reply {
    var o := SettingsCheck(parts);
    if o.FieldSet? then Reply(PersistSettings(s.(settings := With(s.settings, o.field, o.value))), o)
    else Reply(s, o)
  }

  /** The path `HandleSave` reports. */
  function SavePath(parts: seq<string>): string {
    if |parts| > 1 then parts[1] else "output.jpg"
  }

  /** `ProcessCommand`: tokenise and dispatch on the lowered first token. */
  function ProcessCommand(s: Session, command: string): Reply {
    var parts := Tokenize(command);
    var cmd := AsciiLower(parts[0]);
    if cmd == "load" then Reply(s, if |parts| < 2 then LoadUsage else LoadRequested(parts[1]))
    else if cmd == "info" then Reply(s, ShowInfo)
    else if cmd == "resize" then HandleResize(s, parts)
    else if cmd == "save" then Reply(s, Saved(SavePath(parts)))
    else if cmd == "settings" then HandleSettings(s, parts)
    else if cmd == "history" then Reply(s, ShowHistory)
    else if cmd == "help" then Reply(s, ShowHelp)
    else if cmd == "exit" || cmd == "quit" then Reply(s.(running := false), Exit)
    else Reply(s, UnknownCommand)
  }

  /** The line a loop iteration works on: the input trimmed, unless it is
      missing (end of input) or blank. */
  function Entry(line: Option<string>): Option<string> {
    match line
    case None => None
    case Some(raw) => var input := Trim(raw, WhiteSpace); if input == "" then None else Some(input)
  }

  /** One iteration of the `while (_running)` loop body. */
  function LoopStep(s: Session, line: Option<string>): Reply
    requires s.running
  {
    match Entry(line)
    case None => Reply(s, Ignored)
    case Some(input) => ProcessCommand(Record(s, input), input)
  }

  /** `Run` fed with `inputs`: iterations while the loop is running and input
      remains, and once the loop has stopped, the final save of the
      settings. Input left over after the loop stopped is not read. */
  function RunLoop(s: Session, inputs: seq<Option<string>>): Transcript
    decreases |inputs|
  {
    if !s.running then Transcript(PersistSettings(s), [])
    else if inputs == [] then Transcript(s, [])
    else
      var r := LoopStep(s, inputs[0]);
      var t := RunLoop(r.session, inputs[1..]);
      Transcript(t.session, [r.outcome] + t.outcomes)
  }

  // Properties of one command

  /** A command never touches the history: that is done before dispatch. */
  lemma ProcessKeepsHistory(s: Session, command: string)
    ensures var r := ProcessCommand(s, command);
      && r.session.history == s.history && r.session.historyRecord == s.historyRecord
      && r.outcome != Ignored
  {
  }

  /** Width and height stay positive: a handler only stores values it has
      checked to be positive. */
  lemma ProcessKeepsPositive(s: Session, command: string)
    requires Positive(s.settings)
    ensures Positive(ProcessCommand(s, command).session.settings)
  {
  }

  /** The loop is told to stop exactly by `exit` or `quit`, in any letter
      case. */
  lemma ProcessStopsOnlyOnExit(s: Session, command: string)
    ensures ProcessCommand(s, command).session.running == (s.running && !Stops(command))
  {
  }

  /** `exit` and `quit` answer `Exit`. */
  lemma ProcessStopsWithExit(s: Session, command: string)
    requires Stops(command)
    ensures ProcessCommand(s, command) == Reply(s.(running := false), Exit)
  {
  }

  /** The settings and their record change only on a successful `resize` or
      `settings <param> <value>`; a successful one saves exactly the new
      settings, and `settings` changes only the field it names. */
  lemma ProcessSettingsFrame(s: Session, command: string)
    ensures var Reply(r, o) := ProcessCommand(s, command);
      && (!IsMutation(o) ==> r.settings == s.settings && r.settingsRecord == s.settingsRecord)
      && (IsMutation(o) ==> r.settingsRecord == Some(SaveSettings(r.settings)))
      && (o.Resized? ==> r.settings == Settings(o.width, o.height))
      && (o.FieldSet? ==> r.settings == With(s.settings, o.field, o.value))
  {
  }

  /** `resize`: the settings become `(w, h)` exactly when there are at least
      three tokens and tokens 1 and 2 parse as positive `int`s `w` and `h`;
      otherwise nothing changes. */
  lemma ResizeRule(s: Session, command: string)
    requires CommandName(command) == "resize"
    ensures var parts := Tokenize(command);
      var Reply(r, o) := ProcessCommand(s, command);
      var ok := |parts| >= 3 && TryParseInt(parts[1]).Some? && TryParseInt(parts[2]).Some?
        && TryParseInt(parts[1]).value > 0 && TryParseInt(parts[2]).value > 0;
      && (ok ==>
            o == Resized(TryParseInt(parts[1]).value, TryParseInt(parts[2]).value)
            && r == PersistSettings(s.(settings := Settings(o.width, o.height))))
      && (!ok ==> !o.Resized? && r == s)
  {
  }

  /** `settings` with one token shows the settings and, with two, prints its
      usage; neither changes or saves anything, so repeating them is
      harmless. */
  lemma SettingsQueryReadOnly(s: Session, command: string)
    requires CommandName(command) == "settings" && |Tokenize(command)| < 3
    ensures ProcessCommand(s, command) ==
      Reply(s, if |Tokenize(command)| == 1 then ShowSettings else SettingsUsage)
  {
  }

  /** `settings <param> <value>`: a parameter naming a field in any letter
      case and a positive `int` value set that field alone; an unknown
      parameter or a bad value changes nothing. */
  lemma SettingsChangeRule(s: Session, command: string)
    requires CommandName(command) == "settings" && |Tokenize(command)| >= 3
    ensures var parts := Tokenize(command);
      var name := AsciiLower(parts[1]);
      var v := TryParseInt(parts[2]);
      var Reply(r, o) := ProcessCommand(s, command);
      && (forall f: Field :: name == ParamName(f) && v.Some? && v.value > 0 ==>
            o == FieldSet(f, v.value)
            && r == PersistSettings(s.(settings := With(s.settings, f, v.value))))
      && (forall f: Field :: name == ParamName(f) && !(v.Some? && v.value > 0) ==>
            o == InvalidValue(f) && r == s)
      && (name != ParamName(Width) && name != ParamName(Height) ==>
            o == UnknownParameter(name) && r == s)
  {
  }

  /** Every other command leaves the session alone; `load` and `save` report
      the second token, `save` falling back to `output.jpg`. */
  lemma OtherCommandsReadOnly(s: Session, command: string)
    requires var cmd := CommandName(command);
      cmd != "resize" && cmd != "settings" && cmd != "exit" && cmd != "quit"
    ensures var parts := Tokenize(command);
      var cmd := CommandName(command);
      var Reply(r, o) := ProcessCommand(s, command);
      && r == s
      && (cmd == "load" ==> o == if |parts| < 2 then LoadUsage else LoadRequested(parts[1]))
      && (cmd == "save" ==> o == Saved(if |parts| >= 2 then parts[1] else "output.jpg"))
      && (cmd !in {"load", "info", "save", "history", "help"} ==> o == UnknownCommand)
  {
  }

  // Properties of one loop iteration

  /** A missing or blank line changes nothing and dispatches nothing. */
  lemma BlankLineIgnored(s: Session, line: Option<string>)
    requires s.running && Entry(line).None?
    ensures LoopStep(s, line) == Reply(s, Ignored)
  {
  }

  /** A non-blank line, whatever command it holds, is appended once to the
      in-memory history (which is never cut down) and the history record is
      rewritten from it before the command runs. */
  lemma LineRecorded(s: Session, line: Option<string>)
    requires s.running && Entry(line).Some?
    ensures var r := LoopStep(s, line);
      && r == ProcessCommand(Record(s, Entry(line).value), Entry(line).value)
      && r.session.history == s.history + [Entry(line).value]
      && r.session.historyRecord == Some(SaveHistory(r.session.history))
      && r.outcome != Ignored
  {
    ProcessKeepsHistory(Record(s, Entry(line).value), Entry(line).value);
  }

  /** Width and height stay positive across an iteration. */
  lemma StepKeepsPositive(s: Session, line: Option<string>)
    requires s.running && Positive(s.settings)
    ensures Positive(LoopStep(s, line).session.settings)
  {
    if Entry(line).Some? {
      ProcessKeepsPositive(Record(s, Entry(line).value), Entry(line).value);
    }
  }

  /** The loop stops exactly after a line holding `exit` or `quit`. */
  lemma StepStopsOnlyOnExit(s: Session, line: Option<string>)
    requires s.running
    ensures !LoopStep(s, line).session.running <==> Entry(line).Some? && Stops(Entry(line).value)
  {
    if Entry(line).Some? {
      ProcessStopsOnlyOnExit(Record(s, Entry(line).value), Entry(line).value);
    }
  }

  /** An iteration changes the settings and their record only through a
      successful change command, which saves exactly the new settings; after
      it the settings record loads back as the new settings. */
  lemma StepSettingsFrame(s: Session, line: Option<string>)
    requires s.running
    ensures var Reply(r, o) := LoopStep(s, line);
      && (!IsMutation(o) ==> r.settings == s.settings && r.settingsRecord == s.settingsRecord)
      && (IsMutation(o) ==> r.settingsRecord == Some(SaveSettings(r.settings)))
      && (IsMutation(o) ==> ParseSettings(r.settingsRecord.value) == r.settings)
  {
    var Reply(r, o) := LoopStep(s, line);
    if Entry(line).Some? {
      ProcessSettingsFrame(Record(s, Entry(line).value), Entry(line).value);
    }
    SettingsRoundTrip(r.settings);
  }

  // The tokeniser

  /** The tokens are the pieces between the separators, empty ones included:
      there is one more token than separators, and putting the separators
      back gives the command line. */
  lemma TokensRejoin(command: string)
    ensures |Tokenize(command)| == |SeparatorsIn(command, TokenSeparators)| + 1
    ensures JoinWith(Tokenize(command), SeparatorsIn(command, TokenSeparators)) == command
  {
    SplitRejoins(command, TokenSeparators);
  }

  /** Two spaces in a row give an empty token, so `resize  10 20` fails as a
      number error instead of resizing. */
  lemma DoubleSpaceBreaksResize()
    ensures Tokenize("resize  10 20") == ["resize", "", "10", "20"]
    ensures ResizeCheck(Tokenize("resize  10 20")) == ResizeBadNumber
  {
    var pieces := ["resize", "", "10", "20"];
    var glue := [' ', ' ', ' '];
    assert JoinWith(pieces, glue) == "resize  10 20";
    forall k | 0 <= k < |pieces| ensures NoneIn(pieces[k], TokenSeparators) {
    }
    SplitOfJoin(pieces, glue, TokenSeparators);
    ParseRejectsNonNumerals("");
  }

  // Properties of whole runs

  /** Only after the loop has stopped are the settings saved once more. */
  lemma {:induction false} RunSavesOnStop(s: Session, inputs: seq<Option<string>>)
    ensures var r := RunLoop(s, inputs).session;
      !r.running ==> r.settingsRecord == Some(SaveSettings(r.settings))
    decreases |inputs|
  {
    if s.running && inputs != [] {
      RunSavesOnStop(LoopStep(s, inputs[0]).session, inputs[1..]);
    }
  }

  /** Width and height stay positive over any run. */
  lemma {:induction false} RunKeepsPositive(s: Session, inputs: seq<Option<string>>)
    requires Positive(s.settings)
    ensures Positive(RunLoop(s, inputs).session.settings)
    decreases |inputs|
  {
    if s.running && inputs != [] {
      StepKeepsPositive(s, inputs[0]);
      RunKeepsPositive(LoopStep(s, inputs[0]).session, inputs[1..]);
    }
  }

  /** What a line adds to the history: itself, trimmed, unless blank. */
  function EntryLines(line: Option<string>): seq<string> {
    match Entry(line)
    case Some(e) => [e]
    case None => []
  }

  /** The non-blank lines of `inputs`, trimmed. */
  function Entries(inputs: seq<Option<string>>): seq<string>
    decreases |inputs|
  {
    if inputs == [] then [] else EntryLines(inputs[0]) + Entries(inputs[1..])
  }

  /** Regrouping a concatenation, stated apart so that the run-level
      inductions below use it as one fact instead of reasoning about sequence
      contents in their larger contexts. */
  lemma ConcatAssoc<T>(a: seq<T>, b: seq<T>, c: seq<T>)
    ensures (a + b) + c == a + (b + c)
  {
  }

  /** An iteration's effect on the history and its record. */
  lemma StepHistory(s: Session, line: Option<string>)
    requires s.running
    ensures var r := LoopStep(s, line).session;
      && r.history == s.history + EntryLines(line)
      && r.historyRecord == if Entry(line).Some? then Some(SaveHistory(r.history)) else s.historyRecord
  {
    if Entry(line).Some? {
      LineRecorded(s, line);
    } else {
      BlankLineIgnored(s, line);
    }
  }

  /** A line that does not end the loop. */
  predicate KeepsRunning(line: Option<string>) {
    Entry(line).None? || !Stops(Entry(line).value)
  }

  /** A run on lines none of which stops the loop answers every line, keeps
      every non-blank line in memory in order, and leaves the history record
      holding the most recent 100 of them. */
  lemma {:induction false} RunRecordsHistory(s: Session, inputs: seq<Option<string>>)
    requires s.running
    requires forall k :: 0 <= k < |inputs| ==> KeepsRunning(inputs[k])
    ensures var t := RunLoop(s, inputs);
      && t.session.running
      && |t.outcomes| == |inputs|
      && t.session.history == s.history + Entries(inputs)
      && (Entries(inputs) == [] ==> t.session.historyRecord == s.historyRecord)
      && (Entries(inputs) != [] ==> t.session.historyRecord == Some(SaveHistory(t.session.history)))
    decreases |inputs|
  {
    if inputs == [] {
      assert s.history + Entries(inputs) == s.history;
    } else {
      var r := LoopStep(s, inputs[0]);
      var rest := inputs[1..];
      assert KeepsRunning(inputs[0]);
      StepStopsOnlyOnExit(s, inputs[0]);
      assert forall k :: 0 <= k < |rest| ==> rest[k] == inputs[k + 1];
      RunRecordsHistory(r.session, rest);
      StepHistory(s, inputs[0]);
      var t := RunLoop(r.session, rest);
      assert RunLoop(s, inputs) == Transcript(t.session, [r.outcome] + t.outcomes);
      ConcatAssoc(s.history, EntryLines(inputs[0]), Entries(rest));
      if Entries(rest) == [] {
        assert t.session.history == r.session.history;
      }
    }
  }

  // Scenarios

  /** A line that stops the loop ends the run: the line `k` that holds `exit`
      or `quit` is answered with `Exit` and is the last line read, every
      non-blank line up to it is recorded in order, and the settings are saved
      once more. */
  lemma {:induction false} RunStopsAt(s: Session, inputs: seq<Option<string>>, k: nat)
    requires s.running && k < |inputs| && !KeepsRunning(inputs[k])
    requires forall j :: 0 <= j < k ==> KeepsRunning(inputs[j])
    ensures var t := RunLoop(s, inputs);
      && t == RunLoop(s, inputs[..k + 1])
      && !t.session.running
      && |t.outcomes| == k + 1 && t.outcomes[k] == Exit
      && t.session.history == s.history + Entries(inputs[..k + 1])
      && t.session.historyRecord == Some(SaveHistory(t.session.history))
      && t.session.settingsRecord == Some(SaveSettings(t.session.settings))
    decreases k
  {
    var r := LoopStep(s, inputs[0]);
    var rest := inputs[1..];
    StepHistory(s, inputs[0]);
    StepStopsOnlyOnExit(s, inputs[0]);
    assert inputs[..k + 1][0] == inputs[0] && inputs[..k + 1][1..] == rest[..k];
    if k == 0 {
      var e := Entry(inputs[0]).value;
      LineRecorded(s, inputs[0]);
      ProcessStopsWithExit(Record(s, e), e);
      assert Entries(inputs[..1]) == EntryLines(inputs[0]) + Entries([]);
    } else {
      assert KeepsRunning(inputs[0]);
      assert forall j :: 0 <= j < k - 1 ==> rest[j] == inputs[j + 1];
      RunStopsAt(r.session, rest, k - 1);
      var t := RunLoop(r.session, rest);
      assert RunLoop(s, inputs) == Transcript(t.session, [r.outcome] + t.outcomes);
      assert Entries(inputs[..k + 1]) == EntryLines(inputs[0]) + Entries(rest[..k]);
      ConcatAssoc(s.history, EntryLines(inputs[0]), Entries(rest[..k]));
      if Entry(inputs[0]).None? {
        assert EntryLines(inputs[0]) == [];
      }
    }
  }

  /** A line without white space at either end is taken as it is. */
  lemma CleanEntry(input: string)
    requires input != [] && input[0] !in WhiteSpace && input[|input| - 1] !in WhiteSpace
    ensures Entry(Some(input)) == Some(input)
  {
    TrimUntouched(input, WhiteSpace);
  }

  /** A line of three separator-free words, with no white space at its ends,
      is entered as it is and splits back into the three words. */
  lemma ThreeWords(a: string, b: string, c: string)
    requires NoneIn(a, TokenSeparators) && NoneIn(b, TokenSeparators) && NoneIn(c, TokenSeparators)
    requires a != [] && a[0] !in WhiteSpace && c != [] && c[|c| - 1] !in WhiteSpace
    ensures var input := a + " " + b + " " + c;
      Entry(Some(input)) == Some(input) && Tokenize(input) == [a, b, c]
  {
    var input := a + " " + b + " " + c;
    var words := [a, b, c];
    assert input == JoinWith(words, [' ', ' ']);
    SplitOfJoin(words, [' ', ' '], TokenSeparators);
    assert input[|input| - 1] == c[|c| - 1];
    CleanEntry(input);
  }

  /** The tokens `resize <w> <h>` with positive `w` and `h` resize to `(w, h)`. */
  lemma ResizeWords(s: Session, command: string, w: int32, h: int32)
    requires w > 0 && h > 0 && Tokenize(command) == ["resize", IntToString(w), IntToString(h)]
    ensures ProcessCommand(s, command) ==
      Reply(PersistSettings(s.(settings := Settings(w, h))), Resized(w, h))
  {
    assert CommandName(command) == "resize";
    FormatThenParse(w);
    FormatThenParse(h);
    ResizeRule(s, command);
  }

  /** Parameter names are already in lower case. */
  lemma ParamNameLower(f: Field)
    ensures AsciiLower(ParamName(f)) == ParamName(f)
  {
    if f == Width {
      assert AsciiLower("width") == "width";
    } else {
      assert AsciiLower("height") == "height";
    }
  }

  /** The tokens `settings <param> <value>` with a value that is not a positive
      `int` leave the session as it is. */
  lemma BadValueWords(s: Session, command: string, f: Field, value: string)
    requires Tokenize(command) == ["settings", ParamName(f), value]
    requires TryParseInt(value).None? || TryParseInt(value).value <= 0
    ensures ProcessCommand(s, command) == Reply(s, InvalidValue(f))
  {
    assert CommandName(command) == "settings";
    ParamNameLower(f);
    SettingsChangeRule(s, command);
  }

  /** `resize <w> <h>` with positive `w` and `h` stores exactly `(w, h)`,
      and the settings record it writes loads back as `(w, h)`. */
  lemma ResizeScenario(s: Session, w: int32, h: int32)
    requires s.running && w > 0 && h > 0
    ensures var input := "resize" + " " + IntToString(w) + " " + IntToString(h);
      var r := LoopStep(s, Some(input));
      && r.outcome == Resized(w, h)
      && r.session == PersistSettings(Record(s, input).(settings := Settings(w, h)))
      && ParseSettings(r.session.settingsRecord.value) == Settings(w, h)
  {
    var ws, hs := IntToString(w), IntToString(h);
    FormatChars(w);
    FormatChars(h);
    ThreeWords("resize", ws, hs);
    var input := "resize" + " " + ws + " " + hs;
    LineRecorded(s, Some(input));
    ResizeWords(Record(s, input), input, w, h);
    SettingsRoundTrip(Settings(w, h));
  }

  /** `settings <param> <value>` with a value that is not a positive `int`
      (`abc`, `0`, `-5`, ...) reports it and changes nothing but the
      history. */
  lemma BadValueScenario(s: Session, f: Field, value: string)
    requires s.running
    requires value != [] && NoneIn(value, TokenSeparators) && value[|value| - 1] !in WhiteSpace
    requires TryParseInt(value).None? || TryParseInt(value).value <= 0
    ensures var input := "settings" + " " + ParamName(f) + " " + value;
      LoopStep(s, Some(input)) == Reply(Record(s, input), InvalidValue(f))
  {
    ThreeWords("settings", ParamName(f), value);
    var input := "settings" + " " + ParamName(f) + " " + value;
    LineRecorded(s, Some(input));
    BadValueWords(Record(s, input), input, f, value);
  }

  /** An unknown command is still recorded. */
  lemma UnknownCommandScenario(s: Session)
    requires s.running
    ensures LoopStep(s, Some("foobar")) == Reply(Record(s, "foobar"), UnknownCommand)
  {
    CleanEntry("foobar");
    SplitWhole("foobar", TokenSeparators);
    LineRecorded(s, Some("foobar"));
    OtherCommandsReadOnly(Record(s, "foobar"), "foobar");
  }

  /** The session starts from whatever the settings record holds; a record
      written by `SaveSettings` restores the settings saved in it. */
  lemma StartRestoresSaved(x: Settings, historyRecord: Option<seq<string>>)
    ensures Start(Some(SaveSettings(x)), historyRecord).settings == x
    ensures Start(None, historyRecord).settings == Defaults
    ensures Start(None, None).history == []
  {
    SettingsRoundTrip(x);
  }
}
