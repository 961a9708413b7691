/** The `UserInterface` object of the console program: its fields are updated
    in place by the loop and the command handlers, and the two files the
    settings manager writes are fields too. Every method is proved to do what
    the value-level functions of module `Commands` say, so the properties
    proved there hold of the object. */
module Shell {
  import opened Wrappers
  import opened Text
  import opened Int32Text
  import opened SettingsStore
  import Commands

  class UserInterface {
    /** `_settings`, `_history` and `_running`. */
    var settings: Settings
    var history: seq<string>
    var running: bool
    /** The contents of `settings.txt` and `history.txt` (`None`: no file). */
    var settingsFile: Option<seq<string>>
    var historyFile: Option<seq<string>>

    /** The object's state as a value. */
    function Snapshot(): Commands.Session
      reads this
    {
      Commands.Session(settings, history, running, settingsFile, historyFile)
    }

    /** `new UserInterface()`: settings and history read from the two files. */
    constructor(settingsRecord: Option<seq<string>>, historyRecord: Option<seq<string>>)
      ensures Snapshot() == Commands.Start(settingsRecord, historyRecord)
    {
      var loaded := LoadSettings(settingsRecord);
      settings := loaded;
      history := LoadHistory(historyRecord);
      running := true;
      settingsFile := settingsRecord;
      historyFile := historyRecord;
    }

    /** `_manager.SaveSettings(_settings)`. */
    method PersistSettings()
      modifies this
      ensures Snapshot() == Commands.PersistSettings(old(Snapshot()))
    {
      settingsFile := Some(SaveSettings(settings));
    }

    /** `resize <width> <height>`. */
    method HandleResize(parts: seq<string>) returns (outcome: Commands.Outcome)
      modifies this
      ensures Commands.Reply(Snapshot(), outcome) == Commands.HandleResize(old(Snapshot()), parts)
    {
      if |parts| < 3 {
        return Commands.ResizeUsage;
      }
      var width := TryParseInt(parts[1]);
      var height := TryParseInt(parts[2]);
      if width.Some? && height.Some? {
        if width.value > 0 && height.value > 0 {
          settings := settings.(width := width.value);
          settings := settings.(height := height.value);
          PersistSettings();
          outcome := Commands.Resized(width.value, height.value);
        } else {
          outcome := Commands.ResizeNotPositive;
        }
      } else {
        outcome := Commands.ResizeBadNumber;
      }
    }

    /** `settings`, `settings <param> <value>`. */
    method HandleSettings(parts: seq<string>) returns (outcome: Commands.Outcome)
      modifies this
      ensures Commands.Reply(Snapshot(), outcome) == Commands.HandleSettings(old(Snapshot()), parts)
    {
      if |parts| == 1 {
        return Commands.ShowSettings;
      }
      if |parts| < 3 {
        return Commands.SettingsUsage;
      }
      var setting := AsciiLower(parts[1]);
      var value := TryParseInt(parts[2]);
      if setting == "width" {
        if value.Some? && value.value > 0 {
          settings := settings.(width := value.value);
          PersistSettings();
          outcome := Commands.FieldSet(Width, value.value);
        } else {
          outcome := Commands.InvalidValue(Width);
        }
      } else if setting == "height" {
        if value.Some? && value.value > 0 {
          settings := settings.(height := value.value);
          PersistSettings();
          outcome := Commands.FieldSet(Height, value.value);
        } else {
          outcome := Commands.InvalidValue(Height);
        }
      } else {
        outcome := Commands.UnknownParameter(setting);
      }
    }

    /** `ProcessCommand`: the dispatch on the lowered first token. The
        tokeniser always yields at least one token, so the source's
        `parts.Length == 0` return has no counterpart. */
    method ProcessCommand(command: string) returns (outcome: Commands.Outcome)
      modifies this
      ensures Commands.Reply(Snapshot(), outcome) == Commands.ProcessCommand(old(Snapshot()), command)
    {
      var parts := Commands.Tokenize(command);
      var cmd := AsciiLower(parts[0]);
      if cmd == "load" {
        outcome := if |parts| < 2 then Commands.LoadUsage else Commands.LoadRequested(parts[1]);
      } else if cmd == "info" {
        outcome := Commands.ShowInfo;
      } else if cmd == "resize" {
        outcome := HandleResize(parts);
      } else if cmd == "save" {
        outcome := Commands.Saved(if |parts| > 1 then parts[1] else "output.jpg");
      } else if cmd == "settings" {
        outcome := HandleSettings(parts);
      } else if cmd == "history" {
        outcome := Commands.ShowHistory;
      } else if cmd == "help" {
        outcome := Commands.ShowHelp;
      } else if cmd == "exit" || cmd == "quit" {
        running := false;
        outcome := Commands.Exit;
      } else {
        outcome := Commands.UnknownCommand;
      }
    }

    /** One pass of the `while (_running)` body on the line read (`None`:
        end of input). */
    method Step(line: Option<string>) returns (outcome: Commands.Outcome)
      requires running
      modifies this
      ensures Commands.Reply(Snapshot(), outcome) == Commands.LoopStep(old(Snapshot()), line)
    {
      if line.None? {
        return Commands.Ignored;
      }
      var input := Trim(line.value, WhiteSpace);
      if input == "" {
        return Commands.Ignored;
      }
      history := history + [input];
      historyFile := Some(SaveHistory(history));
      outcome := ProcessCommand(input);
    }

    /** `Run` reading its lines from `inputs`: the loop while the object is
        running and input remains, then, once it has stopped, the final save
        of the settings. */
    method Run(inputs: seq<Option<string>>) returns (outcomes: seq<Commands.Outcome>)
      modifies this
      ensures Commands.Transcript(Snapshot(), outcomes) == Commands.RunLoop(old(Snapshot()), inputs)
    {
      ghost var goal := Commands.RunLoop(Snapshot(), inputs);
      outcomes := [];
      var i := 0;
      while running && i < |inputs|
        invariant 0 <= i <= |inputs|
        invariant Commands.RunLoop(Snapshot(), inputs[i..]).session == goal.session
        invariant outcomes + Commands.RunLoop(Snapshot(), inputs[i..]).outcomes == goal.outcomes
        decreases |inputs| - i
      {
        ghost var before := Snapshot();
        var o := Step(inputs[i]);
        assert inputs[i..][0] == inputs[i] && inputs[i..][1..] == inputs[i + 1..];
        ghost var rest := Commands.RunLoop(Snapshot(), inputs[i + 1..]);
        assert Commands.RunLoop(before, inputs[i..]) == Commands.Transcript(rest.session, [o] + rest.outcomes);
        Commands.ConcatAssoc(outcomes, [o], rest.outcomes);
        outcomes := outcomes + [o];
        i := i + 1;
      }
      if !running {
        PersistSettings();
      }
    }
  }
}
