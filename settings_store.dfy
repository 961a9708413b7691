/** `UserSettings` and `SettingsManager`: the width/height record with its
    `Key=Value` text format, and the history record capped at 100 lines.
    A record is the list of lines of its file; `None` is a file that does not
    exist or cannot be read. */
module SettingsStore {
  import opened Wrappers
  import opened Text
  import opened Int32Text

  /** `UserSettings`: two `int` properties. */
  datatype Settings = Settings(width: int32, height: int32)

  /** The two properties, used both by the record format and by the
      `settings <param> <value>` command. */
  datatype Field = Width | Height

  /** The values a fresh `UserSettings` starts with. */
  const Defaults: Settings := Settings(800, 600)

  /** Most history lines the history record keeps. */
  const HistoryLimit: nat := 100

  function Get(s: Settings, f: Field): int32 {
    match f
    case Width => s.width
    case Height => s.height
  }

  /** `s` with field `f` set to `v`; the other field keeps its value. */
  function With(s: Settings, f: Field, v: int32): (r: Settings)
    ensures Get(r, f) == v
    ensures forall g :: g != f ==> Get(r, g) == Get(s, g)
  {
    match f
    case Width => s.(width := v)
    case Height => s.(height := v)
  }

  predicate Positive(s: Settings) {
    s.width > 0 && s.height > 0
  }

  /** The key under which a field is written to the settings record. */
  function KeyName(f: Field): string {
    match f
    case Width => "Width"
    case Height => "Height"
  }

  /** `SaveSettings`: the two lines written to the settings record. */
  function SaveSettings(s: Settings): seq<string> {
    [KeyName(Width) + "=" + IntToString(s.width), KeyName(Height) + "=" + IntToString(s.height)]
  }

  /** What one line of the settings record says about field `f`: the line
      must split on `=` into exactly two parts, the first being the field's
      key and the second a valid `int`. */
  function LineValue(line: string, f: Field): Option<int32> {
    var parts := Split(line, {'='});
    if |parts| == 2 && parts[0] == KeyName(f) then TryParseInt(parts[1]) else None
  }

  /** One pass of the `foreach` body: each field the line gives a value for
      takes it. */
  function ApplyLine(s: Settings, line: string): Settings {
    var s1 := match LineValue(line, Width) case Some(w) => With(s, Width, w) case None => s;
    match LineValue(line, Height) case Some(h) => With(s1, Height, h) case None => s1
  }

  /** The settings `LoadSettings` builds from the lines of an existing
      record: the defaults, then every line applied in order. */
  function ParseSettings(lines: seq<string>): Settings
    decreases |lines|
  {
    if lines == [] then Defaults
    else ApplyLine(ParseSettings(lines[..|lines| - 1]), lines[|lines| - 1])
  }

  /** `LoadSettings`: the defaults when the record is missing, otherwise the
      result of applying its lines one after another to a fresh
      `UserSettings`. */
  method LoadSettings(record: Option<seq<string>>) returns (settings: Settings)
    ensures record.None? ==> settings == Defaults
    ensures record.Some? ==> settings == ParseSettings(record.value)
  {
    settings := Defaults;
    if record.Some? {
      var lines := record.value;
      var i := 0;
      while i < |lines|
        invariant 0 <= i <= |lines|
        invariant settings == ParseSettings(lines[..i])
      {
        var line := lines[i];
        var parts := Split(line, {'='});
        if |parts| == 2 {
          if parts[0] == "Width" {
            var w := TryParseInt(parts[1]);
            if w.Some? {
              settings := settings.(width := w.value);
            }
          }
          if parts[0] == "Height" {
            var h := TryParseInt(parts[1]);
            if h.Some? {
              settings := settings.(height := h.value);
            }
          }
        }
        assert lines[..i + 1][..i] == lines[..i];
        i := i + 1;
      }
      assert lines[..i] == lines;
    }
  }

  /** `LoadHistory`: the lines of the history record, or nothing. */
  function LoadHistory(record: Option<seq<string>>): seq<string> {
    record.GetOr([])
  }

  /** `SaveHistory`: the lines written to the history record, the most recent
      `HistoryLimit` entries in their original order. Only a local copy is
      cut down; the caller's list is left as it is. */
  function SaveHistory(history: seq<string>): (written: seq<string>)
    ensures |written| == if |history| > HistoryLimit then HistoryLimit else |history|
    ensures history == history[..|history| - |written|] + written
  {
    if |history| > HistoryLimit then history[|history| - HistoryLimit..] else history
  }

  // Properties of the settings record

  /** The key part of a saved line never contains `=`, and the value part
      is digits with an optional minus sign. */
  lemma SavedLineSplits(f: Field, v: int32)
    ensures Split(KeyName(f) + "=" + IntToString(v), {'='}) == [KeyName(f), IntToString(v)]
  {
    var value := IntToString(v);
    FormatChars(v);
    assert NoneIn(KeyName(f), {'='});
    assert "=" == ['='];
    assert KeyName(f) + "=" + value == KeyName(f) + ['='] + value;
    SplitAfter(KeyName(f), '=', value, {'='});
    SplitWhole(value, {'='});
  }

  /** A saved line gives a value to its own field and to no other. */
  lemma SavedLineValue(f: Field, v: int32, g: Field)
    ensures LineValue(KeyName(f) + "=" + IntToString(v), g) == if g == f then Some(v) else None
  {
    SavedLineSplits(f, v);
    FormatThenParse(v);
  }

  /** Round trip: the record `SaveSettings` writes loads as the same settings,
      for every pair of `int` values. */
  lemma SettingsRoundTrip(s: Settings)
    ensures ParseSettings(SaveSettings(s)) == s
  {
    var lines := SaveSettings(s);
    SavedLineValue(Width, s.width, Width);
    SavedLineValue(Width, s.width, Height);
    SavedLineValue(Height, s.height, Width);
    SavedLineValue(Height, s.height, Height);
    assert lines[..1][..0] == [];
    assert lines[..1] == [lines[0]];
    assert ParseSettings(lines[..1]) == s.(height := 600);
  }

  /** One line's effect on a field: the line's value when it has one,
      otherwise the value it had before. */
  lemma ApplyLineField(s: Settings, line: string, f: Field)
    ensures Get(ApplyLine(s, line), f) == LineValue(line, f).GetOr(Get(s, f))
  {
  }

  /** The value each line gives field `f`, line by line. */
  function Values(lines: seq<string>, f: Field): (vals: seq<Option<int32>>)
    ensures |vals| == |lines|
    decreases |lines|
  {
    if lines == [] then [] else Values(lines[..|lines| - 1], f) + [LineValue(lines[|lines| - 1], f)]
  }

  lemma {:induction false} ValuesAt(lines: seq<string>, f: Field)
    ensures forall j :: 0 <= j < |lines| ==> Values(lines, f)[j] == LineValue(lines[j], f)
    decreases |lines|
  {
    if lines != [] {
      var n := |lines| - 1;
      ValuesAt(lines[..n], f);
      assert forall j :: 0 <= j < n ==> lines[..n][j] == lines[j];
    }
  }

  /** The reference meaning of "a later line overrides an earlier one": the
      last value present, or `default` when there is none. */
  function LastValue(vals: seq<Option<int32>>, default: int32): int32
    decreases |vals|
  {
    if vals == [] then default
    else match vals[|vals| - 1]
      case Some(v) => v
      case None => LastValue(vals[..|vals| - 1], default)
  }

  /** The loop of `LoadSettings` leaves each field at the last value the
      record gives it, or at its default. */
  lemma {:induction false} ParseIsLastValue(lines: seq<string>, f: Field)
    ensures Get(ParseSettings(lines), f) == LastValue(Values(lines, f), Get(Defaults, f))
    decreases |lines|
  {
    if lines != [] {
      var n := |lines| - 1;
      ApplyLineField(ParseSettings(lines[..n]), lines[n], f);
      ParseIsLastValue(lines[..n], f);
      var vals := Values(lines, f);
      assert vals[..n] == Values(lines[..n], f);
    }
  }

  lemma {:induction false} LastValueAt(vals: seq<Option<int32>>, default: int32, i: nat)
    requires i < |vals| && vals[i].Some?
    requires forall j :: i < j < |vals| ==> vals[j].None?
    ensures LastValue(vals, default) == vals[i].value
    decreases |vals|
  {
    var n := |vals| - 1;
    if i < n {
      assert forall j :: i < j < n ==> vals[..n][j] == vals[j];
      LastValueAt(vals[..n], default, i);
    }
  }

  lemma {:induction false} LastValueNone(vals: seq<Option<int32>>, default: int32)
    requires forall j :: 0 <= j < |vals| ==> vals[j].None?
    ensures LastValue(vals, default) == default
    decreases |vals|
  {
    if vals != [] {
      var n := |vals| - 1;
      assert forall j :: 0 <= j < n ==> vals[..n][j] == vals[j];
      LastValueNone(vals[..n], default);
    }
  }

  /** A later valid line for a field overrides every earlier one: the field
      ends with the value of the last line that gives it one. */
  lemma LastLineWins(lines: seq<string>, f: Field, i: nat)
    requires i < |lines| && LineValue(lines[i], f).Some?
    requires forall j :: i < j < |lines| ==> LineValue(lines[j], f).None?
    ensures Get(ParseSettings(lines), f) == LineValue(lines[i], f).value
  {
    ParseIsLastValue(lines, f);
    ValuesAt(lines, f);
    LastValueAt(Values(lines, f), Get(Defaults, f), i);
  }

  /** A field that no line gives a valid value keeps its default: this covers
      lines with fewer or more than one `=`, unknown keys, values that are
      not `int`s, and the empty record. */
  lemma NoLineKeepsDefault(lines: seq<string>, f: Field)
    requires forall j :: 0 <= j < |lines| ==> LineValue(lines[j], f).None?
    ensures Get(ParseSettings(lines), f) == Get(Defaults, f)
  {
    ParseIsLastValue(lines, f);
    ValuesAt(lines, f);
    LastValueNone(Values(lines, f), Get(Defaults, f));
  }

  /** A line with two or more `=` splits into three or more parts and sets
      nothing. */
  lemma TwoEqualsIgnored(line: string, f: Field)
    requires |SeparatorsIn(line, {'='})| >= 2
    ensures LineValue(line, f) == None
  {
    SplitRejoins(line, {'='});
  }

  /** Loaded values are taken as they are: nothing checks that they are
      positive. */
  lemma LoadKeepsNonPositive()
    ensures ParseSettings(["Width=-5", "Height=0"]) == Settings(-5, 0)
  {
    assert "Width=-5" == KeyName(Width) + "=" + IntToString(-5);
    assert "Height=0" == KeyName(Height) + "=" + IntToString(0);
    SavedLineValue(Width, -5, Width);
    SavedLineValue(Width, -5, Height);
    SavedLineValue(Height, 0, Width);
    SavedLineValue(Height, 0, Height);
    var lines := ["Width=-5", "Height=0"];
    assert lines[..1][..0] == [];
    assert lines[..1] == [lines[0]];
  }

  // Properties of the history record

  /** Round trip: loading the history file written for a history gives back
      the whole history when it has at most 100 entries, and its last 100
      entries otherwise. */
  lemma HistoryRoundTrip(history: seq<string>)
    ensures var loaded := LoadHistory(Some(SaveHistory(history)));
      && (|history| <= HistoryLimit ==> loaded == history)
      && (|history| > HistoryLimit ==> loaded == history[|history| - HistoryLimit..])
  {
    var w := SaveHistory(history);
    assert history[|history| - |w|..] == w;
  }

  /** Truncating again changes nothing. */
  lemma SaveHistoryIdempotent(history: seq<string>)
    ensures SaveHistory(SaveHistory(history)) == SaveHistory(history)
  {
  }

  /** The record depends only on the most recent entries: appending to the
      truncated list and truncating gives the same lines as appending to the
      full list. */
  lemma SaveHistoryAfterAppend(history: seq<string>, entry: string)
    ensures SaveHistory(SaveHistory(history) + [entry]) == SaveHistory(history + [entry])
  {
    var kept := SaveHistory(history);
    assert history + [entry] == history[..|history| - |kept|] + (kept + [entry]);
  }
}
