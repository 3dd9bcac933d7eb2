/** The structured logger: every call writes one coloured console line and
    appends one JSON record, followed by a newline, to the log file. Clocks and
    `JSON.stringify` are parameters; the console and the file stream are
    represented by the list of effects a call performs. */
module Logging {
  import opened Wrappers
  import opened Values

  /** The keys of the level and colour tables, which also name the console
      method that is called (`console.info`, `console.warn`, `console.error`). */
  datatype Level = Info | Warn | Error

  /** A flat record of named values (`Record<string, unknown>`). */
  type Data = map<string, Value>

  /** The level table: the fully spelled level written to console and file. */
  function LevelName(level: Level): (name: string)
    ensures name in {"INFO", "WARN", "ERROR"}
  {
    match level
    case Info => "INFO"
    case Warn => "WARN"
    case Error => "ERROR"
  }

  /** The colour table: ANSI foreground blue, yellow and red. */
  function LevelColor(level: Level): (color: string)
    ensures |color| == 5 && color[..2] == "\U{1B}[" && color[4] == 'm'
  {
    match level
    case Info => "\U{1B}[34m"
    case Warn => "\U{1B}[33m"
    case Error => "\U{1B}[31m"
  }

  /** The colour table's reset entry. */
  const Reset: string := "\U{1B}[0m"

  /** Distinct levels are told apart by both tables. */
  lemma LevelTablesInjective(a: Level, b: Level)
    ensures LevelName(a) == LevelName(b) ==> a == b
    ensures LevelColor(a) == LevelColor(b) ==> a == b
  {
  }

  /** The console line: colour, bracketed timestamp, bracketed level, message, reset. */
  function ConsoleLine(level: Level, timestamp: string, message: string): (line: string)
    ensures 5 + |Reset| <= |line|
    ensures line[..5] == LevelColor(level)
    ensures line[|line| - |Reset|..] == Reset
    ensures 5 + 1 + |timestamp| + 3 + |LevelName(level)| + 2 + |message| + |Reset| == |line|
    ensures line[5] == '['
    ensures line[6..6 + |timestamp|] == timestamp
    ensures line[6 + |timestamp|..9 + |timestamp|] == "] ["
    ensures line[5 + 1 + |timestamp| + 3..5 + 1 + |timestamp| + 3 + |LevelName(level)|] == LevelName(level)
    ensures line[9 + |timestamp| + |LevelName(level)|..11 + |timestamp| + |LevelName(level)|] == "] "
    ensures line[|line| - |Reset| - |message|..|line| - |Reset|] == message
  {
    var color, name := LevelColor(level), LevelName(level);
    var head := color + "[" + timestamp + "] [" + name + "] ";
    var line := head + message + Reset;
    assert |head| == 11 + |timestamp| + |name|;
    assert line[..|head|] == head && line[|head|..|head| + |message|] == message;
    assert head[..5] == color && head[5] == '[' && head[6..6 + |timestamp|] == timestamp;
    assert head[6 + |timestamp|..9 + |timestamp|] == "] [";
    assert head[9 + |timestamp|..9 + |timestamp| + |name|] == name;
    assert head[9 + |timestamp| + |name|..] == "] ";
    line
  }

  /** A console line determines its level, timestamp and message (timestamps of
      one length, as ISO-8601 timestamps are): nothing else is mixed into it. */
  lemma ConsoleLineInjective(l1: Level, t1: string, m1: string, l2: Level, t2: string, m2: string)
    requires |t1| == |t2|
    requires ConsoleLine(l1, t1, m1) == ConsoleLine(l2, t2, m2)
    ensures l1 == l2 && t1 == t2 && m1 == m2
  {
    var line := ConsoleLine(l1, t1, m1);
    assert LevelColor(l1) == line[..5] == LevelColor(l2);
    LevelTablesInjective(l1, l2);
    var n := |LevelName(l1)|;
    assert line == LevelColor(l1) + "[" + t1 + "] [" + LevelName(l1) + "] " + m1 + Reset;
    assert line == LevelColor(l1) + "[" + t2 + "] [" + LevelName(l1) + "] " + m2 + Reset;
    assert t1 == line[6..6 + |t1|] == t2;
    assert m1 == line[6 + |t1| + 3 + n + 2..|line| - |Reset|] == m2;
  }

  /** One argument of a console call: the formatted line, or the data record
      handed over as a structured value. */
  datatype ConsoleArg = Line(text: string) | Structured(data: Data)

  /** An effect of the logger: a call of the console method named by the level,
      or one write of text to the append-mode log stream. */
  datatype Effect = Console(channel: Level, args: seq<ConsoleArg>) | FileWrite(text: string)

  function CountFileWrites(effects: seq<Effect>): nat
  {
    if |effects| == 0 then 0
    else (if effects[0].FileWrite? then 1 else 0) + CountFileWrites(effects[1..])
  }

  function CountConsoleCalls(effects: seq<Effect>): nat
  {
    if |effects| == 0 then 0
    else (if effects[0].Console? then 1 else 0) + CountConsoleCalls(effects[1..])
  }

  /** The texts written to the file, in order. */
  function FileTexts(effects: seq<Effect>): seq<string>
  {
    if |effects| == 0 then []
    else (if effects[0].FileWrite? then [effects[0].text] else []) + FileTexts(effects[1..])
  }

  lemma {:induction false} FileTextsDistribute(a: seq<Effect>, b: seq<Effect>)
    ensures FileTexts(a + b) == FileTexts(a) + FileTexts(b)
    decreases |a|
  {
    if |a| == 0 {
      assert a + b == b;
    } else {
      assert (a + b)[0] == a[0];
      assert (a + b)[1..] == a[1..] + b;
      FileTextsDistribute(a[1..], b);
    }
  }

  lemma {:induction false} CountsDistribute(a: seq<Effect>, b: seq<Effect>)
    ensures CountFileWrites(a + b) == CountFileWrites(a) + CountFileWrites(b)
    ensures CountConsoleCalls(a + b) == CountConsoleCalls(a) + CountConsoleCalls(b)
    decreases |a|
  {
    if |a| == 0 {
      assert a + b == b;
    } else {
      assert (a + b)[0] == a[0];
      assert (a + b)[1..] == a[1..] + b;
      CountsDistribute(a[1..], b);
    }
  }

  const BaseKeys: set<string> := {"timestamp", "level", "message"}

  function DataKeys(data: Option<Data>): set<string>
  {
    if data.Some? then data.value.Keys else {}
  }

  /** The file record `{timestamp, level, message, ...data}`: the three base
      fields first, then every field of `data` spread over them, so a data
      field of the same name wins. */
  function FileRecord(timestamp: string, level: string, message: string, data: Option<Data>): (record: Data)
    ensures record.Keys == BaseKeys + DataKeys(data)
    ensures data.None? ==> |record| == 3
    ensures data.Some? ==> forall k :: k in data.value ==> record[k] == data.value[k]
    ensures "timestamp" !in DataKeys(data) ==> record["timestamp"] == Str(timestamp)
    ensures "level" !in DataKeys(data) ==> record["level"] == Str(level)
    ensures "message" !in DataKeys(data) ==> record["message"] == Str(message)
  {
    var base := map["timestamp" := Str(timestamp), "level" := Str(level), "message" := Str(message)];
    assert base.Keys == BaseKeys;
    if data.Some? then base + data.value else base
  }

  /** The text handed to the stream: the serialised record and one newline. */
  function FileText(record: Data, stringify: Value -> string): (text: string)
    ensures 1 <= |text|
    ensures text[..|text| - 1] == stringify(Obj(record)) && text[|text| - 1] == '\n'
  {
    stringify(Obj(record)) + "\n"
  }

  /** When the serialised record holds no raw newline (compact `JSON.stringify`
      escapes them), the written text is exactly one line. */
  lemma FileTextIsOneLine(record: Data, stringify: Value -> string)
    requires '\n' !in stringify(Obj(record))
    ensures var text := FileText(record, stringify);
      forall i :: 0 <= i < |text| ==> (text[i] == '\n' <==> i == |text| - 1)
  {
    var text := FileText(record, stringify);
    forall i | 0 <= i < |text| - 1
      ensures text[i] != '\n'
    {
      assert text[i] == stringify(Obj(record))[i];
    }
  }

  /** The console arguments: the line, then `data` only when it is present. */
  function ConsoleArgs(line: string, data: Option<Data>): (args: seq<ConsoleArg>)
    ensures |args| == if data.Some? then 2 else 1
    ensures args[0] == Line(line)
    ensures data.Some? ==> args[1] == Structured(data.value)
  {
    [Line(line)] + (if data.Some? then [Structured(data.value)] else [])
  }

  /** `log(level, message, data)`: one console call, then one file write. The
      console timestamp and the file timestamp are taken separately. */
  function Log(level: Level, message: string, data: Option<Data>,
               consoleTime: string, fileTime: string, stringify: Value -> string): (effects: seq<Effect>)
    ensures |effects| == 2
    ensures CountConsoleCalls(effects) == 1 && CountFileWrites(effects) == 1
    ensures effects[0].Console? && effects[0].channel == level
    ensures |effects[0].args| == if data.Some? then 2 else 1
    ensures 1 <= |effects[0].args| && effects[0].args[0] == Line(ConsoleLine(level, consoleTime, message))
    ensures data.Some? ==> effects[0].args[1] == Structured(data.value)
    ensures effects[1] == FileWrite(FileText(FileRecord(fileTime, LevelName(level), message, data), stringify))
  {
    var effects := [ Console(level, ConsoleArgs(ConsoleLine(level, consoleTime, message), data)),
                     FileWrite(FileText(FileRecord(fileTime, LevelName(level), message, data), stringify)) ];
    assert effects[1..][1..] == [];
    assert CountConsoleCalls(effects[1..]) == 0 && CountFileWrites(effects[1..]) == 1;
    effects
  }

  /** The data record is never interpolated into the console line: the line is
      the same with or without it. */
  lemma DataNotInterpolated(level: Level, message: string, data: Data,
                            consoleTime: string, fileTime: string, stringify: Value -> string)
    ensures Log(level, message, Some(data), consoleTime, fileTime, stringify)[0].args[0]
         == Log(level, message, None, consoleTime, fileTime, stringify)[0].args[0]
  {
  }

  function LogInfo(message: string, data: Option<Data>,
                   consoleTime: string, fileTime: string, stringify: Value -> string): (effects: seq<Effect>)
    ensures |effects| == 2 && effects[0].Console? && effects[0].channel == Info
    ensures 1 <= |effects[0].args| && effects[0].args[0] == Line(ConsoleLine(Info, consoleTime, message))
    ensures effects[0].args[0].text[..5] == "\U{1B}[34m"
    ensures effects[1] == FileWrite(FileText(FileRecord(fileTime, "INFO", message, data), stringify))
  {
    Log(Info, message, data, consoleTime, fileTime, stringify)
  }

  function LogWarn(message: string, data: Option<Data>,
                   consoleTime: string, fileTime: string, stringify: Value -> string): (effects: seq<Effect>)
    ensures |effects| == 2 && effects[0].Console? && effects[0].channel == Warn
    ensures 1 <= |effects[0].args| && effects[0].args[0] == Line(ConsoleLine(Warn, consoleTime, message))
    ensures effects[0].args[0].text[..5] == "\U{1B}[33m"
    ensures effects[1] == FileWrite(FileText(FileRecord(fileTime, "WARN", message, data), stringify))
  {
    Log(Warn, message, data, consoleTime, fileTime, stringify)
  }

  function LogError(message: string, data: Option<Data>,
                    consoleTime: string, fileTime: string, stringify: Value -> string): (effects: seq<Effect>)
    ensures |effects| == 2 && effects[0].Console? && effects[0].channel == Error
    ensures 1 <= |effects[0].args| && effects[0].args[0] == Line(ConsoleLine(Error, consoleTime, message))
    ensures effects[0].args[0].text[..5] == "\U{1B}[31m"
    ensures effects[1] == FileWrite(FileText(FileRecord(fileTime, "ERROR", message, data), stringify))
  {
    Log(Error, message, data, consoleTime, fileTime, stringify)
  }

  /** One logger call as the dispatcher issues it. */
  datatype Entry = Entry(level: Level, message: string, data: Option<Data>)

  /** The two clock readings one logger call takes. */
  datatype Stamps = Stamps(console: string, file: string)

  /** The line the logger call `entry` made at `stamps` writes to the file. */
  function RecordLine(entry: Entry, stamps: Stamps, stringify: Value -> string): string
  {
    FileText(FileRecord(stamps.file, LevelName(entry.level), entry.message, entry.data), stringify)
  }

  /** A sequence of logger calls performed one after another: each contributes
      exactly one console call and one file write, so records never share a write. */
  function LogAll(entries: seq<Entry>, stamps: seq<Stamps>, stringify: Value -> string): (effects: seq<Effect>)
    requires |stamps| == |entries|
    ensures |effects| == 2 * |entries|
    ensures CountFileWrites(effects) == |entries|
    ensures CountConsoleCalls(effects) == |entries|
    decreases |entries|
  {
    if |entries| == 0 then []
    else
      var e := entries[0];
      var first := Log(e.level, e.message, e.data, stamps[0].console, stamps[0].file, stringify);
      var rest := LogAll(entries[1..], stamps[1..], stringify);
      CountsDistribute(first, rest);
      first + rest
  }

  /** The lines of a run of logger calls, one per call, in call order: the
      reference for what the log file receives. */
  function RecordLines(entries: seq<Entry>, stamps: seq<Stamps>, stringify: Value -> string): seq<string>
    requires |stamps| == |entries|
  {
    if |entries| == 0 then []
    else [RecordLine(entries[0], stamps[0], stringify)] + RecordLines(entries[1..], stamps[1..], stringify)
  }

  /** The file receives exactly the record lines of the calls, in order, each
      built with its own call's file timestamp. */
  lemma {:induction false} LogAllWritesInOrder(entries: seq<Entry>, stamps: seq<Stamps>, stringify: Value -> string)
    requires |stamps| == |entries|
    ensures FileTexts(LogAll(entries, stamps, stringify)) == RecordLines(entries, stamps, stringify)
    decreases |entries|
  {
    if |entries| > 0 {
      var e := entries[0];
      var first := Log(e.level, e.message, e.data, stamps[0].console, stamps[0].file, stringify);
      var rest := LogAll(entries[1..], stamps[1..], stringify);
      assert LogAll(entries, stamps, stringify) == first + rest;
      FileTextsDistribute(first, rest);
      assert FileTexts(first) == [RecordLine(e, stamps[0], stringify)] by {
        assert first[1..][1..] == [];
      }
      LogAllWritesInOrder(entries[1..], stamps[1..], stringify);
    }
  }
}
