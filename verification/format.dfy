/** Message kinds, log levels, the filters of Logger::messageOutput and the
    text of one log line (backend/logger.cpp). */
module Format {
  import opened Wrappers

  /** The Qt message types, in the order QtMsgType declares them. */
  datatype MsgType = Debug | Info | Warning | Critical | Fatal

  /** Logger::LogLevel: how much is mirrored to standard error. */
  datatype LogLevel = Default | ErrorsOnly | Terse

  /** One call of the message handler: the type, the category name and the text. */
  datatype Message = Message(kind: MsgType, category: string, text: string)

  /** Category name Qt gives to messages logged without a category. */
  const DefaultCategory: string := "default"
  /** Category of the logger's own fallback diagnostics (Q_LOGGING_CATEGORY, line 10). */
  const LoggerCategory: string := "LOGGER"
  /** Entry appended to the UI buffer after every buffered message. */
  const LineBreak: string := "<br>"
  const CriticalOpen: string := "<font color=\"#ff1f00\">"
  const CriticalClose: string := "</font>"

  /** The line written for a message: "[category] text". */
  function Text(category: string, msg: string): string
  {
    "[" + category + "] " + msg
  }

  /** The critical template with the line substituted for %1. */
  function Highlight(text: string): string
  {
    CriticalOpen + text + CriticalClose
  }

  /** The line written by Logger::fallbackMessageOutput, as it streams the
      parts: the line of a message in the LOGGER category. */
  function FallbackLine(msg: string): (r: string)
    ensures r == Text(LoggerCategory, msg)
  {
    ['['] + LoggerCategory + "] " + msg
  }

  /** filterNonError: under ErrorsOnly everything but a critical message is dropped. */
  predicate FilterNonError(level: LogLevel, kind: MsgType)
  {
    level == ErrorsOnly && kind != Critical
  }

  /** filterDebug: under Terse a debug message is dropped. */
  predicate FilterDebug(level: LogLevel, kind: MsgType)
  {
    level == Terse && kind == Debug
  }

  /** The early return after the file write: no standard error, no buffer, no counter. */
  predicate LevelFiltered(level: LogLevel, kind: MsgType)
  {
    FilterNonError(level, kind) || FilterDebug(level, kind)
  }

  /** filterWithoutCategory: the message was logged without a category. */
  predicate FilterWithoutCategory(category: string)
  {
    category == DefaultCategory
  }

  /** filterPretty: debug messages never reach the UI. */
  predicate FilterPretty(kind: MsgType)
  {
    kind == Debug
  }

  /** A message that passes both early returns of messageOutput and is buffered. */
  predicate ReachesBuffer(level: LogLevel, m: Message)
  {
    !LevelFiltered(level, m.kind) && !FilterWithoutCategory(m.category) && !FilterPretty(m.kind)
  }

  /** What each log level drops, stated per level. */
  lemma LevelFilterByLevel(kind: MsgType)
    ensures !LevelFiltered(Default, kind)
    ensures LevelFiltered(ErrorsOnly, kind) <==> kind != Critical
    ensures LevelFiltered(Terse, kind) <==> kind == Debug
  {
  }

  /** The two buffer entries of a buffered message: its line, possibly
      highlighted, then the line break. */
  function BufferEntries(kind: MsgType, text: string): (r: seq<string>)
    ensures |r| == 2 && r[1] == LineBreak
    ensures r[0] in {text, Highlight(text)}
  {
    [if kind == Critical then Highlight(text) else text, LineBreak]
  }

  /** The first entry is highlighted exactly when the message is critical, and
      it shows the message's line either way. */
  lemma BufferEntriesHighlight(kind: MsgType, text: string)
    ensures BufferEntries(kind, text)[0] == Highlight(text) <==> kind == Critical
    ensures BufferEntries(kind, text)[0] == text <==> kind != Critical
  {
    assert |Highlight(text)| == |CriticalOpen| + |text| + |CriticalClose|;
  }

  /** A message reaches the buffer only if it is not a debug message, has a
      category and is critical or the level is not ErrorsOnly. */
  lemma ReachesBufferCases(level: LogLevel, m: Message)
    ensures ReachesBuffer(level, m) <==>
      m.kind != Debug && m.category != DefaultCategory && (level != ErrorsOnly || m.kind == Critical)
  {
  }

  /** The first index at or after `from` holding `c`, or |s| if there is none. */
  function IndexOf(s: string, c: char, from: nat): (r: nat)
    requires from <= |s|
    ensures from <= r <= |s|
    ensures r < |s| ==> s[r] == c
    ensures forall j :: from <= j < r ==> s[j] != c
    decreases |s| - from
  {
    if from == |s| then |s|
    else if s[from] == c then from
    else IndexOf(s, c, from + 1)
  }

  /** Splits a log line back into its category and text; the category ends at
      the first ']'. */
  function ParseLine(line: string): Option<(string, string)>
  {
    if |line| == 0 || line[0] != '[' then None
    else
      var close := IndexOf(line, ']', 1);
      if close + 1 < |line| && line[close + 1] == ' ' then Some((line[1..close], line[close + 2..]))
      else None
  }

  /** A log line determines its message whenever the category holds no ']'. */
  lemma ParseLineText(category: string, msg: string)
    requires forall i :: 0 <= i < |category| ==> category[i] != ']'
    ensures ParseLine(Text(category, msg)) == Some((category, msg))
  {
    var line := Text(category, msg);
    var n := |category|;
    assert line[0] == '[';
    assert line[1..n + 1] == category;
    assert line[n + 1] == ']' && line[n + 2] == ' ';
    assert line[n + 3..] == msg;
    assert forall j :: 1 <= j < n + 1 ==> line[j] == category[j - 1];
    var close := IndexOf(line, ']', 1);
    assert close == n + 1;
  }
}
