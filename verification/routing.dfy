/** What one call of Logger::messageOutput, setErrorCount and timerEvent does to
    the logger's outputs (backend/logger.cpp), as functions on values, and what
    a run of many messages does. */
module Routing {
  import opened Format

  /** Everything the logger writes or announces: the lines of the log file and of
      standard error, the pending UI buffer, the error counter, the values
      observed at each errorCountChanged signal and the payload of each
      messageArrived signal. */
  datatype Output = Output(
    fileLines: seq<string>,
    stderrLines: seq<string>,
    buffer: seq<string>,
    errorCount: int,
    countChangedEvents: seq<int>,
    batches: seq<seq<string>>)

  /** setErrorCount: store the count and notify, unless it is already the count. */
  function SetErrorCount(o: Output, count: int): (r: Output)
    ensures r.errorCount == count
    ensures |r.countChangedEvents| == |o.countChangedEvents| + (if count == o.errorCount then 0 else 1)
    ensures r.countChangedEvents[..|o.countChangedEvents|] == o.countChangedEvents
    ensures count != o.errorCount ==> r.countChangedEvents[|o.countChangedEvents|] == count
    ensures r.fileLines == o.fileLines && r.stderrLines == o.stderrLines
    ensures r.buffer == o.buffer && r.batches == o.batches
  {
    if o.errorCount == count then o
    else o.(errorCount := count, countChangedEvents := o.countChangedEvents + [count])
  }

  /** Setting the same count twice notifies at most once. */
  lemma SetErrorCountIdempotent(o: Output, count: int)
    ensures SetErrorCount(SetErrorCount(o, count), count) == SetErrorCount(o, count)
  {
  }

  /** messageOutput for message `m` while the log file is open or not and the
      log level is `level`, field by field: the file write comes first, the
      level filter returns early, and the category and debug filter returns
      before the buffer and the counter. Whatever the level, the counter rises
      by one, with one notification of the new value, exactly for a critical
      message that has a category: the level never filters a critical message.
      No message hands anything to the UI by itself. */
  function Deliver(o: Output, fileOpen: bool, level: LogLevel, m: Message): (r: Output)
    ensures var bump := m.kind == Critical && m.category != DefaultCategory;
      r.errorCount == o.errorCount + (if bump then 1 else 0) &&
      r.countChangedEvents == o.countChangedEvents + (if bump then [o.errorCount + 1] else [])
    ensures r.batches == o.batches
  {
    var text := Text(m.category, m.text);
    var bump := ReachesBuffer(level, m) && m.kind == Critical;
    Output(
      fileLines := if fileOpen then o.fileLines + [text] else o.fileLines,
      stderrLines := if LevelFiltered(level, m.kind) then o.stderrLines else o.stderrLines + [text],
      buffer := if ReachesBuffer(level, m) then o.buffer + BufferEntries(m.kind, text) else o.buffer,
      errorCount := if bump then o.errorCount + 1 else o.errorCount,
      countChangedEvents := if bump then o.countChangedEvents + [o.errorCount + 1] else o.countChangedEvents,
      batches := o.batches)
  }

  /** The three exits of messageOutput, one lemma each: after the level filter,
      after the category and debug filter, and after setErrorCount. */
  lemma DeliverLevelFiltered(o: Output, fileOpen: bool, level: LogLevel, m: Message)
    requires LevelFiltered(level, m.kind)
    ensures Deliver(o, fileOpen, level, m) ==
      if fileOpen then o.(fileLines := o.fileLines + [Text(m.category, m.text)]) else o
  {
  }

  lemma DeliverNotBuffered(o: Output, fileOpen: bool, level: LogLevel, m: Message)
    requires !LevelFiltered(level, m.kind) && !ReachesBuffer(level, m)
    ensures Deliver(o, fileOpen, level, m) ==
      o.(fileLines := if fileOpen then o.fileLines + [Text(m.category, m.text)] else o.fileLines,
         stderrLines := o.stderrLines + [Text(m.category, m.text)])
  {
  }

  lemma DeliverBuffered(o: Output, fileOpen: bool, level: LogLevel, m: Message)
    requires ReachesBuffer(level, m)
    ensures var text := Text(m.category, m.text);
      Deliver(o, fileOpen, level, m) ==
      SetErrorCount(
        o.(fileLines := if fileOpen then o.fileLines + [text] else o.fileLines,
           stderrLines := o.stderrLines + [text],
           buffer := o.buffer + [if m.kind == Critical then Highlight(text) else text] + [LineBreak]),
        o.errorCount + if m.kind == Critical then 1 else 0)
  {
  }

  /** timerEvent: hand the whole buffer over in one messageArrived, then clear it. */
  function Flush(o: Output): (r: Output)
    ensures r.buffer == []
    ensures Concat(r.batches) + r.buffer == Concat(o.batches) + o.buffer
    ensures o.buffer == [] ==> r.batches == o.batches
    ensures o.buffer != [] ==> r.batches == o.batches + [o.buffer]
    ensures r.fileLines == o.fileLines && r.stderrLines == o.stderrLines
    ensures r.errorCount == o.errorCount && r.countChangedEvents == o.countChangedEvents
  {
    if o.buffer == [] then o
    else o.(batches := o.batches + [o.buffer], buffer := [])
  }

  /** A second tick right after a tick announces nothing. */
  lemma FlushIdempotent(o: Output)
    ensures Flush(Flush(o)) == Flush(o)
  {
  }

  /** Everything the UI has been handed, in order. */
  function Concat(batches: seq<seq<string>>): seq<string>
  {
    if batches == [] then [] else Concat(batches[..|batches| - 1]) + batches[|batches| - 1]
  }

  /** messageOutput called for each of `ms` in turn, the file state and level fixed. */
  function DeliverAll(o: Output, fileOpen: bool, level: LogLevel, ms: seq<Message>): Output
  {
    if ms == [] then o
    else Deliver(DeliverAll(o, fileOpen, level, ms[..|ms| - 1]), fileOpen, level, ms[|ms| - 1])
  }

  /** The lines of `ms`, in order. */
  function Texts(ms: seq<Message>): seq<string>
  {
    if ms == [] then [] else Texts(ms[..|ms| - 1]) + [Text(ms[|ms| - 1].category, ms[|ms| - 1].text)]
  }

  /** The messages of `ms` the level lets through to standard error. */
  function Unfiltered(level: LogLevel, ms: seq<Message>): seq<Message>
  {
    if ms == [] then []
    else Unfiltered(level, ms[..|ms| - 1]) + (if LevelFiltered(level, ms[|ms| - 1].kind) then [] else [ms[|ms| - 1]])
  }

  /** The buffer entries one message adds. */
  function Entries(level: LogLevel, m: Message): seq<string>
  {
    if ReachesBuffer(level, m) then BufferEntries(m.kind, Text(m.category, m.text)) else []
  }

  /** The buffer entries that the messages of `ms` reaching the buffer add. */
  function BufferedEntries(level: LogLevel, ms: seq<Message>): seq<string>
  {
    if ms == [] then []
    else BufferedEntries(level, ms[..|ms| - 1]) + Entries(level, ms[|ms| - 1])
  }

  /** The number of critical messages in `ms` that have a category. */
  function CategorizedCriticals(ms: seq<Message>): nat
  {
    if ms == [] then 0
    else
      var m := ms[|ms| - 1];
      CategorizedCriticals(ms[..|ms| - 1]) + (if m.kind == Critical && m.category != DefaultCategory then 1 else 0)
  }

  /** The values base+1, ..., base+k. */
  function Successors(base: int, k: nat): (s: seq<int>)
    ensures |s| == k
    ensures forall i :: 0 <= i < k ==> s[i] == base + i + 1
  {
    if k == 0 then [] else Successors(base, k - 1) + [base + k]
  }

  /** While the file is open it receives every message's line, in order; while
      closed it receives nothing. */
  lemma {:induction false} DeliverAllFile(o: Output, fileOpen: bool, level: LogLevel, ms: seq<Message>)
    ensures DeliverAll(o, fileOpen, level, ms).fileLines == o.fileLines + (if fileOpen then Texts(ms) else [])
  {
    if ms != [] {
      DeliverAllFile(o, fileOpen, level, ms[..|ms| - 1]);
    }
  }

  /** Standard error receives the line of every message the level lets through, in order. */
  lemma {:induction false} DeliverAllStderr(o: Output, fileOpen: bool, level: LogLevel, ms: seq<Message>)
    ensures DeliverAll(o, fileOpen, level, ms).stderrLines == o.stderrLines + Texts(Unfiltered(level, ms))
  {
    if ms != [] {
      var init := ms[..|ms| - 1];
      var m := ms[|ms| - 1];
      DeliverAllStderr(o, fileOpen, level, init);
      if !LevelFiltered(level, m.kind) {
        var u := Unfiltered(level, init) + [m];
        assert Unfiltered(level, ms) == u;
        assert u[..|u| - 1] == Unfiltered(level, init);
        assert Texts(u) == Texts(Unfiltered(level, init)) + [Text(m.category, m.text)];
      } else {
        assert Unfiltered(level, ms) == Unfiltered(level, init);
      }
    }
  }

  /** The buffer grows by exactly the entries of the buffered messages, so it never
      holds anything of a debug message or of one without a category. */
  lemma {:induction false} DeliverAllBuffer(o: Output, fileOpen: bool, level: LogLevel, ms: seq<Message>)
    ensures DeliverAll(o, fileOpen, level, ms).buffer == o.buffer + BufferedEntries(level, ms)
    ensures DeliverAll(o, fileOpen, level, ms).batches == o.batches
  {
    if ms != [] {
      DeliverAllBuffer(o, fileOpen, level, ms[..|ms| - 1]);
    }
  }

  /** Whatever the level, the counter rises by one for every critical message
      with a category, and for nothing else. */
  lemma {:induction false} DeliverAllErrorCount(o: Output, fileOpen: bool, level: LogLevel, ms: seq<Message>)
    ensures DeliverAll(o, fileOpen, level, ms).errorCount == o.errorCount + CategorizedCriticals(ms)
  {
    if ms != [] {
      DeliverAllErrorCount(o, fileOpen, level, ms[..|ms| - 1]);
    }
  }

  /** The notification step: after k announced rises, one more message
      announces the next value exactly when it counts. */
  lemma NotificationStep(o: Output, p: Output, fileOpen: bool, level: LogLevel, m: Message, k: nat)
    requires p.errorCount == o.errorCount + k
    requires p.countChangedEvents == o.countChangedEvents + Successors(o.errorCount, k)
    ensures Deliver(p, fileOpen, level, m).countChangedEvents ==
      o.countChangedEvents +
      Successors(o.errorCount, k + if m.kind == Critical && m.category != DefaultCategory then 1 else 0)
  {
    if m.kind == Critical && m.category != DefaultCategory {
      assert Successors(o.errorCount, k + 1) == Successors(o.errorCount, k) + [o.errorCount + k + 1];
    }
  }

  /** Each rise of the counter is announced exactly once, with the new value:
      the notifications carry base+1, base+2, ... in order. */
  lemma {:induction false} DeliverAllNotifications(o: Output, fileOpen: bool, level: LogLevel, ms: seq<Message>)
    ensures DeliverAll(o, fileOpen, level, ms).countChangedEvents ==
      o.countChangedEvents + Successors(o.errorCount, CategorizedCriticals(ms))
  {
    if ms != [] {
      var init, m := ms[..|ms| - 1], ms[|ms| - 1];
      var p := DeliverAll(o, fileOpen, level, init);
      DeliverAllNotifications(o, fileOpen, level, init);
      DeliverAllErrorCount(o, fileOpen, level, init);
      NotificationStep(o, p, fileOpen, level, m, CategorizedCriticals(init));
      assert DeliverAll(o, fileOpen, level, ms) == Deliver(p, fileOpen, level, m);
      assert CategorizedCriticals(ms) ==
        CategorizedCriticals(init) + if m.kind == Critical && m.category != DefaultCategory then 1 else 0;
    }
  }

  /** One thing that happens to the logger: a message arrives or the timer fires. */
  datatype Event = Msg(m: Message) | TimerTick

  /** messageOutput and timerEvent applied for each of `evs` in turn, the file
      state and level fixed. */
  function Run(o: Output, fileOpen: bool, level: LogLevel, evs: seq<Event>): Output
  {
    if evs == [] then o
    else
      var p := Run(o, fileOpen, level, evs[..|evs| - 1]);
      match evs[|evs| - 1]
      case Msg(m) => Deliver(p, fileOpen, level, m)
      case TimerTick => Flush(p)
  }

  /** The messages of `evs`, in order. */
  function Messages(evs: seq<Event>): seq<Message>
  {
    if evs == [] then []
    else
      Messages(evs[..|evs| - 1]) +
      match evs[|evs| - 1]
      case Msg(m) => [m]
      case TimerTick => []
  }

  lemma BufferedEntriesSnoc(level: LogLevel, ms: seq<Message>, m: Message)
    ensures BufferedEntries(level, ms + [m]) == BufferedEntries(level, ms) + Entries(level, m)
  {
    assert (ms + [m])[..|ms|] == ms;
  }

  /** One message adds its entries after everything pending. */
  lemma DeliverKeepsHistory(p: Output, fileOpen: bool, level: LogLevel, m: Message)
    ensures var r := Deliver(p, fileOpen, level, m);
      Concat(r.batches) + r.buffer == Concat(p.batches) + p.buffer + Entries(level, m)
  {
  }

  /** Messages and ticks lose nothing and reorder nothing: however the ticks fall
      among the messages, what the UI has been handed followed by the pending
      buffer is the buffer entries of all the messages, in order. */
  lemma {:induction false} RunLosesNothing(o: Output, fileOpen: bool, level: LogLevel, evs: seq<Event>)
    ensures var r := Run(o, fileOpen, level, evs);
      Concat(r.batches) + r.buffer == Concat(o.batches) + o.buffer + BufferedEntries(level, Messages(evs))
  {
    if evs != [] {
      var init := evs[..|evs| - 1];
      var p := Run(o, fileOpen, level, init);
      RunLosesNothing(o, fileOpen, level, init);
      match evs[|evs| - 1]
      case Msg(m) =>
        assert Messages(evs) == Messages(init) + [m];
        BufferedEntriesSnoc(level, Messages(init), m);
        DeliverKeepsHistory(p, fileOpen, level, m);
      case TimerTick =>
        assert Messages(evs) == Messages(init);
    }
  }
}
