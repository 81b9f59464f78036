/** The Logger object of backend/logger.cpp: its state, its setup sequence and
    the operations that change it, each proved against the functions of Routing,
    Retention and FileNames. Streams and signals are recorded as sequences. */
module Logging {
  import opened Format
  import opened FileNames
  import opened Retention
  import opened Routing

  class Logger {
    /** m_logLevel */
    var level: LogLevel
    /** m_errorCount */
    var errorCount: int
    /** m_buffer, one entry per append */
    var buffer: seq<string>
    /** Lines written to the log file through m_fileOut. */
    var fileLines: seq<string>
    /** Lines written to standard error through m_stderr. */
    var stderrLines: seq<string>
    /** The value of errorCount at each errorCountChanged signal. */
    var countChangedEvents: seq<int>
    /** The payload of each messageArrived signal. */
    var batches: seq<seq<string>>
    /** Whether m_logFile is open. */
    var fileOpen: bool
    /** The name m_logFile was given, "" until setup reaches that step. */
    var logFileName: string
    /** Whether startTimer(250) was called. */
    var timerStarted: bool
    /** The files of the logs directory, oldest first. */
    var dirFiles: seq<string>
    /** The names the file system refuses to remove. */
    const undeletable: set<string>

    /** The outputs, as the functions of Routing see them. */
    function Outputs(): Output
      reads this
    {
      Output(fileLines, stderrLines, buffer, errorCount, countChangedEvents, batches)
    }

    /** Logger::Logger. The outcome of each file system step is a parameter:
        whether the logs directory exists after mkdir, whether cd into it works,
        its files oldest first with the names that cannot be removed, and whether
        the log file opens (with Qt's error string if not). The member
        initializers come first; the body is SetUp. */
    constructor (appName: string, dirExists: bool, dirEntered: bool,
                 existing: seq<string>, undeletable: set<string>,
                 openSucceeds: bool, openError: string, start: DateTime)
      requires ValidDateTime(start)
      requires Distinct(existing)
      ensures level == Default && errorCount == 0
      ensures fileLines == [] && buffer == [] && countChangedEvents == [] && batches == []
      ensures this.undeletable == undeletable
      ensures SetUp(appName, dirExists, dirEntered, existing, openSucceeds, openError, start)
    {
      level := Default;
      errorCount := 0;
      buffer := [];
      fileLines := [];
      stderrLines := [];
      countChangedEvents := [];
      batches := [];
      fileOpen := false;
      logFileName := "";
      timerStarted := false;
      dirFiles := existing;
      this.undeletable := undeletable;
      new;
      SetUpSteps(appName, dirExists, dirEntered, openSucceeds, openError, start);
    }

    /** The state the setup steps of Logger::Logger leave, starting from the
        listing `existing` with nothing written yet: each failure before the
        file is opened writes its fallback line and leaves the file closed, the
        timer stopped and the name unset; a failed open still starts the timer.
        Opening the file adds it to the directory as its newest file, so the
        directory then holds at most MaxFileCount + 1 files. */
    ghost predicate SetUp(appName: string, dirExists: bool, dirEntered: bool, existing: seq<string>,
                          openSucceeds: bool, openError: string, start: DateTime)
      requires ValidDateTime(start)
      reads this
    {
      var pruned := Prune(existing, undeletable);
      && (!dirExists ==>
            stderrLines == [FallbackLine("Failed to create logs directory")] &&
            !fileOpen && !timerStarted && logFileName == "" && dirFiles == existing)
      && (dirExists && !dirEntered ==>
            stderrLines == [FallbackLine("Failed to access logs directory")] &&
            !fileOpen && !timerStarted && logFileName == "" && dirFiles == existing)
      && (dirExists && dirEntered && !pruned.ok ==>
            stderrLines == [FallbackLine("Failed to remove file: " + existing[pruned.removed]),
                            FallbackLine("Failed to remove old files")] &&
            !fileOpen && !timerStarted && logFileName == "" && dirFiles == existing[pruned.removed..])
      && (dirExists && dirEntered && pruned.ok ==>
            var name := LogFileName(appName, start);
            logFileName == name && fileOpen == openSucceeds && timerStarted &&
            stderrLines == (if openSucceeds then [] else [FallbackLine("Failed to open log file: " + openError)]) &&
            dirFiles == (if openSucceeds then Without(existing[pruned.removed..], name) + [name]
                         else existing[pruned.removed..]) &&
            |dirFiles| <= MaxFileCount + 1)
    }

    /** The body of Logger::Logger: create and enter the logs directory, prune
        it, name and open the log file and start the timer, stopping at the
        first step that fails. */
    method SetUpSteps(appName: string, dirExists: bool, dirEntered: bool,
                      openSucceeds: bool, openError: string, start: DateTime)
      requires ValidDateTime(start) && Distinct(dirFiles)
      requires stderrLines == [] && !fileOpen && !timerStarted && logFileName == ""
      modifies this`stderrLines, this`dirFiles, this`fileOpen, this`logFileName, this`timerStarted
      ensures SetUp(appName, dirExists, dirEntered, old(dirFiles), openSucceeds, openError, start)
    {
      ghost var existing := dirFiles;
      if !dirExists {
        FallbackMessageOutput("Failed to create logs directory");
        return;
      }
      if !dirEntered {
        FallbackMessageOutput("Failed to access logs directory");
        return;
      }
      var pruned := RemoveOldFiles();
      if !pruned {
        FallbackMessageOutput("Failed to remove old files");
        return;
      }
      logFileName := LogFileName(appName, start);
      OpenLogFile(openSucceeds);
      if !fileOpen {
        FallbackMessageOutput("Failed to open log file: " + openError);
      }
      timerStarted := true;
    }

    /** Logger::messageOutput: file first, then the level filter, standard error,
        the category and debug filter, the buffer and the counter. */
    method MessageOutput(kind: MsgType, category: string, msg: string)
      modifies this`fileLines, this`stderrLines, this`buffer, this`errorCount, this`countChangedEvents
      ensures Outputs() == Deliver(old(Outputs()), fileOpen, level, Message(kind, category, msg))
    {
      ghost var o := Outputs();
      ghost var m := Message(kind, category, msg);
      var text := Text(category, msg);
      if fileOpen {
        fileLines := fileLines + [text];
      }
      var filterNonError := FilterNonError(level, kind);
      var filterDebug := FilterDebug(level, kind);
      if filterNonError || filterDebug {
        DeliverLevelFiltered(o, fileOpen, level, m);
        return;
      }
      stderrLines := stderrLines + [text];
      var filterWithoutCategory := FilterWithoutCategory(category);
      var filterPretty := FilterPretty(kind);
      if filterWithoutCategory || filterPretty {
        DeliverNotBuffered(o, fileOpen, level, m);
        return;
      }
      buffer := buffer + [if kind == Critical then Highlight(text) else text];
      buffer := buffer + [LineBreak];
      DeliverBuffered(o, fileOpen, level, m);
      var count := ErrorCount();
      SetErrorCount(count + if kind == Critical then 1 else 0);
    }

    /** Logger::errorCount */
    method ErrorCount() returns (count: int)
      ensures count == errorCount
    {
      count := errorCount;
    }

    /** Logger::setErrorCount */
    method SetErrorCount(count: int)
      modifies this`errorCount, this`countChangedEvents
      ensures Outputs() == Routing.SetErrorCount(old(Outputs()), count)
    {
      if errorCount == count {
        return;
      }
      errorCount := count;
      countChangedEvents := countChangedEvents + [errorCount];
    }

    /** Logger::setLogLevel */
    method SetLogLevel(newLevel: LogLevel)
      modifies this`level
      ensures level == newLevel
    {
      level := newLevel;
    }

    /** Logger::timerEvent, which fires only once the timer has been started. */
    method Tick()
      requires timerStarted
      modifies this`buffer, this`batches
      ensures Outputs() == Flush(old(Outputs()))
    {
      if buffer == [] {
        return;
      }
      batches := batches + [buffer];
      buffer := [];
    }

    /** Logger::fallbackMessageOutput: straight to standard error, unfiltered. */
    method FallbackMessageOutput(msg: string)
      modifies this`stderrLines
      ensures stderrLines == old(stderrLines) + [FallbackLine(msg)]
    {
      stderrLines := stderrLines + [FallbackLine(msg)];
    }

    /** QFile::open for writing, which succeeds or not: it creates the log file,
        or truncates a file of that name, so the file becomes the newest entry. */
    method OpenLogFile(succeeds: bool)
      modifies this`fileOpen, this`dirFiles
      ensures fileOpen == succeeds
      ensures dirFiles == if succeeds then Without(old(dirFiles), logFileName) + [logFileName] else old(dirFiles)
    {
      fileOpen := succeeds;
      if fileOpen {
        dirFiles := Without(dirFiles, logFileName) + [logFileName];
      }
    }

    /** QDir::remove: fails when the file is missing or cannot be removed. */
    method RemoveFile(name: string) returns (ok: bool)
      modifies this`dirFiles
      ensures ok == (name in old(dirFiles) && name !in undeletable)
      ensures dirFiles == if ok then Without(old(dirFiles), name) else old(dirFiles)
    {
      ok := name in dirFiles && name !in undeletable;
      if ok {
        dirFiles := Without(dirFiles, name);
      }
    }

    /** Logger::removeOldFiles: remove the oldest files until MaxFileCount remain,
        giving up at the first file that cannot be removed. */
    method RemoveOldFiles() returns (ok: bool)
      requires Distinct(dirFiles)
      modifies this`dirFiles, this`stderrLines
      ensures ok == Prune(old(dirFiles), undeletable).ok
      ensures dirFiles == old(dirFiles)[Prune(old(dirFiles), undeletable).removed..]
      ensures stderrLines == old(stderrLines) +
        if ok then [] else [FallbackLine("Failed to remove file: " + old(dirFiles)[Prune(old(dirFiles), undeletable).removed])]
    {
      var files := dirFiles;
      var excessFileCount := |files| - MaxFileCount;
      var i := 0;
      while i < excessFileCount
        invariant 0 <= i && (i <= excessFileCount || i == 0)
        invariant dirFiles == files[i..] && Distinct(dirFiles)
        invariant forall j :: 0 <= j < i ==> files[j] !in undeletable
        invariant stderrLines == old(stderrLines)
      {
        var name := files[i];
        WithoutFirst(dirFiles);
        assert files[i..][1..] == files[i + 1..];
        var removed := RemoveFile(name);
        if !removed {
          FallbackMessageOutput("Failed to remove file: " + name);
          return false;
        }
        i := i + 1;
      }
      return true;
    }
  }

  /** A run with every setup step succeeding and one critical message in the
      "net" category, followed by a tick. */
  method CriticalMessageScenario()
  {
    assert Prune([], {}).ok;
    var logger := new Logger("qFlipper", true, true, [], {}, true, "", DateTime(2024, 5, 17, 9, 30, 0));
    assert logger.fileOpen && logger.timerStarted && logger.stderrLines == [];
    var m := Message(Critical, "net", "conn failed");
    var line := Text(m.category, m.text);
    assert ReachesBuffer(Default, m) by { assert m.category != DefaultCategory; }
    DeliverBuffered(logger.Outputs(), true, Default, m);
    logger.MessageOutput(m.kind, m.category, m.text);
    assert logger.fileLines == [line] && logger.stderrLines == [line];
    assert logger.errorCount == 1 && logger.countChangedEvents == [1];
    assert logger.buffer == [Highlight(line), LineBreak];
    logger.Tick();
    assert logger.batches == [[Highlight(line), LineBreak]] && logger.buffer == [];
  }
}
