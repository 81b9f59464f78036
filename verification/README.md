# Logger: a verified model of qFlipper's logging sink

`backend/logger.cpp` is the sink Qt's message handler feeds. Every message
`(type, category, text)` becomes the line `[category] text`, which goes to
up to three places:

- the log file, whenever the file is open;
- standard error, unless the log level filters it;
- the UI buffer, unless it is a debug message or has the category `default`.

A critical message that reaches the buffer is wrapped in a red `<font>`
template and raises the error counter. A new counter value is announced by
`errorCountChanged`. A 250 ms timer hands the whole buffer to the UI in one
`messageArrived` and then clears it. At startup the logger does four things,
stopping at the first that fails, each failure reported by a fallback line
on standard error in the `LOGGER` category:

1. it creates and enters the logs directory;
2. it prunes the directory to its 99 newest files;
3. it opens `APP_NAME-yyyyMMdd-hhmmss.log`;
4. it starts the timer.

A failure to open the file still lets the timer start.

The model has six modules:

- `Wrappers` holds `Option`.
- `Format` holds the message types, log levels, filter predicates and line format, plus a parser for lines.
- `FileNames` formats the log file name from a start time and parses it back.
- `Retention` defines what pruning removes (`Prune`).
- `Routing` gives the outputs of one message, one counter update, one tick and a run of many messages as functions on values, with the lemmas about them.
- `Logging` holds the `Logger` class. It has one field per piece of state, and streams and signals are recorded as sequences. `MessageOutput`, `SetErrorCount` and `Tick` are proved against the functions of `Routing`, and `RemoveOldFiles` against `Prune`. The setup steps are proved to leave the state that the `SetUp` predicate describes. The remaining methods state their effect directly.

Three points of the code's behaviour worth noting:

- The level filter (`backend/logger.cpp:64-69`) returns early. A message it drops never reaches standard error, the buffer or the counter, so the level does affect the buffer.
- The counter rises only for critical messages that reach the buffer. Those are the critical messages whose category is not `default`. The level never drops a critical message.
- `QtInfoMsg` is a message type of its own. It is treated like a warning.

## Model

| member | source | states |
|---|---|---|
| Format.LevelFilterByLevel | backend/logger.cpp:64-69 | Under Default nothing is dropped. Under ErrorsOnly exactly the non-critical messages are dropped, fatal ones included. Under Terse exactly the debug messages are dropped. |
| Format.ReachesBufferCases | backend/logger.cpp:64-78 | A message reaches the buffer iff it is not debug, its category is not "default", and it is critical or the level is not ErrorsOnly. |
| Format.BufferEntries | backend/logger.cpp:80-81 | A buffered message adds exactly two entries: its line (highlighted or not), then "<br>". |
| Format.BufferEntriesHighlight | backend/logger.cpp:57-80 | The first entry is the line wrapped in the red font template iff the message is critical, and the bare line iff it is not. |
| Format.FallbackLine | backend/logger.cpp:122-125 | The line streamed by fallbackMessageOutput is exactly the line of a message in the LOGGER category. |
| Format.ParseLineText | backend/logger.cpp:56 | The "[category] text" line of a message parses back to its category and text whenever the category holds no ']'. |
| FileNames.Padded | backend/logger.cpp:37 | A number below 10^width is written as exactly `width` decimal digits. |
| FileNames.DigitsValuePadded | backend/logger.cpp:37 | Reading the zero-padded digits back gives the number. |
| FileNames.PaddedDigitsValue | backend/logger.cpp:37 | Padding a digit string's value to the string's length gives the string back. |
| FileNames.Stamp | backend/logger.cpp:37 | The yyyyMMdd-hhmmss stamp is fifteen characters: eight digits, a dash, six digits. |
| FileNames.LogFileName | backend/logger.cpp:37 | The name "%1-%2.log" is exactly 20 characters longer than the application name. The two lemmas below state that it determines the start time and is all the parser accepts. |
| FileNames.ParseLogFileNameRoundTrip | backend/logger.cpp:37 | Parsing the name APP_NAME-yyyyMMdd-hhmmss.log gives back the start time, so no two start times within the field ranges share a name. |
| FileNames.ParsedLogFileName | backend/logger.cpp:37 | Every name the parser accepts is exactly the log file name of the time it reads, a time within the field ranges. |
| Retention.Without | backend/logger.cpp:135 | After a removal the listing holds exactly the other names. |
| Retention.WithoutFirst | backend/logger.cpp:133-135 | Removing the oldest file of a listing with distinct names leaves the rest, in order and still distinct. |
| Retention.FirstUndeletable | backend/logger.cpp:133-139 | Gives the index of the first file among the first `limit` whose removal fails, or `limit` if none fails. Every file before it can be removed. |
| Retention.Prune | backend/logger.cpp:127-142 | With at most 99 files, pruning succeeds and removes nothing. Otherwise it succeeds iff all n-99 oldest files can be removed, and then exactly the 99 newest remain. On failure it stops at an undeletable file, with exactly the removable files before it removed. |
| Routing.SetErrorCount | backend/logger.cpp:95-103 | Stores the count. It adds one notification, carrying the new value, iff the count changes, and nothing else changes. |
| Routing.SetErrorCountIdempotent | backend/logger.cpp:97-99 | Setting the same count again announces nothing. |
| Routing.Deliver | backend/logger.cpp:54-83 | The model of messageOutput. Whatever the level, the counter rises by one, with one notification of the new value, iff the message is critical and has a category. No message hands anything to the UI by itself. The three lemmas below state each exit's outputs, and together they cover every case. |
| Routing.DeliverLevelFiltered | backend/logger.cpp:59-69 | The exit at the level filter: only the file line is written. |
| Routing.DeliverNotBuffered | backend/logger.cpp:71-78 | The exit at the category and debug filter: file and standard-error lines only. |
| Routing.DeliverBuffered | backend/logger.cpp:71-82 | The full path: file, standard error, the highlighted or plain line and "<br>", then setErrorCount(errorCount + 1 if critical). |
| Routing.Flush | backend/logger.cpp:110-120 | A tick empties the buffer and loses nothing: batches followed by the buffer stay the same. An empty buffer announces nothing. A non-empty one is appended whole as exactly one new batch, and the earlier batches stay as they were. |
| Routing.FlushIdempotent | backend/logger.cpp:114-116 | A second tick right after a tick announces nothing. |
| Routing.DeliverAllFile | backend/logger.cpp:59-62 | Over any run of messages, an open file receives every line in order, whatever the level and type. A closed file receives nothing. |
| Routing.DeliverAllStderr | backend/logger.cpp:64-71 | Standard error receives, in order, the line of exactly those messages the level lets through. |
| Routing.DeliverAllBuffer | backend/logger.cpp:73-81 | The buffer grows by exactly the entries of the buffered messages, in order. |
| Routing.DeliverAllErrorCount | backend/logger.cpp:82 | The counter rises by the number of critical messages that have a category, whatever the level. |
| Routing.DeliverAllNotifications | backend/logger.cpp:82-103 | Each rise is announced exactly once, with values base+1, base+2, ... in order. |
| Routing.RunLosesNothing | backend/logger.cpp:80-120 | For any interleaving of messages and timer events, the batches handed over followed by the pending buffer are the buffer entries of all the messages, in order: nothing is lost or reordered, however the ticks fall. |
| Logging.Logger.constructor | backend/logger.cpp:12-46 | The member initializers give level Default, a zero count and empty outputs. The body leaves the state `SetUp` describes. A failure to create or enter the directory writes one fallback line. A failure to prune writes two: the file it could not remove, then "Failed to remove old files". Each of these leaves the file closed, the timer stopped and the name unset. Otherwise the name is APP_NAME-yyyyMMdd-hhmmss.log and the timer starts, and a failed open adds one fallback line with Qt's error string. The directory holds what `Prune` leaves, plus the log file as its newest entry once it opens, so at most 100 files. |
| Logging.Logger.SetUpSteps | backend/logger.cpp:22-45 | The chain of early returns of the constructor's body, proved to leave the state `SetUp` describes. |
| Logging.Logger.OpenLogFile | backend/logger.cpp:41-43 | Opening for writing succeeds or not. On success the log file becomes the newest entry of the directory, replacing a file of the same name. |
| Logging.Logger.MessageOutput | backend/logger.cpp:54-83 | The new outputs are exactly `Deliver` of the old ones, so every property of Deliver and of its exit lemmas holds for the method. |
| Logging.Logger.ErrorCount | backend/logger.cpp:90-93 | Returns the stored count. |
| Logging.Logger.SetErrorCount | backend/logger.cpp:95-103 | The new outputs are exactly `Routing.SetErrorCount` of the old ones. |
| Logging.Logger.SetLogLevel | backend/logger.cpp:105-108 | Stores the level and changes nothing else. |
| Logging.Logger.Tick | backend/logger.cpp:110-120 | Once the timer is started, the new outputs are exactly `Flush` of the old ones. |
| Logging.Logger.FallbackMessageOutput | backend/logger.cpp:122-125 | Appends exactly one "[LOGGER] msg" line to standard error. |
| Logging.Logger.RemoveFile | backend/logger.cpp:135 | Removal succeeds iff the file is present and removable, and then only that name leaves the directory. |
| Logging.Logger.RemoveOldFiles | backend/logger.cpp:127-142 | The loop returns `Prune(...).ok`. It leaves exactly the files after the `Prune(...).removed` oldest. On failure it writes exactly one "Failed to remove file: name" line naming the first file it could not remove. |

## Left out

- File I/O through QFile and QTextStream is modelled as lines appended to `fileLines` and `stderrLines`. Buffering, flushing, `Qt::endl` and write errors are not modelled.
- QStandardPaths and the absolute path of the log file are left out. The model keeps only the file name (`logFileName`), not `absoluteFilePath`.
- QDir's mkdir, exists and cd are reduced to their outcomes, which the constructor takes as parameters (`dirExists`, `dirEntered`).
- `entryInfoList` sorted by time is the `existing` listing, given oldest first with distinct names. QDir::remove is modelled as failing for a missing name or one in `undeletable`.
- QFile::open is reduced to its outcome (`openSucceeds`) and Qt's error string (`openError`). A successful open adds the log file to the directory listing.
- `QDateTime::currentDateTime()` becomes the `start` parameter. Only years up to 9999 are modelled, the range the four-digit `yyyy` field covers. Calendar validity (the length of each month, leap years) is not checked: any day from 1 to 31 is accepted with any month.
- APP_NAME is the `appName` parameter. The header `backend/logger.h`, which declares the class and its fields, is not part of this model, so APP_NAME's value is not part of it either.
- m_buffer's declared type is not part of this model. The buffer is modelled as a sequence of the entries appended to it.
- `logsPath` (backend/logger.cpp:85-88) only wraps a directory path in a QUrl. It is a library call with no logic of its own.
- The singleton `instance()` (backend/logger.cpp:48-52) and the `globalLogger` indirection are left out. The methods act on the one logger object.
- Qt signal dispatch is left out. `errorCountChanged` is recorded as the new counter value in `countChangedEvents`, and `messageArrived` as its payload in `batches`.
- The 250 ms timer is left out. `startTimer` sets `timerStarted`, and each timer event is an explicit `Tick` call.
- Thread safety is not modelled, since the source has no locking.
- The process abort Qt performs after a fatal message is outside this file.
- QMessageLogContext is reduced to its category name.
- Logging.Logger.MessageOutput: the counter is an unbounded integer, so the wrap-around of the 32-bit `int` after 2^31-1 errors is not modelled. The same applies to Routing.Deliver and Routing.SetErrorCount.
