# log4g context logger, modelled in Dafny

log4g is a structured-logging façade. A `ContextLogger` buffers leveled
messages in the request context, under the keys `_err`, `_info` and `_debug`.
At the end of a request, `Msg` works through those buffers. Every buffer whose
level passes the logger's configured minimum is folded into the backend
handle, one field `{key}_{i}` per entry. Then one message is emitted.
`GetSeverity` reports the effective severity label of the event.

The project models that protocol and the constants it uses:

- `levels.dfy` (module `Levels`) covers const.go: the `Level` type as a signed
  8-bit integer, the levels Trace (-1) and Debug (0) to Disabled (7), the
  buffer keys and the backend selectors.
- `scope.dfy` (module `Scope`) covers the request context. It is either `Nil`
  or a map from key to buffered list. A map update plays the part of
  `context.WithValue`: the value set last is the one a lookup sees.
  `Initialized`, `Appended` and `AppendedAll` state what `Initial` and
  `Append` do to the context.
- `severity.dfy` (module `Severity`) covers `parseLevel` (ASCII
  case-insensitive), the level labels, and `Strongest`. `Strongest` is a
  top-down reference definition of the effective level, proved to be the
  maximum qualifying level.
- `backend.dfy` (module `Backend`) covers the backend handle. A handle is the
  sequence of field batches folded into it. `Flatten` merges them: a later
  batch wins on a shared name. `Emit` is the record the backend writes for a
  message.
- `flush.dfy` (module `Flush`) covers the field names `{key}_{i}`, with a
  decimal rendering that is proved injective through a parse round trip. It
  also covers the buffer filter of `prepareLogData`, and `Prepared`,
  `PreparedAll` and `Flushed` as specifications of `prepareLogData` and
  `Msg`. The theorems say which fields a flush adds, which it leaves out, and
  what a second flush does.
- `logger.dfy` (module `Logger`) covers the `ContextLogger` class. Its fields
  are `level`, `ctx` and `reflog`, plus `emitted`, the calls of the handle's
  `Msg` made so far, each with the fields it carried. Each method is proved against the functions above. The module
  also holds `NewContextLogger` and one request walked end to end
  (`InfoRequest`).

When no buffer qualifies, `GetSeverity` falls back to the label of the
configured level (log4g.go:185, 202-212). It returns "DEFAULT" only when that
level is not Debug, Info, Warn or Error.

## Model

| member | source | states |
|---|---|---|
| `Levels.LevelsStrictlyOrdered` | const.go:39-61 | Trace < Debug < Info < Warn < Error < Fatal < Panic < NoLevel < Disabled, strictly |
| `Levels.LevelsFollowIota` | const.go:41-60 | Trace is -1; after it the levels are 0, 1, ..., 7 in declaration order |
| `Levels.BufferKeysDistinct` | const.go:27-32 | the five buffer keys are pairwise distinct |
| `Levels.SelectorsDistinct` | const.go:63-70 | the selectors are Zap = 0, Logrus = 1, GCPZap = 2, pairwise distinct |
| `Scope.WithValue` | log4g.go:112-116 | after a set, a lookup of the key gives the new value (none on a nil context), and every other key looks up as before |
| `Scope.InitializedEffect` | log4g.go:135-142 | Initial stores an empty list only where nothing was stored, keeps an existing list, does nothing on a nil context, and leaves other keys alone |
| `Scope.InitializedIdempotent` | log4g.go:135-142 | Initial twice is Initial once |
| `Scope.AppendedEffect` | log4g.go:144-151 | Append puts the entry at the end of the key's list (absent counts as empty), changes no other key, and does nothing on a nil context |
| `Scope.AppendOrder` | log4g.go:144-151 | appending a series of entries leaves them after the old list, in append order |
| `Severity.ParseLevel` | log4g.go:160-170 | the result is Error exactly for "error" in any letter case, Debug exactly for "debug", and Info for everything else |
| `Severity.ParseLevelExamples` | log4g.go:160-170 | the result is always Debug, Info or Error; "", "bogus", "warn" and "\u0130NFO" (capital I with dot) give Info |
| `Severity.LevelLabel` | log4g.go:202-212 | Debug, Info, Warn and Error get their names; every other level gets "DEFAULT" |
| `Severity.LevelLabelInjective` | log4g.go:202-212 | distinct reportable levels get distinct labels |
| `Severity.StrongestIsMaximum` | log4g.go:184-213 | the effective level is the highest level whose buffer is non-empty and passes the minimum, or the minimum when none does |
| `Severity.StrongestAtLeastMinimum` | log4g.go:184-213 | for a minimum among the four reportable levels, the effective level is never below it and never labelled "DEFAULT" |
| `Severity.SeverityExamples` | log4g.go:184-213 | minimum Error with only a Debug entry gives "ERROR"; minimum Debug with Debug and Error entries gives "ERROR" |
| `Backend.Handle.WithFields` | log4g.go:25-28 | the derived handle keeps every earlier batch and adds the new one last |
| `Backend.Flatten` | log4g.go:25-28 | the merged fields name exactly what some batch names, each with the value of the last batch naming it |
| `Backend.Emit` | log4g.go:157 | the emitted record carries the message and every field folded into the handle |
| `Backend.FlattenAppend` | log4g.go:107-108 | folding more batches overlays their merged fields on the earlier ones |
| `Backend.WithFieldsAccumulate` | log4g.go:107-110 | successive WithFields calls accumulate: both calls' fields are present, and the later call wins on a shared name |
| `Flush.Decimal` | log4g.go:177 | the index is printed as decimal digits with no leading zero |
| `Flush.DecimalRoundTrip` | log4g.go:177 | reading the printed index back gives the index |
| `Flush.FieldName` | log4g.go:177 | the name of entry `i` of buffer `key` is `key`, an underscore, then the decimal index |
| `Flush.Qualifies` | log4g.go:174 | the filter of a flush: `_err`, `_info` or `_debug` whose level reaches the minimum; no other key ever qualifies |
| `Flush.FieldNameInjective` | log4g.go:175-179 | two entries of one buffer never get the same field name |
| `Flush.FieldNamesOfKeysDisjoint` | log4g.go:154-155 | entries of `_err`, `_info` and `_debug` never get the same field name |
| `Flush.FieldNamePrefix` | log4g.go:177 | every field name of buffer `key` starts with `key_` |
| `Flush.QualifiesByLevel` | log4g.go:174 | only the three flushed keys qualify, each exactly when the minimum is at or below its level; Debug qualifying implies Info, and Info implies Error |
| `Flush.EntryBatches` | log4g.go:175-179 | one batch per buffered entry |
| `Flush.FlushedBatches` | log4g.go:153-158 | a flush keeps the handle's batches and appends the qualifying Error entries, then Info, then Debug |
| `Flush.EntryFields` | log4g.go:175-179 | a buffer's fields are exactly `{key}_0 ... {key}_{n-1}`, field `i` carrying entry `i` |
| `Flush.ContributedNames` | log4g.go:172-182 | a buffer adds fields only when it qualifies, and only its own `{key}_{i}` names |
| `Flush.FlushedFieldsSplit` | log4g.go:153-158 | the merged fields after a flush are the handle's fields overlaid with the Error, Info and Debug contributions |
| `Flush.FlushedFieldPresent` | log4g.go:153-182 | each entry of a qualifying buffer appears after the flush as `{key}_{i}` with the entry as value |
| `Flush.FlushedFieldAbsent` | log4g.go:172-182 | entries of a buffer below the minimum add no field |
| `Flush.FlushedKeepsOtherFields` | log4g.go:153-158 | a field not named like a deferred field keeps its presence and value through a flush |
| `Flush.ReflushRepeats` | log4g.go:153-158 | buffers are not cleared: a second flush appends the same batches again, and the merged fields stay the same |
| `Logger.ContextLogger.constructor` | log4g.go:76-80 | a new logger holds the given level, context and handle, and has emitted nothing |
| `Logger.ContextLogger.Error` | log4g.go:94-96 | buffers the entry under `_err`; handle and output unchanged |
| `Logger.ContextLogger.Debug` | log4g.go:98-100 | buffers the entry under `_debug`; handle and output unchanged |
| `Logger.ContextLogger.Info` | log4g.go:102-104 | buffers the entry under `_info`; handle and output unchanged |
| `Logger.ContextLogger.WithFields` | log4g.go:107-110 | the handle becomes the old handle with the fields folded in; returns the same logger |
| `Logger.ContextLogger.Set` | log4g.go:112-116 | the value is stored under the key, shadowing the old one; nothing happens on a nil context |
| `Logger.ContextLogger.Get` | log4g.go:118-125 | the read is the context lookup `Scope.Lookup`, so the proved laws of `WithValue`, `Initialized` and `Appended` hold of what the logger reads |
| `Logger.ContextLogger.GetLogData` | log4g.go:127-133 | the read is `Scope.LogData`: the stored list, or the empty list when nothing is stored |
| `Logger.ContextLogger.Initial` | log4g.go:135-142 | the context becomes `Initialized` of the old one; afterwards `Get` finds the old list (empty if none), and no other key reads differently |
| `Logger.ContextLogger.Append` | log4g.go:144-151 | the context becomes `Appended` of the old one; `GetLogData` then reads the old list followed by the entry, and no other key reads differently |
| `Logger.ContextLogger.PrepareLogData` | log4g.go:172-182 | the handle becomes `Prepared`: one field per entry, in index order, when the key qualifies; the new handle is also returned |
| `Logger.ContextLogger.Msg` | log4g.go:153-158 | the handle becomes `Flushed` (Error, Info, Debug in order), and exactly one record carrying the message is emitted on it |
| `Logger.ContextLogger.GetSeverity` | log4g.go:184-213 | the ascending overwrite gives the label of the top-down reference `Strongest`; nothing is changed |
| `Logger.NewContextLogger` | log4g.go:65-80 | an unknown selector gives no logger and an error; a failed backend gives its error; otherwise a fresh logger whose level is the parsed `LogLevel` |
| `Logger.InfoRequest` | log4g.go:153-182 | under minimum Info, a flush after Error and Debug entries carries both WithFields fields and `_err_0`, but not `_debug_0`; severity is "ERROR" |
| `Logger.InfoFlush` | log4g.go:153-182 | the flush behind `InfoRequest`, on values: after WithFields `a` and `b` and an Error and a Debug entry, flushing under Info keeps `a` and `b`, adds `_err_0` with the Error entry, and adds no `_debug_0` |

## Left out

- The logrus adapter (logrus.go) is not part of this model. Its formatter, its
  stricter `logrus.ParseLevel` and its writes to standard output are absent.
  The outcome of building it is the `backend` parameter of `NewContextLogger`.
- The emitted output is the log of `Msg` calls on the handle, kept in the
  logger's `emitted` field. The backend's own level gate is not modelled: logrus
  is built with `logrus.ParseLevel(LogLevel)` (logrus.go:32, 42) and writes each
  message at Info level (logrus.go:51, 61), so under "warn", "error", "fatal" or
  "panic" it drops the record that `emitted` lists. Its text rendering is not
  modelled either.
- `fmt.Sprintf` formatting: `Error`, `Info` and `Debug` take the already
  formatted entry as a string.
- `Severity.ParseLevel`: lower-cases only ASCII letters, where `strings.ToLower`
  maps all of Unicode. Among non-ASCII characters only U+0130 (to 'i') and
  U+212A (to 'k') lower-case to ASCII letters. "error" and "debug" contain
  neither letter, and a non-ASCII spelling of "info" gives Info either way, so
  the result agrees with the source on every string.
- Field values are narrowed from any value to strings, integers and booleans.
- `Logger.ContextLogger.Set`: stores only lists of entries. A value of another
  type under a buffer key cannot arise, so the type-assertion panic in
  `GetLogData` and `Append` is not modelled.
- The package-global `reflog` (log4g.go:13, 72) is not modelled. It is shared
  state that matters only under concurrent construction.
- `Get(c Map)` (log4g.go:59-62) and the registration of the logger in a `Map`
  context (log4g.go:81-84) rely on dynamic interface assertions and are not
  modelled.
- The configuration's JSON format, field map and timestamp format are carried
  but unused, because only the adapter reads them.
- The constants `FieldKey*`, the level name strings, `XRequestID`, `AppName`
  and `Severity` in const.go are not used by the context logger and are left out.
- Concurrency is left out: the logger is for one request at a time.
- In-place slice sharing is left out. `append` in `Append` (log4g.go:148) may
  write into a backing array the caller still holds. This is observable when a
  caller passes `Set` a `LogArr` with spare capacity and keeps appending to it,
  or gives it to a second logger. The model's `Set` stores a copy.
