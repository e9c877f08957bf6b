/**
 * The context logger of log4g.go: leveled calls buffer formatted entries in
 * the request context; `Msg` folds the qualifying ones into the backend handle
 * as fields and emits one message; `GetSeverity` reports the effective level.
 */
module Logger {
  import opened Wrappers
  import opened Levels
  import opened Scope
  import opened Severity
  import opened Backend
  import opened Flush

  /** The options the constructor reads; only `LogLevel` matters to the logger itself. */
  datatype Configuration = Configuration(
    jsonFormat: bool,
    logLevel: string,
    fieldMap: map<string, string>,
    timestampFormat: string)

  /** The error the constructor reports for a selector other than the supported one. */
  const InvalidInstance: string := "invalid logger-interface instance"

  class ContextLogger {
    /** The minimum level an entry needs to be flushed. */
    const level: Level
    /** The request context, which holds the deferred buffers. */
    var ctx: Ctx
    /** The current backend handle. */
    var reflog: Handle
    /** Every call of the handle's `Msg` made by this logger, oldest first, with the fields it carried. */
    var emitted: seq<Record>

    constructor (level: Level, ctx: Ctx, reflog: Handle)
      ensures this.level == level && this.ctx == ctx && this.reflog == reflog && emitted == []
    {
      this.level := level;
      this.ctx := ctx;
      this.reflog := reflog;
      emitted := [];
    }

    /** Buffers `entry`, the formatted message, under the Error key; nothing is emitted. */
    method Error(entry: string)
      modifies this`ctx
      ensures ctx == Appended(old(ctx), ErrKey, entry)
      ensures reflog == old(reflog) && emitted == old(emitted)
    {
      Append(ErrKey, entry);
    }

    /** Buffers `entry` under the Debug key; nothing is emitted. */
    method Debug(entry: string)
      modifies this`ctx
      ensures ctx == Appended(old(ctx), DebugKey, entry)
      ensures reflog == old(reflog) && emitted == old(emitted)
    {
      Append(DebugKey, entry);
    }

    /** Buffers `entry` under the Info key; nothing is emitted. */
    method Info(entry: string)
      modifies this`ctx
      ensures ctx == Appended(old(ctx), InfoKey, entry)
      ensures reflog == old(reflog) && emitted == old(emitted)
    {
      Append(InfoKey, entry);
    }

    /** Folds `fields` into the handle at once and returns this same logger, so calls chain. */
    method WithFields(fields: Fields) returns (self: ContextLogger)
      modifies this`reflog
      ensures self == this
      ensures reflog == old(reflog).WithFields(fields)
      ensures FieldsOf(reflog) == FieldsOf(old(reflog)) + fields
    {
      reflog := reflog.WithFields(fields);
      WithFieldsAccumulate(old(reflog), fields, map[]);
      self := this;
    }

    /** Stores `value` under `key`, shadowing any earlier value; does nothing without a context. */
    method Set(key: string, value: LogArr)
      modifies this`ctx
      ensures ctx == WithValue(old(ctx), key, value)
      ensures old(ctx).Ctx? ==> Lookup(ctx, key) == Some(value)
    {
      if ctx.Ctx? {
        ctx := Ctx(ctx.values[key := value]);
      }
    }

    /** The value stored under `key`, absent without a context. */
    function Get(key: string): (r: Option<LogArr>)
      reads this
      ensures r == Lookup(ctx, key)
    {
      if ctx.Ctx? && key in ctx.values then Some(ctx.values[key]) else None
    }

    /** The entries buffered under `key`, empty when none were stored. */
    function GetLogData(key: string): (r: LogArr)
      reads this
      ensures r == LogData(ctx, key)
    {
      match Get(key)
      case Some(arr) => arr
      case None => []
    }

    /** Stores an empty list under `key` if nothing is stored there yet. */
    method Initial(key: string)
      modifies this`ctx
      ensures ctx == Initialized(old(ctx), key)
      ensures old(ctx).Ctx? ==> Get(key) == Some(old(GetLogData(key)))
      ensures forall k :: k != key ==> Get(k) == old(Get(k))
    {
      InitializedEffect(ctx, key);
      if ctx.Ctx? {
        if Get(key).Some? {
          return;
        }
        ctx := Ctx(ctx.values[key := []]);
      }
    }

    /** Adds `entry` at the end of the list under `key`, creating the list if needed. */
    method Append(key: string, entry: string)
      modifies this`ctx
      ensures ctx == Appended(old(ctx), key, entry)
      ensures old(ctx).Ctx? ==> GetLogData(key) == old(GetLogData(key)) + [entry]
      ensures forall k :: k != key ==> Get(k) == old(Get(k))
    {
      AppendedEffect(ctx, key, entry);
      Initial(key);
      var value := Get(key);
      if value.Some? {
        var logArr := value.value + [entry];
        Set(key, logArr);
      }
    }

    /**
     * Folds the entries under `key` into the handle, one field per entry, when
     * the key's level reaches `current`; returns the resulting handle.
     */
    method PrepareLogData(key: string, current: Level) returns (h: Handle)
      modifies this`reflog
      ensures reflog == Prepared(old(reflog), key, LogData(ctx, key), current)
      ensures h == reflog
    {
      var logData := GetLogData(key);
      if Qualifies(key, current) {
        var i := 0;
        while i < |logData|
          invariant 0 <= i <= |logData|
          invariant reflog.batches == old(reflog).batches + EntryBatches(key, logData[..i])
        {
          assert EntryBatches(key, logData[..i + 1]) == EntryBatches(key, logData[..i]) + [map[FieldName(key, i) := Str(logData[i])]];
          reflog := reflog.WithFields(map[FieldName(key, i) := Str(logData[i])]);
          i := i + 1;
        }
        assert logData[..i] == logData;
      }
      h := reflog;
    }

    /**
     * The flush: folds the Error, Info and Debug buffers into the handle in that
     * order, then emits `msg` once on the resulting handle. Buffers are not cleared.
     */
    method Msg(msg: string)
      modifies this`reflog, this`emitted
      ensures reflog == Flushed(old(reflog), ctx, level)
      ensures reflog.batches == old(reflog).batches + Deferred(ctx, level)
      ensures emitted == old(emitted) + [Emit(reflog, msg)]
    {
      var keys := FlushOrder;
      var i := 0;
      while i < |keys|
        invariant 0 <= i <= |keys|
        invariant reflog == PreparedAll(old(reflog), ctx, level, keys[..i])
        invariant emitted == old(emitted)
      {
        assert keys[..i + 1][..i] == keys[..i];
        reflog := PrepareLogData(keys[i], level);
        i := i + 1;
      }
      assert keys[..i] == FlushOrder;
      FlushedBatches(old(reflog), ctx, level);
      emitted := emitted + [Emit(reflog, msg)];
    }

    /**
     * The effective severity label: buffers are checked from Debug up to Error,
     * each qualifying one overwriting the running level, which starts at the
     * logger's minimum; the state is only read.
     */
    method GetSeverity() returns (severity: string)
      ensures severity == LevelLabel(Strongest(ctx, level))
    {
      var currentLogLevel := level;
      if |GetLogData(DebugKey)| != 0 && DebugLevel >= level {
        currentLogLevel := DebugLevel;
      }
      if |GetLogData(InfoKey)| != 0 && InfoLevel >= level {
        currentLogLevel := InfoLevel;
      }
      if |GetLogData(WarningKey)| != 0 && WarnLevel >= level {
        currentLogLevel := WarnLevel;
      }
      if |GetLogData(ErrKey)| != 0 && ErrorLevel >= level {
        currentLogLevel := ErrorLevel;
      }
      if currentLogLevel == DebugLevel {
        severity := "DEBUG";
      } else if currentLogLevel == InfoLevel {
        severity := "INFO";
      } else if currentLogLevel == WarnLevel {
        severity := "WARNING";
      } else if currentLogLevel == ErrorLevel {
        severity := "ERROR";
      } else {
        severity := "DEFAULT";
      }
    }
  }

  /**
   * Builds a logger for the backend chosen by `instance`. `backend` is the
   * outcome of building the supported backend from `config`, which can fail on
   * its own stricter level parse. Any other selector is an error and no logger.
   */
  method NewContextLogger(ctx: Ctx, config: Configuration, instance: int, backend: Result<Handle, string>)
    returns (logger: ContextLogger?, err: Option<string>)
    ensures instance != InstanceLogrusLogger ==> logger == null && err == Some(InvalidInstance)
    ensures instance == InstanceLogrusLogger && backend.Failure? ==> logger == null && err == Some(backend.error)
    ensures instance == InstanceLogrusLogger && backend.Success? ==>
      && err == None && logger != null && fresh(logger)
      && logger.level == ParseLevel(config.logLevel)
      && logger.ctx == ctx && logger.reflog == backend.value && logger.emitted == []
  {
    if instance == InstanceLogrusLogger {
      match backend
      case Failure(e) =>
        return null, Some(e);
      case Success(handle) =>
        logger := new ContextLogger(ParseLevel(config.logLevel), ctx, handle);
        err := None;
    } else {
      return null, Some(InvalidInstance);
    }
  }

  /**
   * One request under minimum Info: two `WithFields` calls, an Error and a
   * Debug entry, then the flush. The emitted message carries both immediate
   * fields and the Error entry as `_err_0`, but not the Debug entry, and the
   * effective severity is "ERROR".
   */
  method InfoRequest(h: Handle, e: string, d: string) returns (record: Record, severity: string)
    requires FieldName(DebugKey, 0) !in FieldsOf(h)
    ensures record.msg == "done"
    ensures "a" in record.fields && record.fields["a"] == Int(1)
    ensures "b" in record.fields && record.fields["b"] == Int(2)
    ensures FieldName(ErrKey, 0) in record.fields && record.fields[FieldName(ErrKey, 0)] == Str(e)
    ensures FieldName(DebugKey, 0) !in record.fields
    ensures severity == "ERROR"
  {
    var logger := new ContextLogger(ParseLevel("info"), Ctx(map[]), h);
    var same := logger.WithFields(map["a" := Int(1)]);
    same := same.WithFields(map["b" := Int(2)]);
    logger.Error(e);
    logger.Debug(d);
    severity := logger.GetSeverity();
    ghost var before := logger.reflog;
    ghost var c := logger.ctx;
    assert before == h.WithFields(map["a" := Int(1)]).WithFields(map["b" := Int(2)]);
    assert c == Appended(Appended(Ctx(map[]), ErrKey, e), DebugKey, d);
    logger.Msg("done");
    record := logger.emitted[|logger.emitted| - 1];
    InfoFlush(h, e, d);
  }

  /** The flush of `InfoRequest`, stated on values. */
  lemma InfoFlush(h: Handle, e: string, d: string)
    requires FieldName(DebugKey, 0) !in FieldsOf(h)
    ensures var before := h.WithFields(map["a" := Int(1)]).WithFields(map["b" := Int(2)]);
      var c := Appended(Appended(Ctx(map[]), ErrKey, e), DebugKey, d);
      var fields := FieldsOf(Flushed(before, c, InfoLevel));
      && "a" in fields && fields["a"] == Int(1)
      && "b" in fields && fields["b"] == Int(2)
      && FieldName(ErrKey, 0) in fields && fields[FieldName(ErrKey, 0)] == Str(e)
      && FieldName(DebugKey, 0) !in fields
  {
    var before := h.WithFields(map["a" := Int(1)]).WithFields(map["b" := Int(2)]);
    var c := Appended(Appended(Ctx(map[]), ErrKey, e), DebugKey, d);
    var fields := FieldsOf(Flushed(before, c, InfoLevel));
    var debugName := FieldName(DebugKey, 0);
    assert debugName !in FieldsOf(before) by {
      WithFieldsAccumulate(h, map["a" := Int(1)], map["b" := Int(2)]);
      assert |DebugKey + "_"| <= |debugName|;
    }
    assert FieldName(ErrKey, 0) in fields && fields[FieldName(ErrKey, 0)] == Str(e) by {
      assert LogData(c, ErrKey) == [e];
      FlushedFieldPresent(before, c, InfoLevel, ErrKey, 0);
    }
    assert debugName !in fields by {
      FlushedFieldAbsent(before, c, InfoLevel, DebugKey, 0);
    }
    assert "a" in fields && fields["a"] == Int(1) && "b" in fields && fields["b"] == Int(2) by {
      WithFieldsAccumulate(h, map["a" := Int(1)], map["b" := Int(2)]);
      FlushedKeepsOtherFields(before, c, InfoLevel, "a");
      FlushedKeepsOtherFields(before, c, InfoLevel, "b");
    }
  }
}
