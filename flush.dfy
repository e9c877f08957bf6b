/**
 * What a flush folds into the backend handle: for each deferred buffer whose
 * level passes the logger's minimum, one field `{key}_{i}` per buffered entry.
 */
module Flush {
  import opened Levels
  import opened Scope
  import opened Backend

  /** The character of a decimal digit. */
  function DigitChar(d: nat): char
    requires d < 10
  {
    ('0' as int + d) as char
  }

  /** The value of a decimal digit character. */
  function DigitValue(ch: char): nat
  {
    if '0' <= ch <= '9' then ch as int - '0' as int else 0
  }

  /** The decimal rendering of `n`, as `%v` prints an int: digits only, no leading zero. */
  function Decimal(n: nat): (s: string)
    ensures |s| >= 1
    ensures forall k :: 0 <= k < |s| ==> '0' <= s[k] <= '9'
    ensures |s| > 1 ==> s[0] != '0'
  {
    if n < 10 then [DigitChar(n)] else Decimal(n / 10) + [DigitChar(n % 10)]
  }

  /** Reads a string of decimal digits back as a number. */
  function ParseDecimal(s: string): nat
    decreases |s|
  {
    if s == [] then 0 else ParseDecimal(s[..|s| - 1]) * 10 + DigitValue(s[|s| - 1])
  }

  /** Rendering then reading gives the number back. */
  lemma {:induction false} DecimalRoundTrip(n: nat)
    ensures ParseDecimal(Decimal(n)) == n
    decreases n
  {
    if n >= 10 {
      DecimalRoundTrip(n / 10);
      var s := Decimal(n);
      assert s[..|s| - 1] == Decimal(n / 10);
    }
  }

  /** The name of the field that carries entry `i` of buffer `key`: `{key}_{i}`. */
  function FieldName(key: string, i: nat): (r: string)
    ensures key + "_" <= r
    ensures r[|key| + 1..] == Decimal(i)
  {
    key + "_" + Decimal(i)
  }

  /** Different positions of one buffer get different field names. */
  lemma FieldNameInjective(key: string, i: nat, j: nat)
    ensures FieldName(key, i) == FieldName(key, j) ==> i == j
  {
    if FieldName(key, i) == FieldName(key, j) {
      assert FieldName(key, i)[|key| + 1..] == Decimal(i);
      assert FieldName(key, j)[|key| + 1..] == Decimal(j);
      DecimalRoundTrip(i);
      DecimalRoundTrip(j);
    }
  }

  /** The deferred keys a flush walks, in the order it walks them. */
  const FlushOrder: seq<string> := [ErrKey, InfoKey, DebugKey]

  /** Field names of two different flushed buffers never collide. */
  lemma FieldNamesOfKeysDisjoint(k1: string, k2: string, i: nat, j: nat)
    requires k1 in FlushOrder && k2 in FlushOrder && k1 != k2
    ensures FieldName(k1, i) != FieldName(k2, j)
  {
    assert FieldName(k1, i)[1] == k1[1];
    assert FieldName(k2, j)[1] == k2[1];
  }

  /** Every field name of buffer `key` starts with `key` and an underscore. */
  lemma FieldNamePrefix(key: string, i: nat)
    ensures key + "_" <= FieldName(key, i)
  {
    assert FieldName(key, i)[..|key| + 1] == key + "_";
  }

  /** Whether the entries of buffer `key` are emitted under the minimum level `min`. */
  predicate Qualifies(key: string, min: Level)
    ensures Qualifies(key, min) ==> key in FlushOrder
  {
    (key == ErrKey && ErrorLevel >= min) || (key == InfoKey && InfoLevel >= min) || (key == DebugKey && DebugLevel >= min)
  }

  /** Only the three flushed buffers can qualify, each exactly when its own level reaches the minimum. */
  lemma QualifiesByLevel(key: string, min: Level)
    ensures Qualifies(key, min) ==> key in FlushOrder
    ensures Qualifies(ErrKey, min) <==> min <= ErrorLevel
    ensures Qualifies(InfoKey, min) <==> min <= InfoLevel
    ensures Qualifies(DebugKey, min) <==> min <= DebugLevel
    ensures (Qualifies(DebugKey, min) ==> Qualifies(InfoKey, min)) && (Qualifies(InfoKey, min) ==> Qualifies(ErrKey, min))
  {
  }

  /** One single-field batch per entry of `data`, in index order. */
  function EntryBatches(key: string, data: LogArr): (r: seq<Fields>)
    ensures |r| == |data|
  {
    seq(|data|, i requires 0 <= i < |data| => map[FieldName(key, i) := Str(data[i])])
  }

  /** The batches one buffer adds during a flush. */
  function Contribution(key: string, data: LogArr, min: Level): seq<Fields>
  {
    if Qualifies(key, min) then EntryBatches(key, data) else []
  }

  /** The handle after folding buffer `key` (holding `data`) into `h`. */
  function Prepared(h: Handle, key: string, data: LogArr, min: Level): Handle
  {
    Handle(h.batches + Contribution(key, data, min))
  }

  /** The handle after preparing the buffers of `keys` one after the other. */
  function PreparedAll(h: Handle, c: Ctx, min: Level, keys: seq<string>): Handle
    decreases |keys|
  {
    if keys == [] then h
    else
      var last := keys[|keys| - 1];
      Prepared(PreparedAll(h, c, min, keys[..|keys| - 1]), last, LogData(c, last), min)
  }

  /** The handle a flush emits on. */
  function Flushed(h: Handle, c: Ctx, min: Level): Handle
  {
    PreparedAll(h, c, min, FlushOrder)
  }

  /** The batches a flush adds: Error entries, then Info, then Debug, each only if it qualifies. */
  function Deferred(c: Ctx, min: Level): seq<Fields>
  {
    Contribution(ErrKey, LogData(c, ErrKey), min)
      + Contribution(InfoKey, LogData(c, InfoKey), min)
      + Contribution(DebugKey, LogData(c, DebugKey), min)
  }

  /** A flush keeps every batch already on the handle and appends the qualifying entries, buffer by buffer. */
  lemma FlushedBatches(h: Handle, c: Ctx, min: Level)
    ensures Flushed(h, c, min).batches == h.batches + Deferred(c, min)
  {
    assert FlushOrder[..2][..1] == [ErrKey];
    assert FlushOrder[..2] == [ErrKey, InfoKey];
    assert FlushOrder[..1][..0] == [];
    var h1 := Prepared(h, ErrKey, LogData(c, ErrKey), min);
    assert PreparedAll(h, c, min, FlushOrder[..1]) == h1;
    var h2 := Prepared(h1, InfoKey, LogData(c, InfoKey), min);
    assert PreparedAll(h, c, min, FlushOrder[..2]) == h2;
  }

  /** The fields of one buffer's batches: exactly the names `{key}_{i}`, each carrying entry `i`. */
  lemma EntryFields(key: string, data: LogArr)
    ensures forall n :: n in Flatten(EntryBatches(key, data)) ==> exists i: nat :: i < |data| && n == FieldName(key, i)
    ensures forall i: nat :: i < |data| ==>
      FieldName(key, i) in Flatten(EntryBatches(key, data)) && Flatten(EntryBatches(key, data))[FieldName(key, i)] == Str(data[i])
  {
    var bs := EntryBatches(key, data);
    forall i: nat | i < |data|
      ensures LastWriter(bs, FieldName(key, i), i)
    {
      forall k | i < k < |bs|
        ensures FieldName(key, i) !in bs[k]
      {
        FieldNameInjective(key, i, k);
      }
    }
  }

  /** The fields that buffer `key` contributes to a flush under minimum `min`. */
  function ContributedFields(key: string, c: Ctx, min: Level): Fields
  {
    Flatten(Contribution(key, LogData(c, key), min))
  }

  /** A buffer contributes only its own field names. */
  lemma ContributedNames(key: string, c: Ctx, min: Level, n: string)
    ensures n in ContributedFields(key, c, min) ==>
      Qualifies(key, min) && exists i: nat :: i < |LogData(c, key)| && n == FieldName(key, i)
  {
    EntryFields(key, LogData(c, key));
  }

  /** The merged fields after a flush are the handle's fields overlaid with each qualifying buffer's fields. */
  lemma FlushedFieldsSplit(h: Handle, c: Ctx, min: Level)
    ensures FieldsOf(Flushed(h, c, min))
      == FieldsOf(h) + ContributedFields(ErrKey, c, min) + ContributedFields(InfoKey, c, min) + ContributedFields(DebugKey, c, min)
  {
    FlushedBatches(h, c, min);
    var e := Contribution(ErrKey, LogData(c, ErrKey), min);
    var i := Contribution(InfoKey, LogData(c, InfoKey), min);
    var d := Contribution(DebugKey, LogData(c, DebugKey), min);
    assert h.batches + Deferred(c, min) == ((h.batches + e) + i) + d;
    FlattenAppend((h.batches + e) + i, d);
    FlattenAppend(h.batches + e, i);
    FlattenAppend(h.batches, e);
  }

  /**
   * Every entry of a qualifying buffer appears after the flush as the field
   * `{key}_{i}`, with the entry as its value, whatever fields the handle had.
   */
  lemma FlushedFieldPresent(h: Handle, c: Ctx, min: Level, key: string, i: nat)
    requires key in FlushOrder && Qualifies(key, min) && i < |LogData(c, key)|
    ensures FieldName(key, i) in FieldsOf(Flushed(h, c, min))
    ensures FieldsOf(Flushed(h, c, min))[FieldName(key, i)] == Str(LogData(c, key)[i])
  {
    FlushedFieldsSplit(h, c, min);
    var n := FieldName(key, i);
    EntryFields(key, LogData(c, key));
    assert n in ContributedFields(key, c, min);
    forall other | other in FlushOrder && other != key
      ensures n !in ContributedFields(other, c, min)
    {
      if n in ContributedFields(other, c, min) {
        ContributedNames(other, c, min, n);
        var j: nat :| j < |LogData(c, other)| && n == FieldName(other, j);
        FieldNamesOfKeysDisjoint(key, other, i, j);
      }
    }
  }

  /** A buffer that does not qualify adds no field: its names stay absent unless the handle already had them. */
  lemma FlushedFieldAbsent(h: Handle, c: Ctx, min: Level, key: string, i: nat)
    requires key in FlushOrder && !Qualifies(key, min) && FieldName(key, i) !in FieldsOf(h)
    ensures FieldName(key, i) !in FieldsOf(Flushed(h, c, min))
  {
    FlushedFieldsSplit(h, c, min);
    var n := FieldName(key, i);
    forall other | other in FlushOrder
      ensures n !in ContributedFields(other, c, min)
    {
      if n in ContributedFields(other, c, min) {
        ContributedNames(other, c, min, n);
        var j: nat :| j < |LogData(c, other)| && n == FieldName(other, j);
        FieldNamesOfKeysDisjoint(key, other, i, j);
      }
    }
  }

  /** A field whose name is not shaped like a deferred field keeps its value through a flush. */
  lemma FlushedKeepsOtherFields(h: Handle, c: Ctx, min: Level, n: string)
    requires forall key :: key in FlushOrder ==> !(key + "_" <= n)
    ensures n in FieldsOf(Flushed(h, c, min)) <==> n in FieldsOf(h)
    ensures n in FieldsOf(h) ==> FieldsOf(Flushed(h, c, min))[n] == FieldsOf(h)[n]
  {
    FlushedFieldsSplit(h, c, min);
    forall key | key in FlushOrder
      ensures n !in ContributedFields(key, c, min)
    {
      forall j: nat
        ensures n != FieldName(key, j)
      {
        FieldNamePrefix(key, j);
      }
      ContributedNames(key, c, min, n);
    }
  }

  /**
   * Buffers are not cleared by a flush, so flushing again appends the same
   * batches a second time; the merged fields are the same as after one flush.
   */
  lemma ReflushRepeats(h: Handle, c: Ctx, min: Level)
    ensures Flushed(Flushed(h, c, min), c, min).batches == h.batches + Deferred(c, min) + Deferred(c, min)
    ensures FieldsOf(Flushed(Flushed(h, c, min), c, min)) == FieldsOf(Flushed(h, c, min))
  {
    var once := Flushed(h, c, min);
    var d := Deferred(c, min);
    FlushedBatches(h, c, min);
    FlushedBatches(once, c, min);
    FlattenAppend(once.batches, d);
    FlattenAppend(h.batches, d);
    MapUnionAssoc(Flatten(h.batches), Flatten(d), Flatten(d));
    MapUnionIdempotent(Flatten(d));
  }
}
