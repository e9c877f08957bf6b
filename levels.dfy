/**
 * The constants of const.go: the ordered severity levels, the keys under which
 * the context logger buffers entries, and the backend selectors.
 */
module Levels {

  /** A severity level; `Level` is a signed 8-bit integer in the source. */
  type Level = x: int | -128 <= x < 128

  // The `iota` block: Debug is 0 and each later level is one more.
  const DebugLevel: Level := 0
  const InfoLevel: Level := 1
  const WarnLevel: Level := 2
  const ErrorLevel: Level := 3
  const FatalLevel: Level := 4
  const PanicLevel: Level := 5
  const NoLevel: Level := 6
  const Disabled: Level := 7
  // Declared after the block with an explicit value below every other level.
  const TraceLevel: Level := -1

  /** Every level, from the most verbose to the least. */
  const AllLevels: seq<Level> :=
    [TraceLevel, DebugLevel, InfoLevel, WarnLevel, ErrorLevel, FatalLevel, PanicLevel, NoLevel, Disabled]

  // Keys under which the context logger keeps its deferred buffers.
  const ErrKey: string := "_err"
  const InfoKey: string := "_info"
  const DebugKey: string := "_debug"
  const WarningKey: string := "_warning"
  const CustomDataKey: string := "_custom_data"

  /** The buffer keys, in declaration order. */
  const BufferKeys: seq<string> := [ErrKey, InfoKey, DebugKey, WarningKey, CustomDataKey]

  // Backend selectors passed to the constructor.
  const InstanceZapLogger: int := 0
  const InstanceLogrusLogger: int := 1
  const InstanceGCPZapLogger: int := 2

  /** The rank order is total and strict: Trace < Debug < Info < ... < Disabled. */
  lemma LevelsStrictlyOrdered()
    ensures forall i, j :: 0 <= i < j < |AllLevels| ==> AllLevels[i] < AllLevels[j]
  {
  }

  /** After Trace, the levels are 0, 1, ..., 7 in order, as `iota` numbers them. */
  lemma LevelsFollowIota()
    ensures |AllLevels| == 9 && AllLevels[0] == -1
    ensures forall k :: 1 <= k < 9 ==> AllLevels[k] == k - 1
  {
  }

  /** No two buffer keys are equal, so buffers never share storage. */
  lemma BufferKeysDistinct()
    ensures forall i, j :: 0 <= i < j < |BufferKeys| ==> BufferKeys[i] != BufferKeys[j]
  {
  }

  /** The three selectors are 0, 1 and 2, hence pairwise distinct. */
  lemma SelectorsDistinct()
    ensures InstanceZapLogger == 0 && InstanceLogrusLogger == 1 && InstanceGCPZapLogger == 2
    ensures InstanceZapLogger != InstanceLogrusLogger && InstanceLogrusLogger != InstanceGCPZapLogger
    ensures InstanceZapLogger != InstanceGCPZapLogger
  {
  }
}
