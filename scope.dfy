/**
 * The request-scoped store the context logger buffers into. Each
 * `context.WithValue` shadows earlier values under the same key, so a lookup
 * sees the value set last; a map update states exactly that. A nil context is
 * `Nil`, under which nothing is stored.
 */
module Scope {
  import opened Wrappers

  /** The list of formatted entries buffered under one key. */
  type LogArr = seq<string>

  datatype Ctx = Nil | Ctx(values: map<string, LogArr>)

  /** What a lookup of `key` in the context returns: absent for a nil context or an unset key. */
  function Lookup(c: Ctx, key: string): Option<LogArr>
  {
    match c
    case Nil => None
    case Ctx(m) => if key in m then Some(m[key]) else None
  }

  /** The entries buffered under `key`, empty when there are none. */
  function LogData(c: Ctx, key: string): LogArr
  {
    match Lookup(c, key)
    case None => []
    case Some(arr) => arr
  }

  /** The context after a set of `key` to `v`; setting on a nil context does nothing. */
  function WithValue(c: Ctx, key: string, v: LogArr): (r: Ctx)
    ensures Lookup(r, key) == (if c.Nil? then None else Some(v))
    ensures forall k :: k != key ==> Lookup(r, k) == Lookup(c, k)
  {
    match c
    case Nil => Nil
    case Ctx(m) => Ctx(m[key := v])
  }

  /** The context after `Initial(key)`: an empty list appears under `key` only where nothing was stored. */
  function Initialized(c: Ctx, key: string): Ctx
  {
    match c
    case Nil => Nil
    case Ctx(m) => if key in m then c else Ctx(m[key := []])
  }

  /** The context after one `Append(key, entry)`. */
  function Appended(c: Ctx, key: string, entry: string): Ctx
  {
    match c
    case Nil => Nil
    case Ctx(m) => Ctx(m[key := LogData(c, key) + [entry]])
  }

  /** The context after appending every entry of `entries` under `key`, first to last. */
  function AppendedAll(c: Ctx, key: string, entries: seq<string>): Ctx
    decreases |entries|
  {
    if entries == [] then c
    else Appended(AppendedAll(c, key, entries[..|entries| - 1]), key, entries[|entries| - 1])
  }

  /**
   * Initialisation creates an empty list when nothing was stored, leaves a
   * stored list alone, does nothing on a nil context, and never touches
   * another key.
   */
  lemma InitializedEffect(c: Ctx, key: string)
    ensures c.Nil? ==> Initialized(c, key) == Nil
    ensures c.Ctx? ==> Lookup(Initialized(c, key), key) == Some(LogData(c, key))
    ensures forall k :: k != key ==> Lookup(Initialized(c, key), k) == Lookup(c, k)
  {
  }

  /** Initialising twice is the same as initialising once. */
  lemma InitializedIdempotent(c: Ctx, key: string)
    ensures Initialized(Initialized(c, key), key) == Initialized(c, key)
  {
  }

  /**
   * One append puts `entry` at the end of the key's list (an absent list
   * counts as empty) and changes no other key; on a nil context nothing happens.
   */
  lemma AppendedEffect(c: Ctx, key: string, entry: string)
    ensures c.Nil? ==> Appended(c, key, entry) == Nil
    ensures c.Ctx? ==> Lookup(Appended(c, key, entry), key) == Some(LogData(c, key) + [entry])
    ensures forall k :: k != key ==> Lookup(Appended(c, key, entry), k) == Lookup(c, k)
  {
  }

  /** Appending a series of entries keeps them in append order, after what was there. */
  lemma {:induction false} AppendOrder(c: Ctx, key: string, entries: seq<string>)
    requires c.Ctx?
    ensures LogData(AppendedAll(c, key, entries), key) == LogData(c, key) + entries
    decreases |entries|
  {
    if entries != [] {
      var init := entries[..|entries| - 1];
      AppendOrder(c, key, init);
      assert init + [entries[|entries| - 1]] == entries;
    }
  }
}
