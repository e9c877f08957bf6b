/**
 * The severity policy of log4g.go: the permissive level-name parser used for
 * the logger's own filtering, and the effective severity label of an event.
 */
module Severity {
  import opened Levels
  import opened Scope

  /** ASCII lower-casing of one character. */
  function LowerChar(ch: char): char
  {
    if 'A' <= ch <= 'Z' then (ch as int - 'A' as int + 'a' as int) as char else ch
  }

  /** Lower-cases every character of `s`. */
  function ToLower(s: string): (r: string)
    ensures |r| == |s|
  {
    seq(|s|, i requires 0 <= i < |s| => LowerChar(s[i]))
  }

  /** `s` spells `t` up to letter case, position by position. */
  predicate EqualFold(s: string, t: string)
  {
    |s| == |t| && forall i :: 0 <= i < |s| ==> LowerChar(s[i]) == LowerChar(t[i])
  }

  /** Against a lower-case word, lower-casing then comparing is matching up to letter case. */
  lemma ToLowerMatches(s: string, t: string)
    requires forall i :: 0 <= i < |t| ==> LowerChar(t[i]) == t[i]
    ensures ToLower(s) == t <==> EqualFold(s, t)
  {
    if EqualFold(s, t) {
      assert forall i :: 0 <= i < |s| ==> ToLower(s)[i] == t[i];
    }
  }

  /**
   * Maps a level name to a level: "error", "info" and "debug" in any letter
   * case, and Info for every other string, the empty one included.
   */
  function ParseLevel(s: string): (r: Level)
    ensures r == ErrorLevel <==> EqualFold(s, "error")
    ensures r == DebugLevel <==> EqualFold(s, "debug")
    ensures r == InfoLevel <==> !EqualFold(s, "error") && !EqualFold(s, "debug")
  {
    ToLowerMatches(s, "error");
    ToLowerMatches(s, "info");
    ToLowerMatches(s, "debug");
    match ToLower(s)
    case "error" => ErrorLevel
    case "info" => InfoLevel
    case "debug" => DebugLevel
    case _ => InfoLevel
  }

  /** The parser always yields one of the three filtering levels, and falls back on Info. */
  lemma ParseLevelExamples()
    ensures forall s :: ParseLevel(s) in {DebugLevel, InfoLevel, ErrorLevel}
    ensures ParseLevel("") == InfoLevel && ParseLevel("bogus") == InfoLevel
    ensures ParseLevel("ERROR") == ErrorLevel && ParseLevel("Debug") == DebugLevel
    ensures ParseLevel("iNfO") == InfoLevel && ParseLevel("warn") == InfoLevel
    ensures ParseLevel("\U{0130}NFO") == InfoLevel
  {
    assert LowerChar("\U{0130}NFO"[0]) != LowerChar("error"[0]);
    assert LowerChar("\U{0130}NFO"[0]) != LowerChar("debug"[0]);
    assert EqualFold("ERROR", "error");
    assert EqualFold("Debug", "debug");
    assert LowerChar("bogus"[0]) != LowerChar("error"[0]);
    assert LowerChar("bogus"[0]) != LowerChar("debug"[0]);
  }

  /** The label reported for a level: one of four names, or "DEFAULT" for any other level. */
  function LevelLabel(l: Level): (r: string)
    ensures r == "DEFAULT" <==> l !in {DebugLevel, InfoLevel, WarnLevel, ErrorLevel}
    ensures r in {"DEBUG", "INFO", "WARNING", "ERROR", "DEFAULT"}
  {
    if l == DebugLevel then "DEBUG"
    else if l == InfoLevel then "INFO"
    else if l == WarnLevel then "WARNING"
    else if l == ErrorLevel then "ERROR"
    else "DEFAULT"
  }

  /** Distinct reportable levels get distinct labels. */
  lemma LevelLabelInjective(a: Level, b: Level)
    requires a in {DebugLevel, InfoLevel, WarnLevel, ErrorLevel}
    ensures LevelLabel(a) == LevelLabel(b) ==> a == b
  {
  }

  /** The buffer that feeds each reportable level. */
  function SeverityKey(l: Level): string
  {
    if l == DebugLevel then DebugKey
    else if l == InfoLevel then InfoKey
    else if l == WarnLevel then WarningKey
    else ErrKey
  }

  /** Level `l` qualifies when its buffer holds an entry and `l` passes the minimum `min`. */
  predicate Pending(c: Ctx, l: Level, min: Level)
  {
    |LogData(c, SeverityKey(l))| != 0 && l >= min
  }

  /** The levels whose buffers qualify. */
  function Candidates(c: Ctx, min: Level): set<Level>
  {
    set l | l in {DebugLevel, InfoLevel, WarnLevel, ErrorLevel} && Pending(c, l, min)
  }

  /** The effective level: the most severe qualifying one, looked for from Error down; else `min`. */
  function Strongest(c: Ctx, min: Level): Level
  {
    if Pending(c, ErrorLevel, min) then ErrorLevel
    else if Pending(c, WarnLevel, min) then WarnLevel
    else if Pending(c, InfoLevel, min) then InfoLevel
    else if Pending(c, DebugLevel, min) then DebugLevel
    else min
  }

  /** The effective level is the maximum of the qualifying levels, or the minimum when none qualifies. */
  lemma StrongestIsMaximum(c: Ctx, min: Level)
    ensures Candidates(c, min) == {} ==> Strongest(c, min) == min
    ensures Candidates(c, min) != {} ==>
      Strongest(c, min) in Candidates(c, min) && forall l :: l in Candidates(c, min) ==> l <= Strongest(c, min)
  {
    if Candidates(c, min) == {} {
      forall l | l in {DebugLevel, InfoLevel, WarnLevel, ErrorLevel}
        ensures !Pending(c, l, min)
      {
        assert l !in Candidates(c, min);
      }
    }
  }

  /** For a minimum among the four reportable levels, the effective level never falls below it. */
  lemma StrongestAtLeastMinimum(c: Ctx, min: Level)
    requires min in {DebugLevel, InfoLevel, WarnLevel, ErrorLevel}
    ensures min <= Strongest(c, min) && LevelLabel(Strongest(c, min)) != "DEFAULT"
  {
  }

  /**
   * A minimum of Error with only a Debug entry gives "ERROR", not "DEBUG";
   * a minimum of Debug with Debug and Error entries gives "ERROR".
   */
  lemma SeverityExamples(debugEntry: string, errEntry: string)
    ensures LevelLabel(Strongest(Ctx(map[DebugKey := [debugEntry]]), ErrorLevel)) == "ERROR"
    ensures LevelLabel(Strongest(Ctx(map[DebugKey := [debugEntry], ErrKey := [errEntry]]), DebugLevel)) == "ERROR"
    ensures LevelLabel(Strongest(Ctx(map[DebugKey := [debugEntry]]), DebugLevel)) == "DEBUG"
  {
  }
}
