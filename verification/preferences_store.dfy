/**
 * The key-value implementation of the record repository: a preferences
 * file holding an int under "high_score" and a long under "timestamp".
 */
module PreferencesStore {
  import opened Records

  /** The preferences file, as key to stored number. */
  type Prefs = map<string, int>

  const HighScoreKey: string := "high_score"
  const TimestampKey: string := "timestamp"

  /** A stored number, or `default` when the key is absent. */
  function Lookup(p: Prefs, key: string, default: int): int
  {
    if key in p then p[key] else default
  }

  /** Reads both keys, each with default 0, so an empty file gives the default record. */
  function GetRecord(p: Prefs): (r: Record)
    ensures HighScoreKey !in p && TimestampKey !in p ==> r == Default
    ensures HighScoreKey in p ==> r.highScore == p[HighScoreKey]
    ensures TimestampKey in p ==> r.timestamp == p[TimestampKey]
  {
    Record(Lookup(p, HighScoreKey, 0), Lookup(p, TimestampKey, 0))
  }

  /** Writes both keys unconditionally, with no comparison against the stored score. */
  function SaveRecord(p: Prefs, r: Record): (p': Prefs)
    ensures GetRecord(p') == r
    ensures p'.Keys == p.Keys + {HighScoreKey, TimestampKey}
    ensures forall k :: k in p && k != HighScoreKey && k != TimestampKey ==> p'[k] == p[k]
  {
    p[HighScoreKey := r.highScore][TimestampKey := r.timestamp]
  }

  /** Saving overwrites whatever was stored, including a higher score. */
  lemma SaveOverwritesHigherScore(p: Prefs, r: Record)
    requires GetRecord(p).highScore > r.highScore
    ensures GetRecord(SaveRecord(p, r)).highScore < GetRecord(p).highScore
  {
  }

  /** Saving twice keeps only the second record. */
  lemma LastSaveWins(p: Prefs, r1: Record, r2: Record)
    ensures SaveRecord(SaveRecord(p, r1), r2) == SaveRecord(p, r2)
  {
  }
}
