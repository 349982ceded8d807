/**
 * The record repository interface (`getRecord` / `saveRecord`) with its
 * three implementations: the view model's built-in no-op default, the
 * preferences file and the SQLite table.
 */
module Repository {
  import opened Records
  import PreferencesStore
  import SqliteStore

  datatype Repo =
    | NoOp
    | SharedPrefs(prefs: PreferencesStore.Prefs)
    | Sqlite(table: SqliteStore.Table)

  /** A repository that gives back what was saved in it. */
  predicate Persistent(repo: Repo)
  {
    !repo.NoOp?
  }

  function GetRecord(repo: Repo): (r: Record)
    ensures repo.NoOp? ==> r == Default
  {
    match repo
    case NoOp => Default
    case SharedPrefs(p) => PreferencesStore.GetRecord(p)
    case Sqlite(t) => SqliteStore.GetRecord(t)
  }

  /** Saves a record; the SQLite insert is taken to succeed. */
  function SaveRecord(repo: Repo, r: Record): (repo': Repo)
    ensures Persistent(repo') == Persistent(repo)
    ensures Persistent(repo) ==> GetRecord(repo') == r
    ensures !Persistent(repo) ==> GetRecord(repo') == Default
    ensures repo.Sqlite? ==> repo'.Sqlite? && |repo'.table| == 1
  {
    match repo
    case NoOp => NoOp
    case SharedPrefs(p) => SharedPrefs(PreferencesStore.SaveRecord(p, r))
    case Sqlite(t) => Sqlite(SqliteStore.SaveRecord(t, r, true))
  }

  /** Every implementation reads the default record from an empty store. */
  lemma EmptyStoreGivesDefault()
    ensures GetRecord(NoOp) == Default
    ensures GetRecord(SharedPrefs(map[])) == Default
    ensures GetRecord(Sqlite(SqliteStore.OnCreate())) == Default
  {
  }
}
