/**
 * The view model wired to its record repository: the record is loaded at
 * construction, and every record the engine decides to save is written to
 * the repository.
 */
module Session {
  import opened Wrappers
  import opened Records
  import opened Engine
  import opened Repository
  import opened Config

  datatype Session = Session(game: Game, repo: Repo)

  /** The cached record agrees with the repository, for a repository that keeps what it is given. */
  predicate Coherent(s: Session)
  {
    Persistent(s.repo) ==> GetRecord(s.repo) == s.game.currentRecord
  }

  /** Constructing the view model loads the repository's record. */
  function Open(repo: Repo): (s: Session)
    ensures Valid(s.game) && Coherent(s)
    ensures s.game.state == Idle && s.game.level == 0
    ensures s.game.message == UpdateStartMessage(GetRecord(repo))
  {
    Session(LoadRecord(Init(), GetRecord(repo)), repo)
  }

  /** One event, with any record the engine saves written to the repository.
      A coherent session stays coherent, the stored score never drops, and
      a SQLite table never grows beyond one row. */
  function SessionStep(s: Session, e: Event): (s': Session)
    requires Valid(s.game) && EventOk(e)
    ensures Valid(s'.game)
    ensures Coherent(s) ==> Coherent(s')
    ensures Coherent(s) ==> GetRecord(s'.repo).highScore >= GetRecord(s.repo).highScore
    ensures s.repo.Sqlite? ==> s'.repo.Sqlite? && (|s.repo.table| <= 1 ==> |s'.repo.table| <= 1)
    ensures Persistent(s'.repo) == Persistent(s.repo)
  {
    var o := Step(s.game, e);
    Session(o.game, if o.saved.Some? then SaveRecord(s.repo, o.saved.value) else s.repo)
  }

  /** A run of events; the step properties hold across the whole run. */
  function SessionRun(s: Session, es: seq<Event>): (s': Session)
    requires Valid(s.game) && AllOk(es)
    ensures Valid(s'.game)
    ensures Coherent(s) ==> Coherent(s')
    ensures Coherent(s) ==> GetRecord(s'.repo).highScore >= GetRecord(s.repo).highScore
    ensures s.repo.Sqlite? ==> s'.repo.Sqlite? && (|s.repo.table| <= 1 ==> |s'.repo.table| <= 1)
    ensures Persistent(s'.repo) == Persistent(s.repo)
    decreases |es|
  {
    if |es| == 0 then s
    else SessionRun(SessionStep(s, es[0]), es[1..])
  }

  /** Losing a game leaves the stored score at the larger of the old record
      and the level reached; the repository is written only when the level
      beats the record. */
  lemma LostGameStoresMax(s: Session, c: int, now: int)
    requires Valid(s.game) && Coherent(s) && Persistent(s.repo)
    requires s.game.state == Player && c != s.game.sequence[s.game.playerStep]
    ensures GetRecord(SessionStep(s, ColorPressed(c, now)).repo).highScore
      == Max(GetRecord(s.repo).highScore, s.game.level)
    ensures SessionStep(s, ColorPressed(c, now)).repo == s.repo
      <== s.game.level <= GetRecord(s.repo).highScore
    ensures s.game.level > GetRecord(s.repo).highScore ==>
      GetRecord(SessionStep(s, ColorPressed(c, now)).repo) == Record(s.game.level, now)
  {
  }

  /** Without a repository the record is never kept across view models. */
  lemma NoOpForgets(s: Session, es: seq<Event>)
    requires Valid(s.game) && AllOk(es) && s.repo.NoOp?
    ensures Open(SessionRun(s, es).repo).game.currentRecord == Default
  {
  }

  /** A new view model over the same repository starts from the record the
      last one reached. */
  lemma ReopenSeesRecord(s: Session, es: seq<Event>)
    requires Valid(s.game) && AllOk(es) && Coherent(s) && Persistent(s.repo)
    ensures Open(SessionRun(s, es).repo).game.currentRecord == SessionRun(s, es).game.currentRecord
  {
  }
}
