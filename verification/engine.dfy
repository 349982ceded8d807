/**
 * The game state machine of the view model. Every coroutine delay is
 * collapsed into a discrete step: the presentation ends in one step from
 * SIMON to PLAYER, and the settle pause after a completed round is one step
 * from IDLE into the next round. The random symbol and the current time are
 * parameters.
 */
module Engine {
  import opened Wrappers
  import opened Config
  import opened Records
  import opened Presentation

  /** Wait between a completed round and the next one. */
  const SettleMs: int := 1000

  /** The status message, as the text it stands for. */
  datatype Message =
    | Start                                                   // "Start!"
    | StartWithRecord(highScore: int, achievedAt: Option<int>) // "Start!\nRecord: n (date)", no date: "Nunca"
    | Memorize                                                // "Memorize..."
    | Watch                                                   // "Watch..."
    | YourTurn                                                // "Your Turn!"
    | Perfect                                                 // "Perfect!"
    | Lost(level: int)                                        // "Oh no! Lvl: n"
    | WithNewRecord(base: Message)                            // base + "\nNEW RECORD!"

  /** The view model's state: its observable phase, level, message and
      cached record, and the internal sequence and player cursor. */
  datatype Game = Game(
    state: GameState,
    sequence: seq<int>,
    playerStep: nat,
    level: int,
    message: Message,
    currentRecord: Record)

  /** The states the view model can be in. */
  predicate Valid(g: Game)
  {
    && AllSymbols(g.sequence)
    && g.level == |g.sequence|
    && g.playerStep <= |g.sequence|
    && (g.state == Idle ==> g.playerStep == |g.sequence|)
    && (g.state == Simon ==> |g.sequence| > 0 && g.playerStep == 0)
    && (g.state == Player ==> g.playerStep < |g.sequence|)
    && (g.state == GameOver ==> g.playerStep < |g.sequence|)
  }

  /** A freshly constructed view model, before its record is loaded. */
  function Init(): (g: Game)
    ensures Valid(g)
    ensures g.state == Idle && |g.sequence| == 0 && g.level == 0
    ensures g.currentRecord == Default
  {
    Game(Idle, [], 0, 0, Start, Default)
  }

  /** The start message naming the record; the date is shown only for a
      positive score. */
  function UpdateStartMessage(r: Record): (m: Message)
    ensures m.StartWithRecord? && m.highScore == r.highScore
    ensures m.achievedAt.Some? <==> r.highScore > 0
    ensures m.achievedAt.Some? ==> m.achievedAt.value == r.timestamp
  {
    StartWithRecord(r.highScore, if r.highScore > 0 then Some(r.timestamp) else None)
  }

  /** The record read at construction replaces the cached one; the message
      shows it only while the game is IDLE. */
  function LoadRecord(g: Game, r: Record): (g': Game)
    ensures g'.currentRecord == r
    ensures g'.(message := g.message, currentRecord := g.currentRecord) == g
    ensures g.state == Idle ==> g'.message.StartWithRecord? && g'.message.highScore == r.highScore
    ensures g.state != Idle ==> g'.message == g.message
    ensures Valid(g) ==> Valid(g')
  {
    g.(currentRecord := r,
       message := if g.state == Idle then UpdateStartMessage(r) else g.message)
  }

  /** Appends the drawn symbol, keeping the existing prefix. */
  function AddToSequence(s: seq<int>, sym: int): (s': seq<int>)
    requires IsSymbol(sym)
    ensures |s'| == |s| + 1 && s'[..|s|] == s && s'[|s|] == sym
    ensures AllSymbols(s) ==> AllSymbols(s')
  {
    s + [sym]
  }

  /** The part of the presentation before its first delay. */
  function BeginPresentation(g: Game): Game
  {
    g.(state := Simon, message := Watch)
  }

  /** A new game: ignored while the sequence is being presented; otherwise
      the sequence restarts with the one drawn symbol at level 1. */
  function StartGame(g: Game, sym: int): (g': Game)
    requires IsSymbol(sym)
    ensures g.state == Simon ==> g' == g
    ensures g.state != Simon ==>
      && g'.state == Simon
      && g'.sequence == [sym]
      && g'.playerStep == 0
      && g'.level == 1
      && g'.message == Watch
      && g'.currentRecord == g.currentRecord
    ensures g.state != Simon ==> Valid(g')
  {
    if g.state == Simon then g
    else
      var cleared := g.(sequence := [], playerStep := 0, level := 1, message := Memorize);
      BeginPresentation(cleared.(sequence := AddToSequence(cleared.sequence, sym)))
  }

  /** A game state together with the record saved by the step, if any. */
  datatype Outcome = Outcome(game: Game, saved: Option<Record>)

  /** Saves `Record(maxRonda, now)` exactly when it beats the cached record;
      only then is the cache replaced and the message suffixed. */
  function CheckForNewRecord(g: Game, maxRonda: int, now: int): (o: Outcome)
    ensures o.saved.Some? <==> maxRonda > g.currentRecord.highScore
    ensures o.saved.Some? ==>
      && o.saved.value == Record(maxRonda, now)
      && o.game.currentRecord == o.saved.value
      && o.game.message == WithNewRecord(g.message)
    ensures o.saved.None? ==> o.game == g
    ensures o.game.currentRecord.highScore == Max(g.currentRecord.highScore, maxRonda)
    ensures o.game.(message := g.message, currentRecord := g.currentRecord) == g
  {
    if maxRonda > g.currentRecord.highScore then
      var newRecord := Record(maxRonda, now);
      Outcome(g.(currentRecord := newRecord, message := WithNewRecord(g.message)), Some(newRecord))
    else
      Outcome(g, None)
  }

  /** A button press, with the button flashed as feedback and any record saved. */
  datatype InputResult = InputResult(game: Game, feedback: Option<int>, saved: Option<Record>)

  /** A press: ignored outside PLAYER; a correct press advances the cursor
      and completes the round at the end of the sequence; a wrong one ends
      the game with the level as score. */
  function HandlePlayerInput(g: Game, colorId: int, now: int): (r: InputResult)
    requires g.state == Player ==> g.playerStep < |g.sequence|
    ensures g.state != Player ==> r == InputResult(g, None, None)
    ensures g.state == Player ==> r.feedback == Some(colorId)
    ensures g.state == Player && colorId == g.sequence[g.playerStep] ==>
      && r.saved.None?
      && r.game.sequence == g.sequence
      && r.game.level == g.level
      && r.game.currentRecord == g.currentRecord
      && r.game.playerStep == g.playerStep + 1
      && (r.game.state == Idle <==> r.game.playerStep == |g.sequence|)
      && (r.game.state == Idle || r.game.state == Player)
      && (r.game.state == Idle ==> r.game.message == Perfect)
      && (r.game.state == Player ==> r.game.message == g.message)
    ensures g.state == Player && colorId != g.sequence[g.playerStep] ==>
      && r.game.state == GameOver
      && r.game.sequence == g.sequence
      && r.game.playerStep == g.playerStep
      && r.game.level == g.level
      && (r.saved.Some? <==> g.level > g.currentRecord.highScore)
      && (r.saved.Some? ==> r.saved.value == Record(g.level, now) && r.game.currentRecord == r.saved.value)
      && r.game.currentRecord.highScore == Max(g.currentRecord.highScore, g.level)
      && (r.saved.None? ==> r.game.currentRecord == g.currentRecord)
      && r.game.message == (if r.saved.Some? then WithNewRecord(Lost(g.level)) else Lost(g.level))
    ensures Valid(g) ==> Valid(r.game)
  {
    if g.state != Player then InputResult(g, None, None)
    else if colorId == g.sequence[g.playerStep] then
      var step := g.playerStep + 1;
      if step == |g.sequence| then
        InputResult(g.(playerStep := step, state := Idle, message := Perfect), Some(colorId), None)
      else
        InputResult(g.(playerStep := step), Some(colorId), None)
    else
      var maxRonda := g.level;
      var lost := g.(state := GameOver, message := Lost(maxRonda));
      var o := CheckForNewRecord(lost, maxRonda, now);
      InputResult(o.game, Some(colorId), o.saved)
  }

  /** The next round: cursor reset, level up, one symbol appended, and the
      presentation begun. */
  function NextRound(g: Game, sym: int): (g': Game)
    requires IsSymbol(sym)
    ensures g'.state == Simon && g'.playerStep == 0
    ensures g'.level == g.level + 1
    ensures |g'.sequence| == |g.sequence| + 1
    ensures g'.sequence[..|g.sequence|] == g.sequence && g'.sequence[|g.sequence|] == sym
    ensures g'.currentRecord == g.currentRecord
    ensures Valid(g) ==> Valid(g')
  {
    var g1 := g.(playerStep := 0, level := g.level + 1);
    BeginPresentation(g1.(sequence := AddToSequence(g1.sequence, sym)))
  }

  /** A completed round waiting out the settle pause. */
  predicate RoundPending(g: Game)
  {
    g.state == Idle && |g.sequence| > 0
  }

  /** The end of the SettleMs pause after a completed round starts the next round. */
  function Settle(g: Game, sym: int): (g': Game)
    requires IsSymbol(sym)
    ensures !RoundPending(g) ==> g' == g
    ensures RoundPending(g) ==>
      && g'.sequence == g.sequence + [sym]
      && g'.level == g.level + 1
      && g'.playerStep == 0
      && g'.state == Simon
  {
    if RoundPending(g) then NextRound(g, sym) else g
  }

  /** The rest of a presentation: its flashes and the hand-over to the player. */
  datatype Presented = Presented(game: Game, flashes: seq<FlashEvent>)

  /** Ends a presentation: the whole sequence is flashed and the phase
      becomes PLAYER with the cursor at the start. */
  function EndPresentation(g: Game): (p: Presented)
    ensures g.state != Simon ==> p == Presented(g, [])
    ensures g.state == Simon ==>
      && p.game == g.(state := Player, message := YourTurn)
      && LitSymbols(p.flashes) == g.sequence
      && |p.flashes| == 2 * |g.sequence|
    ensures Valid(g) ==> Valid(p.game)
  {
    if g.state == Simon then
      FlashesLightSequence(g.sequence, PreRollMs);
      FlashesShape(g.sequence, PreRollMs);
      Presented(g.(state := Player, message := YourTurn), Flashes(g.sequence, PreRollMs))
    else
      Presented(g, [])
  }

  /** The presentation loop of the view model: for each symbol in order,
      light it, clear it, wait; then hand over to the player. */
  method PlaySequence(g: Game) returns (g': Game, trace: seq<FlashEvent>)
    requires g.state == Simon
    ensures Presented(g', trace) == EndPresentation(g)
  {
    trace := [];
    var clock := PreRollMs;
    var i := 0;
    while i < |g.sequence|
      invariant 0 <= i <= |g.sequence|
      invariant clock == PreRollMs + i * SlotMs
      invariant trace == Flashes(g.sequence[..i], PreRollMs)
    {
      var colorId := g.sequence[i];
      FlashesSnoc(g.sequence[..i], colorId, PreRollMs);
      assert g.sequence[..i + 1] == g.sequence[..i] + [colorId];
      trace := trace + [FlashEvent(clock, Some(colorId)), FlashEvent(clock + DurationLightMs, None)];
      clock := clock + SlotMs;
      i := i + 1;
    }
    assert g.sequence[..i] == g.sequence;
    g' := g.(state := Player, message := YourTurn);
  }

  /** Everything that can happen to the view model. */
  datatype Event =
    | StartPressed(sym: int)         // startGame, with the symbol it draws
    | ColorPressed(colorId: int, now: int)  // handlePlayerInput at time `now`
    | PresentationEnded              // the presentation's delays have elapsed
    | SettleElapsed(sym: int)        // the settle pause has elapsed; nextRound draws `sym`

  /** Drawn symbols come from `nextInt(0, 4)`. */
  predicate EventOk(e: Event)
  {
    match e
    case StartPressed(sym) => IsSymbol(sym)
    case SettleElapsed(sym) => IsSymbol(sym)
    case _ => true
  }

  /** One event applied to the game, with the record it saved. */
  function Step(g: Game, e: Event): (o: Outcome)
    requires EventOk(e)
    requires g.state == Player ==> g.playerStep < |g.sequence|
    ensures Valid(g) ==> Valid(o.game)
    ensures !e.ColorPressed? ==> o.saved.None?
  {
    match e
    case StartPressed(sym) => Outcome(StartGame(g, sym), None)
    case ColorPressed(c, now) =>
      var r := HandlePlayerInput(g, c, now);
      Outcome(r.game, r.saved)
    case PresentationEnded => Outcome(EndPresentation(g).game, None)
    case SettleElapsed(sym) => Outcome(Settle(g, sym), None)
  }

  predicate AllOk(es: seq<Event>)
  {
    forall i :: 0 <= i < |es| ==> EventOk(es[i])
  }

  /** The game after a run of events; every state reached is valid. */
  function Run(g: Game, es: seq<Event>): (g': Game)
    requires Valid(g) && AllOk(es)
    ensures Valid(g')
    decreases |es|
  {
    if |es| == 0 then g
    else Run(Step(g, es[0]).game, es[1..])
  }
}
