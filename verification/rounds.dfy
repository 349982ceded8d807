/**
 * Properties of whole rounds and games, over runs of events: a correct
 * replay completes the round, every completed round grows the sequence by
 * one symbol, and the scenarios the game is meant to play out.
 */
module Rounds {
  import opened Wrappers
  import opened Config
  import opened Records
  import opened Engine

  /** The player pressing `inputs` in order, all at time `now`. */
  function Presses(inputs: seq<int>, now: int): (es: seq<Event>)
    ensures |es| == |inputs| && AllOk(es)
    ensures forall i :: 0 <= i < |inputs| ==> es[i] == ColorPressed(inputs[i], now)
  {
    seq(|inputs|, i requires 0 <= i < |inputs| => ColorPressed(inputs[i], now))
  }

  /** One round played without a mistake: the presentation ends, the
      player repeats `s`, and the settle pause draws `sym`. */
  function PlayRound(s: seq<int>, sym: int, now: int): (es: seq<Event>)
    requires IsSymbol(sym)
    ensures AllOk(es)
  {
    [PresentationEnded] + Presses(s, now) + [SettleElapsed(sym)]
  }

  /** Running two event lists one after the other is running their concatenation. */
  lemma {:induction false} RunAppend(g: Game, a: seq<Event>, b: seq<Event>)
    requires Valid(g) && AllOk(a) && AllOk(b)
    ensures AllOk(a + b)
    ensures Run(g, a + b) == Run(Run(g, a), b)
    decreases |a|
  {
    if |a| > 0 {
      assert (a + b)[0] == a[0];
      assert (a + b)[1..] == a[1..] + b;
      RunAppend(Step(g, a[0]).game, a[1..], b);
    } else {
      assert a + b == b;
    }
  }

  /** Pressing the rest of the sequence correctly completes the round: the
      phase becomes IDLE with the cursor at the end, and nothing is saved. */
  lemma {:induction false} CorrectReplayCompletesRound(g: Game, now: int)
    requires Valid(g) && g.state == Player
    ensures Run(g, Presses(g.sequence[g.playerStep..], now))
      == g.(state := Idle, playerStep := |g.sequence|, message := Perfect)
    decreases |g.sequence| - g.playerStep
  {
    var es := Presses(g.sequence[g.playerStep..], now);
    assert es[0] == ColorPressed(g.sequence[g.playerStep], now);
    var g1 := Step(g, es[0]).game;
    if g.playerStep + 1 == |g.sequence| {
      assert es[1..] == [];
    } else {
      assert g1 == g.(playerStep := g.playerStep + 1);
      assert es[1..] == Presses(g1.sequence[g1.playerStep..], now);
      CorrectReplayCompletesRound(g1, now);
    }
  }

  /** A round played without a mistake appends exactly the drawn symbol,
      keeps the earlier symbols and raises the level by one. */
  lemma RoundAdvances(g: Game, sym: int, now: int)
    requires Valid(g) && g.state == Simon && IsSymbol(sym)
    ensures Run(g, PlayRound(g.sequence, sym, now)).sequence == g.sequence + [sym]
    ensures Run(g, PlayRound(g.sequence, sym, now)).level == g.level + 1
    ensures Run(g, PlayRound(g.sequence, sym, now)).state == Simon
    ensures Run(g, PlayRound(g.sequence, sym, now)).playerStep == 0
    ensures Run(g, PlayRound(g.sequence, sym, now)).currentRecord == g.currentRecord
  {
    var presses := Presses(g.sequence, now);
    var g1 := Run(g, [PresentationEnded]);
    assert g1 == g.(state := Player, message := YourTurn);
    assert g1.sequence[g1.playerStep..] == g.sequence;
    CorrectReplayCompletesRound(g1, now);
    var g2 := Run(g1, presses);
    RunAppend(g, [PresentationEnded], presses);
    RunAppend(g, [PresentationEnded] + presses, [SettleElapsed(sym)]);
    assert Run(g2, [SettleElapsed(sym)]) == NextRound(g2, sym);
    var g3 := NextRound(g2, sym);
    assert g3.sequence == g.sequence + [sym];
  }

  /** The game after one mistake-free round per symbol of `syms`. */
  function PlayRounds(g: Game, syms: seq<int>, now: int): (g': Game)
    requires Valid(g) && g.state == Simon && AllSymbols(syms)
    ensures Valid(g') && g'.state == Simon
    decreases |syms|
  {
    if |syms| == 0 then g
    else
      RoundAdvances(g, syms[0], now);
      PlayRounds(Run(g, PlayRound(g.sequence, syms[0], now)), syms[1..], now)
  }

  /** After the rounds, the sequence is the old one followed by the drawn
      symbols, and the level has risen by their number. */
  lemma {:induction false} RoundsGrowSequence(g: Game, syms: seq<int>, now: int)
    requires Valid(g) && g.state == Simon && AllSymbols(syms)
    ensures PlayRounds(g, syms, now).sequence == g.sequence + syms
    ensures PlayRounds(g, syms, now).level == g.level + |syms|
    decreases |syms|
  {
    if |syms| > 0 {
      RoundAdvances(g, syms[0], now);
      var g1 := Run(g, PlayRound(g.sequence, syms[0], now));
      RoundsGrowSequence(g1, syms[1..], now);
      assert g.sequence + syms == g.sequence + [syms[0]] + syms[1..];
    } else {
      assert g.sequence + syms == g.sequence;
    }
  }

  /** A game started from any state but SIMON, after N completed rounds,
      holds N + 1 symbols at level N + 1, whatever its previous sequence was. */
  lemma LengthAfterRounds(g: Game, s0: int, syms: seq<int>, now: int)
    requires g.state != Simon && IsSymbol(s0) && AllSymbols(syms)
    ensures PlayRounds(StartGame(g, s0), syms, now).sequence == [s0] + syms
    ensures PlayRounds(StartGame(g, s0), syms, now).level == |syms| + 1
  {
    RoundsGrowSequence(StartGame(g, s0), syms, now);
  }

  /** A start: a game with one symbol, presented and handed to the player. */
  lemma FirstRoundScenario(s0: int, s1: int, now: int)
    requires IsSymbol(s0) && IsSymbol(s1)
    ensures Run(Init(), [StartPressed(s0), PresentationEnded]).state == Player
    ensures Run(Init(), [StartPressed(s0), PresentationEnded, ColorPressed(s0, now)]).state == Idle
    ensures Run(Init(), [StartPressed(s0), PresentationEnded, ColorPressed(s0, now),
                         SettleElapsed(s1)]).sequence == [s0, s1]
    ensures Run(Init(), [StartPressed(s0), PresentationEnded, ColorPressed(s0, now),
                         SettleElapsed(s1)]).level == 2
  {
    var g0 := Init();
    var g1 := StartGame(g0, s0);
    var g2 := EndPresentation(g1).game;
    var g3 := HandlePlayerInput(g2, s0, now).game;
    var g4 := Settle(g3, s1);
    var e1, e2, e3, e4 := StartPressed(s0), PresentationEnded, ColorPressed(s0, now), SettleElapsed(s1);
    assert Run(g3, [e4]) == Run(g4, []) == g4;
    assert Run(g2, [e3]) == Run(g3, []) == g3;
    assert Run(g2, [e3, e4]) == Run(g3, [e3, e4][1..]) == g4;
    assert Run(g1, [e2]) == Run(g2, []) == g2;
    assert Run(g1, [e2, e3]) == Run(g2, [e2, e3][1..]) == g3;
    assert Run(g1, [e2, e3, e4]) == Run(g2, [e2, e3, e4][1..]) == g4;
    assert Run(g0, [e1, e2]) == Run(g1, [e1, e2][1..]) == g2;
    assert Run(g0, [e1, e2, e3]) == Run(g1, [e1, e2, e3][1..]) == g3;
    assert Run(g0, [e1, e2, e3, e4]) == Run(g1, [e1, e2, e3, e4][1..]) == g4;
  }

  /** A press while the sequence is still being presented is ignored, so a
      game just started cannot be lost before the presentation ends. */
  lemma PressDuringPresentationIgnored(g: Game, s0: int, c: int, now: int)
    requires g.state != Simon && IsSymbol(s0)
    ensures HandlePlayerInput(StartGame(g, s0), c, now) == InputResult(StartGame(g, s0), None, None)
  {
  }

  /** With a stored record of 1, losing at level 1 saves nothing: 1 does not beat 1. */
  lemma EqualScoreNotSaved(t0: int, s0: int, c: int, now: int)
    requires IsSymbol(s0) && c != s0
    ensures
      var g := EndPresentation(StartGame(LoadRecord(Init(), Record(1, t0)), s0)).game;
      var r := HandlePlayerInput(g, c, now);
      && r.game.state == GameOver
      && r.saved.None?
      && r.game.currentRecord == Record(1, t0)
      && r.game.message == Lost(1)
  {
  }

  /** With a stored record of 1, losing at level 2 saves `Record(2, now)`
      and shows the new-record notice. */
  lemma HigherScoreSaved(t0: int, s0: int, s1: int, c: int, now: int)
    requires IsSymbol(s0) && IsSymbol(s1) && c != s0
    ensures
      var g := EndPresentation(NextRound(HandlePlayerInput(EndPresentation(StartGame(
        LoadRecord(Init(), Record(1, t0)), s0)).game, s0, now).game, s1)).game;
      var r := HandlePlayerInput(g, c, now);
      && r.game.state == GameOver
      && r.saved == Some(Record(2, now))
      && r.game.currentRecord == Record(2, now)
      && r.game.message == WithNewRecord(Lost(2))
  {
  }

  /** A symbol outside 0..3 never matches, so pressing it in PLAYER ends the game. */
  lemma OutOfRangeInputEndsGame(g: Game, c: int, now: int)
    requires Valid(g) && g.state == Player && !IsSymbol(c)
    ensures HandlePlayerInput(g, c, now).game.state == GameOver
  {
  }
}
