/**
 * The fixed configuration of the game: the phases of a game, the four
 * coloured buttons and the timing constants used while lighting them.
 */
module Config {

  /** The phases of a game: waiting to start, presenting the sequence,
      the player's turn, and game over. */
  datatype GameState = Idle | Simon | Player | GameOver

  /** Position of a phase in the declaration order of the enum; the
      positions of the four phases are distinct and are exactly 0..3. */
  function Ordinal(s: GameState): (n: nat)
    ensures n < 4
    ensures FromOrdinal(n) == s
  {
    match s
    case Idle => 0
    case Simon => 1
    case Player => 2
    case GameOver => 3
  }

  /** The phase declared at position `n`. */
  function FromOrdinal(n: nat): (s: GameState)
    requires n < 4
  {
    if n == 0 then Idle else if n == 1 then Simon else if n == 2 then Player else GameOver
  }

  /** The ordinals are a bijection between the four phases and 0..3. */
  lemma OrdinalBijection()
    ensures forall n: nat :: n < 4 ==> Ordinal(FromOrdinal(n)) == n
    ensures forall a: GameState, b: GameState :: Ordinal(a) == Ordinal(b) ==> a == b
  {
  }

  /** Number of buttons; symbols are the ids 0 .. NumSymbols - 1. */
  const NumSymbols: int := 4

  predicate IsSymbol(x: int)
  {
    0 <= x < NumSymbols
  }

  predicate AllSymbols(s: seq<int>)
  {
    forall i :: 0 <= i < |s| ==> IsSymbol(s[i])
  }

  /** How long a button stays lit, in milliseconds. */
  const DurationLightMs: int := 500
  /** Pause after a button goes dark before the next one lights, in milliseconds. */
  const DelayBetweenMs: int := 250

  /** A coloured button; tone frequency, hex colours and emoji are presentation only. */
  datatype KawaiiColor = KawaiiColor(id: int, name: string)

  /** The four buttons, in declaration order. */
  function Colors(): (cs: seq<KawaiiColor>)
    ensures |cs| == NumSymbols
    ensures forall i :: 0 <= i < |cs| ==> cs[i].id == i
  {
    [ KawaiiColor(0, "Mint"),
      KawaiiColor(1, "Sakura"),
      KawaiiColor(2, "Sky"),
      KawaiiColor(3, "Lemon") ]
  }

  /** The button ids are pairwise distinct and are exactly the symbols. */
  lemma ColorIdsAreSymbols()
    ensures forall i, j :: 0 <= i < j < |Colors()| ==> Colors()[i].id != Colors()[j].id
    ensures forall i :: 0 <= i < |Colors()| ==> IsSymbol(Colors()[i].id)
    ensures forall x :: IsSymbol(x) ==> Colors()[x].id == x
  {
  }
}
