/**
 * The timed presentation of the sequence: after a pre-roll, every symbol's
 * button is lit for DurationLightMs, cleared, and followed by a pause of
 * DelayBetweenMs, in sequence order.
 */
module Presentation {
  import opened Wrappers
  import opened Config

  /** The lit button becomes `lit` (None: no button lit) at `at`
      milliseconds after the presentation began. */
  datatype FlashEvent = FlashEvent(at: int, lit: Option<int>)

  /** Wait before the first button lights. */
  const PreRollMs: int := 1000
  /** Time taken by one symbol: lit, then the pause. */
  const SlotMs: int := DurationLightMs + DelayBetweenMs

  /** The flashes for `s` when its first button lights at `start`. */
  function Flashes(s: seq<int>, start: int): seq<FlashEvent>
  {
    if |s| == 0 then []
    else
      [FlashEvent(start, Some(s[0])), FlashEvent(start + DurationLightMs, None)]
      + Flashes(s[1..], start + SlotMs)
  }

  /** The symbols lit by a trace, in order. */
  function LitSymbols(t: seq<FlashEvent>): seq<int>
  {
    if |t| == 0 then []
    else (if t[0].lit.Some? then [t[0].lit.value] else []) + LitSymbols(t[1..])
  }

  /** Total length of a presentation of `n` symbols, from SIMON until PLAYER. */
  function PresentationMs(n: nat): (ms: int)
    ensures ms >= PreRollMs
  {
    PreRollMs + n * SlotMs
  }

  /** Symbol `i` is lit at `start + i * SlotMs` and cleared DurationLightMs later. */
  lemma {:induction false} FlashesShape(s: seq<int>, start: int)
    ensures |Flashes(s, start)| == 2 * |s|
    ensures forall i :: 0 <= i < |s| ==>
      Flashes(s, start)[2 * i] == FlashEvent(start + i * SlotMs, Some(s[i]))
    ensures forall i :: 0 <= i < |s| ==>
      Flashes(s, start)[2 * i + 1] == FlashEvent(start + i * SlotMs + DurationLightMs, None)
  {
    if |s| > 0 {
      var rest := Flashes(s[1..], start + SlotMs);
      FlashesShape(s[1..], start + SlotMs);
      var t := Flashes(s, start);
      assert t == [FlashEvent(start, Some(s[0])), FlashEvent(start + DurationLightMs, None)] + rest;
      forall i | 1 <= i < |s|
        ensures t[2 * i] == FlashEvent(start + i * SlotMs, Some(s[i]))
        ensures t[2 * i + 1] == FlashEvent(start + i * SlotMs + DurationLightMs, None)
      {
        assert t[2 * i] == rest[2 * (i - 1)];
        assert t[2 * i + 1] == rest[2 * (i - 1) + 1];
        assert s[i] == s[1..][i - 1];
      }
    }
  }

  lemma {:induction false} LitSymbolsAppend(a: seq<FlashEvent>, b: seq<FlashEvent>)
    ensures LitSymbols(a + b) == LitSymbols(a) + LitSymbols(b)
  {
    if |a| > 0 {
      assert (a + b)[1..] == a[1..] + b;
      LitSymbolsAppend(a[1..], b);
    } else {
      assert a + b == b;
    }
  }

  /** One more symbol adds its light and clear events one slot after the previous ones. */
  lemma {:induction false} FlashesSnoc(s: seq<int>, x: int, start: int)
    ensures Flashes(s + [x], start) ==
      Flashes(s, start)
      + [FlashEvent(start + |s| * SlotMs, Some(x)),
         FlashEvent(start + |s| * SlotMs + DurationLightMs, None)]
  {
    if |s| > 0 {
      assert (s + [x])[1..] == s[1..] + [x];
      FlashesSnoc(s[1..], x, start + SlotMs);
    } else {
      assert s + [x] == [x];
    }
  }

  /** The presentation lights exactly the sequence's symbols, in order. */
  lemma {:induction false} FlashesLightSequence(s: seq<int>, start: int)
    ensures LitSymbols(Flashes(s, start)) == s
  {
    if |s| > 0 {
      var pair := [FlashEvent(start, Some(s[0])), FlashEvent(start + DurationLightMs, None)];
      LitSymbolsAppend(pair, Flashes(s[1..], start + SlotMs));
      assert LitSymbols(pair) == [s[0]] by {
        assert pair[1..] == [FlashEvent(start + DurationLightMs, None)];
        assert pair[1..][1..] == [];
      }
      FlashesLightSequence(s[1..], start + SlotMs);
      assert s == [s[0]] + s[1..];
    }
  }

  /** The time of event `k` of a presentation, from the closed form. */
  lemma FlashTime(s: seq<int>, k: int)
    requires 0 <= k < 2 * |s|
    ensures |Flashes(s, PreRollMs)| == 2 * |s|
    ensures Flashes(s, PreRollMs)[k].at
      == PreRollMs + (k / 2) * SlotMs + (if k % 2 == 0 then 0 else DurationLightMs)
  {
    FlashesShape(s, PreRollMs);
    var i := k / 2;
    if k % 2 == 0 {
      assert k == 2 * i;
    } else {
      assert k == 2 * i + 1;
    }
  }

  /** Slots are laid end to end: slot `i` of `n` ends no later than the presentation. */
  lemma SlotWithin(i: int, n: nat)
    requires 0 <= i < n
    ensures PreRollMs + i * SlotMs + SlotMs <= PresentationMs(n)
  {
    assert (i + 1) * SlotMs <= n * SlotMs;
  }

  /** Event times strictly increase, and every event falls between the end
      of the pre-roll and the end of the presentation. */
  lemma FlashesTimed(s: seq<int>)
    ensures |Flashes(s, PreRollMs)| == 2 * |s|
    ensures forall k :: 0 < k < |Flashes(s, PreRollMs)| ==>
      Flashes(s, PreRollMs)[k - 1].at < Flashes(s, PreRollMs)[k].at
    ensures forall k :: 0 <= k < |Flashes(s, PreRollMs)| ==>
      PreRollMs <= Flashes(s, PreRollMs)[k].at < PresentationMs(|s|)
  {
    var t := Flashes(s, PreRollMs);
    FlashesShape(s, PreRollMs);
    forall k | 0 <= k < |t|
      ensures k > 0 ==> t[k - 1].at < t[k].at
      ensures PreRollMs <= t[k].at < PresentationMs(|s|)
    {
      FlashTime(s, k);
      SlotWithin(k / 2, |s|);
      if k > 0 {
        FlashTime(s, k - 1);
      }
    }
  }
}
