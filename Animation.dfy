/**
 * The reel animation with its timers abstracted away: every timer callback
 * becomes one loop iteration, and each awaited delay is recorded in the
 * returned schedule instead of being waited for. A reel's on-screen
 * position is its vertical `offset` in pixels.
 */
module Animation {
  import opened Constants
  import opened Helpers
  import opened Probability

  /** `Array.prototype.indexOf`: the first position of `x`, or -1. */
  function IndexOf<T(==)>(s: seq<T>, x: T): (i: int)
    ensures -1 <= i < |s|
    ensures i == -1 <==> x !in s
    ensures 0 <= i ==> s[i] == x && x !in s[..i]
    decreases |s|
  {
    if s == [] then -1
    else if s[0] == x then 0
    else
      var k := IndexOf(s[1..], x);
      if k == -1 then -1
      else
        assert s[..k + 1] == [s[0]] + s[1..][..k];
        k + 1
  }

  /** The offset `updateReelPosition` gives a reel for `symbol`: the symbol's
      position in the alphabet times the symbol height, upward; a symbol not
      in the alphabet leaves the offset as it was. */
  function Reposition(alphabet: seq<Symbol>, offset: int, symbol: Symbol): (o: int)
    ensures symbol !in alphabet ==> o == offset
    ensures symbol in alphabet ==> -(|alphabet| - 1) * SymbolHeight <= o <= 0 && o % SymbolHeight == 0
  {
    var index := IndexOf(alphabet, symbol);
    if index != -1 then -index * SymbolHeight else offset
  }

  /** Known symbols of an alphabet without repeats are told apart by their
      offsets: the display is unambiguous. */
  lemma RepositionIdentifies(alphabet: seq<Symbol>, o1: int, o2: int, a: Symbol, b: Symbol)
    requires Distinct(alphabet) && a in alphabet && b in alphabet
    ensures Reposition(alphabet, o1, a) == Reposition(alphabet, o2, b) <==> a == b
  {
    var i, j := IndexOf(alphabet, a), IndexOf(alphabet, b);
    if Reposition(alphabet, o1, a) == Reposition(alphabet, o2, b) {
      assert -i * SymbolHeight == -j * SymbolHeight;
      assert i == j;
    }
  }

  /** The offset after showing `symbols` one after the other, starting from
      `offset` (recursion on the last symbol shown). */
  function Replay(alphabet: seq<Symbol>, offset: int, symbols: seq<Symbol>): int
    decreases |symbols|
  {
    if symbols == [] then offset
    else Reposition(alphabet, Replay(alphabet, offset, symbols[..|symbols| - 1]), symbols[|symbols| - 1])
  }

  /** Showing one more symbol repositions from where the others left off. */
  lemma ReplayStep(alphabet: seq<Symbol>, offset: int, s: seq<Symbol>, x: Symbol)
    ensures Replay(alphabet, offset, s + [x]) == Reposition(alphabet, Replay(alphabet, offset, s), x)
  {
    assert (s + [x])[..|s|] == s;
  }

  /** Showing `s` and then `t` is showing `s + t`. */
  lemma {:induction false} ReplayAppend(alphabet: seq<Symbol>, offset: int, s: seq<Symbol>, t: seq<Symbol>)
    ensures Replay(alphabet, offset, s + t) == Replay(alphabet, Replay(alphabet, offset, s), t)
    decreases |t|
  {
    if t == [] {
      assert s + t == s;
    } else {
      var t' := t[..|t| - 1];
      assert (s + t)[..|s + t| - 1] == s + t';
      ReplayAppend(alphabet, offset, s, t');
    }
  }

  // ---------------------------------------------------------------------
  // Random ticks
  // ---------------------------------------------------------------------

  /** The number of random ticks reel `reelIndex` makes. */
  function TickCount(reelIndex: nat): (n: nat)
    ensures n >= SpinDurationBase && (n - SpinDurationBase) % SpinDurationIncrement == 0
  {
    SpinDurationBase + reelIndex * SpinDurationIncrement
  }

  /** The three reels tick 30, 45 and 60 times; later reels tick longer. */
  lemma TickCounts(i: nat, j: nat)
    ensures TickCount(0) == 30 && TickCount(1) == 45 && TickCount(2) == 60
    ensures i < j ==> TickCount(i) < TickCount(j)
    ensures TickCount(i) > 0
  {
    assert TickCount(j) - TickCount(i) == (j - i) * SpinDurationIncrement;
  }

  /** The symbols shown by the first `k` ticks: one `getRandomSymbol` per
      tick, each with its own draw, each a member of the alphabet. */
  function TickSymbols(alphabet: seq<Symbol>, draws: seq<real>, k: nat): (shown: seq<Symbol>)
    requires 0 < |alphabet| && k <= |draws| && AllDraws(draws)
    ensures |shown| == k
    ensures forall j :: 0 <= j < k ==> shown[j] == RandomElement(alphabet, draws[j]) && shown[j] in alphabet
    decreases k
  {
    if k == 0 then [] else TickSymbols(alphabet, draws, k - 1) + [RandomElement(alphabet, draws[k - 1])]
  }

  function Cube(x: real): real {
    x * x * x
  }

  /** The delay after tick number `tick` (counted from 1) of `spins`: a
      cubic ease-out from the minimum delay towards the maximum. */
  function TickDelay(tick: nat, spins: nat): (d: real)
    requires 0 < tick <= spins
    ensures AnimationDelayMin <= d <= AnimationDelayMax
  {
    var progress := tick as real / spins as real;
    assert 0.0 < progress <= 1.0 by {
      assert progress * spins as real == tick as real;
    }
    CubeMonotone(1.0 - progress, 0.0);
    CubeMonotone(1.0, 1.0 - progress);
    var easeOutProgress := 1.0 - Cube(1.0 - progress);
    AnimationDelayMin + (AnimationDelayMax - AnimationDelayMin) * easeOutProgress
  }

  /** The delays after the first `k` ticks, in order. */
  function TickDelays(spins: nat, k: nat): (delays: seq<real>)
    requires k <= spins
    ensures |delays| == k
    ensures forall j :: 0 <= j < k ==> delays[j] == TickDelay(j + 1, spins)
    decreases k
  {
    if k == 0 then [] else TickDelays(spins, k - 1) + [TickDelay(k, spins)]
  }

  lemma CubeMonotone(x: real, y: real)
    requires 0.0 <= y <= x
    ensures 0.0 <= Cube(y) <= Cube(x)
  {
    assert y * y <= x * y <= x * x;
    assert y * y * y <= x * x * y;
    assert x * x * y <= x * x * x;
  }

  lemma QuotientMonotone(a: real, b: real, d: real)
    requires a <= b && 0.0 < d
    ensures a / d <= b / d
  {
    var x, y := a / d, b / d;
    assert x * d == a && y * d == b;
    assert (y - x) * d >= 0.0;
  }

  /** The reel slows down: later ticks never wait less. */
  lemma TickDelayMonotone(a: nat, b: nat, spins: nat)
    requires 0 < a <= b <= spins
    ensures TickDelay(a, spins) <= TickDelay(b, spins)
  {
    var pa, pb := a as real / spins as real, b as real / spins as real;
    QuotientMonotone(a as real, b as real, spins as real);
    QuotientMonotone(b as real, spins as real, spins as real);
    assert spins as real / spins as real == 1.0;
    CubeMonotone(1.0 - pa, 1.0 - pb);
  }

  /** The last tick waits exactly the maximum delay. */
  lemma LastTickDelay(spins: nat)
    requires 0 < spins
    ensures TickDelay(spins, spins) == AnimationDelayMax
  {
    assert spins as real / spins as real == 1.0;
  }

  /** The tick schedule of a reel: bounded, non-decreasing, ending on the
      maximum delay. */
  lemma TickSchedule(spins: nat)
    requires 0 < spins
    ensures var d := TickDelays(spins, spins);
      && (forall j :: 0 <= j < spins ==> AnimationDelayMin <= d[j] <= AnimationDelayMax)
      && (forall j, k :: 0 <= j <= k < spins ==> d[j] <= d[k])
      && d[spins - 1] == AnimationDelayMax
  {
    var d := TickDelays(spins, spins);
    forall j, k | 0 <= j <= k < spins
      ensures d[j] <= d[k]
    {
      TickDelayMonotone(j + 1, k + 1, spins);
    }
    LastTickDelay(spins);
  }

  // ---------------------------------------------------------------------
  // Stopping
  // ---------------------------------------------------------------------

  /** The number of symbols shown on the way to the final one. */
  const ExtraSpins: nat := 3

  /** The alphabet position shown at stop step `i` for a final symbol at
      position `f` (-1 when unknown) of an alphabet of `n` symbols. The
      dividend is never negative, so JavaScript's `%` and Dafny's agree. */
  function StopIndex(n: nat, f: int, i: nat): (j: nat)
    requires ExtraSpins < n && -1 <= f < n && i < ExtraSpins
    ensures j < n
  {
    (f + n - ExtraSpins + i) % n
  }

  /** Stop step `i` shows the position `ExtraSpins - i` places before the
      target in circular order, so the last step shows its predecessor. */
  lemma StopIndexPrecedesTarget(n: nat, f: int, i: nat)
    requires ExtraSpins < n && 0 <= f < n && i < ExtraSpins
    ensures (StopIndex(n, f, i) + (ExtraSpins - i)) % n == f
  {
    var d := ExtraSpins - i;
    var j := StopIndex(n, f, i);
    if f >= d {
      assert f + n - d == (f - d) + n;
      assert j == f - d;
    } else {
      assert j == f + n - d;
      assert j + d == f + n;
    }
  }

  /** The symbols shown before the final one. */
  function StopSymbols<T(==)>(alphabet: seq<T>, finalSymbol: T): (shown: seq<T>)
    requires ExtraSpins < |alphabet|
    ensures |shown| == ExtraSpins
    ensures forall i :: 0 <= i < ExtraSpins ==>
      shown[i] == alphabet[StopIndex(|alphabet|, IndexOf(alphabet, finalSymbol), i)]
  {
    var n, f := |alphabet|, IndexOf(alphabet, finalSymbol);
    [alphabet[StopIndex(n, f, 0)], alphabet[StopIndex(n, f, 1)], alphabet[StopIndex(n, f, 2)]]
  }

  /** For a known final symbol, the symbol shown at stop step `i` (found at
      alphabet position `k`) lies `ExtraSpins - i` places before the target
      in circular alphabet order; the last stop step shows its predecessor. */
  lemma StopSequenceKnown<T>(alphabet: seq<T>, finalSymbol: T, i: nat, k: nat)
    requires Distinct(alphabet) && ExtraSpins < |alphabet|
    requires finalSymbol in alphabet && i < ExtraSpins
    requires k < |alphabet| && alphabet[k] == StopSymbols(alphabet, finalSymbol)[i]
    ensures alphabet[(k + ExtraSpins - i) % |alphabet|] == finalSymbol
  {
    var f := IndexOf(alphabet, finalSymbol);
    var j := StopIndex(|alphabet|, f, i);
    assert alphabet[k] == alphabet[j];
    StopIndexPrecedesTarget(|alphabet|, f, i);
  }

  lemma SmallRemainder(a: int, n: int)
    requires 0 <= a < n
    ensures a % n == a
  {
  }

  /** For an unknown final symbol the stop steps show ⭐, 💎, 🔔. */
  lemma StopSequenceUnknown(finalSymbol: Symbol)
    requires finalSymbol !in Symbols
    ensures StopSymbols(Symbols, finalSymbol) == ["⭐", "💎", "🔔"]
  {
    assert IndexOf(Symbols, finalSymbol) == -1;
    assert StopIndex(7, -1, 0) == 3 && StopIndex(7, -1, 1) == 4 && StopIndex(7, -1, 2) == 5;
  }

  /** The delays `smoothStopReel` waits: 80, 100 and 120 ms after the stop
      steps, 50 ms after the final symbol. */
  const StopDelays: seq<real> := [80.0, 100.0, 120.0, 50.0]

  /** The delays the last reel adds around the stop effect. */
  const LastReelDelays: seq<real> := [200.0, 100.0]

  /** Where a reel comes to rest for a final symbol: on that symbol when it
      is in the alphabet, otherwise on the last stop step. */
  function RestingOffset(alphabet: seq<Symbol>, finalSymbol: Symbol): (o: int)
    requires ExtraSpins < |alphabet|
    ensures -(|alphabet| - 1) * SymbolHeight <= o <= 0
  {
    if finalSymbol in alphabet then Reposition(alphabet, 0, finalSymbol)
    else Reposition(alphabet, 0, alphabet[StopIndex(|alphabet|, -1, ExtraSpins - 1)])
  }

  /** Whatever was shown before, the stop sequence and the final symbol leave
      the reel at its resting offset: the final symbol's own offset when it
      is known, otherwise that of the last stop step, the symbol second from
      the end of the alphabet. */
  lemma ReelRestsOnTarget(alphabet: seq<Symbol>, offset: int, before: seq<Symbol>, finalSymbol: Symbol)
    requires ExtraSpins < |alphabet|
    ensures Replay(alphabet, offset, before + StopSymbols(alphabet, finalSymbol) + [finalSymbol])
            == RestingOffset(alphabet, finalSymbol)
    ensures finalSymbol in alphabet ==>
      RestingOffset(alphabet, finalSymbol) == -IndexOf(alphabet, finalSymbol) * SymbolHeight
    ensures finalSymbol !in alphabet ==>
      RestingOffset(alphabet, finalSymbol) == Reposition(alphabet, 0, alphabet[|alphabet| - 2])
  {
    var stop := StopSymbols(alphabet, finalSymbol);
    ReplayStep(alphabet, offset, before + stop, finalSymbol);
    if finalSymbol !in alphabet {
      PrefixStep(stop, 2);
      assert stop == stop[..2] + [stop[2]];
      assert before + stop == (before + stop[..2]) + [stop[2]];
      ReplayStep(alphabet, offset, before + stop[..2], stop[2]);
      SmallRemainder(|alphabet| - 2, |alphabet|);
    }
  }

  /** On the reel alphabet a reel rests between -300 and 0 px; an unknown
      target rests on 🔔 at -250 px. */
  lemma RestingOffsets(finalSymbol: Symbol)
    ensures -300 <= RestingOffset(Symbols, finalSymbol) <= 0
    ensures finalSymbol !in Symbols ==> RestingOffset(Symbols, finalSymbol) == -250
  {
    ReelRestsOnTarget(Symbols, 0, [], finalSymbol);
    assert Symbols[5] == "🔔";
  }

  /** Two known targets rest at the same offset only if they are the same
      symbol: the resting reel shows which symbol was drawn. */
  lemma RestingOffsetIdentifies(a: Symbol, b: Symbol)
    requires a in Symbols && b in Symbols
    ensures RestingOffset(Symbols, a) == RestingOffset(Symbols, b) <==> a == b
  {
    AlphabetShape();
    RepositionIdentifies(Symbols, 0, 0, a, b);
  }

  // ---------------------------------------------------------------------
  // The objects
  // ---------------------------------------------------------------------

  /** A reel element; only its vertical offset is modelled. */
  class Reel {
    var offset: int

    constructor()
      ensures offset == 0
    {
      offset := 0;
    }
  }

  /** The first reel's index in `symbols`, or an unknown symbol when the
      result has fewer symbols than there are reels (`undefined` is not in
      the alphabet, like the empty string). */
  function Target(symbols: seq<Symbol>, reelIndex: nat): Symbol {
    if reelIndex < |symbols| then symbols[reelIndex] else ""
  }

  class AnimationSystem {
    var isAnimating: bool
    /** The reel elements, in display order; a missing one is null. */
    const reels: seq<Reel?>
    /** The alphabet the reels show (`SYMBOLS`). */
    const symbols: seq<Symbol>

    /** The alphabet is longer than the stop sequence. */
    predicate Valid() {
      ExtraSpins < |symbols|
    }

    constructor(reels: seq<Reel?>)
      ensures this.reels == reels && symbols == Symbols && !isAnimating
      ensures Valid()
    {
      this.reels := reels;
      symbols := Symbols;
      isAnimating := false;
    }

    /** `updateReelPosition`. */
    method UpdateReelPosition(reel: Reel, symbol: Symbol)
      modifies reel
      ensures reel.offset == Reposition(symbols, old(reel.offset), symbol)
    {
      var symbolIndex := IndexOf(symbols, symbol);
      if symbolIndex != -1 {
        reel.offset := -symbolIndex * SymbolHeight;
      }
    }

    /** `smoothStopReel`: show the three symbols before the final one, then
      the final one; return what was shown and the delays waited. */
    method SmoothStopReel(reel: Reel, finalSymbol: Symbol) returns (shown: seq<Symbol>, delays: seq<real>)
      requires Valid()
      modifies reel
      ensures shown == StopSymbols(symbols, finalSymbol) + [finalSymbol]
      ensures delays == StopDelays
      ensures reel.offset == Replay(symbols, old(reel.offset), shown)
    {
      var finalIndex := IndexOf(symbols, finalSymbol);
      ghost var stop := StopSymbols(symbols, finalSymbol);
      ghost var start := reel.offset;
      shown, delays := [], [];
      for i := 0 to ExtraSpins
        invariant shown == stop[..i]
        invariant |delays| == i && forall k :: 0 <= k < i ==> delays[k] == (80 + k * 20) as real
        invariant reel.offset == Replay(symbols, start, shown)
      {
        var tempSymbol := symbols[StopIndex(|symbols|, finalIndex, i)];
        UpdateReelPosition(reel, tempSymbol);
        ReplayStep(symbols, start, shown, tempSymbol);
        PrefixStep(stop, i);
        shown := shown + [tempSymbol];
        delays := delays + [(80 + i * 20) as real];
      }
      UpdateReelPosition(reel, finalSymbol);
      ReplayStep(symbols, start, shown, finalSymbol);
      assert shown == stop;
      shown := shown + [finalSymbol];
      delays := delays + [50.0];
    }

    /** The ticking phase of `animateReel`: `spins` timer callbacks, each
      showing a random symbol and scheduling the next one after the eased
      delay. */
    method SpinReel(reel: Reel, spins: nat, draws: seq<real>) returns (shown: seq<Symbol>, delays: seq<real>)
      requires Valid()
      requires spins <= |draws| && AllDraws(draws)
      modifies reel
      ensures shown == TickSymbols(symbols, draws, spins)
      ensures delays == TickDelays(spins, spins)
      ensures reel.offset == Replay(symbols, old(reel.offset), shown)
    {
      var currentSpin := 0;
      shown, delays := [], [];
      ghost var start := reel.offset;
      while currentSpin < spins
        invariant 0 <= currentSpin <= spins
        invariant shown == TickSymbols(symbols, draws, currentSpin)
        invariant delays == TickDelays(spins, currentSpin)
        invariant reel.offset == Replay(symbols, start, shown)
      {
        var randomSymbol := RandomElement(symbols, draws[currentSpin]);
        UpdateReelPosition(reel, randomSymbol);
        ReplayStep(symbols, start, shown, randomSymbol);
        shown := shown + [randomSymbol];
        currentSpin := currentSpin + 1;
        var animationDelay := TickDelay(currentSpin, spins);
        delays := delays + [animationDelay];
      }
    }

    /** `animateReel`: `TickCount(reelIndex)` random ticks with the eased
      delays, then the stop sequence, then the stop-effect pauses on the
      last reel. */
    method AnimateReel(reel: Reel, finalSymbol: Symbol, reelIndex: nat, draws: seq<real>)
      returns (shown: seq<Symbol>, delays: seq<real>)
      requires Valid()
      requires TickCount(reelIndex) <= |draws| && AllDraws(draws)
      modifies reel
      ensures shown == TickSymbols(symbols, draws, TickCount(reelIndex)) + StopSymbols(symbols, finalSymbol) + [finalSymbol]
      ensures delays == TickDelays(TickCount(reelIndex), TickCount(reelIndex)) + StopDelays
                        + (if reelIndex == ReelCount - 1 then LastReelDelays else [])
      ensures reel.offset == RestingOffset(symbols, finalSymbol)
    {
      ghost var start := reel.offset;
      var tickShown, tickDelays := SpinReel(reel, TickCount(reelIndex), draws);
      ghost var beforeStop := reel.offset;
      var stopShown, stopDelays := SmoothStopReel(reel, finalSymbol);
      assert reel.offset == RestingOffset(symbols, finalSymbol) by {
        ReplayAppend(symbols, start, tickShown, stopShown);
        ReelRestsOnTarget(symbols, start, tickShown, finalSymbol);
        assert tickShown + stopShown == tickShown + StopSymbols(symbols, finalSymbol) + [finalSymbol];
      }
      shown := tickShown + stopShown;
      delays := tickDelays + stopDelays;
      if reelIndex == ReelCount - 1 {
        delays := delays + LastReelDelays;
      }
    }

    /** `animateReels`: ignored while an animation runs; otherwise every
      present reel is animated to its symbol of the result, with the flag
      raised for the duration. */
    method AnimateReels(result: SpinResult, draws: seq<seq<real>>) returns (started: bool)
      requires Valid()
      requires forall i, j :: 0 <= i < j < |reels| && reels[i] != null ==> reels[i] != reels[j]
      requires |reels| <= |draws|
      requires forall i :: 0 <= i < |reels| ==> TickCount(i) <= |draws[i]| && AllDraws(draws[i])
      modifies this, set r: Reel | r in reels
      ensures started == !old(isAnimating)
      ensures isAnimating == old(isAnimating)
      ensures !started ==> forall i :: 0 <= i < |reels| && reels[i] != null ==> reels[i].offset == old(reels[i].offset)
      ensures started ==> forall i :: 0 <= i < |reels| && reels[i] != null ==>
        reels[i].offset == RestingOffset(symbols, Target(result.symbols, i))
    {
      if isAnimating {
        return false;
      }
      isAnimating := true;
      for index := 0 to |reels|
        invariant isAnimating
        invariant forall k :: 0 <= k < index && reels[k] != null ==>
          reels[k].offset == RestingOffset(symbols, Target(result.symbols, k))
      {
        var reel := reels[index];
        if reel != null {
          var _, _ := AnimateReel(reel, Target(result.symbols, index), index, draws[index]);
        }
      }
      isAnimating := false;
      return true;
    }

    /** `isPlaying`. */
    function IsPlaying(): bool
      reads this
    {
      isAnimating
    }

    /** `stopAll`: clear the flag unconditionally (the style resets are not
      modelled). */
    method StopAll()
      modifies this
      ensures !isAnimating
    {
      isAnimating := false;
    }
  }
}
