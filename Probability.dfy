/**
 * The outcome resolver: an inverse-CDF draw over the ordered prize table, the
 * construction of win and loss results, the losing-combination rejection
 * loop, and the developer simulation that counts outcomes.
 *
 * Every `Math.random()` is an injected draw. `DetermineResult` takes its
 * first draw as `random` and the draws of the losing combination as a finite
 * stream; when that stream runs out before the rejection loop ends the
 * result is `None` (the source would go on drawing).
 */
module Probability {
  import opened Options
  import opened Constants
  import opened Helpers

  /** A spin outcome. `prize` and `winType` are `null` in the source on a loss. */
  datatype SpinResult = SpinResult(
    isWin: bool,
    symbols: seq<Symbol>,
    prize: Option<PrizeEntry>,
    winType: Option<string>,
    multiplier: int)

  const Match3: string := "match3"

  // ---------------------------------------------------------------------
  // Multiplier
  // ---------------------------------------------------------------------

  /** `getMultiplier`: the payout factor from fixed rate breakpoints. It never
      pays more than the fair odds of the rate. */
  function GetMultiplier(rate: real): (m: int)
    ensures 1 <= m <= 100
    ensures 0.0 <= rate <= 1.0 ==> rate * m as real <= 1.0
  {
    if rate <= 0.01 then 100
    else if rate <= 0.02 then 50
    else if rate <= 0.03 then 33
    else if rate <= 0.04 then 25
    else 1
  }

  /** Rarer prizes never pay less. */
  lemma MultiplierNonIncreasing(a: real, b: real)
    requires a <= b
    ensures GetMultiplier(b) <= GetMultiplier(a)
  {
  }

  /** The configured prizes pay 100, 50, 33 and 25 times. */
  lemma ConfiguredMultipliers()
    ensures GetMultiplier(PrizeConfig[0].rate) == 100
    ensures GetMultiplier(PrizeConfig[1].rate) == 50
    ensures GetMultiplier(PrizeConfig[2].rate) == 33
    ensures GetMultiplier(PrizeConfig[3].rate) == 25
  {
  }

  // ---------------------------------------------------------------------
  // Results
  // ---------------------------------------------------------------------

  /** `createWinResult`: three copies of the prize symbol, the prize, the
      `match3` type and a payout of at least one times. */
  function CreateWinResult(entry: PrizeEntry): (r: SpinResult)
    ensures r.isWin && |r.symbols| == 3 && AllSame(r.symbols) && r.symbols[0] == entry.symbol
    ensures r.prize == Some(entry) && r.winType == Some(Match3) && r.multiplier >= 1
  {
    SpinResult(true, [entry.symbol, entry.symbol, entry.symbol], Some(entry), Some(Match3), GetMultiplier(entry.rate))
  }

  /** `createLoseResult` around an already generated combination: no prize,
      no win type, nothing paid. */
  function CreateLoseResult(symbols: seq<Symbol>): (r: SpinResult)
    ensures !r.isWin && r.symbols == symbols
    ensures r.prize.None? && r.winType.None? && r.multiplier == 0
  {
    SpinResult(false, symbols, None, None, 0)
  }

  /** The three symbols of a combination are equal. */
  predicate AllSame(symbols: seq<Symbol>)
    requires |symbols| == 3
  {
    symbols[0] == symbols[1] && symbols[1] == symbols[2]
  }

  /** `isWinningSymbol`, read as own-key membership in the prize table. */
  function IsWinningSymbol(table: seq<PrizeEntry>, symbol: Symbol): (b: bool)
    ensures b <==> exists i :: 0 <= i < |table| && table[i].symbol == symbol
  {
    symbol in Keys(table)
  }

  /** `isWinningCombination`: three equal symbols that are a prize key. */
  function IsWinningCombination(table: seq<PrizeEntry>, symbols: seq<Symbol>): (b: bool)
    ensures b <==> exists i :: 0 <= i < |table| && symbols == [table[i].symbol, table[i].symbol, table[i].symbol]
  {
    |symbols| == 3 && AllSame(symbols) && IsWinningSymbol(table, symbols[0])
  }

  /** Keys every plain object inherits from `Object.prototype`. */
  const ObjectPrototypeKeys: set<string> := {
    "constructor", "hasOwnProperty", "isPrototypeOf", "propertyIsEnumerable",
    "toLocaleString", "toString", "valueOf", "__proto__",
    "__defineGetter__", "__defineSetter__", "__lookupGetter__", "__lookupSetter__"
  }

  /** `isWinningSymbol` as written: the `in` operator also sees the keys the
      table object inherits. */
  function IsWinningSymbolAsWritten(table: seq<PrizeEntry>, symbol: Symbol): (b: bool)
    ensures b <==> (exists i :: 0 <= i < |table| && table[i].symbol == symbol) || symbol in ObjectPrototypeKeys
    ensures IsWinningSymbol(table, symbol) ==> b
  {
    symbol in Keys(table) || symbol in ObjectPrototypeKeys
  }

  /** `isWinningCombination` as written, over `IsWinningSymbolAsWritten`: it
      accepts every combination the own-key check accepts, and anything more
      is a triple of an inherited key. */
  function IsWinningCombinationAsWritten(table: seq<PrizeEntry>, symbols: seq<Symbol>): (b: bool)
    ensures IsWinningCombination(table, symbols) ==> b
    ensures b ==> |symbols| == 3 && AllSame(symbols)
    ensures b && !IsWinningCombination(table, symbols) ==> symbols[0] in ObjectPrototypeKeys
  {
    |symbols| == 3 && AllSame(symbols) && IsWinningSymbolAsWritten(table, symbols[0])
  }

  /** Every inherited key is longer than one character. */
  lemma SingleCharNotInherited(s: string)
    requires |s| == 1
    ensures s !in ObjectPrototypeKeys
  {
  }

  /** No reel symbol is an inherited key: each is a single character. */
  lemma AlphabetNotInherited()
    ensures forall s :: s in Symbols ==> s !in ObjectPrototypeKeys
  {
    forall k | 0 <= k < |Symbols|
      ensures Symbols[k] !in ObjectPrototypeKeys
    {
      assert |Symbols[k]| == 1;
      SingleCharNotInherited(Symbols[k]);
    }
  }

  /** On combinations of reel symbols the check as written and the own-key
      check agree: the inherited keys are never drawn. */
  lemma ChecksAgreeOnAlphabet(table: seq<PrizeEntry>, symbols: seq<Symbol>)
    requires forall k :: 0 <= k < |symbols| ==> symbols[k] in Symbols
    ensures IsWinningCombinationAsWritten(table, symbols) <==> IsWinningCombination(table, symbols)
  {
    AlphabetNotInherited();
  }

  /** Three `"toString"` symbols pass the check as written although no prize
      has that key; the own-key reading rejects them. */
  lemma InheritedKeyPassesAsWritten()
    ensures IsWinningCombinationAsWritten(PrizeConfig, ["toString", "toString", "toString"])
    ensures !IsWinningCombination(PrizeConfig, ["toString", "toString", "toString"])
  {
    ConfigIsValid();
  }

  // ---------------------------------------------------------------------
  // The cumulative draw
  // ---------------------------------------------------------------------

  /** Entry `i` is reached by the draw: `r` is below the cumulative rate
      after entry `i`. */
  predicate Crosses(table: seq<PrizeEntry>, r: real, i: nat)
    requires i < |table|
  {
    r < RateSum(table[..i + 1])
  }

  /** The first entry at or after `k` that the draw crosses. */
  function SelectFrom(table: seq<PrizeEntry>, r: real, k: nat): (w: Option<nat>)
    requires k <= |table|
    ensures w.Some? ==> k <= w.value < |table| && Crosses(table, r, w.value)
    ensures w.Some? ==> forall j :: k <= j < w.value ==> !Crosses(table, r, j)
    ensures w.None? ==> forall j :: k <= j < |table| ==> !Crosses(table, r, j)
    decreases |table| - k
  {
    if k == |table| then None
    else if Crosses(table, r, k) then Some(k)
    else SelectFrom(table, r, k + 1)
  }

  /** The entry the draw `r` wins, in table order, or `None` for a loss. */
  function Select(table: seq<PrizeEntry>, r: real): Option<nat> {
    SelectFrom(table, r, 0)
  }

  /** The first crossing is unique: whatever index has the crossing property
      and no earlier crossing is the one `Select` returns. */
  lemma SelectIsFirstCrossing(table: seq<PrizeEntry>, r: real, i: nat)
    requires i < |table|
    ensures Select(table, r) == Some(i) <==>
      (Crosses(table, r, i) && forall j :: 0 <= j < i ==> !Crosses(table, r, j))
  {
  }

  lemma RateSumStep(table: seq<PrizeEntry>, k: nat)
    requires k < |table|
    ensures RateSum(table[..k + 1]) == RateSum(table[..k]) + table[k].rate
  {
    assert table[..k + 1][..k] == table[..k];
  }

  /** With non-negative rates the cumulative rate only grows. */
  lemma {:induction false} RateSumMonotone(table: seq<PrizeEntry>, j: nat, k: nat)
    requires j <= k <= |table| && RatesPositive(table)
    ensures RateSum(table[..j]) <= RateSum(table[..k])
    decreases k - j
  {
    if j < k {
      RateSumStep(table, k - 1);
      RateSumMonotone(table, j, k - 1);
    }
  }

  /** The draw wins entry `i` exactly when it lies in `[C(i), C(i+1))`,
      where `C(k)` is the cumulative rate of the first `k` entries. */
  lemma SelectInterval(table: seq<PrizeEntry>, r: real, i: nat)
    requires RatesPositive(table) && IsDraw(r) && i < |table|
    ensures Select(table, r) == Some(i) <==> RateSum(table[..i]) <= r < RateSum(table[..i + 1])
  {
    SelectIsFirstCrossing(table, r, i);
    if i == 0 {
      assert table[..0] == [];
    } else if Select(table, r) == Some(i) {
      assert !Crosses(table, r, i - 1);
    }
    if RateSum(table[..i]) <= r < RateSum(table[..i + 1]) {
      forall j | 0 <= j < i ensures !Crosses(table, r, j) {
        RateSumMonotone(table, j + 1, i);
      }
    }
  }

  /** The draw loses exactly when it is at least the total rate. */
  lemma LoseInterval(table: seq<PrizeEntry>, r: real)
    requires RatesPositive(table) && IsDraw(r)
    ensures Select(table, r).None? <==> RateSum(table) <= r
  {
    assert table[..|table|] == table;
    if |table| == 0 {
      assert RateSum(table) == 0.0;
    } else if Select(table, r).None? {
      assert !Crosses(table, r, |table| - 1);
    }
    if RateSum(table) <= r {
      forall j | 0 <= j < |table| ensures !Crosses(table, r, j) {
        RateSumMonotone(table, j + 1, |table|);
      }
    }
  }

  /** The bands of a four-row table with cumulative rates `c1` to `c4`. */
  lemma FourBands(table: seq<PrizeEntry>, r: real, c1: real, c2: real, c3: real, c4: real)
    requires RatesPositive(table) && IsDraw(r) && |table| == 4
    requires RateSum(table[..1]) == c1 && RateSum(table[..2]) == c2
    requires RateSum(table[..3]) == c3 && RateSum(table) == c4
    ensures r < c1 ==> Select(table, r) == Some(0)
    ensures c1 <= r < c2 ==> Select(table, r) == Some(1)
    ensures c2 <= r < c3 ==> Select(table, r) == Some(2)
    ensures c3 <= r < c4 ==> Select(table, r) == Some(3)
    ensures c4 <= r ==> Select(table, r).None?
  {
    assert table[..0] == [] && table[..4] == table;
    SelectInterval(table, r, 0);
    SelectInterval(table, r, 1);
    SelectInterval(table, r, 2);
    SelectInterval(table, r, 3);
    LoseInterval(table, r);
  }

  /** The bands the resolver walks on the configured table, 7 first: below
      0.04 seven, then diamond up to 0.05, star up to 0.07, bell up to 0.10,
      and a loss from 0.10 on. */
  lemma PrizeBands(r: real)
    requires IsDraw(r)
    ensures r < 0.04 ==> Select(PrizeWalk, r) == Some(0) && PrizeWalk[0].symbol == "7"
    ensures 0.04 <= r < 0.05 ==> Select(PrizeWalk, r) == Some(1) && PrizeWalk[1].symbol == "💎"
    ensures 0.05 <= r < 0.07 ==> Select(PrizeWalk, r) == Some(2) && PrizeWalk[2].symbol == "⭐"
    ensures 0.07 <= r < 0.10 ==> Select(PrizeWalk, r) == Some(3) && PrizeWalk[3].symbol == "🔔"
    ensures 0.10 <= r ==> Select(PrizeWalk, r).None?
  {
    WalkIsValid();
    PrizeWalkOrder();
    PrizeWalkRates();
    FourBands(PrizeWalk, r, 0.04, 0.05, 0.07, 0.10);
  }

  /** The bands of the table walked in declaration order: below 0.01
      diamond, then star up to 0.03, bell up to 0.06, seven up to 0.10, and
      a loss from 0.10 on. */
  lemma DeclaredOrderBands(r: real)
    requires IsDraw(r)
    ensures r < 0.01 ==> Select(PrizeConfig, r) == Some(0)
    ensures 0.01 <= r < 0.03 ==> Select(PrizeConfig, r) == Some(1)
    ensures 0.03 <= r < 0.06 ==> Select(PrizeConfig, r) == Some(2)
    ensures 0.06 <= r < 0.10 ==> Select(PrizeConfig, r) == Some(3)
    ensures 0.10 <= r ==> Select(PrizeConfig, r).None?
  {
    var t := PrizeConfig;
    ConfigIsValid();
    PrizeRates();
    assert t == [t[0], t[1], t[2], t[3]];
    RateSumFour(t[0], t[1], t[2], t[3]);
    FourBands(t, r, 0.01, 0.03, 0.06, 0.10);
  }

  // ---------------------------------------------------------------------
  // Losing combination
  // ---------------------------------------------------------------------

  /** The rejection loop for the third symbol, from draw `k` on: the first
      drawn symbol that breaks the triple, or `None` if the stream ends. */
  function ThirdSymbol(alphabet: seq<Symbol>, s0: Symbol, s1: Symbol, draws: seq<real>, k: nat): (s2: Option<Symbol>)
    requires |alphabet| > 0 && AllDraws(draws)
    ensures s2.Some? ==> s2.value in alphabet && !(s0 == s1 && s1 == s2.value)
    decreases |draws| - k
  {
    if k >= |draws| then None
    else
      var s := RandomElement(alphabet, draws[k]);
      if s0 == s1 && s1 == s then ThirdSymbol(alphabet, s0, s1, draws, k + 1) else Some(s)
  }

  /** The combination `generateLosingCombination` builds from a draw stream:
      a first symbol; a second equal to it when the next draw is below one
      half, else drawn afresh; a third redrawn until the three differ. */
  function LosingCombination(alphabet: seq<Symbol>, draws: seq<real>): (c: Option<seq<Symbol>>)
    requires |alphabet| > 0 && AllDraws(draws)
    ensures c.Some? ==> |c.value| == 3 && !AllSame(c.value)
    ensures c.Some? ==> forall k :: 0 <= k < 3 ==> c.value[k] in alphabet
  {
    if |draws| < 2 then None
    else
      var s0 := RandomElement(alphabet, draws[0]);
      if draws[1] < 0.5 then
        match ThirdSymbol(alphabet, s0, s0, draws, 2)
        case Some(s2) => Some([s0, s0, s2])
        case None => None
      else if |draws| < 3 then None
      else
        var s1 := RandomElement(alphabet, draws[2]);
        match ThirdSymbol(alphabet, s0, s1, draws, 3)
        case Some(s2) => Some([s0, s1, s2])
        case None => None
  }

  /** With at least two symbols, a stream that is long enough and ends on a
      draw naming a different symbol always completes the combination. */
  lemma {:induction false} ThirdSymbolCompletes(alphabet: seq<Symbol>, s0: Symbol, draws: seq<real>, k: nat)
    requires |alphabet| > 0 && AllDraws(draws) && k < |draws|
    requires RandomElement(alphabet, draws[|draws| - 1]) != s0
    ensures ThirdSymbol(alphabet, s0, s0, draws, k).Some?
    decreases |draws| - k
  {
    if RandomElement(alphabet, draws[k]) == s0 {
      ThirdSymbolCompletes(alphabet, s0, draws, k + 1);
    }
  }

  /**
   * `generateLosingCombination`, as a loop over the draw stream. `None`
   * means the stream ran out; otherwise the combination is the one the
   * specification function describes, hence three alphabet symbols that are
   * not all equal.
   */
  method GenerateLosingCombination(alphabet: seq<Symbol>, draws: seq<real>) returns (symbols: Option<seq<Symbol>>)
    requires |alphabet| > 0 && AllDraws(draws)
    ensures symbols == LosingCombination(alphabet, draws)
  {
    if |draws| < 2 {
      return None;
    }
    var s0 := RandomElement(alphabet, draws[0]);
    var s1: Symbol;
    var next: nat;
    if draws[1] < 0.5 {
      s1 := s0;
      next := 2;
    } else {
      if |draws| < 3 {
        return None;
      }
      s1 := RandomElement(alphabet, draws[2]);
      next := 3;
    }
    ghost var start := next;
    if next >= |draws| {
      return None;
    }
    var s2 := RandomElement(alphabet, draws[next]);
    next := next + 1;
    while s0 == s1 && s1 == s2
      invariant start < next <= |draws|
      invariant ThirdSymbol(alphabet, s0, s1, draws, start) ==
        (if s0 == s1 && s1 == s2 then ThirdSymbol(alphabet, s0, s1, draws, next) else Some(s2))
      decreases |draws| - next
    {
      if next >= |draws| {
        return None;
      }
      s2 := RandomElement(alphabet, draws[next]);
      next := next + 1;
    }
    symbols := Some([s0, s1, s2]);
  }

  // ---------------------------------------------------------------------
  // Resolving a spin
  // ---------------------------------------------------------------------

  /** The result `determineResult` produces for the draw `random` followed by
      the stream `draws`. */
  function Resolve(table: seq<PrizeEntry>, alphabet: seq<Symbol>, random: real, draws: seq<real>): (res: Option<SpinResult>)
    requires |alphabet| > 0 && AllDraws(draws)
    ensures res.None? ==> Select(table, random).None?
    ensures res.Some? ==> (res.value.isWin <==> Select(table, random).Some?)
    ensures res.Some? ==> |res.value.symbols| == 3
  {
    match Select(table, random)
    case Some(i) => Some(CreateWinResult(table[i]))
    case None =>
      match LosingCombination(alphabet, draws)
      case Some(s) => Some(CreateLoseResult(s))
      case None => None
  }

  /**
   * `determineResult`: walk the table in order with a running cumulative
   * rate and return a win on the first entry whose cumulative rate exceeds
   * the draw; otherwise a loss with a generated combination.
   */
  method DetermineResult(table: seq<PrizeEntry>, alphabet: seq<Symbol>, random: real, draws: seq<real>)
    returns (res: Option<SpinResult>)
    requires |alphabet| > 0 && AllDraws(draws)
    ensures res == Resolve(table, alphabet, random, draws)
  {
    var cumulativeRate := 0.0;
    var k := 0;
    assert table[..0] == [];
    while k < |table|
      invariant 0 <= k <= |table|
      invariant cumulativeRate == RateSum(table[..k])
      invariant SelectFrom(table, random, k) == Select(table, random)
    {
      RateSumStep(table, k);
      cumulativeRate := cumulativeRate + table[k].rate;
      if random < cumulativeRate {
        return Some(CreateWinResult(table[k]));
      }
      k := k + 1;
    }
    var symbols := GenerateLosingCombination(alphabet, draws);
    match symbols
    case Some(s) => res := Some(CreateLoseResult(s));
    case None => res := None;
  }

  /** What every resolved spin looks like: a win is `[s, s, s]` for the
      selected entry with its prize, `match3` and its multiplier; a loss has
      no prize, no win type, multiplier 0 and three symbols that are not all
      equal; all symbols come from the alphabet when the table keys do. A
      stream can only run out on a losing draw. */
  lemma ResolveShape(table: seq<PrizeEntry>, alphabet: seq<Symbol>, random: real, draws: seq<real>)
    requires |alphabet| > 0 && AllDraws(draws)
    requires forall i :: 0 <= i < |table| ==> table[i].symbol in alphabet
    ensures var res := Resolve(table, alphabet, random, draws);
      && (res.None? ==> Select(table, random).None?)
      && (res.Some? ==>
            && |res.value.symbols| == 3
            && (forall k :: 0 <= k < 3 ==> res.value.symbols[k] in alphabet)
            && (res.value.isWin <==> Select(table, random).Some?)
            && (res.value.isWin ==>
                  var e := table[Select(table, random).value];
                  && res.value.symbols == [e.symbol, e.symbol, e.symbol]
                  && res.value.prize == Some(e)
                  && res.value.winType == Some(Match3)
                  && res.value.multiplier == GetMultiplier(e.rate))
            && (!res.value.isWin ==>
                  && !AllSame(res.value.symbols)
                  && res.value.prize.None? && res.value.winType.None?
                  && res.value.multiplier == 0))
  {
  }

  /** `isWinningCombination` agrees with `isWin` on every resolved spin. */
  lemma WinningCombinationIffWin(table: seq<PrizeEntry>, alphabet: seq<Symbol>, random: real, draws: seq<real>)
    requires |alphabet| > 0 && AllDraws(draws)
    requires Resolve(table, alphabet, random, draws).Some?
    ensures var r := Resolve(table, alphabet, random, draws).value;
      IsWinningCombination(table, r.symbols) <==> r.isWin
  {
    var r := Resolve(table, alphabet, random, draws).value;
    if r.isWin {
      var i := Select(table, random).value;
      assert table[i].symbol == r.symbols[0];
    }
  }

  /** On every spin resolved over the reel alphabet, the check as written
      also agrees with `isWin`: the inherited-key defect cannot show. */
  lemma AsWrittenIffWin(table: seq<PrizeEntry>, random: real, draws: seq<real>)
    requires AllDraws(draws)
    requires forall i :: 0 <= i < |table| ==> table[i].symbol in Symbols
    requires Resolve(table, Symbols, random, draws).Some?
    ensures var r := Resolve(table, Symbols, random, draws).value;
      IsWinningCombinationAsWritten(table, r.symbols) <==> r.isWin
  {
    ResolveShape(table, Symbols, random, draws);
    WinningCombinationIffWin(table, Symbols, random, draws);
    var r := Resolve(table, Symbols, random, draws).value;
    ChecksAgreeOnAlphabet(table, r.symbols);
  }

  /** The resolved spin is a win exactly when the first draw selects an
      entry, and then it shows that entry's symbol. */
  lemma ResolveWin(table: seq<PrizeEntry>, alphabet: seq<Symbol>, random: real, draws: seq<real>)
    requires |alphabet| > 0 && AllDraws(draws)
    ensures var res := Resolve(table, alphabet, random, draws);
      (res.Some? && res.value.isWin) <==> Select(table, random).Some?
    ensures var res := Resolve(table, alphabet, random, draws);
      res.Some? && res.value.isWin ==> res.value.symbols[0] == table[Select(table, random).value].symbol
  {
  }

  /** A draw of 0.005 falls in the first walked band, 7's, and wins the
      lucky seven at 25 times. */
  lemma SevenFirstScenario(draws: seq<real>)
    requires AllDraws(draws)
    ensures Resolve(PrizeWalk, Symbols, 0.005, draws)
      == Some(SpinResult(true, ["7", "7", "7"], Some(PrizeConfig[3]), Some(Match3), 25))
  {
    PrizeBands(0.005);
    PrizeWalkOrder();
  }

  /** Walked in declaration order, the same draw of 0.005 would win the
      diamond jackpot at 100 times. */
  lemma DiamondScenario(draws: seq<real>)
    requires AllDraws(draws)
    ensures Resolve(PrizeConfig, Symbols, 0.005, draws)
      == Some(SpinResult(true, ["💎", "💎", "💎"], Some(PrizeConfig[0]), Some(Match3), 100))
  {
    DeclaredOrderBands(0.005);
  }

  /** A draw of 0.999 loses, with no accidental triple. */
  lemma LosingScenario(draws: seq<real>)
    requires AllDraws(draws)
    requires Resolve(PrizeWalk, Symbols, 0.999, draws).Some?
    ensures var r := Resolve(PrizeWalk, Symbols, 0.999, draws).value;
      !r.isWin && |r.symbols| == 3 && !AllSame(r.symbols) && r.multiplier == 0
  {
    PrizeBands(0.999);
  }

  // ---------------------------------------------------------------------
  // Total rate
  // ---------------------------------------------------------------------

  /** `reduce((total, config) => total + config.rate, acc)`. */
  function FoldRates(table: seq<PrizeEntry>, acc: real): real {
    if table == [] then acc else FoldRates(table[1..], acc + table[0].rate)
  }

  lemma {:induction false} RateSumPrepend(e: PrizeEntry, table: seq<PrizeEntry>)
    ensures RateSum([e] + table) == e.rate + RateSum(table)
    decreases |table|
  {
    if table != [] {
      var t := [e] + table;
      assert t[..|t| - 1] == [e] + table[..|table| - 1];
      RateSumPrepend(e, table[..|table| - 1]);
    }
  }

  lemma {:induction false} FoldRatesIsSum(table: seq<PrizeEntry>, acc: real)
    ensures FoldRates(table, acc) == acc + RateSum(table)
    decreases |table|
  {
    if table != [] {
      FoldRatesIsSum(table[1..], acc + table[0].rate);
      RateSumPrepend(table[0], table[1..]);
      assert [table[0]] + table[1..] == table;
    }
  }

  /** `getTotalWinRate`: the left fold of the rates equals the cumulative
      rate the resolver reaches after the whole table. */
  function GetTotalWinRate(table: seq<PrizeEntry>): (total: real)
    ensures total == RateSum(table)
  {
    FoldRatesIsSum(table, 0.0);
    FoldRates(table, 0.0)
  }

  /** A draw loses exactly when it is at least the total win rate, which is
      0.10 for the configured table (`Object.values` lists it 7 first). */
  lemma LossBand(table: seq<PrizeEntry>, r: real)
    requires RatesPositive(table) && IsDraw(r)
    ensures Select(table, r).None? <==> GetTotalWinRate(table) <= r
    ensures GetTotalWinRate(PrizeWalk) == 0.10
  {
    LoseInterval(table, r);
    PrizeWalkRates();
  }
}
