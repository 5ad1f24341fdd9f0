/**
 * The static configuration of the slot machine: the reel alphabet, the
 * ordered prize table and the numeric game settings. Everything else in the
 * model reads these.
 */
module Constants {

  /** A reel symbol is a string token, as in the source. */
  type Symbol = string

  /** The reel alphabet, in display (and circular adjacency) order. */
  const Symbols: seq<Symbol> := ["7", "🍒", "🍋", "⭐", "💎", "🔔", "❌"]

  /**
   * One row of the prize table. The source keys its table by symbol; the key
   * is kept here as the `symbol` field so that the table can be an ordered
   * sequence. The order the resolver walks is `EntriesOrder` of it.
   */
  datatype PrizeEntry = PrizeEntry(symbol: Symbol, rate: real, name: string, message: string, cssClass: string)

  /** The prize table, in the order of its object literal. */
  const PrizeConfig: seq<PrizeEntry> := [
    PrizeEntry("💎", 0.01, "DIAMOND JACKPOT!", "💎 다이아몬드 당첨! 💎", "diamond"),
    PrizeEntry("⭐", 0.02, "STAR PRIZE!", "⭐ 별 당첨! ⭐", "star"),
    PrizeEntry("🔔", 0.03, "BELL PRIZE!", "🔔 벨 당첨! 🔔", "bell"),
    PrizeEntry("7", 0.04, "LUCKY SEVEN!", "🍀 럭키 세븐! 🍀", "seven")
  ]

  // Numeric game settings.
  const ReelCount: nat := 3
  const SymbolHeight: nat := 50
  const SpinDurationBase: nat := 30
  const SpinDurationIncrement: nat := 15
  const AnimationDelayMin: real := 20.0
  const AnimationDelayMax: real := 120.0
  const AnimationEaseFactor: real := 0.15
  const ResultDisplayDelay: nat := 3000
  const StorageKey: string := "retroSlotGame"

  /** No element occurs twice. */
  predicate Distinct<T(==)>(s: seq<T>) {
    forall i, j :: 0 <= i < j < |s| ==> s[i] != s[j]
  }

  /** No two rows of a prize table share a symbol. */
  predicate DistinctKeys(table: seq<PrizeEntry>) {
    forall i, j :: 0 <= i < j < |table| ==> table[i].symbol != table[j].symbol
  }

  /** The keys of a prize table, in table order. */
  function Keys(table: seq<PrizeEntry>): (ks: seq<Symbol>)
    ensures |ks| == |table|
    ensures forall i :: 0 <= i < |table| ==> ks[i] == table[i].symbol
  {
    if table == [] then [] else [table[0].symbol] + Keys(table[1..])
  }

  /** Sum of the rates of a table; recursion on the last entry, so that
      `RateSum(table[..k])` is the cumulative rate after `k` entries. */
  function RateSum(table: seq<PrizeEntry>): real {
    if table == [] then 0.0 else RateSum(table[..|table| - 1]) + table[|table| - 1].rate
  }

  /** Every rate is a probability in (0, 1]. */
  predicate RatesPositive(table: seq<PrizeEntry>) {
    forall i :: 0 <= i < |table| ==> 0.0 < table[i].rate <= 1.0
  }

  /** A prize table fits an alphabet: keys are distinct alphabet members,
      each rate is a probability and the rates sum to at most one. */
  predicate ValidTable(table: seq<PrizeEntry>, alphabet: seq<Symbol>) {
    && DistinctKeys(table)
    && (forall i :: 0 <= i < |table| ==> table[i].symbol in alphabet)
    && RatesPositive(table)
    && RateSum(table) <= 1.0
  }

  /**
   * A key that `Object.entries` treats as an array index: a decimal numeral
   * without leading zeros.
   */
  predicate IsIndexKey(key: string) {
    && |key| > 0
    && (forall k :: 0 <= k < |key| ==> '0' <= key[k] <= '9')
    && (key[0] != '0' || |key| == 1)
  }

  /** The rows whose key is an array index, in declaration order. */
  function IndexRows(table: seq<PrizeEntry>): seq<PrizeEntry> {
    if table == [] then []
    else if IsIndexKey(table[0].symbol) then [table[0]] + IndexRows(table[1..])
    else IndexRows(table[1..])
  }

  /** The rows whose key is not an array index, in declaration order. */
  function NamedRows(table: seq<PrizeEntry>): seq<PrizeEntry> {
    if table == [] then []
    else if IsIndexKey(table[0].symbol) then NamedRows(table[1..])
    else [table[0]] + NamedRows(table[1..])
  }

  /** `t` is an interleaving of `xs` and `ys`: it merges the two without
      reordering either. */
  predicate Interleaves<T(==)>(t: seq<T>, xs: seq<T>, ys: seq<T>)
    decreases |t|
  {
    if t == [] then xs == [] && ys == []
    else
      || (xs != [] && xs[0] == t[0] && Interleaves(t[1..], xs[1..], ys))
      || (ys != [] && ys[0] == t[0] && Interleaves(t[1..], xs, ys[1..]))
  }

  /** The table merges its index-keyed rows and its other rows, each group
      in declaration order. */
  lemma {:induction false} RowsInterleave(table: seq<PrizeEntry>)
    ensures Interleaves(table, IndexRows(table), NamedRows(table))
    ensures |IndexRows(table)| + |NamedRows(table)| == |table|
    ensures forall i :: 0 <= i < |IndexRows(table)| ==> IsIndexKey(IndexRows(table)[i].symbol)
    ensures forall i :: 0 <= i < |NamedRows(table)| ==> !IsIndexKey(NamedRows(table)[i].symbol)
  {
    if table != [] {
      RowsInterleave(table[1..]);
    }
  }

  /**
   * The order `Object.entries` and `Object.values` list the rows of an
   * object literal: array-index keys first, then the other keys in
   * insertion order. The listing is a stable partition of the table: its
   * first `k` rows are exactly the index-keyed ones, the rest are the
   * others, and the table interleaves the two groups without reordering.
   */
  function EntriesOrder(table: seq<PrizeEntry>): (r: seq<PrizeEntry>)
    ensures |r| == |table|
    ensures exists k ::
              && 0 <= k <= |r|
              && (forall i :: 0 <= i < k ==> IsIndexKey(r[i].symbol))
              && (forall i :: k <= i < |r| ==> !IsIndexKey(r[i].symbol))
              && Interleaves(table, r[..k], r[k..])
  {
    RowsInterleave(table);
    var r := IndexRows(table) + NamedRows(table);
    assert r[..|IndexRows(table)|] == IndexRows(table);
    assert r[|IndexRows(table)|..] == NamedRows(table);
    r
  }

  /** Listing the entries reorders the rows and loses or adds none. */
  lemma {:induction false} EntriesOrderPermutes(table: seq<PrizeEntry>)
    ensures multiset(EntriesOrder(table)) == multiset(table)
  {
    if table != [] {
      EntriesOrderPermutes(table[1..]);
      assert table == [table[0]] + table[1..];
    }
  }

  /** One array-index key declared last among four is listed first. */
  lemma EntriesOrderLastIndex(a: PrizeEntry, b: PrizeEntry, c: PrizeEntry, d: PrizeEntry)
    requires !IsIndexKey(a.symbol) && !IsIndexKey(b.symbol) && !IsIndexKey(c.symbol)
    requires IsIndexKey(d.symbol)
    ensures EntriesOrder([a, b, c, d]) == [d, a, b, c]
  {
    var t := [a, b, c, d];
    assert t[1..] == [b, c, d] && [b, c, d][1..] == [c, d] && [c, d][1..] == [d] && [d][1..] == [];
    assert IndexRows([d]) == [d] && NamedRows([d]) == [];
    assert IndexRows([c, d]) == [d] && NamedRows([c, d]) == [c];
    assert IndexRows([b, c, d]) == [d] && NamedRows([b, c, d]) == [b, c];
    assert IndexRows(t) == [d] && NamedRows(t) == [a, b, c];
  }

  /** The order the resolver walks the configured table. */
  const PrizeWalk: seq<PrizeEntry> := EntriesOrder(PrizeConfig)

  /** `'7'` is an array index, so it is walked first: 7, 💎, ⭐, 🔔. */
  lemma PrizeWalkOrder()
    ensures PrizeWalk == [PrizeConfig[3], PrizeConfig[0], PrizeConfig[1], PrizeConfig[2]]
    ensures multiset(PrizeWalk) == multiset(PrizeConfig)
  {
    var t := PrizeConfig;
    assert t == [t[0], t[1], t[2], t[3]];
    assert t[3].symbol == "7" && "7"[0] == '7';
    assert !IsIndexKey(t[0].symbol) && !IsIndexKey(t[1].symbol) && !IsIndexKey(t[2].symbol) by {
      assert !('0' <= t[0].symbol[0] <= '9');
      assert !('0' <= t[1].symbol[0] <= '9');
      assert !('0' <= t[2].symbol[0] <= '9');
    }
    EntriesOrderLastIndex(t[0], t[1], t[2], t[3]);
    EntriesOrderPermutes(t);
  }

  /** The cumulative rates of a four-row table. */
  lemma RateSumFour(a: PrizeEntry, b: PrizeEntry, c: PrizeEntry, d: PrizeEntry)
    ensures var t := [a, b, c, d];
      && RateSum(t[..1]) == a.rate
      && RateSum(t[..2]) == a.rate + b.rate
      && RateSum(t[..3]) == a.rate + b.rate + c.rate
      && RateSum(t) == a.rate + b.rate + c.rate + d.rate
  {
    var t := [a, b, c, d];
    assert t[..1] == [a] && [a][..0] == [];
    assert t[..2] == [a, b] && [a, b][..1] == [a];
    assert t[..3] == [a, b, c] && [a, b, c][..2] == [a, b];
    assert t[..3] == t[..|t| - 1];
  }

  /** The walked rates: 0.04, 0.01, 0.02, 0.03, with cumulative rates 0.04,
      0.05, 0.07 and 0.10. */
  lemma PrizeWalkRates()
    ensures |PrizeWalk| == 4
    ensures RateSum(PrizeWalk[..1]) == 0.04 && RateSum(PrizeWalk[..2]) == 0.05
    ensures RateSum(PrizeWalk[..3]) == 0.07 && RateSum(PrizeWalk) == 0.10
  {
    PrizeWalkOrder();
    PrizeRates();
    RateSumFour(PrizeConfig[3], PrizeConfig[0], PrizeConfig[1], PrizeConfig[2]);
  }

  /** The configured rates, in declaration order. */
  lemma PrizeRates()
    ensures |PrizeConfig| == 4
    ensures PrizeConfig[0].rate == 0.01 && PrizeConfig[1].rate == 0.02
    ensures PrizeConfig[2].rate == 0.03 && PrizeConfig[3].rate == 0.04
    ensures forall i, j :: 0 <= i < j < |PrizeConfig| ==> PrizeConfig[i].rate < PrizeConfig[j].rate
  {
  }

  /** The configured rates sum to exactly one in ten. */
  lemma PrizeRateSum()
    ensures RateSum(PrizeConfig) == 0.10
  {
    var t := PrizeConfig;
    assert t == [t[0], t[1], t[2], t[3]];
    RateSumFour(t[0], t[1], t[2], t[3]);
  }

  /** The alphabet has seven distinct symbols. */
  lemma AlphabetShape()
    ensures |Symbols| == 7 && Distinct(Symbols)
  {
  }

  /** The configuration is consistent: the prize table fits the alphabet. */
  lemma ConfigIsValid()
    ensures ValidTable(PrizeConfig, Symbols)
    ensures Keys(PrizeConfig) == ["💎", "⭐", "🔔", "7"]
  {
    PrizeRateSum();
  }

  /** The keys of a four-row table. */
  lemma KeysFour(a: PrizeEntry, b: PrizeEntry, c: PrizeEntry, d: PrizeEntry)
    ensures Keys([a, b, c, d]) == [a.symbol, b.symbol, c.symbol, d.symbol]
  {
  }

  /** Listing the last of four rows first keeps a table valid. */
  lemma RotateValid(a: PrizeEntry, b: PrizeEntry, c: PrizeEntry, d: PrizeEntry, alphabet: seq<Symbol>)
    requires ValidTable([a, b, c, d], alphabet)
    ensures ValidTable([d, a, b, c], alphabet)
  {
    var t, w := [a, b, c, d], [d, a, b, c];
    RateSumFour(a, b, c, d);
    RateSumFour(d, a, b, c);
    assert forall i :: 0 <= i < 4 ==> w[i] == t[(i + 3) % 4];
  }

  /** The walked table fits the alphabet too, keyed 7, 💎, ⭐, 🔔. */
  lemma WalkIsValid()
    ensures ValidTable(PrizeWalk, Symbols)
    ensures Keys(PrizeWalk) == ["7", "💎", "⭐", "🔔"]
  {
    var t := PrizeConfig;
    PrizeWalkOrder();
    ConfigIsValid();
    assert t == [t[0], t[1], t[2], t[3]];
    RotateValid(t[0], t[1], t[2], t[3], Symbols);
    KeysFour(t[3], t[0], t[1], t[2]);
  }

  /** Cherry, lemon and cross are never prize symbols. */
  lemma NonPrizeSymbols()
    ensures "🍒" !in Keys(PrizeConfig) && "🍋" !in Keys(PrizeConfig) && "❌" !in Keys(PrizeConfig)
  {
    ConfigIsValid();
  }

  /** The animation settings: three reels, a delay range that opens upward,
      and positive tick counts that grow with the reel index. */
  lemma AnimationSettings()
    ensures ReelCount == 3 && SymbolHeight > 0
    ensures AnimationDelayMin < AnimationDelayMax
    ensures SpinDurationBase > 0 && SpinDurationIncrement > 0
  {
  }
}
