/**
 * The simulation of the outcome resolver: many spins resolved in a row, with
 * wins, losses and wins per prize symbol counted.
 */
module Simulation {
  import opened Options
  import opened Constants
  import opened Helpers
  import opened Probability

  /** Distinct keys: two different rows never share a symbol. */
  lemma DistinctKeyAt(table: seq<PrizeEntry>, i: nat, w: nat)
    requires DistinctKeys(table) && i < |table| && w < |table| && i != w
    ensures table[i].symbol != table[w].symbol
  {
    if i < w {
      assert table[i].symbol != table[w].symbol;
    } else {
      assert table[w].symbol != table[i].symbol;
    }
  }

  /** The draws of one `determineResult` call. */
  datatype Run = Run(random: real, draws: seq<real>)

  /** The counters `simulate` returns; a rate is `None` where the source
      divides by zero iterations. */
  datatype SimulationResult = SimulationResult(
    wins: nat,
    losses: nat,
    bySymbol: map<Symbol, nat>,
    winRate: Option<real>,
    loseRate: Option<real>)

  /** Runs whose first draw selects a prize. */
  function CountWins(table: seq<PrizeEntry>, runs: seq<Run>): nat {
    if runs == [] then 0
    else CountWins(table, runs[..|runs| - 1]) + (if Select(table, runs[|runs| - 1].random).Some? then 1 else 0)
  }

  /** Runs whose first draw selects entry `i`. */
  function CountSelected(table: seq<PrizeEntry>, runs: seq<Run>, i: nat): nat {
    if runs == [] then 0
    else CountSelected(table, runs[..|runs| - 1], i) + (if Select(table, runs[|runs| - 1].random) == Some(i) then 1 else 0)
  }

  /** Sum of the counters of the first `n` table keys. */
  function SumCounts(table: seq<PrizeEntry>, m: map<Symbol, nat>, n: nat): nat
    requires n <= |table| && forall i :: 0 <= i < |table| ==> table[i].symbol in m
  {
    if n == 0 then 0 else SumCounts(table, m, n - 1) + m[table[n - 1].symbol]
  }

  /** Incrementing the counter of key `w` adds one to any sum that covers it. */
  lemma {:induction false} SumCountsIncrement(table: seq<PrizeEntry>, m: map<Symbol, nat>, w: nat, n: nat)
    requires DistinctKeys(table) && w < |table| && n <= |table|
    requires forall i :: 0 <= i < |table| ==> table[i].symbol in m
    ensures var m' := m[table[w].symbol := m[table[w].symbol] + 1];
      SumCounts(table, m', n) == SumCounts(table, m, n) + (if w < n then 1 else 0)
  {
    if n > 0 {
      SumCountsIncrement(table, m, w, n - 1);
      if n - 1 != w {
        DistinctKeyAt(table, n - 1, w);
      }
    }
  }

  /** The initial counters: every prize key at zero. */
  function ZeroCounts(table: seq<PrizeEntry>): (m: map<Symbol, nat>)
    ensures forall i :: 0 <= i < |table| ==> table[i].symbol in m && m[table[i].symbol] == 0
    ensures m.Keys == set i | 0 <= i < |table| :: table[i].symbol
  {
    map i | 0 <= i < |table| :: table[i].symbol := 0
  }

  lemma {:induction false} SumZeroCounts(table: seq<PrizeEntry>, n: nat)
    requires n <= |table|
    ensures SumCounts(table, ZeroCounts(table), n) == 0
  {
    if n > 0 {
      SumZeroCounts(table, n - 1);
    }
  }

  /** The counters after `runs`: one per prize key, each equal to the runs
      that selected that entry, summing to the wins. */
  predicate Tallied(table: seq<PrizeEntry>, runs: seq<Run>, bySymbol: map<Symbol, nat>, wins: nat) {
    && bySymbol.Keys == (set i | 0 <= i < |table| :: table[i].symbol)
    && (forall i :: 0 <= i < |table| ==> bySymbol[table[i].symbol] == CountSelected(table, runs, i))
    && SumCounts(table, bySymbol, |table|) == wins
    && wins == CountWins(table, runs)
  }

  lemma CountStep(table: seq<PrizeEntry>, runs: seq<Run>, x: Run)
    ensures CountWins(table, runs + [x]) == CountWins(table, runs) + (if Select(table, x.random).Some? then 1 else 0)
    ensures forall i: nat ::
      CountSelected(table, runs + [x], i) == CountSelected(table, runs, i) + (if Select(table, x.random) == Some(i) then 1 else 0)
  {
    assert (runs + [x])[..|runs|] == runs;
  }

  /** A run that selects entry `w` adds one to the wins and to key `w`. */
  lemma TallyWin(table: seq<PrizeEntry>, runs: seq<Run>, x: Run, bySymbol: map<Symbol, nat>, wins: nat, w: nat)
    requires DistinctKeys(table) && Tallied(table, runs, bySymbol, wins)
    requires Select(table, x.random) == Some(w)
    ensures Tallied(table, runs + [x], bySymbol[table[w].symbol := bySymbol[table[w].symbol] + 1], wins + 1)
  {
    var runs' := runs + [x];
    var key := table[w].symbol;
    var m' := bySymbol[key := bySymbol[key] + 1];
    CountStep(table, runs, x);
    assert m'.Keys == bySymbol.Keys;
    forall i | 0 <= i < |table|
      ensures m'[table[i].symbol] == CountSelected(table, runs', i)
    {
      if i != w {
        DistinctKeyAt(table, i, w);
      }
    }
    SumCountsIncrement(table, bySymbol, w, |table|);
  }

  /** A losing run changes no counter but the losses. */
  lemma TallyLoss(table: seq<PrizeEntry>, runs: seq<Run>, x: Run, bySymbol: map<Symbol, nat>, wins: nat)
    requires Tallied(table, runs, bySymbol, wins)
    requires Select(table, x.random).None?
    ensures Tallied(table, runs + [x], bySymbol, wins)
  {
    CountStep(table, runs, x);
  }

  /** One resolved spin, as `simulate` counts it: a win adds one to the wins
      and to the counter of the symbol shown, anything else is a loss. */
  lemma TallyRun(table: seq<PrizeEntry>, alphabet: seq<Symbol>, runs: seq<Run>, x: Run,
                 bySymbol: map<Symbol, nat>, wins: nat, res: Option<SpinResult>)
    requires |alphabet| > 0 && AllDraws(x.draws) && DistinctKeys(table)
    requires Tallied(table, runs, bySymbol, wins)
    requires res == Resolve(table, alphabet, x.random, x.draws)
    ensures res.Some? && res.value.isWin ==>
      |res.value.symbols| > 0 && res.value.symbols[0] in bySymbol &&
      Tallied(table, runs + [x], bySymbol[res.value.symbols[0] := bySymbol[res.value.symbols[0]] + 1], wins + 1)
    ensures !(res.Some? && res.value.isWin) ==> Tallied(table, runs + [x], bySymbol, wins)
  {
    ResolveWin(table, alphabet, x.random, x.draws);
    if res.Some? && res.value.isWin {
      var w := Select(table, x.random).value;
      TallyWin(table, runs, x, bySymbol, wins, w);
    } else {
      TallyLoss(table, runs, x, bySymbol, wins);
    }
  }

  /** One iteration of `simulate`: resolve the spin and bump the counters. */
  method SimulateOne(table: seq<PrizeEntry>, alphabet: seq<Symbol>, runs: seq<Run>, x: Run,
                     bySymbol: map<Symbol, nat>, wins: nat, losses: nat)
    returns (bySymbol': map<Symbol, nat>, wins': nat, losses': nat)
    requires |alphabet| > 0 && AllDraws(x.draws) && DistinctKeys(table)
    requires Tallied(table, runs, bySymbol, wins)
    ensures wins' + losses' == wins + losses + 1
    ensures Tallied(table, runs + [x], bySymbol', wins')
  {
    var result := DetermineResult(table, alphabet, x.random, x.draws);
    TallyRun(table, alphabet, runs, x, bySymbol, wins, result);
    if result.Some? && result.value.isWin {
      var symbol := result.value.symbols[0];
      bySymbol', wins', losses' := bySymbol[symbol := bySymbol[symbol] + 1], wins + 1, losses;
    } else {
      bySymbol', wins', losses' := bySymbol, wins, losses + 1;
    }
  }

  /**
   * `simulate`: resolve one spin per run and count wins, losses and wins per
   * prize symbol. A run whose loss stream ran out is counted as the loss it
   * already is.
   */
  method Simulate(table: seq<PrizeEntry>, alphabet: seq<Symbol>, runs: seq<Run>) returns (results: SimulationResult)
    requires |alphabet| > 0 && DistinctKeys(table)
    requires forall k :: 0 <= k < |runs| ==> AllDraws(runs[k].draws)
    ensures results.wins + results.losses == |runs|
    ensures Tallied(table, runs, results.bySymbol, results.wins)
    ensures results.winRate == if |runs| == 0 then None else Some(results.wins as real / |runs| as real)
    ensures results.loseRate == if |runs| == 0 then None else Some(results.losses as real / |runs| as real)
  {
    var wins: nat, losses: nat := 0, 0;
    var bySymbol := ZeroCounts(table);
    SumZeroCounts(table, |table|);
    var k := 0;
    while k < |runs|
      invariant 0 <= k <= |runs|
      invariant wins + losses == k
      invariant Tallied(table, runs[..k], bySymbol, wins)
    {
      bySymbol, wins, losses := SimulateOne(table, alphabet, runs[..k], runs[k], bySymbol, wins, losses);
      PrefixStep(runs, k);
      k := k + 1;
    }
    assert runs[..k] == runs;
    var winRate, loseRate := None, None;
    if |runs| > 0 {
      winRate := Some(wins as real / |runs| as real);
      loseRate := Some(losses as real / |runs| as real);
    }
    results := SimulationResult(wins, losses, bySymbol, winRate, loseRate);
  }
}
