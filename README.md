# Retro slot machine: a verified model of the game core

This project models the core of a one-shot browser slot machine:

- **Constants.** The reel alphabet `7 🍒 🍋 ⭐ 💎 🔔 ❌`, the ordered prize table (💎 1 %, ⭐ 2 %, 🔔 3 %, 7 4 %) and the game settings.
- **Outcome resolver.**
  - An inverse-CDF walk over the prize table in `Object.entries` order.
  - The win and loss result records.
  - The multiplier breakpoints.
  - The rejection loop that builds a losing combination.
  - The total win rate.
  - The developer simulation that counts outcomes.
- **Session state.** A record that the `GameState` object replaces on every change. The object has the operations `initialize`, `startSpin`, `completeSpin`, `reset`, `deserialize`, `canPlay` and `validateState`.
- **Reel animation.** The timers are abstracted away:
  - each timer callback becomes a loop iteration;
  - each awaited delay is recorded in a returned schedule;
  - a reel's on-screen position is an integer pixel offset.
- **Helpers.**
  - random element and random integer;
  - the probability test;
  - the Fisher–Yates shuffle on an array;
  - the deep copy of plain JSON-like data.

Every `Math.random()` becomes an injected real draw `r` with `0 <= r < 1` (`Helpers.IsDraw`). A call that consumes an unbounded number of draws gets a finite stream and returns `None` when the stream runs out. The rejection loop is the only such call.

The prize table is an ordered sequence of `PrizeEntry` rows. In the source it is an object literal keyed by symbol. `Object.entries` and `Object.values` list an object's array-index keys first and the other keys after them in insertion order (`Constants.EntriesOrder`). `'7'` is an array index, so the resolver walks the table as 7, 💎, ⭐, 🔔 (`Constants.PrizeWalk`), not in declaration order.

The definitions take the table and the alphabet as parameters. The facts about the configured values are stated by separate lemmas on `PrizeConfig` and `Symbols`.

Files:

- `Options.dfy`: `Option`.
- `Constants.dfy`: the configuration.
- `Helpers.dfy`: randomness, shuffle and deep copy.
- `Probability.dfy`: the resolver.
- `Simulation.dfy`: `simulate`.
- `GameState.dfy`: module `Session`, the state record and the `GameState` class.
- `Animation.dfy`: the `AnimationSystem` class and its reel model.

## Model

| member | source | states |
|---|---|---|
| Constants.PrizeRates | src/utils/Constants.js:6-31 | four prizes in declaration order with rates 0.01, 0.02, 0.03, 0.04, strictly increasing along the table |
| Constants.PrizeRateSum | src/utils/Constants.js:6-31 | the configured rates add up to exactly 0.10 |
| Constants.AlphabetShape | src/utils/Constants.js:4 | the alphabet has seven symbols, none repeated |
| Constants.ConfigIsValid | src/utils/Constants.js:4-31 | the prize keys are 💎, ⭐, 🔔, 7 in that order; they are distinct alphabet symbols; every rate is in (0, 1]; the rates sum to at most 1 |
| Constants.NonPrizeSymbols | src/utils/Constants.js:4-31 | 🍒, 🍋 and ❌ are not prize keys |
| Constants.EntriesOrder | src/systems/ProbabilitySystem.js:21 | the listing is a stable partition of the table: index-keyed rows first, the other rows after, and the table interleaves the two groups without reordering either |
| Constants.RowsInterleave | src/systems/ProbabilitySystem.js:21 | the table merges its index-keyed rows and its other rows, each in declaration order |
| Constants.EntriesOrderPermutes | src/systems/ProbabilitySystem.js:21 | the entry listing reorders the rows of the table without losing or adding any |
| Constants.PrizeWalkOrder | src/systems/ProbabilitySystem.js:21 | the configured table is walked 7, 💎, ⭐, 🔔, a permutation of its declaration order |
| Constants.PrizeWalkRates | src/systems/ProbabilitySystem.js:21-22 | along the walk the cumulative rate is 0.04, 0.05, 0.07, then 0.10 |
| Constants.WalkIsValid | src/systems/ProbabilitySystem.js:21 | the walked table is still valid for the alphabet and is keyed 7, 💎, ⭐, 🔔 |
| Constants.AnimationSettings | src/utils/Constants.js:33-43 | three reels, positive symbol height, minimum delay below maximum delay, positive tick counts |
| Helpers.RandomIndexIsFloor | src/utils/Helpers.js:8-10 | the index chosen is the `i` with `i <= r*n < i+1`, i.e. `Math.floor(r*n)` |
| Helpers.RandomElement | src/utils/Helpers.js:8-10 | `getRandomElement` returns a member of the (non-empty) array |
| Helpers.RandomInt | src/utils/Helpers.js:107-109 | `randomInt(min, max)` lies in the closed range `[min, max]` |
| Helpers.CalculateProbability | src/utils/Helpers.js:100-102 | true only when the draw is below the rate; a rate of 0 or less is never hit, a rate of 1 or more always is |
| Helpers.SwapIndex | src/utils/Helpers.js:117 | the drawn swap partner of position `i` lies in `[0, i]` |
| Helpers.SwapPermutes | src/utils/Helpers.js:118 | the destructuring swap keeps the multiset of elements |
| Helpers.Exchange | src/utils/Helpers.js:118 | the array after the swap is the old contents with positions `i` and `j` exchanged |
| Helpers.Shuffle | src/utils/Helpers.js:114-121 | for every draw stream the Fisher–Yates result has the same length and the same multiset of elements as its input |
| Helpers.ShuffleArray | src/utils/Helpers.js:114-121 | the loop returns a fresh array holding the shuffle of the input, a permutation of it; the argument array is not modified |
| Helpers.DeepClone | src/utils/Helpers.js:126-137 | the copy has the original's kind; a primitive or date is copied as is, an array keeps its length, an object keeps its keys except `"__proto__"`, in order. The copy never has an own `"__proto__"` key at any depth, and data without one is copied to an equal value |
| Helpers.CloneItems | src/utils/Helpers.js:129 | each element of the copy is the deep copy of the element at the same position; it equals the array when no element holds an own `"__proto__"` key |
| Helpers.CloneMembers | src/utils/Helpers.js:130-135 | the copy's keys are the original's keys without `"__proto__"`, in order: that assignment goes to the inherited setter. An object without such a key at any depth is copied to an equal one |
| Helpers.CloneMembersValues | src/utils/Helpers.js:130-135 | the copy is the members other than `"__proto__"`, position by position, each under its own key with its value deep-copied |
| Helpers.ProtoKeyNotCopied | src/utils/Helpers.js:131-133 | `{"__proto__": 5}` is copied to `{}` |
| Probability.GetMultiplier | src/systems/ProbabilitySystem.js:88-94 | the multiplier is between 1 and 100 and never exceeds the fair odds `1/rate` of a probability |
| Probability.MultiplierNonIncreasing | src/systems/ProbabilitySystem.js:88-94 | a rarer prize never pays less |
| Probability.ConfiguredMultipliers | src/systems/ProbabilitySystem.js:88-94 | the configured prizes pay 100, 50, 33 and 25 times |
| Probability.CreateWinResult | src/systems/ProbabilitySystem.js:35-46 | a win shows the prize symbol three times, with the prize, the `match3` type and a multiplier of at least 1 |
| Probability.CreateLoseResult | src/systems/ProbabilitySystem.js:51-59 | a loss keeps the given symbols and has no prize, no win type and multiplier 0 |
| Probability.IsWinningSymbol | src/systems/ProbabilitySystem.js:106-108 | (corrected) a symbol is winning iff some table row has it as its own key |
| Probability.IsWinningSymbolAsWritten | src/systems/ProbabilitySystem.js:106-108 | the `in` test accepts a symbol iff it is an own key of the table or an inherited object key |
| Probability.IsWinningCombination | src/systems/ProbabilitySystem.js:113-120 | (corrected) a combination is winning iff it is `[s, s, s]` for the key `s` of some table row |
| Probability.IsWinningCombinationAsWritten | src/systems/ProbabilitySystem.js:113-120 | the check as written accepts every combination the own-key check accepts; anything more is a triple of an inherited key |
| Probability.AlphabetNotInherited | src/utils/Constants.js:4 | no reel symbol is a key inherited from `Object.prototype` |
| Probability.ChecksAgreeOnAlphabet | src/systems/ProbabilitySystem.js:106-120 | on combinations of reel symbols the check as written and the own-key check agree |
| Probability.AsWrittenIffWin | src/systems/ProbabilitySystem.js:113-120 | on every spin resolved over the reel alphabet, the check as written holds iff the spin is a win |
| Probability.InheritedKeyPassesAsWritten | src/systems/ProbabilitySystem.js:113-120 | three `"toString"` symbols pass `isWinningCombination` as written but not the own-key reading |
| Probability.WinningCombinationIffWin | src/systems/ProbabilitySystem.js:113-120 | on every resolved spin, `isWinningCombination(symbols)` holds iff `isWin` |
| Probability.SelectFrom | src/systems/ProbabilitySystem.js:21-26 | the entry returned is the first, from `k` on, whose cumulative rate exceeds the draw; `None` means no entry from `k` on does |
| Probability.SelectIsFirstCrossing | src/systems/ProbabilitySystem.js:21-26 | the draw selects entry `i` iff the cumulative rate through `i` exceeds the draw and no earlier cumulative rate does |
| Probability.RateSumMonotone | src/systems/ProbabilitySystem.js:21-22 | with positive rates the running `cumulativeRate` never decreases |
| Probability.SelectInterval | src/systems/ProbabilitySystem.js:16-26 | entry `i` wins iff the draw lies in `[C(i), C(i+1))`, where `C(k)` is the cumulative rate of the first `k` entries |
| Probability.LoseInterval | src/systems/ProbabilitySystem.js:16-29 | the spin loses iff the draw is at least the sum of all rates |
| Probability.PrizeBands | src/systems/ProbabilitySystem.js:16-29 | on the configured table as walked, draws in [0, .04) win 7, [.04, .05) win 💎, [.05, .07) win ⭐, [.07, .10) win 🔔, and [.10, 1) lose |
| Probability.DeclaredOrderBands | src/systems/ProbabilitySystem.js:16-29 | (corrected) walked in declaration order, draws in [0, .01) would win 💎, [.01, .03) ⭐, [.03, .06) 🔔, [.06, .10) 7, and [.10, 1) lose |
| Probability.ThirdSymbol | src/systems/ProbabilitySystem.js:78-80 | the `do … while` yields an alphabet symbol that does not complete a triple |
| Probability.ThirdSymbolCompletes | src/systems/ProbabilitySystem.js:78-80 | a stream ending on a draw of another symbol always ends the rejection loop |
| Probability.LosingCombination | src/systems/ProbabilitySystem.js:64-83 | a generated combination has three alphabet symbols that are not all equal |
| Probability.GenerateLosingCombination | src/systems/ProbabilitySystem.js:64-83 | the imperative loop returns exactly the combination `LosingCombination` describes for the draw stream |
| Probability.Resolve | src/systems/ProbabilitySystem.js:16-59 | the result is a win iff the first draw selects an entry. It always has three symbols. Only a losing draw can leave no result |
| Probability.DetermineResult | src/systems/ProbabilitySystem.js:16-30 | the loop with its running cumulative rate returns exactly `Resolve`: a win for the first entry the draw crosses, otherwise a loss with a generated combination |
| Probability.ResolveShape | src/systems/ProbabilitySystem.js:16-59 | a win is `[s,s,s]` of the selected entry with its prize, `match3` and its multiplier; a loss has no prize, no win type, multiplier 0 and three symbols that are not all equal; all symbols are from the alphabet; only a losing draw can exhaust the stream |
| Probability.ResolveWin | src/systems/ProbabilitySystem.js:16-30 | the spin is a win iff the first draw selects an entry, and a win shows that entry's symbol |
| Probability.SevenFirstScenario | src/systems/ProbabilitySystem.js:16-46 | a draw of 0.005 gives 7-7-7, the lucky seven at 25 times |
| Probability.DiamondScenario | src/systems/ProbabilitySystem.js:16-46 | (corrected) walked in declaration order, a draw of 0.005 would give the 💎 jackpot at 100 times |
| Probability.LosingScenario | src/systems/ProbabilitySystem.js:16-59 | a draw of 0.999 loses with three symbols that are not all equal and multiplier 0 |
| Probability.FoldRatesIsSum | src/systems/ProbabilitySystem.js:126-127 | the `reduce` over the rates from any start value adds the table's rate sum to it |
| Probability.GetTotalWinRate | src/systems/ProbabilitySystem.js:125-128 | the total win rate equals the cumulative rate the resolver reaches after the whole table |
| Probability.LossBand | src/systems/ProbabilitySystem.js:125-128 | a draw loses iff it is at least the total win rate; the configured total win rate, summed in `Object.values` order, is 0.10 |
| Simulation.ZeroCounts | src/systems/ProbabilitySystem.js:164-166 | every prize key starts at 0, and the counters hold exactly the prize keys |
| Simulation.SumZeroCounts | src/systems/ProbabilitySystem.js:164-166 | the initial counters sum to zero |
| Simulation.SumCountsIncrement | src/systems/ProbabilitySystem.js:173 | with distinct keys, incrementing one key's counter adds one to the sum over all keys |
| Simulation.CountStep | src/systems/ProbabilitySystem.js:168-177 | one more run adds one to the win count iff it selects an entry, and one to entry `i`'s count iff it selects `i` |
| Simulation.TallyWin | src/systems/ProbabilitySystem.js:171-173 | a winning run keeps the tally exact: its key gains one, the other keys are unchanged, the sum equals the wins |
| Simulation.TallyLoss | src/systems/ProbabilitySystem.js:174-176 | a losing run leaves the win tally exact |
| Simulation.TallyRun | src/systems/ProbabilitySystem.js:169-176 | after one `determineResult`, bumping `bySymbol[symbols[0]]` on a win (or nothing on a loss) keeps the tally exact |
| Simulation.SimulateOne | src/systems/ProbabilitySystem.js:169-176 | one iteration adds exactly one to wins plus losses and keeps the tally exact |
| Simulation.Simulate | src/systems/ProbabilitySystem.js:156-184 | wins plus losses equals the number of iterations; each key's counter equals the number of runs whose draw selected that entry; the counters sum to the wins; the rates are wins and losses over iterations |
| Session.MergeStats | src/core/GameState.js:97 | `{ ...stats, ...saved }`: each counter present in the saved object overrides, each absent one is kept |
| Session.RecordResult | src/core/GameState.js:122-129 | one more game, and exactly one more win or one more loss; `gamesPlayed == wins + losses` is preserved |
| Session.Apply | src/core/GameState.js:77-79 | `{ ...state, ...updates }`: every field named in the update takes the new value, every other field is unchanged |
| Session.InitializeStep | src/core/GameState.js:92-103 | initialization sets the flag. Without saved data nothing else changes. With saved data it restores `hasPlayed` (absent as false), `lastResult`, and the counters merged key by key |
| Session.DeserializeStep | src/core/GameState.js:246-254 | no object: state unchanged. An object: the played flag, last result and counters are restored as `initialize` does; spinning, initialized and symbols are kept |
| Session.StartSpinStep | src/core/GameState.js:108-116 | accepted iff neither played nor spinning; accepted sets only `isSpinning`; refused changes nothing |
| Session.CompleteSpinStep | src/core/GameState.js:121-143 | the spin ends and is marked played; the result and its symbols are shown; the counters gain one game and one win or loss |
| Session.ResetStep | src/core/GameState.js:148-162 | back to the initial record, keeping only the initialization flag; a spin may start again |
| Session.ValidationOf | src/core/GameState.js:259-278 | valid iff there are no issues iff the displayed combination has three symbols |
| Session.PlayedUntilReset | src/core/GameState.js:108-143 | a played session stays played and refuses `startSpin` along every run of operations that are not a reset or a restore of an unplayed save |
| Session.CompletedSpinBlocksStart | src/core/GameState.js:108-143 | after `completeSpin`, every later `startSpin` in such a run is a no-op |
| Session.CanPlayIgnoresPlayed | src/core/GameState.js:181-184 | `canPlay` holds on a played, idle, initialized session that `startSpin` refuses |
| Session.StepKeepsTally | src/core/GameState.js:121-137 | every operation except a restore of saved counters keeps `gamesPlayed == wins + losses` |
| Session.TallyAlongRun | src/core/GameState.js:77-162 | `gamesPlayed == wins + losses` holds after any run of such operations |
| Session.ValidAlongRun | src/core/GameState.js:259-278 | a valid state stays valid along any run whose results carry three symbols |
| Session.OneSpinPerSession | src/core/GameState.js:7-143 | from a fresh session, the first `startSpin` is accepted; after `completeSpin` the next is refused, and the counters record exactly that one result |
| Session.GameState.constructor | src/core/GameState.js:7-31 | the new object holds the initial record |
| Session.GameState.UpdateState | src/core/GameState.js:77-87 | the record becomes its merge with the update |
| Session.GameState.Initialize | src/core/GameState.js:92-103 | the record becomes `InitializeStep` of the old record |
| Session.GameState.StartSpin | src/core/GameState.js:108-116 | returns whether the start was accepted; the record becomes `StartSpinStep` of the old one |
| Session.GameState.CompleteSpin | src/core/GameState.js:121-143 | the record becomes `CompleteSpinStep` of the old one |
| Session.GameState.Reset | src/core/GameState.js:148-162 | the record becomes `ResetStep` of the old one |
| Session.GameState.Deserialize | src/core/GameState.js:246-254 | the record becomes `DeserializeStep` of the old one |
| Animation.IndexOf | src/ui/AnimationSystem.js:83 | `indexOf` is -1 iff the symbol is absent; otherwise it is the first position holding it |
| Animation.Reposition | src/ui/AnimationSystem.js:82-88 | an unknown symbol leaves the offset unchanged. A known one moves it to a multiple of the symbol height within the alphabet's strip |
| Animation.RepositionIdentifies | src/ui/AnimationSystem.js:82-88 | on an alphabet without repeats, two known symbols get the same offset iff they are the same symbol |
| Animation.ReplayAppend | src/ui/AnimationSystem.js:45-62 | showing one sequence of symbols and then another is showing their concatenation |
| Animation.TickCount | src/ui/AnimationSystem.js:41 | a reel ticks at least 30 times, on the grid 30 + 15k |
| Animation.TickCounts | src/ui/AnimationSystem.js:41 | the reels tick 30, 45 and 60 times; a later reel ticks longer; every reel ticks at least once |
| Animation.TickSymbols | src/ui/AnimationSystem.js:46-50 | each tick shows `getRandomSymbol` of its own draw, a member of the alphabet |
| Animation.TickDelays | src/ui/AnimationSystem.js:53-57 | the `j`-th delay is the eased delay of tick `j + 1` |
| Animation.TickDelay | src/ui/AnimationSystem.js:53-57 | every eased delay lies between 20 and 120 ms |
| Animation.TickDelayMonotone | src/ui/AnimationSystem.js:53-57 | later ticks never wait less: the reel decelerates |
| Animation.LastTickDelay | src/ui/AnimationSystem.js:53-57 | the last tick waits exactly the 120 ms maximum |
| Animation.TickSchedule | src/ui/AnimationSystem.js:45-59 | a reel's tick schedule is bounded, non-decreasing, and ends on the maximum |
| Animation.StopIndex | src/ui/AnimationSystem.js:100 | the index computed by `smoothStopReel` is always inside the alphabet, even for an unknown final symbol |
| Animation.StopIndexPrecedesTarget | src/ui/AnimationSystem.js:95-103 | stop step `i` is `3 - i` places before the target in circular order |
| Animation.StopSymbols | src/ui/AnimationSystem.js:95-103 | the three stop steps show the symbols at `(f + n - 3 + i) % n` |
| Animation.StopSequenceKnown | src/ui/AnimationSystem.js:95-103 | for a known final symbol, the symbol shown at stop step `i` is `3 - i` places before it in circular order, so the last one is its predecessor |
| Animation.StopSequenceUnknown | src/ui/AnimationSystem.js:95-103 | for an unknown final symbol the stop steps show ⭐, 💎, 🔔 |
| Animation.RestingOffset | src/ui/AnimationSystem.js:93-108 | the resting offset lies within the alphabet's strip |
| Animation.ReelRestsOnTarget | src/ui/AnimationSystem.js:93-108 | whatever was shown before, the stop sequence leaves the reel on the final symbol when it is known, otherwise on the second-to-last symbol of the alphabet |
| Animation.RestingOffsets | src/ui/AnimationSystem.js:93-108 | on the reel alphabet a reel rests between -300 and 0 px; an unknown target rests on 🔔 at -250 px |
| Animation.RestingOffsetIdentifies | src/ui/AnimationSystem.js:82-108 | two known targets rest at the same offset iff they are the same symbol |
| Animation.AnimationSystem.constructor | src/ui/AnimationSystem.js:8-11 | not animating; reels and alphabet set |
| Animation.AnimationSystem.UpdateReelPosition | src/ui/AnimationSystem.js:82-88 | the reel offset becomes `Reposition` of its old offset |
| Animation.AnimationSystem.SmoothStopReel | src/ui/AnimationSystem.js:93-108 | shows the three stop symbols, then the final one; waits 80, 100, 120, 50 ms; the reel ends where that sequence leaves it |
| Animation.AnimationSystem.SpinReel | src/ui/AnimationSystem.js:45-59 | the tick loop shows `TickSymbols` with the `TickDelays` schedule, and the reel ends where they leave it |
| Animation.AnimationSystem.AnimateReel | src/ui/AnimationSystem.js:40-77 | ticks, then the stop sequence, then the extra 200 and 100 ms on the last reel; the reel rests at `RestingOffset` of its final symbol |
| Animation.AnimationSystem.AnimateReels | src/ui/AnimationSystem.js:16-35 | a call during an animation changes nothing. Otherwise it returns started, every present reel rests on its result symbol, and the flag is lowered again |
| Animation.AnimationSystem.StopAll | src/ui/AnimationSystem.js:294-306 | the animating flag is cleared |

`getRandomSymbol` is `Helpers.RandomElement` on the alphabet, in both `src/systems/ProbabilitySystem.js:99-101` and `src/ui/AnimationSystem.js:113-115`.

`GameState.canPlay`, `isGameComplete` and `validateState` are the class functions `CanPlay`, `IsGameComplete` and `ValidateState`. They read the record through `CanPlayIn` and `ValidationOf`. `AnimationSystem.isPlaying` is `IsPlaying`.

## Left out

- Probability.DetermineResult: the losing combination draws from a finite stream. The result is `None` when the rejection loop would need more draws than given. The source draws until it succeeds, and `Probability.ThirdSymbolCompletes` says when a stream suffices.
- Simulation.Simulate: `iterations` is the number of given runs, each with its own draws. With zero iterations the rates are `None`, where the source computes `0 / 0 = NaN`. A run whose stream ran out is counted as a loss, which it must be (`Probability.ResolveShape`).
- Session.ValidationOf: the two `typeof … === 'boolean'` checks cannot fail on a typed record and are not modelled.
- Animation.AnimationSystem.AnimateReels: the reels are animated one after the other. The source starts them together and awaits `Promise.all`, so the interleaving of their timers is not modelled. The flag is raised only for the duration of the call.
- Animation.AnimationSystem.AnimateReel: `setTimeout`, `delay` and the `Promise` are not modelled. The waits are returned as a schedule of delays instead.
- Animation.AnimationSystem.UpdateReelPosition: the CSS `transform` string is modelled as the integer offset it encodes.
- Animation.AnimationSystem.StopAll: the style resets (transition, animation, shadow, border) are DOM state and not modelled.
- Constants.EntriesOrder: array-index keys keep their declaration order instead of being sorted numerically, and the 2^32 − 2 bound on array indices is not modelled. The configured table has one index key, `'7'`, so its walk agrees with the source.
- Helpers.DeepClone: when an own `"__proto__"` member holds an object, the setter makes that object the copy's prototype. The prototype is not modelled; the model states the copy's own keys.
- The alphabet is a `const` field of `AnimationSystem` set to `Symbols`, where the source reads the global `SYMBOLS`.
- Rates and delays are exact reals rather than IEEE doubles. `Math.pow(x, 3)` is `x*x*x`.
- `getProbabilityInfo` and `getStats` build strings with `toFixed`. Number formatting is not modelled.
- `serialize`, `getSessionInfo`, `generateSessionId`, the start time and `Date.now()` are not modelled: they depend on the clock and random ids.
- The event listeners (`addEventListener`, `emit`) are not modelled: a listener is foreign code.
- `getState` and `get(key)` return shallow copies or fields of the record. The record itself is the model, and object identity is not.
- `debug` (console output) is not modelled.
- `deepClone`: whether copies are new objects (identity, aliasing) is not modelled.
- `delay`, `debounce`, `throttle` and the DOM helpers of `Helpers.js` are not modelled (timers and DOM).
- The visual effects of `AnimationSystem.js` are not modelled: `startSpinAnimation`, `showResultAnimation`, highlights, pulses, glows, shakes and `playStopEffect`.

## Findings

| source | as written | input that shows it | evidently intended | confidence | as-written member | corrected member |
|---|---|---|---|---|---|---|
| src/systems/ProbabilitySystem.js:21 | `Object.entries(this.prizeConfig)` lists the array-index key `'7'` first, so the table is walked 7, 💎, ⭐, 🔔 | a first draw of 0.005 gives 7-7-7 at 25 times | the bands in declaration order (the literal lists the rarest prize first), so a first draw of 0.005 would win the 💎 jackpot at 100 times; each symbol's win probability is the same in both orders | low, not executed | Probability.SevenFirstScenario | Probability.DiamondScenario |
| src/systems/ProbabilitySystem.js:106-108 | `symbol in this.prizeConfig` also accepts keys the plain object inherits from `Object.prototype`. Reel symbols are never such keys, so on resolved spins the defect stays latent (`Probability.AsWrittenIffWin`) | `isWinningCombination(["toString", "toString", "toString"])` returns true | only the table's own keys are prize symbols | medium, not executed | Probability.InheritedKeyPassesAsWritten | Probability.WinningCombinationIffWin |
