/**
 * The session state: whether the one spin of the session has been played,
 * whether a spin is in flight, the last result, the symbols on display and
 * the win/loss counters. The object replaces its whole `state` record on
 * every change, through `UpdateState`; each change is also given as a pure
 * transition on `State`, so that sequences of operations can be reasoned
 * about.
 */
module Session {
  import opened Options
  import opened Constants
  import opened Probability

  /** The statistics counters. */
  datatype Stats = Stats(gamesPlayed: int, wins: int, losses: int) {
    /** Every game played was counted as exactly one win or one loss. */
    predicate Consistent() {
      gamesPlayed == wins + losses
    }
  }

  const ZeroStats: Stats := Stats(0, 0, 0)

  /** A saved stats object: any subset of the counter keys. */
  datatype StatsPatch = StatsPatch(gamesPlayed: Option<int>, wins: Option<int>, losses: Option<int>)

  /** `{ ...stats, ...patch }`: a key present in the patch wins, an absent
      key (or an absent patch) keeps the current counter. */
  function MergeStats(current: Stats, patch: Option<StatsPatch>): (r: Stats)
    ensures patch.None? ==> r == current
    ensures patch.Some? ==>
      && (patch.value.gamesPlayed.Some? ==> r.gamesPlayed == patch.value.gamesPlayed.value)
      && (patch.value.gamesPlayed.None? ==> r.gamesPlayed == current.gamesPlayed)
      && (patch.value.wins.Some? ==> r.wins == patch.value.wins.value)
      && (patch.value.wins.None? ==> r.wins == current.wins)
      && (patch.value.losses.Some? ==> r.losses == patch.value.losses.value)
      && (patch.value.losses.None? ==> r.losses == current.losses)
  {
    match patch
    case None => current
    case Some(p) =>
      Stats(p.gamesPlayed.GetOr(current.gamesPlayed), p.wins.GetOr(current.wins), p.losses.GetOr(current.losses))
  }

  /** The counter update of `completeSpin`: one more game, and one more win
      or one more loss. */
  function RecordResult(s: Stats, isWin: bool): (r: Stats)
    ensures r.gamesPlayed == s.gamesPlayed + 1
    ensures r.wins + r.losses == s.wins + s.losses + 1
    ensures r.wins == s.wins + (if isWin then 1 else 0)
    ensures r.losses == s.losses + (if isWin then 0 else 1)
    ensures s.Consistent() ==> r.Consistent()
  {
    if isWin then s.(gamesPlayed := s.gamesPlayed + 1, wins := s.wins + 1)
    else s.(gamesPlayed := s.gamesPlayed + 1, losses := s.losses + 1)
  }

  /** The session record. Session id, start time and listeners are not
      modelled. */
  datatype State = State(
    hasPlayed: bool,
    isSpinning: bool,
    isInitialized: bool,
    lastResult: Option<SpinResult>,
    currentSymbols: seq<Symbol>,
    stats: Stats)

  /** The argument of `updateState`: the keys it is given, each with its new
      value (`lastResult` may be given as `null`). */
  datatype Update = Update(
    hasPlayed: Option<bool>,
    isSpinning: Option<bool>,
    isInitialized: Option<bool>,
    lastResult: Option<Option<SpinResult>>,
    currentSymbols: Option<seq<Symbol>>,
    stats: Option<Stats>)

  const NoUpdate: Update := Update(None, None, None, None, None, None)

  /** `{ ...state, ...updates }`: each given key takes its new value and every
      other key keeps its value. */
  function Apply(s: State, u: Update): (r: State)
    ensures u.hasPlayed.None? ==> r.hasPlayed == s.hasPlayed
    ensures u.hasPlayed.Some? ==> r.hasPlayed == u.hasPlayed.value
    ensures u.isSpinning.None? ==> r.isSpinning == s.isSpinning
    ensures u.isSpinning.Some? ==> r.isSpinning == u.isSpinning.value
    ensures u.isInitialized.None? ==> r.isInitialized == s.isInitialized
    ensures u.isInitialized.Some? ==> r.isInitialized == u.isInitialized.value
    ensures u.lastResult.None? ==> r.lastResult == s.lastResult
    ensures u.lastResult.Some? ==> r.lastResult == u.lastResult.value
    ensures u.currentSymbols.None? ==> r.currentSymbols == s.currentSymbols
    ensures u.currentSymbols.Some? ==> r.currentSymbols == u.currentSymbols.value
    ensures u.stats.None? ==> r.stats == s.stats
    ensures u.stats.Some? ==> r.stats == u.stats.value
  {
    State(
      u.hasPlayed.GetOr(s.hasPlayed),
      u.isSpinning.GetOr(s.isSpinning),
      u.isInitialized.GetOr(s.isInitialized),
      u.lastResult.GetOr(s.lastResult),
      u.currentSymbols.GetOr(s.currentSymbols),
      u.stats.GetOr(s.stats))
  }

  /** The symbols shown before any spin. */
  const InitialSymbols: seq<Symbol> := ["7", "🍒", "🍋"]

  /** The state a new session starts in. */
  const InitialState: State := State(false, false, false, None, InitialSymbols, ZeroStats)

  /** Saved progress: `hasPlayed`, `lastResult` and a stats object, each of
      which may be missing. */
  datatype SavedData = SavedData(hasPlayed: Option<bool>, lastResult: Option<SpinResult>, stats: Option<StatsPatch>)

  /** The update `initialize` and `deserialize` apply for saved data: a
      missing `hasPlayed` reads as false, a missing `lastResult` as null, and
      the saved counters override the current ones key by key. */
  function RestoreUpdate(s: State, data: SavedData): Update {
    NoUpdate.(
      hasPlayed := Some(data.hasPlayed.GetOr(false)),
      lastResult := Some(data.lastResult),
      stats := Some(MergeStats(s.stats, data.stats)))
  }

  // ---------------------------------------------------------------------
  // Transitions
  // ---------------------------------------------------------------------

  /** `initialize`: restore any saved data, then mark the session initialized. */
  function InitializeStep(s: State, saved: Option<SavedData>): (r: State)
    ensures r.isInitialized
    ensures r.isSpinning == s.isSpinning && r.currentSymbols == s.currentSymbols
    ensures saved.None? ==> r == s.(isInitialized := true)
    ensures saved.Some? ==> r.hasPlayed == (saved.value.hasPlayed == Some(true))
    ensures saved.Some? ==> r.lastResult == saved.value.lastResult
    ensures saved.Some? ==> r.stats == MergeStats(s.stats, saved.value.stats)
  {
    var restored := if saved.Some? then Apply(s, RestoreUpdate(s, saved.value)) else s;
    Apply(restored, NoUpdate.(isInitialized := Some(true)))
  }

  /** `deserialize`: restore from an object; anything else is ignored. */
  function DeserializeStep(s: State, data: Option<SavedData>): (r: State)
    ensures data.None? ==> r == s
    ensures r.isSpinning == s.isSpinning && r.isInitialized == s.isInitialized
    ensures r.currentSymbols == s.currentSymbols
    ensures data.Some? ==> r.hasPlayed == (data.value.hasPlayed == Some(true))
    ensures data.Some? ==> r.lastResult == data.value.lastResult
    ensures data.Some? ==> r.stats == MergeStats(s.stats, data.value.stats)
  {
    if data.Some? then Apply(s, RestoreUpdate(s, data.value)) else s
  }

  /** `startSpin` accepts only when no spin was played and none is running. */
  predicate MayStartSpin(s: State) {
    !s.hasPlayed && !s.isSpinning
  }

  /** `startSpin`: set `isSpinning` when accepted, change nothing otherwise. */
  function StartSpinStep(s: State): (r: State)
    ensures MayStartSpin(s) ==> r == s.(isSpinning := true)
    ensures !MayStartSpin(s) ==> r == s
    ensures r.hasPlayed == s.hasPlayed && r.stats == s.stats
  {
    if MayStartSpin(s) then Apply(s, NoUpdate.(isSpinning := Some(true))) else s
  }

  /** `completeSpin`: the spin is over and played, the result is shown and
      counted. */
  function CompleteSpinStep(s: State, result: SpinResult): (r: State)
    ensures !r.isSpinning && r.hasPlayed && r.isInitialized == s.isInitialized
    ensures r.lastResult == Some(result) && r.currentSymbols == result.symbols
    ensures r.stats.gamesPlayed == s.stats.gamesPlayed + 1
    ensures r.stats.wins == s.stats.wins + (if result.isWin then 1 else 0)
    ensures r.stats.losses == s.stats.losses + (if result.isWin then 0 else 1)
    ensures s.stats.Consistent() ==> r.stats.Consistent()
  {
    Apply(s, Update(Some(true), Some(false), None, Some(Some(result)), Some(result.symbols), Some(RecordResult(s.stats, result.isWin))))
  }

  /** `reset`: back to a fresh session, keeping the initialization flag. */
  function ResetStep(s: State): (r: State)
    ensures r == InitialState.(isInitialized := s.isInitialized)
    ensures MayStartSpin(r) && r.stats.Consistent()
  {
    Apply(s, Update(Some(false), Some(false), None, Some(None), Some(InitialSymbols), Some(ZeroStats)))
  }

  /** `canPlay`: not spinning and initialized (the played flag is not
      consulted). */
  predicate CanPlayIn(s: State) {
    !s.isSpinning && s.isInitialized
  }

  /** The result of `validateState`. */
  datatype Validation = Validation(isValid: bool, issues: seq<string>)

  /** `validateState`. The two type checks of the source always pass on a
      typed record; what remains is the length of `currentSymbols`. */
  function ValidationOf(s: State): (v: Validation)
    ensures v.isValid <==> v.issues == []
    ensures v.isValid <==> |s.currentSymbols| == 3
  {
    var issues := if |s.currentSymbols| != 3 then ["currentSymbols must be array of length 3"] else [];
    Validation(|issues| == 0, issues)
  }

  // ---------------------------------------------------------------------
  // Traces of operations
  // ---------------------------------------------------------------------

  datatype Op =
    | InitializeOp(saved: Option<SavedData>)
    | StartSpinOp
    | CompleteSpinOp(result: SpinResult)
    | ResetOp
    | DeserializeOp(data: Option<SavedData>)

  function Step(s: State, op: Op): State {
    match op
    case InitializeOp(saved) => InitializeStep(s, saved)
    case StartSpinOp => StartSpinStep(s)
    case CompleteSpinOp(result) => CompleteSpinStep(s, result)
    case ResetOp => ResetStep(s)
    case DeserializeOp(data) => DeserializeStep(s, data)
  }

  /** The state after performing `ops` in order. */
  function Run(s: State, ops: seq<Op>): State
    decreases |ops|
  {
    if ops == [] then s else Run(Step(s, ops[0]), ops[1..])
  }

  /** Operations that leave a played session played: everything except
      `reset`, and a restore whose saved data does not say "not played". */
  predicate KeepsPlayed(op: Op) {
    match op
    case ResetOp => false
    case InitializeOp(saved) => saved.None? || saved.value.hasPlayed == Some(true)
    case DeserializeOp(data) => data.None? || data.value.hasPlayed == Some(true)
    case _ => true
  }

  /** Once a spin is complete, every later `startSpin` is refused until a
      `reset` (or a restore that clears the played flag). */
  lemma {:induction false} PlayedUntilReset(s: State, ops: seq<Op>)
    requires s.hasPlayed
    requires forall k :: 0 <= k < |ops| ==> KeepsPlayed(ops[k])
    ensures Run(s, ops).hasPlayed && !MayStartSpin(Run(s, ops))
    decreases |ops|
  {
    if ops != [] {
      PlayedUntilReset(Step(s, ops[0]), ops[1..]);
    }
  }

  /** After `completeSpin`, `startSpin` is refused along any run of
      operations that keep the session played. */
  lemma CompletedSpinBlocksStart(s: State, result: SpinResult, ops: seq<Op>)
    requires forall k :: 0 <= k < |ops| ==> KeepsPlayed(ops[k])
    ensures StartSpinStep(Run(CompleteSpinStep(s, result), ops)) == Run(CompleteSpinStep(s, result), ops)
  {
    PlayedUntilReset(CompleteSpinStep(s, result), ops);
  }

  /** `canPlay` ignores the played flag: a played, idle, initialized session
      passes the gate while `startSpin` refuses it. */
  lemma CanPlayIgnoresPlayed(s: State)
    requires s.hasPlayed && !s.isSpinning && s.isInitialized
    ensures CanPlayIn(s) && !MayStartSpin(s) && StartSpinStep(s) == s
  {
  }

  /** Operations that keep the counters consistent: all but a restore that
      brings saved counters. */
  predicate KeepsTally(op: Op) {
    match op
    case InitializeOp(saved) => saved.None? || saved.value.stats.None?
    case DeserializeOp(data) => data.None? || data.value.stats.None?
    case _ => true
  }

  lemma StepKeepsTally(s: State, op: Op)
    requires s.stats.Consistent() && KeepsTally(op)
    ensures Step(s, op).stats.Consistent()
  {
    match op
    case InitializeOp(saved) =>
    case StartSpinOp =>
    case CompleteSpinOp(result) =>
    case ResetOp =>
    case DeserializeOp(data) =>
  }

  /** `gamesPlayed == wins + losses` holds along every run of such
      operations. */
  lemma {:induction false} TallyAlongRun(s: State, ops: seq<Op>)
    requires s.stats.Consistent()
    requires forall k :: 0 <= k < |ops| ==> KeepsTally(ops[k])
    ensures Run(s, ops).stats.Consistent()
    decreases |ops|
  {
    if ops != [] {
      StepKeepsTally(s, ops[0]);
      TallyAlongRun(Step(s, ops[0]), ops[1..]);
    }
  }

  /** The state stays valid along every run whose results carry three
      symbols. */
  lemma {:induction false} ValidAlongRun(s: State, ops: seq<Op>)
    requires ValidationOf(s).isValid
    requires forall k :: 0 <= k < |ops| ==> ops[k].CompleteSpinOp? ==> |ops[k].result.symbols| == 3
    ensures ValidationOf(Run(s, ops)).isValid
    decreases |ops|
  {
    if ops != [] {
      ValidAlongRun(Step(s, ops[0]), ops[1..]);
    }
  }

  /** A session plays once: initialize, start (accepted), complete, start
      again (refused). */
  lemma OneSpinPerSession(result: SpinResult)
    ensures var s1 := InitializeStep(InitialState, None);
      && MayStartSpin(s1)
      && var s2 := CompleteSpinStep(StartSpinStep(s1), result);
      && !MayStartSpin(s2)
      && s2.stats == Stats(1, if result.isWin then 1 else 0, if result.isWin then 0 else 1)
  {
  }

  // ---------------------------------------------------------------------
  // The object
  // ---------------------------------------------------------------------

  class GameState {
    var state: State

    constructor()
      ensures state == InitialState
    {
      state := InitialState;
    }

    /** `updateState`: replace the record by its merge with `updates`. */
    method UpdateState(updates: Update)
      modifies this
      ensures state == Apply(old(state), updates)
    {
      state := Apply(state, updates);
    }

    method Initialize(saved: Option<SavedData>)
      modifies this
      ensures state == InitializeStep(old(state), saved)
      ensures state.isInitialized
    {
      if saved.Some? {
        UpdateState(RestoreUpdate(state, saved.value));
      }
      UpdateState(NoUpdate.(isInitialized := Some(true)));
    }

    method StartSpin() returns (started: bool)
      modifies this
      ensures started == MayStartSpin(old(state))
      ensures state == StartSpinStep(old(state))
    {
      if state.hasPlayed || state.isSpinning {
        return false;
      }
      UpdateState(NoUpdate.(isSpinning := Some(true)));
      return true;
    }

    method CompleteSpin(result: SpinResult)
      modifies this
      ensures state == CompleteSpinStep(old(state), result)
      ensures state.stats.gamesPlayed == old(state.stats.gamesPlayed) + 1
    {
      var newStats := RecordResult(state.stats, result.isWin);
      UpdateState(Update(Some(true), Some(false), None, Some(Some(result)), Some(result.symbols), Some(newStats)));
    }

    method Reset()
      modifies this
      ensures state == ResetStep(old(state))
      ensures state.isInitialized == old(state.isInitialized)
    {
      UpdateState(Update(Some(false), Some(false), None, Some(None), Some(InitialSymbols), Some(ZeroStats)));
    }

    method Deserialize(data: Option<SavedData>)
      modifies this
      ensures state == DeserializeStep(old(state), data)
    {
      if data.Some? {
        UpdateState(RestoreUpdate(state, data.value));
      }
    }

    function CanPlay(): bool
      reads this
    {
      CanPlayIn(state)
    }

    function IsGameComplete(): bool
      reads this
    {
      state.hasPlayed
    }

    function ValidateState(): Validation
      reads this
    {
      ValidationOf(state)
    }
  }
}
