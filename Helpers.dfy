/**
 * The randomness helpers and the deep copy of plain data. Every use of
 * `Math.random()` is replaced by an injected draw `r` with `0 <= r < 1`.
 */
module Helpers {

  /** A draw of `Math.random()`. */
  predicate IsDraw(r: real) {
    0.0 <= r < 1.0
  }

  /** A stream of draws. */
  predicate AllDraws(ds: seq<real>) {
    forall i :: 0 <= i < |ds| ==> IsDraw(ds[i])
  }

  /** `Math.floor(r * n)`: the index a draw selects among `n` slots. */
  function RandomIndex(n: nat, r: real): (i: nat)
    requires n > 0 && IsDraw(r)
    ensures i < n
  {
    assert r * n as real < n as real by {
      assert (1.0 - r) * n as real > 0.0;
    }
    (r * n as real).Floor
  }

  /** The selected slot is the one whose interval `[i/n, (i+1)/n)` holds the draw. */
  lemma RandomIndexIsFloor(n: nat, r: real)
    requires n > 0 && IsDraw(r)
    ensures var i := RandomIndex(n, r); i as real <= r * n as real < i as real + 1.0
  {
  }

  /** `getRandomElement`: the element at `floor(r * |a|)`, which is a member. */
  function RandomElement<T>(a: seq<T>, r: real): (x: T)
    requires |a| > 0 && IsDraw(r)
    ensures x in a
  {
    a[RandomIndex(|a|, r)]
  }

  /** `randomInt`: an integer of the closed range `[min, max]`. */
  function RandomInt(min: int, max: int, r: real): (k: int)
    requires min <= max && IsDraw(r)
    ensures min <= k <= max
  {
    RandomIndex(max - min + 1, r) + min
  }

  /** `calculateProbability`: true iff the draw falls under the rate. */
  function CalculateProbability(rate: real, r: real): (b: bool)
    requires IsDraw(r)
    ensures rate <= 0.0 ==> !b
    ensures rate >= 1.0 ==> b
    ensures b ==> r < rate
  {
    r < rate
  }

  /** A prefix one longer is the shorter prefix plus the next element. */
  lemma PrefixStep<T>(s: seq<T>, i: nat)
    requires i < |s|
    ensures s[..i + 1] == s[..i] + [s[i]]
  {
  }

  /** The swap index chosen at step `i` of the shuffle lies in `[0, i]`. */
  function SwapIndex(i: nat, r: real): (j: nat)
    requires IsDraw(r)
    ensures j <= i
  {
    RandomIndex(i + 1, r)
  }

  /** Exchange two positions. */
  function Swap<T>(s: seq<T>, i: nat, j: nat): (t: seq<T>)
    requires i < |s| && j < |s|
    ensures |t| == |s|
  {
    s[i := s[j]][j := s[i]]
  }

  /** An exchange keeps the multiset of elements. */
  lemma SwapPermutes<T>(s: seq<T>, i: nat, j: nat)
    requires i < |s| && j < |s|
    ensures multiset(Swap(s, i, j)) == multiset(s)
  {
  }

  /** `[a[i], a[j]] = [a[j], a[i]]` on an array. */
  method Exchange<T>(a: array<T>, i: nat, j: nat)
    requires i < a.Length && j < a.Length
    modifies a
    ensures a[..] == Swap(old(a[..]), i, j)
  {
    a[i], a[j] := a[j], a[i];
  }

  /** The steps `i, i-1, ..., 1` of Fisher-Yates; step `i` uses draw number `|s| - 1 - i`. */
  function ShuffleSteps<T>(s: seq<T>, draws: seq<real>, i: nat): seq<T>
    requires i < |s| && |s| - 1 <= |draws| && AllDraws(draws)
    decreases i
  {
    if i == 0 then s
    else ShuffleSteps(Swap(s, i, SwapIndex(i, draws[|s| - 1 - i])), draws, i - 1)
  }

  /** The sequence `shuffleArray` returns for the given draws: whatever the
      draws, a permutation of its input. */
  function Shuffle<T>(s: seq<T>, draws: seq<real>): (t: seq<T>)
    requires |s| - 1 <= |draws| && AllDraws(draws)
    ensures |t| == |s|
    ensures multiset(t) == multiset(s)
  {
    if |s| == 0 then s
    else
      ShuffleStepsPermutes(s, draws, |s| - 1);
      ShuffleSteps(s, draws, |s| - 1)
  }

  lemma {:induction false} ShuffleStepsPermutes<T>(s: seq<T>, draws: seq<real>, i: nat)
    requires i < |s| && |s| - 1 <= |draws| && AllDraws(draws)
    ensures |ShuffleSteps(s, draws, i)| == |s|
    ensures multiset(ShuffleSteps(s, draws, i)) == multiset(s)
    decreases i
  {
    if i > 0 {
      var t := Swap(s, i, SwapIndex(i, draws[|s| - 1 - i]));
      SwapPermutes(s, i, SwapIndex(i, draws[|s| - 1 - i]));
      ShuffleStepsPermutes(t, draws, i - 1);
      assert ShuffleSteps(s, draws, i) == ShuffleSteps(t, draws, i - 1);
    }
  }

  /**
   * `shuffleArray`: copy the array, then for `i` from the last index down to
   * 1 swap position `i` with a drawn position `j <= i`. The argument is not
   * in the frame (no `modifies a`), so it is left untouched.
   */
  method ShuffleArray<T>(a: array<T>, draws: seq<real>) returns (shuffled: array<T>)
    requires a.Length - 1 <= |draws| && AllDraws(draws)
    ensures fresh(shuffled)
    ensures shuffled[..] == Shuffle(a[..], draws)
    ensures multiset(shuffled[..]) == multiset(a[..])
  {
    ghost var original := a[..];
    var copy := a[..];
    shuffled := new T[a.Length](k requires 0 <= k < |copy| => copy[k]);
    assert shuffled[..] == original;
    var i := a.Length - 1;
    while i > 0
      invariant -1 <= i < a.Length == shuffled.Length
      invariant a.Length > 0 ==> 0 <= i && ShuffleSteps(shuffled[..], draws, i) == Shuffle(original, draws)
      decreases i
    {
      var j := SwapIndex(i, draws[a.Length - 1 - i]);
      ghost var before := shuffled[..];
      Exchange(shuffled, i, j);
      assert ShuffleSteps(before, draws, i) == ShuffleSteps(shuffled[..], draws, i - 1);
      i := i - 1;
    }
    if a.Length > 0 {
      assert i == 0 && ShuffleSteps(shuffled[..], draws, 0) == shuffled[..];
    }
  }

  /**
   * The JSON-like values `deepClone` handles: primitives, dates, arrays and
   * plain objects (keys in enumeration order).
   */
  datatype Json =
    | JNull
    | JUndefined
    | JBool(b: bool)
    | JNumber(n: real)
    | JString(s: string)
    | JDate(time: int)
    | JArray(items: seq<Json>)
    | JObject(members: seq<Member>)

  datatype Member = Member(key: string, value: Json)

  /** No object at any depth has an own `"__proto__"` key. */
  predicate ProtoFree(v: Json)
    decreases v
  {
    match v
    case JArray(items) => ItemsProtoFree(items)
    case JObject(members) => MembersProtoFree(members)
    case _ => true
  }

  predicate ItemsProtoFree(items: seq<Json>)
    decreases items
  {
    items == [] || (ProtoFree(items[0]) && ItemsProtoFree(items[1..]))
  }

  predicate MembersProtoFree(members: seq<Member>)
    decreases members
  {
    members == [] ||
    (members[0].key != "__proto__" && ProtoFree(members[0].value) && MembersProtoFree(members[1..]))
  }

  /** The keys of an object's members, in order. */
  function KeysOf(members: seq<Member>): (ks: seq<string>)
    ensures |ks| == |members|
    ensures forall k :: 0 <= k < |ks| ==> ks[k] == members[k].key
  {
    if members == [] then [] else [members[0].key] + KeysOf(members[1..])
  }

  /** `s` with every occurrence of `x` removed, the rest in order. */
  function Without(s: seq<string>, x: string): (r: seq<string>)
    ensures forall y :: y in r <==> y in s && y != x
  {
    if s == [] then [] else if s[0] == x then Without(s[1..], x) else [s[0]] + Without(s[1..], x)
  }

  /** `deepClone`: primitives are returned, a date is rebuilt from its time,
      arrays and objects are rebuilt element by element. The copy has the
      same kind as the original; an array keeps its length, an object keeps
      its keys except `"__proto__"`. The copy never has an own
      `"__proto__"` key, and data without one is copied exactly. */
  function DeepClone(v: Json): (c: Json)
    ensures c.JArray? <==> v.JArray?
    ensures c.JObject? <==> v.JObject?
    ensures !v.JArray? && !v.JObject? ==> c == v
    ensures v.JArray? ==> |c.items| == |v.items|
    ensures v.JObject? ==> KeysOf(c.members) == Without(KeysOf(v.members), "__proto__")
    ensures ProtoFree(c)
    ensures ProtoFree(v) ==> c == v
    decreases v
  {
    match v
    case JDate(t) => JDate(t)
    case JArray(items) => JArray(CloneItems(items))
    case JObject(members) => JObject(CloneMembers(members))
    case _ => v
  }

  /** `obj.map(item => deepClone(item))`. */
  function CloneItems(items: seq<Json>): (cs: seq<Json>)
    ensures |cs| == |items|
    ensures forall k :: 0 <= k < |cs| ==> cs[k] == DeepClone(items[k])
    ensures ItemsProtoFree(cs)
    ensures ItemsProtoFree(items) ==> cs == items
    decreases items
  {
    if items == [] then []
    else
      var cs := [DeepClone(items[0])] + CloneItems(items[1..]);
      assert forall k :: 1 <= k < |cs| ==> items[k] == items[1..][k - 1];
      cs
  }

  /**
   * `Object.keys(obj).forEach(key => copy[key] = deepClone(obj[key]))`. The
   * assignment `copy["__proto__"] = …` goes to the inherited `__proto__`
   * setter instead of creating an own key, so that member is not copied.
   */
  function CloneMembers(members: seq<Member>): (cs: seq<Member>)
    ensures KeysOf(cs) == Without(KeysOf(members), "__proto__")
    ensures MembersProtoFree(cs)
    ensures MembersProtoFree(members) ==> cs == members
    decreases members
  {
    if members == [] then []
    else
      var rest := CloneMembers(members[1..]);
      assert KeysOf(members)[1..] == KeysOf(members[1..]);
      if members[0].key == "__proto__" then rest
      else
        var cs := [Member(members[0].key, DeepClone(members[0].value))] + rest;
        assert cs[1..] == rest;
        cs
  }

  /** The members the copy can receive as own keys: all but `"__proto__"`,
      in order. */
  function OwnMembers(members: seq<Member>): (r: seq<Member>)
    ensures forall m :: m in r <==> m in members && m.key != "__proto__"
  {
    if members == [] then []
    else if members[0].key == "__proto__" then OwnMembers(members[1..])
    else [members[0]] + OwnMembers(members[1..])
  }

  /** The object copy is the original's members without `"__proto__"`,
      position by position, each value deep-copied under its own key. */
  lemma {:induction false} CloneMembersValues(members: seq<Member>)
    ensures |CloneMembers(members)| == |OwnMembers(members)|
    ensures forall k :: 0 <= k < |CloneMembers(members)| ==>
      CloneMembers(members)[k] == Member(OwnMembers(members)[k].key, DeepClone(OwnMembers(members)[k].value))
  {
    if members != [] {
      CloneMembersValues(members[1..]);
    }
  }

  /** An own `"__proto__"` key, as `JSON.parse` creates it, is lost in the
      copy: `{"__proto__": 5}` is copied to `{}`. */
  lemma ProtoKeyNotCopied()
    ensures DeepClone(JObject([Member("__proto__", JNumber(5.0))])) == JObject([])
  {
    var ms := [Member("__proto__", JNumber(5.0))];
    assert ms[1..] == [];
  }
}
