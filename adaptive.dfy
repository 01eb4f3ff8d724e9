/**
 * Adaptive learning for contest mode: a session-wide tally of the callsign
 * characters the trainee has missed, and the weighted character draw that
 * makes a missed character come up more often in later callsigns. Each
 * recorded mistake adds half a unit to a character's weight, which starts at
 * one unit and is capped at five.
 */
module Adaptive {
  import opened Common

  /** `BASE_WEIGHT`. */
  const BaseWeight: real := 1.0
  /** `MISTAKE_WEIGHT_MULTIPLIER`. */
  const MistakeWeightMultiplier: real := 0.5
  /** `MAX_WEIGHT_MULTIPLIER`. */
  const MaxWeightMultiplier: real := 5.0

  /** `characterMistakes[c] || 0`. */
  function Count(m: map<char, nat>, c: char): nat
  {
    if c in m then m[c] else 0
  }

  /**
   * `getCharacterWeight` over the tally `m`: one unit plus half a unit per
   * recorded mistake of the upper-cased character, never more than five.
   */
  function Weight(m: map<char, nat>, c: char): (w: real)
    ensures BaseWeight <= w <= MaxWeightMultiplier
  {
    Min'(BaseWeight + Count(m, UpperChar(c)) as real * MistakeWeightMultiplier, MaxWeightMultiplier)
  }

  /** `Math.min` on numbers. */
  function Min'(a: real, b: real): (r: real)
    ensures r <= a && r <= b && (r == a || r == b)
  {
    if a <= b then a else b
  }

  /** Eight mistakes reach the cap; below it every mistake adds exactly half a unit. */
  lemma WeightSteps(m: map<char, nat>, c: char)
    ensures Count(m, UpperChar(c)) >= 8 ==> Weight(m, c) == MaxWeightMultiplier
    ensures Count(m, UpperChar(c)) < 8 ==> Weight(m, c) == 1.0 + Count(m, UpperChar(c)) as real / 2.0
  {
  }

  /** Upper and lower case of a letter share one weight. */
  lemma WeightIgnoresCase(m: map<char, nat>, c: char)
    ensures Weight(m, c) == Weight(m, UpperChar(c))
  {
    assert UpperChar(UpperChar(c)) == UpperChar(c);
  }

  /** More recorded mistakes never lower a weight. */
  lemma WeightMonotone(m: map<char, nat>, m': map<char, nat>, c: char)
    requires Count(m, UpperChar(c)) <= Count(m', UpperChar(c))
    ensures Weight(m, c) <= Weight(m', c)
  {
  }

  /** The tally after one more mistake on `c`. */
  function Bump(m: map<char, nat>, c: char): map<char, nat>
  {
    m[c := Count(m, c) + 1]
  }

  /** The tally after one mistake on each character of `cs`, in order. */
  function Tally(m: map<char, nat>, cs: seq<char>): map<char, nat>
  {
    if cs == [] then m else Bump(Tally(m, cs[..|cs| - 1]), cs[|cs| - 1])
  }

  /** Tallying adds, for every character, the number of times it occurs in `cs`. */
  lemma {:induction false} TallyCounts(m: map<char, nat>, cs: seq<char>, c: char)
    ensures Count(Tally(m, cs), c) == Count(m, c) + multiset(cs)[c]
  {
    if cs != [] {
      var init := cs[..|cs| - 1];
      assert cs == init + [cs[|cs| - 1]];
      TallyCounts(m, init, c);
    }
  }

  /** Tallying only adds keys from `cs`, and never a zero count. */
  lemma {:induction false} TallyKeys(m: map<char, nat>, cs: seq<char>)
    ensures forall c :: c in Tally(m, cs) ==> c in m || c in cs
    ensures forall c :: c in Tally(m, cs) && c !in m ==> Tally(m, cs)[c] >= 1
    ensures forall c :: c in m ==> c in Tally(m, cs) && Tally(m, cs)[c] >= m[c]
  {
    if cs != [] {
      TallyKeys(m, cs[..|cs| - 1]);
    }
  }

  /**
   * A recorded miss never lowers the character's weight, and raises it by
   * half a unit unless the weight was already at the cap.
   */
  lemma MissRaisesWeight(m: map<char, nat>, cs: seq<char>, c: char)
    requires c in cs && UpperChar(c) == c
    ensures Weight(Tally(m, cs), c) >= Weight(m, c)
    ensures Weight(m, c) < MaxWeightMultiplier ==>
              Weight(Tally(m, cs), c) >= Weight(m, c) + MistakeWeightMultiplier
  {
    TallyCounts(m, cs, c);
  }

  /**
   * Position `i` is a miss: the expected callsign has a character there, the
   * entry has none or a different one, and it is an upper-case letter or digit.
   */
  predicate MissedAt(e: string, inp: string, i: nat)
  {
    i < |e| && (i >= |inp| || e[i] != inp[i]) && IsUpperAlnum(e[i])
  }

  /** The characters recorded for the first `n` positions of the expected callsign, in position order. */
  function Missed(e: string, inp: string, n: nat): (r: seq<char>)
    requires n <= |e|
    ensures |r| <= n
  {
    if n == 0 then []
    else Missed(e, inp, n - 1) + (if MissedAt(e, inp, n - 1) then [e[n - 1]] else [])
  }

  /** An entry that matches the callsign records nothing. */
  lemma {:induction false} MissedNothingWhenCorrect(e: string, n: nat)
    requires n <= |e|
    ensures Missed(e, e, n) == []
  {
    if n > 0 {
      MissedNothingWhenCorrect(e, n - 1);
    }
  }

  /** The positions below `n` where `c` is missed. */
  ghost function MissPositions(e: string, inp: string, n: nat, c: char): set<nat>
  {
    set i: nat | i < n && MissedAt(e, inp, i) && e[i] == c
  }

  /** One more position adds itself to the positions of `c` exactly when `c` is missed there. */
  lemma MissPositionsStep(e: string, inp: string, n: nat, c: char)
    requires 0 < n
    ensures n - 1 !in MissPositions(e, inp, n - 1, c)
    ensures MissPositions(e, inp, n, c)
            == MissPositions(e, inp, n - 1, c) + if MissedAt(e, inp, n - 1) && e[n - 1] == c then {n - 1} else {}
  {
  }

  /** Every position the entry does not reach, or gets wrong, is recorded once per occurrence. */
  lemma {:induction false} MissedCountsPositions(e: string, inp: string, n: nat, c: char)
    requires n <= |e|
    ensures multiset(Missed(e, inp, n))[c] == |MissPositions(e, inp, n, c)|
  {
    if n > 0 {
      MissedCountsPositions(e, inp, n - 1, c);
      MissPositionsStep(e, inp, n, c);
      var tail := if MissedAt(e, inp, n - 1) then [e[n - 1]] else [];
      assert Missed(e, inp, n) == Missed(e, inp, n - 1) + tail;
      assert multiset(Missed(e, inp, n)) == multiset(Missed(e, inp, n - 1)) + multiset(tail);
    }
  }

  /** Tallying one more character bumps its count. */
  lemma TallyAppendOne(m: map<char, nat>, cs: seq<char>, c: char)
    ensures Tally(m, cs + [c]) == Bump(Tally(m, cs), c)
  {
    assert (cs + [c])[..|cs|] == cs;
  }

  /** One more position of the scan adds its character to the tally exactly when it is a miss. */
  lemma TallyMissedStep(m: map<char, nat>, e: string, inp: string, i: nat)
    ensures var before := Tally(m, Missed(e, inp, Min(i, |e|)));
            Tally(m, Missed(e, inp, Min(i + 1, |e|)))
            == if MissedAt(e, inp, i) then Bump(before, e[i]) else before
  {
    if i < |e| {
      assert Min(i, |e|) == i && Min(i + 1, |e|) == i + 1;
      var done := Missed(e, inp, i);
      if MissedAt(e, inp, i) {
        assert Missed(e, inp, i + 1) == done + [e[i]];
        TallyAppendOne(m, done, e[i]);
      } else {
        assert Missed(e, inp, i + 1) == done + [];
        assert done + [] == done;
      }
    } else {
      assert Min(i, |e|) == |e| == Min(i + 1, |e|);
    }
  }

  /** Entries equal to the callsign up to case record nothing. */
  lemma EqualUpToCaseRecordsNothing(m: map<char, nat>, expected: string, input: string)
    requires Upper(expected) == Upper(input)
    ensures Tally(m, Missed(Upper(expected), Upper(input), |expected|)) == m
  {
    MissedNothingWhenCorrect(Upper(expected), |expected|);
  }

  /** The tally holds only upper-case letters and digits, each with at least one mistake. */
  ghost predicate WellFormed(m: map<char, nat>)
  {
    forall c :: c in m ==> IsUpperAlnum(c) && m[c] >= 1
  }

  /** A mistake on a letter or digit keeps the tally well formed. */
  lemma BumpKeepsWellFormed(m: map<char, nat>, c: char)
    requires WellFormed(m) && IsUpperAlnum(c)
    ensures WellFormed(Bump(m, c))
  {
  }

  /**
   * `allowedChars.map(getCharacterWeight)`: the weight of each character of
   * the alphabet, in order; every one lies between the base weight and the cap.
   */
  function Weights(m: map<char, nat>, cs: string): (ws: seq<real>)
    ensures |ws| == |cs|
    ensures forall j :: 0 <= j < |ws| ==> BaseWeight <= ws[j] <= MaxWeightMultiplier
  {
    seq(|cs|, j requires 0 <= j < |cs| => Weight(m, cs[j]))
  }

  /** Every weight is at least one unit. */
  predicate AtLeastOne(ws: seq<real>)
  {
    forall j :: 0 <= j < |ws| ==> ws[j] >= BaseWeight
  }

  lemma WeightsAtLeastOne(m: map<char, nat>, cs: string)
    ensures AtLeastOne(Weights(m, cs))
  {
  }

  /** The running sum of the first `k` weights. */
  function Cum(ws: seq<real>, k: nat): real
    requires k <= |ws|
  {
    if k == 0 then 0.0 else Cum(ws, k - 1) + ws[k - 1]
  }

  /** The sum of all weights (`totalWeight`). */
  function Total(ws: seq<real>): real
  {
    Cum(ws, |ws|)
  }

  /** A longer prefix weighs strictly more: at least one unit per extra weight. */
  lemma {:induction false} CumIncreasing(ws: seq<real>, j: nat, k: nat)
    requires AtLeastOne(ws) && j <= k <= |ws|
    ensures Cum(ws, j) + (k - j) as real <= Cum(ws, k)
  {
    if j < k {
      CumIncreasing(ws, j, k - 1);
    }
  }

  /**
   * The scan of the selection loop from position `i` with running sum `acc`:
   * the first position whose running sum reaches `x`, or position 0 (the
   * final fallback) when none does.
   */
  function PickFrom(ws: seq<real>, x: real, i: nat, acc: real): (k: nat)
    requires i <= |ws|
    ensures ws != [] ==> k < |ws|
    decreases |ws| - i
  {
    if i == |ws| then 0
    else if x <= acc + ws[i] then i
    else PickFrom(ws, x, i + 1, acc + ws[i])
  }

  /** The position the selection loop returns for the scaled random value `x`. */
  function Pick(ws: seq<real>, x: real): nat
  {
    PickFrom(ws, x, 0, 0.0)
  }

  lemma {:induction false} PickFromInBand(ws: seq<real>, x: real, i: nat)
    requires i < |ws| && x < Total(ws)
    requires i == 0 || Cum(ws, i) < x
    ensures var k := PickFrom(ws, x, i, Cum(ws, i));
            i <= k < |ws| && (k == 0 || Cum(ws, k) < x) && x <= Cum(ws, k + 1)
    decreases |ws| - i
  {
    if x > Cum(ws, i + 1) {
      // The whole sequence sums to more than `x`, so the scan has not reached its end.
      PickFromInBand(ws, x, i + 1);
    }
  }

  /**
   * The selection lands on the position whose band of the running sum holds
   * `x`: with `x` below the total, position `k` is chosen exactly when
   * `Cum(k) < x <= Cum(k + 1)` (position 0 also takes `x == 0`), so each
   * character is drawn with probability proportional to its weight.
   */
  lemma PickInBand(ws: seq<real>, x: real)
    requires ws != [] && x < Total(ws)
    ensures var k := Pick(ws, x);
            k < |ws| && (k == 0 || Cum(ws, k) < x) && x <= Cum(ws, k + 1)
  {
    PickFromInBand(ws, x, 0);
  }

  /** With weights of at least one unit the bands are disjoint: no other position's band holds `x`. */
  lemma PickUnique(ws: seq<real>, x: real, j: nat)
    requires AtLeastOne(ws) && ws != [] && x < Total(ws)
    requires j < |ws| && (j == 0 || Cum(ws, j) < x) && x <= Cum(ws, j + 1)
    ensures Pick(ws, x) == j
  {
    var k := Pick(ws, x);
    PickInBand(ws, x);
    if k < j {
      CumIncreasing(ws, k + 1, j);
    } else if j < k {
      CumIncreasing(ws, j + 1, k);
    }
  }

  /**
   * The position drawn for the value `r` of `Math.random()`: the scan of the
   * character weights for `r` times their total.
   */
  function Draw(m: map<char, nat>, cs: string, r: real): nat
  {
    var ws := Weights(m, cs);
    Pick(ws, Scale(r, Total(ws)))
  }

  /** `Math.random() * totalWeight`. */
  function Scale(r: real, t: real): real
  {
    r * t
  }

  /** `Math.random() * total` lies in `[0, total)`. */
  lemma ScaledBelow(r: real, t: real)
    requires 0.0 <= r < 1.0 && t > 0.0
    ensures 0.0 <= Scale(r, t) < t
  {
    assert t - r * t == (1.0 - r) * t;
  }

  /**
   * For every value `Math.random()` can return, the drawn position is a real
   * position of the alphabet, its band of the running weight sum holds the
   * scaled value, and no other position's band does.
   */
  lemma DrawInBand(m: map<char, nat>, cs: string, r: real)
    requires cs != [] && 0.0 <= r < 1.0
    ensures var ws := Weights(m, cs);
            var k, x := Draw(m, cs, r), Scale(r, Total(ws));
            && k < |cs| && (k == 0 || Cum(ws, k) < x) && x <= Cum(ws, k + 1)
            && forall j :: 0 <= j < |cs| && j != k ==> !((j == 0 || Cum(ws, j) < x) && x <= Cum(ws, j + 1))
  {
    var ws := Weights(m, cs);
    WeightsAtLeastOne(m, cs);
    CumIncreasing(ws, 0, |ws|);
    var x := Scale(r, Total(ws));
    ScaledBelow(r, Total(ws));
    PickInBand(ws, x);
    forall j | 0 <= j < |cs| && (j == 0 || Cum(ws, j) < x) && x <= Cum(ws, j + 1)
      ensures j == Draw(m, cs, r)
    {
      PickUnique(ws, x, j);
    }
  }

  /** The total weight is at least the length of the alphabet, so it is positive for a non-empty one. */
  lemma TotalAtLeastLength(m: map<char, nat>, cs: string)
    ensures Total(Weights(m, cs)) >= |cs| as real
  {
    WeightsAtLeastOne(m, cs);
    CumIncreasing(Weights(m, cs), 0, |cs|);
  }

  /** A one-character alphabet always gives that character. */
  lemma DrawFromOneCharacter(m: map<char, nat>, c: char, r: real)
    requires 0.0 <= r < 1.0
    ensures Draw(m, [c], r) == 0
  {
    DrawInBand(m, [c], r);
  }

  /**
   * The selection loop of `weightedRandomChar`: add up the weights in order
   * and return the first character whose running sum reaches `x`, or the first
   * character when none does.
   */
  method SelectByWeight(cs: string, weights: seq<real>, x: real) returns (s: string)
    requires cs != [] && |weights| == |cs|
    ensures s == [cs[Pick(weights, x)]]
  {
    var currentWeight := 0.0;
    for i := 0 to |weights|
      invariant currentWeight == Cum(weights, i)
      invariant PickFrom(weights, x, i, currentWeight) == Pick(weights, x)
    {
      currentWeight := currentWeight + weights[i];
      if x <= currentWeight {
        return [cs[i]];
      }
    }
    // The fallback after the scan (`allowedChars[0]`).
    s := [cs[0]];
  }

  /** The module-level `characterMistakes` object and the functions over it. */
  class MistakeTracker {
    var mistakes: map<char, nat>

    ghost predicate Valid()
      reads this
    {
      WellFormed(mistakes)
    }

    /** The state when the module loads: no mistakes. */
    constructor ()
      ensures Valid() && mistakes == map[]
    {
      mistakes := map[];
    }

    /**
     * `recordMistakes`: nothing happens when either string is empty; otherwise
     * both are upper-cased and, position by position up to the longer length,
     * each missed callsign character that is a letter or digit gains a mistake.
     */
    method RecordMistakes(expectedCallsign: string, userInput: string)
      requires Valid()
      modifies this
      ensures Valid()
      ensures mistakes == if expectedCallsign == [] || userInput == [] then old(mistakes)
                          else Tally(old(mistakes), Missed(Upper(expectedCallsign), Upper(userInput), |expectedCallsign|))
    {
      if expectedCallsign == [] || userInput == [] {
        return;
      }
      var expected := Upper(expectedCallsign);
      var input := Upper(userInput);
      var maxLen := Max(|expected|, |input|);
      ghost var m0 := mistakes;
      for i := 0 to maxLen
        invariant mistakes == Tally(m0, Missed(expected, input, Min(i, |expected|)))
        invariant WellFormed(mistakes)
      {
        TallyMissedStep(m0, expected, input, i);
        if i < |expected| && (i >= |input| || expected[i] != input[i]) {
          var expectedChar := expected[i];
          if IsUpperAlnum(expectedChar) {
            BumpKeepsWellFormed(mistakes, expectedChar);
            mistakes := Bump(mistakes, expectedChar);
          }
        }
      }
      assert Min(maxLen, |expected|) == |expectedCallsign|;
    }

    /**
     * `weightedRandomChar`, with the value of `Math.random()` passed as `r`:
     * the empty string for an empty alphabet, otherwise the character whose
     * band of the running weight sum holds `r` times the total weight.
     */
    method WeightedRandomChar(allowedChars: string, r: real) returns (s: string)
      requires 0.0 <= r < 1.0
      ensures allowedChars == [] ==> s == []
      ensures allowedChars != [] ==> s == [allowedChars[Draw(mistakes, allowedChars, r)]]
    {
      if allowedChars == [] {
        return [];
      }
      var m := mistakes;
      var weights: seq<real> := [];
      for i := 0 to |allowedChars|
        invariant |weights| == i
        invariant forall j :: 0 <= j < i ==> weights[j] == Weight(m, allowedChars[j])
      {
        weights := weights + [Weight(m, allowedChars[i])];
      }
      assert weights == Weights(m, allowedChars);
      var totalWeight := 0.0;
      for i := 0 to |weights|
        invariant totalWeight == Cum(weights, i)
      {
        totalWeight := totalWeight + weights[i];
      }
      TotalAtLeastLength(m, allowedChars);
      if totalWeight <= 0.0 {
        // The uniform fallback: every weight is at least one, so it is never taken.
        assert false;
      }
      var randomValue := Scale(r, totalWeight);
      s := SelectByWeight(allowedChars, weights, randomValue);
    }

    /** `resetAdaptiveLearning`: every weight is back to one unit. */
    method ResetAdaptiveLearning()
      modifies this
      ensures Valid() && mistakes == map[]
      ensures forall c :: Weight(mistakes, c) == BaseWeight
    {
      mistakes := map[];
    }

    /** `getMistakeStats`: the counts as recorded, every key a letter or digit with at least one mistake. */
    method GetMistakeStats() returns (stats: map<char, nat>)
      requires Valid()
      ensures stats.Keys == mistakes.Keys
      ensures forall c :: c in stats ==> IsUpperAlnum(c) && stats[c] >= 1 && stats[c] == mistakes[c]
    {
      stats := map c | c in mistakes :: mistakes[c];
    }

    /** `hasRecordedMistakes`: some character's weight is above the base weight. */
    function HasRecordedMistakes(): (b: bool)
      requires Valid()
      reads this
      ensures b <==> exists c :: Weight(mistakes, c) > BaseWeight
    {
      if |mistakes| > 0 then
        var c :| c in mistakes;
        assert UpperChar(c) == c;
        assert Weight(mistakes, c) > BaseWeight;
        true
      else
        assert forall c :: Count(mistakes, UpperChar(c)) == 0;
        false
    }
  }
}
