/**
 * Seeded question shuffle: a mulberry32 generator driving a descending Fisher-Yates
 * shuffle over a copy of the question ids.
 *
 * The generator's JavaScript arithmetic (`Math.imul`, `^`, `|`, `>>>` and an addition
 * whose result is passed through ToInt32) is exactly wrapping 32-bit arithmetic, so the
 * generator state is a `bv32`. `random()` is a uint32 divided by 2^32, kept here as an
 * exact real; its product with `i + 1` is floored as the source does.
 */
module Shuffle {

  const TwoPow32: nat := 0x1_0000_0000

  /** The constant added to the generator state on every call. */
  const Increment: bv32 := 0x6d2b79f5

  /* ---------------------------------------------------------------------------
   * mulberry32
   * ------------------------------------------------------------------------- */

  /** `seed += 0x6d2b79f5`, reduced modulo 2^32 as every later bitwise use does. */
  function Advance(state: bv32): bv32 {
    state + Increment
  }

  /** The mixing of one advanced state into the uint32 numerator of `random()`. */
  function Temper(state: bv32): bv32 {
    var t1 := (state ^ (state >> 15)) * (state | 1);
    var t2 := t1 ^ (t1 + (t1 ^ (t1 >> 7)) * (t1 | 61));
    t2 ^ (t2 >> 14)
  }

  /** The uint32 that `(t ^ (t >>> 14)) >>> 0` yields for an advanced state. */
  function Output(state: bv32): (u: nat)
    ensures u < TwoPow32
  {
    Temper(state) as int
  }

  /** The value `random()` returns for numerator `u`: `u / 2^32`, always in [0, 1). */
  function Fraction(u: nat): (r: real)
    requires u < TwoPow32
    ensures 0.0 <= r < 1.0
  {
    u as real / TwoPow32 as real
  }

  /** The generator closure of `mulberry32`: its captured `seed` is the one field. */
  class Mulberry32 {
    var state: bv32

    constructor (initialSeed: bv32)
      ensures state == initialSeed
    {
      state := initialSeed;
    }

    /**
     * One call of the closure: advance the state and return the numerator `u` of the
     * value `u / 2^32` that the closure returns.
     */
    method Random() returns (u: nat)
      modifies this
      ensures state == Advance(old(state))
      ensures u == Output(state)
      ensures 0.0 <= Fraction(u) < 1.0
    {
      state := Advance(state);
      u := Output(state);
    }
  }

  /* ---------------------------------------------------------------------------
   * Drawing a swap index
   * ------------------------------------------------------------------------- */

  /**
   * `u * n`, spelled as repeated addition so that a proof about the generator, whose
   * bit-vector state the solver handles poorly next to a non-linear product, sees the
   * product one step at a time. `TimesIsProduct` relates it to `*`.
   */
  function Times(u: nat, n: nat): nat {
    if n == 0 then 0 else Times(u, n - 1) + u
  }

  lemma {:induction false} TimesIsProduct(u: nat, n: nat)
    ensures Times(u, n) == u * n
  {
    if n > 0 {
      TimesIsProduct(u, n - 1);
    }
  }

  lemma {:induction false} TimesBelow(u: nat, n: nat)
    requires u < TwoPow32
    ensures Times(u, n) <= n * TwoPow32
    ensures n > 0 ==> Times(u, n) < n * TwoPow32
  {
    if n > 0 {
      TimesBelow(u, n - 1);
    }
  }

  /** `Math.floor(random() * (i + 1))` computed on integers: always an index in `0..i`. */
  function Draw(u: nat, i: nat): (j: nat)
    requires u < TwoPow32
    ensures j <= i
  {
    TimesBelow(u, i + 1);
    Times(u, i + 1) / TwoPow32
  }

  /** For a positive divisor, the floor of the exact quotient is integer division. */
  lemma FloorOfQuotient(n: int, d: int)
    requires d > 0
    ensures (n as real / d as real).Floor == n / d
  {
    var q, rem := n / d, n % d;
    var x := n as real / d as real;
    assert n as real == q as real * d as real + rem as real;
    assert x == q as real + rem as real / d as real;
    assert 0.0 <= rem as real / d as real < 1.0;
  }

  /** Flooring the real product gives exactly the integer draw: no float rounding is modelled. */
  lemma DrawIsFloor(u: nat, i: nat)
    requires u < TwoPow32
    ensures (Fraction(u) * (i + 1) as real).Floor == Draw(u, i)
  {
    TimesIsProduct(u, i + 1);
    assert Fraction(u) * (i + 1) as real == (u * (i + 1)) as real / TwoPow32 as real;
    FloorOfQuotient(u * (i + 1), TwoPow32);
  }

  /* ---------------------------------------------------------------------------
   * Seed normalisation
   * ------------------------------------------------------------------------- */

  /** The seed argument: a number (integers only here) or a string. */
  datatype SeedInput = NumberSeed(n: int) | StringSeed(s: string)

  /**
   * `char.charCodeAt(0)` for one element of `Array.from(seed)`: the code point itself
   * below 0x10000, otherwise the high surrogate of its UTF-16 encoding.
   */
  function CharCode(c: char): (code: nat)
    ensures code < 0x10000
    ensures (c as int) < 0x10000 ==> code == c as int
  {
    if (c as int) < 0x10000 then c as int else 0xD800 + ((c as int) - 0x10000) / 0x400
  }

  /** `reduce((acc, char) => acc + char.charCodeAt(0), 0)`, a left fold. */
  function CodeSum(s: string): nat {
    if s == [] then 0 else CodeSum(s[..|s| - 1]) + CharCode(s[|s| - 1])
  }

  /** The integer seed, reduced modulo 2^32 as the generator's bitwise operations reduce it. */
  function SeedNumber(seed: SeedInput): bv32 {
    match seed
    case NumberSeed(n) => (n % TwoPow32) as bv32
    case StringSeed(s) => (CodeSum(s) % TwoPow32) as bv32
  }

  lemma {:induction false} CodeSumRemoveAt(s: string, k: nat)
    requires k < |s|
    ensures CodeSum(s) == CodeSum(s[..k] + s[k + 1..]) + CharCode(s[k])
    decreases |s|
  {
    var last := |s| - 1;
    if k < last {
      var init := s[..last];
      CodeSumRemoveAt(init, k);
      assert init[..k] + init[k + 1..] == (s[..k] + s[k + 1..])[..last - 1];
      assert (s[..k] + s[k + 1..])[last - 1] == s[last];
    } else {
      assert s[..k] + s[k + 1..] == s[..last];
    }
  }

  /** Reordering the characters of a string seed keeps its code sum. */
  lemma {:induction false} CodeSumOfPermutation(s: string, t: string)
    requires multiset(s) == multiset(t)
    ensures CodeSum(s) == CodeSum(t)
    decreases |s|
  {
    if s != [] {
      var c := s[|s| - 1];
      assert c in multiset(t) by {
        assert c in multiset(s);
      }
      var k :| 0 <= k < |t| && t[k] == c;
      RemoveMatching(s, t, k);
      CodeSumOfPermutation(s[..|s| - 1], t[..k] + t[k + 1..]);
      CodeSumRemoveAt(t, k);
    } else {
      assert |t| == |multiset(t)| == 0;
    }
  }

  /** Removing the last character of `s`, and the same character anywhere in `t`, keeps them rearrangements. */
  lemma RemoveMatching(s: string, t: string, k: nat)
    requires multiset(s) == multiset(t) && s != [] && k < |t| && t[k] == s[|s| - 1]
    ensures multiset(s[..|s| - 1]) == multiset(t[..k] + t[k + 1..])
  {
    var c, init, rest := s[|s| - 1], s[..|s| - 1], t[..k] + t[k + 1..];
    assert s == init + [c];
    assert multiset(init) == multiset(s) - multiset{c};
    assert t == t[..k] + [c] + t[k + 1..];
    assert multiset(rest) == multiset(t) - multiset{c};
  }

  /* ---------------------------------------------------------------------------
   * Fisher-Yates, as a specification on sequences
   * ------------------------------------------------------------------------- */

  /** Exchange the elements at positions `i` and `j`. */
  function Swap<T>(s: seq<T>, i: nat, j: nat): (r: seq<T>)
    requires i < |s| && j < |s|
    ensures |r| == |s|
  {
    s[i := s[j]][j := s[i]]
  }

  /** A swap exchanges two elements and keeps the multiset. */
  lemma SwapPermutes<T>(s: seq<T>, i: nat, j: nat)
    requires i < |s| && j < |s|
    ensures Swap(s, i, j)[i] == s[j] && Swap(s, i, j)[j] == s[i]
    ensures multiset(Swap(s, i, j)) == multiset(s)
  {
  }

  /** The generator state after `n` calls of the closure started in `state`. */
  function AdvancedBy(state: bv32, n: nat): bv32
    decreases n
  {
    if n == 0 then state else Advance(AdvancedBy(state, n - 1))
  }

  /** The next `n` numerators the generator yields when its state is `state`. */
  function Numerators(state: bv32, n: nat): (us: seq<nat>)
    decreases n
    ensures |us| == n
    ensures forall k :: 0 <= k < n ==> us[k] < TwoPow32
  {
    if n == 0 then [] else
      var next := Advance(state);
      [Output(next)] + Numerators(next, n - 1)
  }

  predicate AreNumerators(us: seq<nat>) {
    forall k :: 0 <= k < |us| ==> us[k] < TwoPow32
  }

  /**
   * The loop from index `i` down to 1, fed the numerators `us` in call order:
   * the step at index `i` draws `j <= i` from `us[0]` and swaps positions `i` and `j`.
   */
  function SwapDown<T>(s: seq<T>, i: nat, us: seq<nat>): seq<T>
    requires i < |s| && i <= |us| && AreNumerators(us)
    decreases i
  {
    if i == 0 then s
    else SwapDown(Swap(s, i, Draw(us[0], i)), i - 1, us[1..])
  }

  /** What `shuffleQuestionOrder(ids, seed)` returns. */
  function Shuffled<T>(ids: seq<T>, seed: SeedInput): seq<T> {
    if |ids| <= 1 then ids
    else SwapDown(ids, |ids| - 1, Numerators(SeedNumber(seed), |ids| - 1))
  }

  lemma {:induction false} SwapDownPermutes<T>(s: seq<T>, i: nat, us: seq<nat>)
    requires i < |s| && i <= |us| && AreNumerators(us)
    ensures |SwapDown(s, i, us)| == |s|
    ensures multiset(SwapDown(s, i, us)) == multiset(s)
    decreases i
  {
    if i > 0 {
      var swapped := Swap(s, i, Draw(us[0], i));
      SwapPermutes(s, i, Draw(us[0], i));
      SwapDownPermutes(swapped, i - 1, us[1..]);
      assert SwapDown(s, i, us) == SwapDown(swapped, i - 1, us[1..]);
    }
  }

  /** The iterations from index `i` down to 1, started on `s` in generator state `state`, end in `target`. */
  ghost predicate Remaining<T>(s: seq<T>, i: nat, state: bv32, target: seq<T>) {
    i < |s| && SwapDown(s, i, Numerators(state, i)) == target
  }

  /** One step of the loop: consume the next numerator and swap. */
  lemma SwapDownStep<T>(s: seq<T>, i: nat, state: bv32, target: seq<T>, next: seq<T>, nextState: bv32)
    requires 0 < i && Remaining(s, i, state, target)
    requires nextState == Advance(state) && next == Swap(s, i, Draw(Output(nextState), i))
    ensures Remaining(next, i - 1, nextState, target)
  {
    var us := Numerators(state, i);
    assert us[0] == Output(Advance(state)) && us[1..] == Numerators(Advance(state), i - 1);
  }

  /** The shuffle keeps the length and the multiset of ids: it only ever swaps. */
  lemma ShuffledIsPermutation<T>(ids: seq<T>, seed: SeedInput)
    ensures |Shuffled(ids, seed)| == |ids|
    ensures multiset(Shuffled(ids, seed)) == multiset(ids)
  {
    if |ids| > 1 {
      SwapDownPermutes(ids, |ids| - 1, Numerators(SeedNumber(seed), |ids| - 1));
    }
  }

  /** Zero or one id comes back unchanged, whatever the seed. */
  lemma ShortInputUnchanged<T>(ids: seq<T>, seed1: SeedInput, seed2: SeedInput)
    requires |ids| <= 1
    ensures Shuffled(ids, seed1) == ids == Shuffled(ids, seed2)
  {
  }

  /** String seeds whose characters are a rearrangement of each other give the same order. */
  lemma AnagramSeedsAgree<T>(ids: seq<T>, a: string, b: string)
    requires multiset(a) == multiset(b)
    ensures Shuffled(ids, StringSeed(a)) == Shuffled(ids, StringSeed(b))
  {
    CodeSumOfPermutation(a, b);
  }

  /** A string seed and the number seed equal to its code sum give the same order. */
  lemma StringSeedIsItsCodeSum<T>(ids: seq<T>, s: string)
    ensures Shuffled(ids, StringSeed(s)) == Shuffled(ids, NumberSeed(CodeSum(s)))
  {
  }

  /* ---------------------------------------------------------------------------
   * The in-place implementation
   * ------------------------------------------------------------------------- */

  /** `[...ids]`: a fresh array with the same elements. */
  method CopyOf<T>(ids: array<T>) returns (copy: array<T>)
    ensures fresh(copy)
    ensures copy[..] == ids[..]
  {
    copy := new T[ids.Length](k reads ids requires 0 <= k < ids.Length => ids[k]);
  }

  /** `const current = result[i]; const target = result[j]; result[i] = target; result[j] = current` */
  method Exchange<T>(a: array<T>, i: nat, j: nat)
    requires i < a.Length && j < a.Length
    modifies a
    ensures a[..] == Swap(old(a[..]), i, j)
  {
    a[i], a[j] := a[j], a[i];
  }

  /**
   * `shuffleQuestionOrder`: copy `ids`, then swap in place from the last index down to 1.
   * Every drawn index lies in `0..i`, so both reads are in bounds. The elements are
   * strings, never `undefined`, so the source's `undefined` guard never skips a step;
   * an array with holes, whose copy holds `undefined`, is not modelled.
   */
  method ShuffleQuestionOrder(ids: array<string>, seedInput: SeedInput) returns (result: array<string>)
    ensures fresh(result)
    ensures result[..] == Shuffled(ids[..], seedInput)
    ensures ids[..] == old(ids[..])
  {
    result := CopyOf(ids);
    if result.Length <= 1 {
      return;
    }
    var random := new Mulberry32(SeedNumber(seedInput));
    SwapFromEnd(result, random);
  }

  /** The loop of `shuffleQuestionOrder`: for `i` from the last index down to 1, draw `j` and swap. */
  method SwapFromEnd<T>(a: array<T>, random: Mulberry32)
    requires a.Length > 0
    modifies a, random
    ensures a[..] == SwapDown(old(a[..]), a.Length - 1, Numerators(old(random.state), a.Length - 1))
    ensures random.state == AdvancedBy(old(random.state), a.Length - 1)
  {
    ghost var target := SwapDown(a[..], a.Length - 1, Numerators(random.state, a.Length - 1));
    var i: nat := a.Length - 1;
    while i > 0
      invariant Remaining(a[..], i, random.state, target)
      invariant random.state == AdvancedBy(old(random.state), a.Length - 1 - i)
      decreases i
    {
      ghost var state := random.state;
      var u := random.Random();
      var j := Draw(u, i);
      SwapDownStep(a[..], i, state, target, Swap(a[..], i, j), random.state);
      Exchange(a, i, j);
      i := i - 1;
    }
  }

  /** Two calls with the same ids and seed give the same order. */
  method ShuffleTwice(ids: array<string>, seedInput: SeedInput) returns (first: array<string>, second: array<string>)
    ensures first[..] == second[..]
    ensures multiset(first[..]) == multiset(ids[..])
  {
    first := ShuffleQuestionOrder(ids, seedInput);
    second := ShuffleQuestionOrder(ids, seedInput);
    ShuffledIsPermutation(ids[..], seedInput);
  }

  /* ---------------------------------------------------------------------------
   * Concrete vectors
   * ------------------------------------------------------------------------- */

  /** The code sum of a six-character seed, one character at a time. */
  lemma CodeSumOfSix(s: string)
    requires |s| == 6
    ensures CodeSum(s) == CharCode(s[0]) + CharCode(s[1]) + CharCode(s[2]) + CharCode(s[3]) + CharCode(s[4]) + CharCode(s[5])
  {
    var p5 := s[..5];
    var p4 := p5[..4];
    var p3 := p4[..3];
    var p2 := p3[..2];
    var p1 := p2[..1];
    assert CodeSum(p1) == CharCode(s[0]) by {
      assert p1[..0] == [];
    }
    assert CodeSum(p2) == CodeSum(p1) + CharCode(s[1]);
    assert CodeSum(p3) == CodeSum(p2) + CharCode(s[2]);
    assert CodeSum(p4) == CodeSum(p3) + CharCode(s[3]);
    assert CodeSum(p5) == CodeSum(p4) + CharCode(s[4]);
  }

  /** The test seeds 'seed-1', 'seed-A' and 'seed-B' sum to 511, 527 and 528. */
  lemma SeedOneSum(seed: string)
    requires seed == "seed-1"
    ensures CodeSum(seed) == 511
  {
    CodeSumOfSix(seed);
  }

  lemma SeedASum(seed: string)
    requires seed == "seed-A"
    ensures CodeSum(seed) == 527
  {
    CodeSumOfSix(seed);
  }

  lemma SeedBSum(seed: string)
    requires seed == "seed-B"
    ensures CodeSum(seed) == 528
  {
    CodeSumOfSix(seed);
  }

  /** A string seed whose code sum is below 2^32 starts the generator at that sum. */
  lemma SmallStringSeed(s: string, n: bv32)
    requires CodeSum(s) == n as int
    ensures SeedNumber(StringSeed(s)) == n
  {
    BitsModulo(n);
  }

  /** Reducing a 32-bit value modulo 2^32 and converting it back gives that value. */
  lemma BitsModulo(n: bv32)
    ensures ((n as int) % TwoPow32) as bv32 == n
  {
    var m := n as int;
    assert m < TwoPow32;
    assert m % TwoPow32 == m;
  }

  /** Four generator calls from `state`, given their intermediate states and numerators. */
  lemma FourNumerators(state: bv32, s1: bv32, s2: bv32, s3: bv32, s4: bv32, u1: nat, u2: nat, u3: nat, u4: nat)
    requires s1 == Advance(state) && s2 == Advance(s1) && s3 == Advance(s2) && s4 == Advance(s3)
    requires u1 == Output(s1) && u2 == Output(s2) && u3 == Output(s3) && u4 == Output(s4)
    ensures Numerators(state, 4) == [u1, u2, u3, u4]
  {
    assert Numerators(s3, 1) == [u4];
    assert Numerators(s2, 2) == [u3, u4];
  }

  /** A draw with known numerator and bound. */
  lemma DrawValue(u: nat, i: nat, j: nat)
    requires u < TwoPow32 && u * (i + 1) / TwoPow32 == j
    ensures Draw(u, i) == j
  {
    TimesIsProduct(u, i + 1);
  }

  /** The four indices the loop draws for five ids, from the first four numerators of `state`. */
  function FirstDraws(state: bv32): (js: seq<nat>)
    ensures |js| == 4 && js[0] <= 4 && js[1] <= 3 && js[2] <= 2 && js[3] <= 1
  {
    var us := Numerators(state, 4);
    [Draw(us[0], 4), Draw(us[1], 3), Draw(us[2], 2), Draw(us[3], 1)]
  }

  /** Five ids are shuffled by four swaps, at the indices drawn from the first four numerators. */
  lemma SwapDownFive<T>(s: seq<T>, state: bv32)
    requires |s| == 5
    ensures SwapDown(s, 4, Numerators(state, 4))
         == Swap(Swap(Swap(Swap(s, 4, FirstDraws(state)[0]), 3, FirstDraws(state)[1]), 2, FirstDraws(state)[2]), 1, FirstDraws(state)[3])
  {
    var us, js := Numerators(state, 4), FirstDraws(state);
    var s1 := Swap(s, 4, js[0]);
    var s2 := Swap(s1, 3, js[1]);
    var s3 := Swap(s2, 2, js[2]);
    assert us[1..][1..] == us[2..] && us[2..][1..] == us[3..];
    assert SwapDown(s3, 1, us[3..]) == Swap(s3, 1, js[3]);
  }

  /** The indices drawn from state 511, the sum of 'seed-1'. */
  lemma StateOneDraws(state: bv32)
    requires state == 511
    ensures FirstDraws(state) == [2, 1, 1, 0]
  {
    var us := Numerators(state, 4);
    FourNumerators(state, 1831566324, 3663132137, 1199730654, 3031296467,
                   1952117730, 1382593778, 2447448238, 1877244015);
    DrawValue(us[0], 4, 2);
    DrawValue(us[1], 3, 1);
    DrawValue(us[2], 2, 1);
    DrawValue(us[3], 1, 0);
  }

  /** From state 511 five ids come out as 5, 1, 4, 2, 3. */
  lemma StateOneVector<T>(ids: seq<T>, state: bv32)
    requires |ids| == 5 && state == 511
    ensures SwapDown(ids, 4, Numerators(state, 4)) == [ids[4], ids[0], ids[3], ids[1], ids[2]]
  {
    StateOneDraws(state);
    SwapDownFive(ids, state);
  }

  /** The indices drawn from state 527, the sum of 'seed-A'. */
  lemma StateADraws(state: bv32)
    requires state == 527
    ensures FirstDraws(state) == [3, 1, 1, 1]
  {
    var us := Numerators(state, 4);
    FourNumerators(state, 1831566340, 3663132153, 1199730670, 3031296483,
                   3165621450, 1400876150, 2363538204, 3338926949);
    DrawValue(us[0], 4, 3);
    DrawValue(us[1], 3, 1);
    DrawValue(us[2], 2, 1);
    DrawValue(us[3], 1, 1);
  }

  /** From state 527 five ids come out as 1, 3, 5, 2, 4. */
  lemma StateAVector<T>(ids: seq<T>, state: bv32)
    requires |ids| == 5 && state == 527
    ensures SwapDown(ids, 4, Numerators(state, 4)) == [ids[0], ids[2], ids[4], ids[1], ids[3]]
  {
    StateADraws(state);
    SwapDownFive(ids, state);
  }

  /** The indices drawn from state 528, the sum of 'seed-B'. */
  lemma StateBDraws(state: bv32)
    requires state == 528
    ensures FirstDraws(state) == [2, 0, 2, 0]
  {
    var us := Numerators(state, 4);
    FourNumerators(state, 1831566341, 3663132154, 1199730671, 3031296484,
                   2324949503, 90986224, 2993947208, 1469829042);
    DrawValue(us[0], 4, 2);
    DrawValue(us[1], 3, 0);
    DrawValue(us[2], 2, 2);
    DrawValue(us[3], 1, 0);
  }

  /** From state 528 five ids come out as 2, 4, 5, 1, 3. */
  lemma StateBVector<T>(ids: seq<T>, state: bv32)
    requires |ids| == 5 && state == 528
    ensures SwapDown(ids, 4, Numerators(state, 4)) == [ids[1], ids[3], ids[4], ids[0], ids[2]]
  {
    StateBDraws(state);
    SwapDownFive(ids, state);
  }

  /** A string seed whose number is `state` shuffles five ids by the four swaps drawn from `state`. */
  lemma StringSeedState<T>(ids: seq<T>, seed: string, state: bv32)
    requires |ids| == 5 && SeedNumber(StringSeed(seed)) == state
    ensures Shuffled(ids, StringSeed(seed)) == SwapDown(ids, 4, Numerators(state, 4))
  {
  }

  /** Any string seed summing to 511, such as 'seed-1', orders five ids as 5, 1, 4, 2, 3. */
  lemma SumOneVector<T>(ids: seq<T>, seed: string)
    requires |ids| == 5 && CodeSum(seed) == 511
    ensures Shuffled(ids, StringSeed(seed)) == [ids[4], ids[0], ids[3], ids[1], ids[2]]
  {
    SmallStringSeed(seed, 511);
    StateOneVector(ids, SeedNumber(StringSeed(seed)));
    StringSeedState(ids, seed, SeedNumber(StringSeed(seed)));
  }

  /** Any string seed summing to 527, such as 'seed-A', orders five ids as 1, 3, 5, 2, 4. */
  lemma SumAVector<T>(ids: seq<T>, seed: string)
    requires |ids| == 5 && CodeSum(seed) == 527
    ensures Shuffled(ids, StringSeed(seed)) == [ids[0], ids[2], ids[4], ids[1], ids[3]]
  {
    SmallStringSeed(seed, 527);
    StateAVector(ids, SeedNumber(StringSeed(seed)));
    StringSeedState(ids, seed, SeedNumber(StringSeed(seed)));
  }

  /** Any string seed summing to 528, such as 'seed-B', orders five ids as 2, 4, 5, 1, 3. */
  lemma SumBVector<T>(ids: seq<T>, seed: string)
    requires |ids| == 5 && CodeSum(seed) == 528
    ensures Shuffled(ids, StringSeed(seed)) == [ids[1], ids[3], ids[4], ids[0], ids[2]]
  {
    SmallStringSeed(seed, 528);
    StateBVector(ids, SeedNumber(StringSeed(seed)));
    StringSeedState(ids, seed, SeedNumber(StringSeed(seed)));
  }

  /** 'seed-1' moves five distinct ids out of their original order. */
  lemma SeedOneVector<T>(ids: seq<T>, seed: string)
    requires |ids| == 5 && seed == "seed-1"
    ensures Shuffled(ids, StringSeed(seed)) == [ids[4], ids[0], ids[3], ids[1], ids[2]]
    ensures ids[0] != ids[4] ==> Shuffled(ids, StringSeed(seed)) != ids
  {
    SeedOneSum(seed);
    SumOneVector(ids, seed);
  }

  /** 'seed-A' and 'seed-B', whose sums differ by one, give different orders of distinct ids. */
  lemma {:induction false} SeedAAndSeedBDiffer<T>(ids: seq<T>)
    requires |ids| == 5 && ids[0] != ids[1]
    ensures Shuffled(ids, StringSeed("seed-A")) != Shuffled(ids, StringSeed("seed-B"))
  {
    SeedASum("seed-A");
    SeedBSum("seed-B");
    SumAVector(ids, "seed-A");
    SumBVector(ids, "seed-B");
    assert Shuffled(ids, StringSeed("seed-A"))[0] != Shuffled(ids, StringSeed("seed-B"))[0];
  }
}
