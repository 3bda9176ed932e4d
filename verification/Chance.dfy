/**
 The match's private random source (src/arena/core/chance.py): rejection sampling
 over 64-bit words addressed by (seed, counter).

 The hash is a parameter, `Block`, so everything here holds for every hash.
 A draw ends only if some later word is accepted; `Fair` says so.
 */
module Chance {
  import opened Arithmetic
  import opened Wrappers

  const WORD_MAX: int := 0x1_0000_0000_0000_0000

  type Word = w: int | 0 <= w < WORD_MAX

  /** The word a generator's hash gives for a seed and a counter. */
  type Block = (int, nat) -> Word

  datatype Rng = Rng(seed: int, counter: nat)

  datatype DrawError = BadBound | BadCount

  predicate ValidBound(bound: int) {
    0 < bound <= WORD_MAX
  }

  /** Words below this count every residue of `bound` equally often; the rest are rejected. */
  function Limit(bound: int): int
    requires ValidBound(bound)
  {
    WORD_MAX - WORD_MAX % bound
  }

  /** `k` is the first counter, from `from` on, whose word is below `limit`. */
  ghost predicate FirstAccepted(block: Block, seed: int, from: nat, limit: int, k: nat) {
    && from <= k
    && block(seed, k) < limit
    && forall j: nat :: from <= j < k ==> block(seed, j) >= limit
  }

  /** Some word from `from` on is below `limit`. */
  ghost predicate Ends(block: Block, seed: int, from: nat, limit: int) {
    exists k: nat :: from <= k && block(seed, k) < limit
  }

  /** The hash never stops giving words in the lower half: what makes every draw end. */
  ghost predicate Fair(block: Block, seed: int) {
    forall from: nat :: Ends(block, seed, from, WORD_MAX / 2)
  }

  // ---------------------------------------------------------------------------
  // Uniformity: an exact count of the words behind each residue
  // ---------------------------------------------------------------------------

  /** The words below `limit` that leave `residue`. */
  ghost function WordsFor(limit: int, bound: int, residue: int): set<int>
    requires bound > 0
  {
    set w: int | 0 <= w < limit && w % bound == residue
  }

  lemma {:induction false} CountResidue(quotient: nat, bound: int, residue: int)
    requires 0 <= residue < bound
    ensures |WordsFor(quotient * bound, bound, residue)| == quotient
  {
    var all := WordsFor(quotient * bound, bound, residue);
    if quotient == 0 {
      assert all == {};
    } else {
      var q := quotient - 1;
      var fewer := WordsFor(q * bound, bound, residue);
      var last := q * bound + residue;
      CountResidue(q, bound, residue);
      assert q * bound + bound == quotient * bound;
      DivisionIsUnique(last, bound, q, residue);
      forall w | w in all && w !in fewer
        ensures w == last
      {
        WithinOneBlock(w, bound, q);
      }
      assert all == fewer + {last};
    }
  }

  lemma WithinOneBlock(w: int, b: int, q: int)
    requires b > 0 && q * b <= w < q * b + b
    ensures w == q * b + w % b
  {
    DivisionIsUnique(w, b, q, w - q * b);
  }

  lemma LargestMultiple(words: int, bound: int, limit: int)
    requires 0 < bound <= words && limit == words - words % bound
    ensures limit == (limit / bound) * bound
    ensures limit / bound >= 1 && 2 * limit > words
  {
    var q := words / bound;
    assert words == q * bound + words % bound;
    DivisionIsUnique(limit, bound, q, 0);
    MulAtLeast(q, bound);
  }

  // ---------------------------------------------------------------------------
  // draw and draw_many
  // ---------------------------------------------------------------------------

  /** The counter of the word a draw uses. Arbitrary if no later word is accepted. */
  ghost function Accepted(block: Block, seed: int, from: nat, limit: int): (k: nat)
    ensures from <= k
    ensures Ends(block, seed, from, limit) ==> FirstAccepted(block, seed, from, limit, k)
  {
    if Ends(block, seed, from, limit) then
      var j: nat :| from <= j && block(seed, j) < limit;
      LeastExists(block, seed, from, limit, j);
      var k: nat :| FirstAccepted(block, seed, from, limit, k);
      k
    else
      from
  }

  lemma {:induction false} LeastExists(block: Block, seed: int, from: nat, limit: int, j: nat)
    requires from <= j && block(seed, j) < limit
    ensures exists k: nat :: FirstAccepted(block, seed, from, limit, k)
    decreases j - from
  {
    if block(seed, from) < limit {
      assert FirstAccepted(block, seed, from, limit, from);
    } else {
      LeastExists(block, seed, from + 1, limit, j);
      var k: nat :| FirstAccepted(block, seed, from + 1, limit, k);
      assert FirstAccepted(block, seed, from, limit, k);
    }
  }

  /** The generator's counter after `count` draws that start at counter `from`. */
  ghost function CounterAfter(block: Block, seed: int, from: nat, limit: int, count: nat): (counter: nat)
    ensures counter >= from + count
  {
    if count == 0 then from
    else Accepted(block, seed, CounterAfter(block, seed, from, limit, count - 1), limit) + 1
  }

  /** The counter whose word draw number `i` (from 0) takes. */
  ghost function Used(block: Block, rng: Rng, limit: int, i: nat): nat {
    CounterAfter(block, rng.seed, rng.counter, limit, i + 1) - 1
  }

  /** How `count` draws, one after another, turn words into values. */
  ghost function DrawnWith<T>(value: Word -> T, block: Block, rng: Rng, limit: int, count: nat): (seq<T>, Rng) {
    (seq(count, (i: nat) => value(block(rng.seed, Used(block, rng, limit, i)))),
     Rng(rng.seed, CounterAfter(block, rng.seed, rng.counter, limit, count)))
  }

  /** The value a draw makes of an accepted word. */
  function Residue(bound: int): Word -> int
    requires bound != 0
  {
    w => w % bound
  }

  lemma ResidueIs(bound: int, w: Word)
    requires bound != 0
    ensures Residue(bound)(w) == w % bound
  {
  }

  /** `count` draws, one after another. */
  ghost function DrawnMany(block: Block, rng: Rng, bound: int, count: nat): (r: (seq<int>, Rng))
    requires ValidBound(bound)
  {
    DrawnWith(Residue(bound), block, rng, Limit(bound), count)
  }

  /** What a draw makes of a word it accepts: the value drawn where every word is `w`. */
  ghost function DrawnFrom(bound: int, w: Word): int
    requires ValidBound(bound)
  {
    DrawnMany((seed: int, counter: nat) => w, Rng(0, 0), bound, 1).0[0]
  }

  /** The accepted words that a draw turns into `value`. */
  ghost function WordsDrawnAs(bound: int, value: int): set<Word>
    requires ValidBound(bound)
  {
    set w: Word | 0 <= w < Limit(bound) && DrawnFrom(bound, w) == value
  }

  /** Every value in range is drawn from the same number of accepted words, for every bound
      the generator takes; no longer run of words would do, and more than half of all words
      are accepted. */
  lemma DrawIsUniform(bound: int, value: int)
    requires ValidBound(bound) && 0 <= value < bound
    ensures |WordsDrawnAs(bound, value)| == Limit(bound) / bound
    ensures Limit(bound) == (Limit(bound) / bound) * bound
    ensures Limit(bound) <= WORD_MAX < Limit(bound) + bound && WORD_MAX < 2 * Limit(bound)
  {
    LargestMultiple(WORD_MAX, bound, Limit(bound));
    CountResidue(Limit(bound) / bound, bound, value);
    forall w: Word
      ensures w in WordsDrawnAs(bound, value) <==> w in WordsFor(Limit(bound), bound, value)
    {
      ResidueIs(bound, w);
    }
    assert forall w :: w in WordsFor(Limit(bound), bound, value) ==> 0 <= w < WORD_MAX;
    SameSize(WordsDrawnAs(bound, value), WordsFor(Limit(bound), bound, value));
  }

  /** A set of words counts the same as a set of numbers. */
  lemma {:induction false} SameSize(words: set<Word>, numbers: set<int>)
    requires forall w: Word :: w in words <==> w in numbers
    requires forall n :: n in numbers ==> 0 <= n < WORD_MAX
    ensures |words| == |numbers|
    decreases |words|
  {
    if words == {} {
      assert numbers == {} by {
        assert forall n :: n in numbers ==> (n as Word) in words;
      }
    } else {
      var w :| w in words;
      SameSize(words - {w}, numbers - {w as int});
    }
  }

  method Draw(block: Block, rng: Rng, bound: int) returns (r: Result<(int, Rng), DrawError>)
    requires Fair(block, rng.seed)
    ensures r.Ok? <==> ValidBound(bound)
    ensures r.Ok? ==>
      var (value, after) := r.value;
      && after.seed == rng.seed && after.counter > rng.counter
      && FirstAccepted(block, rng.seed, rng.counter, WORD_MAX - WORD_MAX % bound, after.counter - 1)
      && value == block(rng.seed, after.counter - 1) % bound
    ensures r.Ok? ==> r.value.1.counter == Used(block, rng, Limit(bound), 0) + 1
  {
    if !(0 < bound <= WORD_MAX) {
      return Err(BadBound);
    }
    var limit := Limit(bound);
    var counter: nat := rng.counter;
    ghost var k := Used(block, rng, limit, 0);
    LargestMultiple(WORD_MAX, bound, limit);
    EndsBelow(block, rng.seed, rng.counter, limit);
    assert CounterAfter(block, rng.seed, rng.counter, limit, 0) == rng.counter;
    assert FirstAccepted(block, rng.seed, rng.counter, limit, k);
    while true
      invariant rng.counter <= counter <= k
      decreases k - counter
    {
      var raw := block(rng.seed, counter);
      counter := counter + 1;
      if raw < limit {
        ResidueIs(bound, raw);
        return Ok((Residue(bound)(raw), Rng(rng.seed, counter)));
      }
    }
  }

  lemma EndsBelow(block: Block, seed: int, from: nat, limit: int)
    requires Fair(block, seed) && 2 * limit > WORD_MAX
    ensures Ends(block, seed, from, limit)
  {
    assert Ends(block, seed, from, WORD_MAX / 2);
  }

  lemma OneMoreDraw(block: Block, rng: Rng, bound: int, i: nat)
    requires ValidBound(bound)
    ensures DrawnMany(block, rng, bound, 0) == ([], rng)
    ensures var (values, middle) := DrawnMany(block, rng, bound, i);
            var k := Used(block, middle, Limit(bound), 0);
            DrawnMany(block, rng, bound, i + 1) == (values + [Residue(bound)(block(rng.seed, k))], Rng(rng.seed, k + 1))
  {
    var limit := Limit(bound);
    var (values, middle) := DrawnMany(block, rng, bound, i);
    var k := Used(block, middle, limit, 0);
    CounterAfterSplits(block, rng.seed, rng.counter, limit, i, 1);
    assert DrawnMany(block, rng, bound, 0).0 == [];
    assert Used(block, rng, limit, i) == k;
    assert DrawnMany(block, rng, bound, i + 1).0 == values + [Residue(bound)(block(rng.seed, k))];
  }

  /** Each value is what its own word leaves, each word the first accepted one after the word
      before it, and the generator goes on after the last. */
  ghost predicate DrawnInTurn(block: Block, rng: Rng, bound: int, values: seq<int>, after: Rng)
    requires ValidBound(bound)
  {
    exists counters: seq<nat> ::
      && |counters| == |values|
      && after == Rng(rng.seed, NextCounter(rng, counters))
      && forall i :: 0 <= i < |values| ==>
           && FirstAccepted(block, rng.seed, NextCounter(rng, counters[..i]), WORD_MAX - WORD_MAX % bound, counters[i])
           && values[i] == block(rng.seed, counters[i]) % bound
  }

  function NextCounter(rng: Rng, counters: seq<nat>): nat {
    if counters == [] then rng.counter else counters[|counters| - 1] + 1
  }

  lemma DrawnManyInTurn(block: Block, rng: Rng, bound: int, count: nat)
    requires ValidBound(bound) && Fair(block, rng.seed)
    ensures DrawnInTurn(block, rng, bound, DrawnMany(block, rng, bound, count).0, DrawnMany(block, rng, bound, count).1)
  {
    var limit := Limit(bound);
    var (values, after) := DrawnMany(block, rng, bound, count);
    var counters := seq(count, (i: nat) => Used(block, rng, limit, i));
    LargestMultiple(WORD_MAX, bound, limit);
    forall i | 0 <= i < count
      ensures FirstAccepted(block, rng.seed, NextCounter(rng, counters[..i]), limit, counters[i])
      ensures values[i] == block(rng.seed, counters[i]) % bound
    {
      EndsBelow(block, rng.seed, NextCounter(rng, counters[..i]), limit);
      ResidueIs(bound, block(rng.seed, counters[i]));
    }
    assert after == Rng(rng.seed, NextCounter(rng, counters));
  }

  method DrawMany(block: Block, rng: Rng, bound: int, count: int) returns (r: Result<(seq<int>, Rng), DrawError>)
    requires Fair(block, rng.seed)
    ensures r.Ok? <==> count >= 0 && (count == 0 || ValidBound(bound))
    ensures count < 0 ==> r == Err(BadCount)
    ensures r.Ok? && count == 0 ==> r.value == ([], rng)
    ensures r.Ok? && count > 0 ==> r.value == DrawnMany(block, rng, bound, count)
    ensures r.Ok? && count > 0 ==> DrawnInTurn(block, rng, bound, r.value.0, r.value.1)
  {
    if count < 0 {
      return Err(BadCount);
    }
    var values: seq<int> := [];
    var current := rng;
    for i := 0 to count
      invariant i == 0 ==> values == [] && current == rng
      invariant i > 0 ==> ValidBound(bound) && (values, current) == DrawnMany(block, rng, bound, i)
    {
      var one := Draw(block, current, bound);
      if one.Err? {
        return Err(one.error);
      }
      OneMoreDraw(block, rng, bound, i);
      values, current := values + [one.value.0], one.value.1;
    }
    if count > 0 {
      DrawnManyInTurn(block, rng, bound, count);
    }
    return Ok((values, current));
  }

  lemma {:induction false} CountersRise(block: Block, seed: int, from: nat, limit: int, i: nat, j: nat)
    requires i < j
    ensures CounterAfter(block, seed, from, limit, i) < CounterAfter(block, seed, from, limit, j)
    decreases j - i
  {
    if i + 1 < j {
      CountersRise(block, seed, from, limit, i, j - 1);
    }
  }

  /** No word is used twice: the counters behind successive draws strictly rise and lie
      between the generator's counter before the draws and after them. */
  lemma DrawsNeverReuseABlock(block: Block, rng: Rng, bound: int, count: nat, i: nat, j: nat)
    requires ValidBound(bound) && i < j < count
    ensures rng.counter <= Used(block, rng, Limit(bound), i) < Used(block, rng, Limit(bound), j)
    ensures Used(block, rng, Limit(bound), j) < DrawnMany(block, rng, bound, count).1.counter
  {
    var limit := Limit(bound);
    CountersRise(block, rng.seed, rng.counter, limit, i + 1, j + 1);
    if j + 1 < count {
      CountersRise(block, rng.seed, rng.counter, limit, j + 1, count);
    }
  }

  lemma {:induction false} CounterAfterSplits(block: Block, seed: int, from: nat, limit: int, m: nat, n: nat)
    ensures CounterAfter(block, seed, from, limit, m + n)
         == CounterAfter(block, seed, CounterAfter(block, seed, from, limit, m), limit, n)
  {
    if n > 0 {
      CounterAfterSplits(block, seed, from, limit, m, n - 1);
      assert m + n - 1 == m + (n - 1);
    }
  }

  lemma DrawnWithSplits<T>(value: Word -> T, block: Block, rng: Rng, limit: int, m: nat, n: nat)
    ensures var (first, middle) := DrawnWith(value, block, rng, limit, m);
            var (second, after) := DrawnWith(value, block, middle, limit, n);
            DrawnWith(value, block, rng, limit, m + n) == (first + second, after)
  {
    var (first, middle) := DrawnWith(value, block, rng, limit, m);
    var (second, after) := DrawnWith(value, block, middle, limit, n);
    CounterAfterSplits(block, rng.seed, rng.counter, limit, m, n);
    var whole := DrawnWith(value, block, rng, limit, m + n).0;
    forall i | 0 <= i < m + n
      ensures whole[i] == (first + second)[i]
    {
      if i >= m {
        UsedSplits(block, rng, limit, m, i - m);
        assert Used(block, rng, limit, m + (i - m)) == Used(block, middle, limit, i - m);
      }
    }
    assert whole == first + second;
  }

  /** `draw_many` is successive draws: splitting a batch anywhere changes nothing. */
  lemma DrawManySplits(block: Block, rng: Rng, bound: int, m: nat, n: nat)
    requires ValidBound(bound)
    ensures var (first, middle) := DrawnMany(block, rng, bound, m);
            var (second, after) := DrawnMany(block, middle, bound, n);
            DrawnMany(block, rng, bound, m + n) == (first + second, after)
  {
    DrawnWithSplits(Residue(bound), block, rng, Limit(bound), m, n);
  }

  lemma UsedSplits(block: Block, rng: Rng, limit: int, m: nat, i: nat)
    ensures Used(block, rng, limit, m + i)
         == Used(block, Rng(rng.seed, CounterAfter(block, rng.seed, rng.counter, limit, m)), limit, i)
  {
    CounterAfterSplits(block, rng.seed, rng.counter, limit, m, i + 1);
    assert m + i + 1 == m + (i + 1);
  }

  /** Every value of a batch lies in `[0, bound)`. */
  lemma DrawsInRange(block: Block, rng: Rng, bound: int, count: nat)
    requires ValidBound(bound)
    ensures var values := DrawnMany(block, rng, bound, count).0;
            |values| == count && forall i :: 0 <= i < count ==> 0 <= values[i] < bound
  {
    forall i | 0 <= i < count
      ensures 0 <= DrawnMany(block, rng, bound, count).0[i] < bound
    {
      var w := block(rng.seed, Used(block, rng, Limit(bound), i));
      assert 0 <= w % bound < bound;
      assert Residue(bound)(w) == w % bound;
    }
  }
}
