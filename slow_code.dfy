/**
 * The pure-data "slow versus fast" idiom pairs of slow_code_examples.py.
 *
 * Each pair is modelled twice: the slow version in the form the source writes
 * it (a loop that changes state step by step, or the list-then-sum
 * expression), the fast version as the expression or loop the source uses
 * instead, and a reference definition of what both are meant to compute.
 * Every version is proved equal to the reference.
 */
module SlowCode {

  // ---------------------------------------------------------------------------
  // Shared definitions
  // ---------------------------------------------------------------------------

  /** Python's `sum(xs)`: a left-to-right fold with `+`, starting from 0. */
  function Sum(xs: seq<int>): int
  {
    if xs == [] then 0 else Sum(xs[..|xs| - 1]) + xs[|xs| - 1]
  }

  /** Number of elements of `range(n)`: `n` when positive, otherwise 0. */
  function RangeLength(n: int): nat
  {
    if n > 0 then n else 0
  }

  // ---------------------------------------------------------------------------
  // Example 2: string concatenation
  // ---------------------------------------------------------------------------

  /** Total number of characters in `items`. */
  function TotalLength(items: seq<string>): nat
  {
    if items == [] then 0 else |items[0]| + TotalLength(items[1..])
  }

  /**
   * Python's `sep.join(items)`: the items in order, with one copy of `sep`
   * between every two neighbours and none at either end.
   */
  function Join(sep: string, items: seq<string>): (r: string)
    ensures items == [] ==> r == ""
    ensures items != [] ==> items[0] <= r
    ensures items != [] ==> |r| == TotalLength(items) + |sep| * (|items| - 1)
  {
    if items == [] then ""
    else if |items| == 1 then items[0]
    else
      var rest := Join(sep, items[1..]);
      assert |sep| * (|items| - 1) == |sep| + |sep| * (|items| - 2);
      items[0] + sep + rest
  }

  /**
   * Adding one item at the end of a join adds the separator and the item,
   * unless the join was empty: the step the slow loop takes.
   */
  lemma {:induction false} JoinSnoc(sep: string, items: seq<string>, x: string)
    ensures Join(sep, items + [x]) == if items == [] then x else Join(sep, items) + sep + x
    decreases |items|
  {
    if |items| <= 1 {
    } else {
      calc {
        Join(sep, items + [x]);
        { assert (items + [x])[1..] == items[1..] + [x]; }
        items[0] + sep + Join(sep, items[1..] + [x]);
        { JoinSnoc(sep, items[1..], x); }
        items[0] + sep + (Join(sep, items[1..]) + sep + x);
        Join(sep, items) + sep + x;
      }
    }
  }

  /** `build_large_string_fast`: `", ".join(items)`. */
  function BuildLargeStringFast(items: seq<string>): (r: string)
    ensures items == [] ==> r == ""
    ensures items != [] ==> |r| == TotalLength(items) + 2 * (|items| - 1)
  {
    Join(", ", items)
  }

  /**
   * `build_large_string_slow`: grows `result` with `+=`, emitting ", " before
   * every item but the first; the outcome is the fast version's join.
   */
  method BuildLargeStringSlow(items: seq<string>) returns (result: string)
    ensures result == BuildLargeStringFast(items)
  {
    result := "";
    var i := 0;
    while i < |items|
      invariant 0 <= i <= |items|
      invariant result == Join(", ", items[..i])
    {
      var item := items[i];
      JoinSnoc(", ", items[..i], item);
      assert items[..i + 1] == items[..i] + [item];
      if i > 0 {
        result := result + ", ";
      }
      result := result + item;
      i := i + 1;
    }
    assert items[..i] == items;
  }

  /** The example checked by the repository's tests: ["a","b","c"] gives "a, b, c". */
  lemma BuildLargeStringExample()
    ensures BuildLargeStringFast(["a", "b", "c"]) == "a, b, c"
    ensures BuildLargeStringFast([]) == ""
  {
    assert ["a", "b", "c"][1..] == ["b", "c"];
    assert ["b", "c"][1..] == ["c"];
  }

  // ---------------------------------------------------------------------------
  // Example 3: sum of squares
  // ---------------------------------------------------------------------------

  /** Reference definition: the sum of x*x for x in 0 .. n-1 (0 when n <= 0). */
  function SumSquaresBelow(n: int): int
    decreases if n > 0 then n else 0
  {
    if n <= 0 then 0 else SumSquaresBelow(n - 1) + (n - 1) * (n - 1)
  }

  /** The polynomial step of the closed form: adding m*m to the sum below m. */
  lemma ClosedFormStep(m: int)
    ensures (m - 1) * m * (2 * m - 1) + 6 * (m * m) == m * (m + 1) * (2 * m + 1)
  {
    var p := (m - 1) * (2 * m - 1);
    var q := (m + 1) * (2 * m + 1);
    assert p == 2 * (m * m) - 3 * m + 1;
    assert q == 2 * (m * m) + 3 * m + 1;
    assert (m - 1) * m * (2 * m - 1) == m * p;
    assert m * (m + 1) * (2 * m + 1) == m * q;
    assert m * q - m * p == m * (q - p);
  }

  /** Closed form of the reference sum, for n >= 0. */
  lemma {:induction false} SumSquaresClosedForm(n: int)
    requires n >= 0
    ensures 6 * SumSquaresBelow(n) == (n - 1) * n * (2 * n - 1)
  {
    if n > 0 {
      SumSquaresClosedForm(n - 1);
      ClosedFormStep(n - 1);
    }
  }

  /** The list `[x**2 for x in range(n)]`. */
  function SquaresList(n: int): seq<int>
  {
    seq(RangeLength(n), x => x * x)
  }

  /** Summing the list of squares below n gives the reference sum. */
  lemma {:induction false} SquaresListSum(n: int)
    ensures Sum(SquaresList(n)) == SumSquaresBelow(n)
    decreases RangeLength(n)
  {
    if n > 0 {
      assert SquaresList(n)[..n - 1] == SquaresList(n - 1);
      SquaresListSum(n - 1);
    }
  }

  /**
   * `sum_of_squares_slow`: materialise the list of squares, then sum it; the
   * result is the reference sum.
   */
  function SumOfSquaresSlow(n: int): (r: int)
    ensures r == SumSquaresBelow(n)
  {
    SquaresListSum(n);
    Sum(SquaresList(n))
  }

  /**
   * `sum(x**2 for x in range(n))` consumed as a generator: the running total
   * `acc` takes the squares of x, x+1, ..., n-1 one at a time.
   */
  function SumSquaresGenerator(x: int, n: int, acc: int): int
    decreases n - x
  {
    if x >= n then acc else SumSquaresGenerator(x + 1, n, acc + x * x)
  }

  /** The generator adds to `acc` the reference sums between x and n. */
  lemma {:induction false} SumSquaresGeneratorSpec(x: int, n: int, acc: int)
    requires 0 <= x
    ensures SumSquaresGenerator(x, n, acc)
         == acc + (if x <= n then SumSquaresBelow(n) - SumSquaresBelow(x) else 0)
    decreases n - x
  {
    if x < n {
      SumSquaresGeneratorSpec(x + 1, n, acc + x * x);
    }
  }

  /**
   * `sum_of_squares_fast`: the generator consumed from 0 with total 0; the
   * result is the reference sum.
   */
  function SumOfSquaresFast(n: int): (r: int)
    ensures r == SumSquaresBelow(n)
  {
    SumSquaresGeneratorSpec(0, n, 0);
    SumSquaresGenerator(0, n, 0)
  }

  /**
   * Both versions agree for every n, are 0 when n <= 0, and equal
   * (n-1)*n*(2n-1)/6 otherwise.
   */
  lemma SumOfSquaresAgree(n: int)
    ensures SumOfSquaresSlow(n) == SumOfSquaresFast(n)
    ensures n <= 0 ==> SumOfSquaresFast(n) == 0
    ensures n >= 0 ==> 6 * SumOfSquaresFast(n) == (n - 1) * n * (2 * n - 1)
  {
    if n >= 0 {
      SumSquaresClosedForm(n);
    }
  }

  /** The test's n = 100, and n = 10000 as an extra worked value the tests do not use. */
  lemma SumOfSquaresExamples()
    ensures SumOfSquaresSlow(100) == SumOfSquaresFast(100) == 328350
    ensures SumOfSquaresFast(10000) == 333283335000
  {
    SumOfSquaresAgree(100);
    SumOfSquaresAgree(10000);
  }

  // ---------------------------------------------------------------------------
  // Example 5: counting items
  // ---------------------------------------------------------------------------

  /** The number of positions of `items` that hold `x`. */
  function Occurrences(items: seq<string>, x: string): nat
  {
    if items == [] then 0
    else Occurrences(items[..|items| - 1], x) + (if items[|items| - 1] == x then 1 else 0)
  }

  /** An item occurs at least once exactly when it is in the list. */
  lemma {:induction false} OccurrencesPositive(items: seq<string>, x: string)
    ensures Occurrences(items, x) > 0 <==> x in items
  {
    if items != [] {
      var init := items[..|items| - 1];
      OccurrencesPositive(init, x);
      assert items == init + [items[|items| - 1]];
    }
  }

  /** The occurrence number is the item's multiplicity in the list. */
  lemma {:induction false} OccurrencesIsMultiplicity(items: seq<string>, x: string)
    ensures Occurrences(items, x) == multiset(items)[x]
  {
    if items != [] {
      var init := items[..|items| - 1];
      OccurrencesIsMultiplicity(init, x);
      assert items == init + [items[|items| - 1]];
    }
  }

  /**
   * Reference definition: every distinct item mapped to its number of
   * occurrences.
   */
  function Counts(items: seq<string>): map<string, nat>
  {
    map x | x in items :: Occurrences(items, x)
  }

  /** `dict.get(key, default)`. */
  function Get(m: map<string, nat>, key: string, default: nat): nat
  {
    if key in m then m[key] else default
  }

  /** One more item raises its count by one, starting from 0 if it is new. */
  lemma CountsSnoc(items: seq<string>, x: string)
    ensures Counts(items + [x]) == Counts(items)[x := Get(Counts(items), x, 0) + 1]
  {
    var m, m' := Counts(items), Counts(items + [x]);
    assert (items + [x])[..|items|] == items;
    assert m'.Keys == m.Keys + {x};
    forall k | k in m'
      ensures m'[k] == m[x := Get(m, x, 0) + 1][k]
    {
      OccurrencesPositive(items, x);
    }
  }

  /**
   * The keys of the count map are exactly the distinct items, and each value
   * is the number of occurrences of its key (its multiplicity), hence at
   * least 1.
   */
  lemma CountsMeaning(items: seq<string>)
    ensures forall k :: k in Counts(items) <==> k in items
    ensures forall k :: k in Counts(items) ==> Counts(items)[k] == multiset(items)[k] >= 1
  {
    forall k | k in items
      ensures Counts(items)[k] == multiset(items)[k] >= 1
    {
      OccurrencesPositive(items, k);
      OccurrencesIsMultiplicity(items, k);
    }
  }

  /** `count_items_slow`: a dictionary plus a list of the keys seen so far. */
  method CountItemsSlow(items: seq<string>) returns (result: map<string, nat>)
    ensures result == Counts(items)
  {
    result := map[];
    var keysList: seq<string> := [];
    var i := 0;
    while i < |items|
      invariant 0 <= i <= |items|
      invariant result == Counts(items[..i])
      invariant forall k :: k in keysList <==> k in result
      invariant forall a, b :: 0 <= a < b < |keysList| ==> keysList[a] != keysList[b]
    {
      var item := items[i];
      CountsSnoc(items[..i], item);
      assert items[..i + 1] == items[..i] + [item];
      if item in keysList {
        result := result[item := result[item] + 1];
      } else {
        result := result[item := 1];
        keysList := keysList + [item];
      }
      i := i + 1;
    }
    assert items[..i] == items;
  }

  /** `count_items_fast`: `result[item] = result.get(item, 0) + 1` per item. */
  method CountItemsFast(items: seq<string>) returns (result: map<string, nat>)
    ensures result == Counts(items)
  {
    result := map[];
    var i := 0;
    while i < |items|
      invariant 0 <= i <= |items|
      invariant result == Counts(items[..i])
    {
      var item := items[i];
      CountsSnoc(items[..i], item);
      assert items[..i + 1] == items[..i] + [item];
      result := result[item := Get(result, item, 0) + 1];
      i := i + 1;
    }
    assert items[..i] == items;
  }

  /** Appending `y` adds one occurrence of `y` and none of anything else. */
  lemma OccurrencesSnoc(items: seq<string>, y: string, x: string)
    ensures Occurrences(items + [y], x) == Occurrences(items, x) + (if y == x then 1 else 0)
  {
    assert (items + [y])[..|items|] == items;
  }

  /**
   * Occurrence numbers in a list shaped like the test's example, for any
   * three distinct items (variables keep the verifier from unfolding
   * `Occurrences` on literals).
   */
  lemma CountsExampleOccurrences(items: seq<string>, a: string, b: string, c: string)
    requires a != b && a != c && b != c
    requires items == [a, b, a, c, b, a]
    ensures Occurrences(items, a) == 3 && Occurrences(items, b) == 2 && Occurrences(items, c) == 1
  {
    var s0: seq<string> := [];
    var s1 := s0 + [a];
    OccurrencesSnoc(s0, a, a); OccurrencesSnoc(s0, a, b); OccurrencesSnoc(s0, a, c);
    var s2 := s1 + [b];
    OccurrencesSnoc(s1, b, a); OccurrencesSnoc(s1, b, b); OccurrencesSnoc(s1, b, c);
    var s3 := s2 + [a];
    OccurrencesSnoc(s2, a, a); OccurrencesSnoc(s2, a, b); OccurrencesSnoc(s2, a, c);
    var s4 := s3 + [c];
    OccurrencesSnoc(s3, c, a); OccurrencesSnoc(s3, c, b); OccurrencesSnoc(s3, c, c);
    var s5 := s4 + [b];
    OccurrencesSnoc(s4, b, a); OccurrencesSnoc(s4, b, b); OccurrencesSnoc(s4, b, c);
    var s6 := s5 + [a];
    OccurrencesSnoc(s5, a, a); OccurrencesSnoc(s5, a, b); OccurrencesSnoc(s5, a, c);
    assert s6 == items;
  }

  /** Distinct items of the test's example list. */
  lemma CountsExampleKeys()
    ensures Counts(["a", "b", "a", "c", "b", "a"]).Keys == {"a", "b", "c"}
  {
    var items := ["a", "b", "a", "c", "b", "a"];
    assert items[0] == "a" && items[1] == "b" && items[3] == "c";
  }

  /** The test's example: ["a","b","a","c","b","a"] counts to {a: 3, b: 2, c: 1}. */
  lemma CountsExample()
    ensures Counts(["a", "b", "a", "c", "b", "a"]) == map["a" := 3, "b" := 2, "c" := 1]
  {
    assert "a" != "b" && "a" != "c" && "b" != "c" by {
      assert "a"[0] != "b"[0] && "a"[0] != "c"[0] && "b"[0] != "c"[0];
    }
    CountsExampleOccurrences(["a", "b", "a", "c", "b", "a"], "a", "b", "c");
    CountsExampleKeys();
  }

  // ---------------------------------------------------------------------------
  // Example 6: global versus local accumulator
  // ---------------------------------------------------------------------------

  /** `process_with_local_fast`: accumulates the items in a local counter. */
  method ProcessWithLocalFast(items: seq<int>) returns (localCounter: int)
    ensures localCounter == Sum(items)
  {
    localCounter := 0;
    var i := 0;
    while i < |items|
      invariant 0 <= i <= |items|
      invariant localCounter == Sum(items[..i])
    {
      assert items[..i + 1][..i] == items[..i];
      localCounter := localCounter + items[i];
      i := i + 1;
    }
    assert items[..i] == items;
  }

  /** The test's example: [1, 2, 3, 4, 5] sums to 15. */
  lemma SumExample()
    ensures Sum([1, 2, 3, 4, 5]) == 15
  {
    assert [1, 2, 3, 4, 5][..4] == [1, 2, 3, 4];
    assert [1, 2, 3, 4][..3] == [1, 2, 3];
    assert [1, 2, 3][..2] == [1, 2];
    assert [1, 2][..1] == [1];
  }

  /** The module-level state of slow_code_examples.py. */
  class ModuleGlobals {
    /** `global_counter`. */
    var globalCounter: int

    /** Importing the module sets `global_counter = 0`. */
    constructor ()
      ensures globalCounter == 0
    {
      globalCounter := 0;
    }

    /**
     * `process_with_global_slow`: adds every item to the global counter and
     * returns its new value, which equals the local version's result only
     * when the counter started at 0.
     */
    method ProcessWithGlobalSlow(items: seq<int>) returns (r: int)
      modifies this
      ensures globalCounter == old(globalCounter) + Sum(items)
      ensures r == globalCounter
      ensures r == Sum(items) <==> old(globalCounter) == 0
    {
      var i := 0;
      while i < |items|
        invariant 0 <= i <= |items|
        invariant globalCounter == old(globalCounter) + Sum(items[..i])
      {
        assert items[..i + 1][..i] == items[..i];
        globalCounter := globalCounter + items[i];
        i := i + 1;
      }
      assert items[..i] == items;
      r := globalCounter;
    }

    /**
     * The driver's global-versus-local comparison: reset the counter, then
     * `benchmark_example` calls each version once to warm up and once timed
     * (timing and printing are not modelled). The warm-up call of the global
     * version agrees with the local one; the timed call, which starts from
     * the warm-up's total, returns twice the sum.
     */
    method RunGlobalVsLocalBenchmark(items: seq<int>)
      returns (warmSlow: int, warmFast: int, timedSlow: int, timedFast: int)
      modifies this
      ensures warmSlow == warmFast == timedFast == Sum(items)
      ensures timedSlow == globalCounter == 2 * Sum(items)
    {
      globalCounter := 0;
      warmSlow := ProcessWithGlobalSlow(items);
      warmFast := ProcessWithLocalFast(items);
      timedSlow := ProcessWithGlobalSlow(items);
      timedFast := ProcessWithLocalFast(items);
    }
  }

  // ---------------------------------------------------------------------------
  // Example 7: array creation
  // ---------------------------------------------------------------------------

  /** The specification of both versions: 0, 2, 4, ..., 2*(n-1). */
  ghost predicate IsDoubledRange(r: seq<int>, n: int)
  {
    |r| == RangeLength(n) && forall i :: 0 <= i < |r| ==> r[i] == 2 * i
  }

  /** `np.arange(n)`. */
  function Arange(n: int): seq<int>
  {
    seq(RangeLength(n), i => i)
  }

  /** Element-wise `a * k` on an array. */
  function Scale(a: seq<int>, k: int): seq<int>
  {
    seq(|a|, i requires 0 <= i < |a| => a[i] * k)
  }

  /** `create_array_fast`: `np.arange(n) * 2`. */
  function CreateArrayFast(n: int): (r: seq<int>)
    ensures IsDoubledRange(r, n)
  {
    Scale(Arange(n), 2)
  }

  /** Only one sequence meets the specification for a given n. */
  lemma DoubledRangeUnique(r: seq<int>, r': seq<int>, n: int)
    requires IsDoubledRange(r, n) && IsDoubledRange(r', n)
    ensures r == r'
  {
  }

  /** `create_array_slow`: appends i*2 for every i in range(n). */
  method CreateArraySlow(n: int) returns (result: seq<int>)
    ensures IsDoubledRange(result, n)
    ensures result == CreateArrayFast(n)
  {
    result := [];
    var i := 0;
    while i < n
      invariant 0 <= i <= RangeLength(n)
      invariant |result| == i
      invariant forall j :: 0 <= j < i ==> result[j] == 2 * j
    {
      result := result + [i * 2];
      i := i + 1;
    }
    DoubledRangeUnique(result, CreateArrayFast(n), n);
  }

  /** The test's example: n = 10 gives [0, 2, ..., 18]. */
  lemma CreateArrayExample()
    ensures CreateArrayFast(10) == [0, 2, 4, 6, 8, 10, 12, 14, 16, 18]
  {
    DoubledRangeUnique(CreateArrayFast(10), [0, 2, 4, 6, 8, 10, 12, 14, 16, 18], 10);
  }
}
