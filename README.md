# Slow/fast idiom pairs and customer-email validation, in Dafny

This project models two self-contained parts of a data-science teaching repository.

- **`SlowCode`** (`slow_code.dfy`) covers the pure-data "slow versus fast" idiom pairs of `slow_code_examples.py`:
  - joining strings with `", "`;
  - the sum of squares below `n`;
  - counting occurrences into a dictionary;
  - accumulating through a module-level global versus a local;
  - building `0, 2, 4, …`.

  Each slow version is written in the source's form. Loops that grow a string, a dictionary plus a key list, the global counter or a list become methods with loop invariants. The list-then-`sum` expression becomes a function. Each fast version is the expression or loop the source uses instead. Both are proved equal to a reference definition of what they compute. For three pairs, that reference is characterised by its own lemmas: the closed form of the sum of squares, what the count map's keys and counts mean, and the element-wise shape of the doubled range. The string join's reference is `sep.join`, characterised by its contract and its one-item step. For the global-versus-local pair the reference is `Sum`, which is Python's `sum` itself. The local version equals it, and the global version equals it only when the counter starts at 0. The module-level `global_counter` is a field of the class `ModuleGlobals`.
- **`DataUtils`** (`data_utils.dfy`) covers `validate_email` and `validate_customer_data` of `data_utils.py`. A customer row is its `email` cell plus a map of the other columns. The filter is a method whose loop appends kept rows. It is proved equal to the reference function `ValidRows`. Lemmas show that a row is kept exactly when its email is valid, that kept rows are unchanged and in their original order, that the output is never longer than the input, and that filtering again changes nothing. The inline check duplicated in `process_new_customers`, `process_returning_customers` and `process_vip_customers` of `customer_analysis.py` is modelled as `FilterCustomersInline`. It is proved to keep exactly the same rows.

Python's `range(n)` is empty for `n <= 0`. The model follows this: `sum_of_squares_*` return 0 and `create_array_*` return an empty sequence for such `n`. Python integers are unbounded, and so are Dafny's `int`.

`benchmark_example` calls the slow function once to warm up and then once more under the timer. So after the driver resets `global_counter` to 0 (slow_code_examples.py:270), the warm-up call of `process_with_global_slow` agrees with `process_with_local_fast`. The timed call starts from the warm-up's total and returns twice the sum. `ModuleGlobals.RunGlobalVsLocalBenchmark` states this. The driver discards both results, so nothing is printed wrong.

The Python and NumPy built-ins the idioms rely on are small helper functions of `SlowCode`:
- `Sum` is `sum`, a left-to-right fold from 0.
- `SquaresList` is the list comprehension `[x**2 for x in range(n)]`.
- `SumSquaresGenerator` is the generator `x**2 for x in range(n)` consumed by `sum`.
- `Get` is `dict.get`.
- `Arange` and `Scale` are `np.arange(n)` and element-wise `* 2`.
- `Occurrences` counts the positions of a list that hold an item.

In `DataUtils`, `InlineEmailCheck` is the nested email test of `customer_analysis.py`.

## Model

| member | source | states |
|---|---|---|
| SlowCode.Join | slow_code_examples.py:61 | `sep.join(items)` is "" for no items, starts with the first item, and its length is the items' total length plus one separator between each pair of neighbours |
| SlowCode.JoinSnoc | slow_code_examples.py:49-52 | appending an item to a join adds the separator and the item, or just the item when the join was empty: the step of the slow loop |
| SlowCode.BuildLargeStringFast | slow_code_examples.py:56-61 | `", ".join(items)` is "" for an empty list and otherwise has length total + 2·(count − 1) |
| SlowCode.BuildLargeStringSlow | slow_code_examples.py:42-53 | the `+=` loop, which emits ", " only before items with index > 0, returns exactly `build_large_string_fast(items)` for every list, including the empty one |
| SlowCode.BuildLargeStringExample | test_performance_examples.py:27-36 | ["a","b","c"] joins to "a, b, c", and the empty list to "" |
| SlowCode.SumSquaresClosedForm | slow_code_examples.py:80 | for n ≥ 0, six times the sum of x·x over 0..n−1 is (n−1)·n·(2n−1) |
| SlowCode.SquaresListSum | slow_code_examples.py:71-72 | summing the materialised list `[x**2 for x in range(n)]` gives the sum of x·x over 0..n−1, which is 0 when n ≤ 0 |
| SlowCode.SumOfSquaresSlow | slow_code_examples.py:66-72 | `sum_of_squares_slow(n)` equals the reference sum of x·x over 0..n−1 for every n, and so is 0 when n ≤ 0 |
| SlowCode.SumSquaresGeneratorSpec | slow_code_examples.py:80 | consuming the generator from x adds to the running total exactly the squares of x..n−1 |
| SlowCode.SumOfSquaresFast | slow_code_examples.py:75-80 | `sum_of_squares_fast(n)`, which consumes the generator, equals the reference sum of x·x over 0..n−1 for every n |
| SlowCode.SumOfSquaresAgree | slow_code_examples.py:66-80 | slow and fast agree for every n, are 0 for n ≤ 0, and equal (n−1)·n·(2n−1)/6 otherwise |
| SlowCode.SumOfSquaresExamples | test_performance_examples.py:39-49 | the test's n = 100 gives 328350 on both versions; n = 10000, an extra worked value not in the tests, gives 333283335000 |
| SlowCode.OccurrencesPositive | slow_code_examples.py:112-119 | an item occurs at least once if and only if it is in the list, so only items of the list become keys, each with a count of at least 1 |
| SlowCode.OccurrencesIsMultiplicity | slow_code_examples.py:107-131 | the occurrence count of an item equals its multiplicity in the list |
| SlowCode.OccurrencesSnoc | slow_code_examples.py:116-118 | appending an item adds one occurrence of that item and none of any other |
| SlowCode.CountsSnoc | slow_code_examples.py:130 | one more item raises that item's count by one, starting from 0 (`get(item, 0) + 1`) when it is new, and leaves every other count alone |
| SlowCode.CountsMeaning | slow_code_examples.py:107-131 | the count map's keys are exactly the distinct items, and each value is the number of occurrences of its key, so at least 1 |
| SlowCode.CountItemsSlow | slow_code_examples.py:107-120 | the list-membership loop returns the occurrence-count map. Its invariant keeps `keys_list` duplicate-free and equal, as a set, to the dictionary's keys, so `result[item] += 1` only runs on an existing key |
| SlowCode.CountItemsFast | slow_code_examples.py:123-131 | the `get(item, 0) + 1` loop returns the same occurrence-count map |
| SlowCode.CountsExampleOccurrences | test_performance_examples.py:71-80 | in any list shaped [a, b, a, c, b, a] with a, b, c distinct, a occurs 3 times, b twice and c once |
| SlowCode.CountsExample | test_performance_examples.py:71-80 | ["a","b","a","c","b","a"] counts to {a: 3, b: 2, c: 1} |
| SlowCode.ProcessWithLocalFast | slow_code_examples.py:149-156 | the local accumulator returns the sum of the items and modifies no state |
| SlowCode.SumExample | test_performance_examples.py:116-123 | [1, 2, 3, 4, 5] sums to 15 |
| SlowCode.ModuleGlobals.constructor | slow_code_examples.py:136 | the module starts with `global_counter` at 0 |
| SlowCode.ModuleGlobals.ProcessWithGlobalSlow | slow_code_examples.py:138-146 | the counter grows by the sum of the items and its new value is returned; that value equals the local version's result if and only if the counter started at 0 |
| SlowCode.ModuleGlobals.RunGlobalVsLocalBenchmark | slow_code_examples.py:202-224 | after the driver's reset (line 270), the warm-up global call and both local calls return the sum, and the timed global call returns twice the sum |
| SlowCode.CreateArrayFast | slow_code_examples.py:172-176 | `np.arange(n) * 2` has length max(n, 0), and its i-th element is 2·i |
| SlowCode.CreateArraySlow | slow_code_examples.py:161-169 | the append loop produces the sequence whose i-th element is 2·i, of length max(n, 0), equal to `create_array_fast(n)` |
| SlowCode.CreateArrayExample | test_performance_examples.py:83-93 | n = 10 gives [0, 2, 4, …, 18] |
| DataUtils.ValidateEmail | data_utils.py:26-36 | `validate_email` accepts exactly the strings the nested inline test of customer_analysis.py:18-19 accepts ('@' and '.' present, then length > 5), and never a string of at most 5 characters |
| DataUtils.ShortEmailRejected | data_utils.py:36 | every string of at most 5 characters is rejected, whatever its characters |
| DataUtils.ValidateEmailExamples | data_utils.py:36 | "a@b.c" is rejected (too short), "ab@c.de" is accepted, and an address without '@' is rejected |
| DataUtils.ValidRows | data_utils.py:49-53 | the validated table is no longer than the input, and every row in it has a valid email |
| DataUtils.ValidRowsMembership | data_utils.py:49-53 | a row is in the result if and only if it is in the input and its email passes `validate_email` |
| DataUtils.KeptIndices | data_utils.py:50-52 | the kept positions are valid positions of the input, in strictly increasing order |
| DataUtils.ValidRowsLength | data_utils.py:49-53 | the result has exactly one row per kept position |
| DataUtils.ValidRowsOrder | data_utils.py:50-52 | the k-th result row is, unmodified, the input row at the k-th kept position, so kept rows keep their relative order |
| DataUtils.KeptIndicesExactly | data_utils.py:50-51 | a position is kept if and only if the email in that row is valid |
| DataUtils.ValidRowsIdempotent | data_utils.py:39-53 | validating an already validated table returns it unchanged |
| DataUtils.ValidateCustomerData | data_utils.py:39-53 | the row loop that appends rows with a valid email returns exactly the reference filter's result |
| DataUtils.FilterCustomersInline | customer_analysis.py:14-22 | the duplicated inline loop, with its nested '@'/'.' test and then a length test, keeps exactly the rows `validate_customer_data` keeps |

## Left out

- `process_dataframe_*`, `filter_dataframe_*`, `concatenate_dataframes_*`: these work on pandas DataFrames of random floats, with index semantics and floating-point columns.
- Timing, printing and the speedup division in `benchmark_example` and the `__main__` driver. Only their call order for the global/local pair is modelled. Random inputs are not modelled either. The unguarded `slow_time / fast_time` is also not modelled, although it can divide by zero.
- `load_and_clean_sales_data` and `load_and_validate_customers`: these are CSV file I/O and datetime parsing.
- statistics_utils.py, visualization_utils.py, and the sales, product and customer report scripts: these are pandas float aggregates, plotting and printing. Only the inline email loop of customer_analysis.py is modelled, as the reference for `validate_customer_data`.
- test_refactoring.py: it inspects the repository's Python source with `ast`.
- DataUtils.Customer: an `email` cell that is not a string is not modelled. A missing value (NaN) would make `'@' in email` raise in the source.
- DataUtils.KeptIndices: the model has no DataFrame index. The rebuilt DataFrame keeps each kept row's original index label, and `KeptIndices` stands for those labels only under the default RangeIndex that `read_csv` gives. Other index labels are not modelled.
- DataUtils.ValidateCustomerData: when no row is kept, `pd.DataFrame([])` has no columns at all. The model returns only an empty sequence of rows and has no column schema.
- SlowCode.CountItemsSlow: a Python dict keeps its keys in first-occurrence order, but `map` has no order. Nothing in the source depends on that order, because the tests compare dicts with `==`. The same holds for SlowCode.CountItemsFast.
- SlowCode.CreateArrayFast: NumPy's fixed-width `int64` wrap-around of `np.arange(n) * 2` is not modelled. It only matters for n above 2^62, which no list of that length can reach.
