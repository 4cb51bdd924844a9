# Two array scans from a collection of interview-problem solutions

This project models, in Dafny, the two functions of the repository's
`blind75` directory and proves what each of them computes.

- `tow_sum(nums, target)` (LeetCode problem 1, two-sum) scans the list once.
  It keeps a dictionary `num_to_index` from each value seen so far to a
  position. At each position it looks up the complement `target - num`. On a
  hit it returns `[stored position, current position]`. Otherwise it stores
  `num -> index`. When the scan ends without a hit it returns `[]`. Module
  `TwoSum` models it as the method `TowSum`: the dictionary is a
  `map<int, int>`, the `for` loop keeps its early `return`, and the loop
  invariant `IsIndexMap` says what the dictionary holds.
- `countHillValley(nums)` (LeetCode problem 2210) counts hills and valleys. A
  plateau is a maximal run of equal neighbours. A plateau with a plateau on
  each side counts when it is strictly above both (a hill) or strictly below
  both (a valley). Module `HillsValleys` models the `while` loop over `i`,
  `count` and `prev` as the method `CountHillValley`. Its result is proved equal
  to `HillValleyCount`, a declarative count over the plateau list `Plateaus`.

Both inputs are Python lists that the functions only read, so they are
`seq<int>` here. Python integers are unbounded, like Dafny's `int`.

The two-sum dictionary keeps the last position of each value: the store at
`1_tow_sum.py:32` overwrites any earlier entry for the same value. So the first
index returned is the last earlier position holding the complement, and the
pair returned has the smallest second index `j` and, for that `j`, the largest
first index `i`. A dictionary that kept first positions would return `[0, 2]`
for `[1, 1, 2]` and target 3; this code returns `[1, 2]`. `TowSum` states and
proves this, and `TowSumKeepsLastOccurrence` shows the case.

## Model

| member | source | states |
|---|---|---|
| `TwoSum.Store` | blind75/1_tow_sum.py:32 | storing `num -> index` keeps the dictionary invariant: keys exactly the values of `nums[..index + 1]`, each mapped to its last position |
| `TwoSum.Lookup` | blind75/1_tow_sum.py:25-29 | a miss on `target - nums[j]` means no earlier position completes the sum with `j`; a hit yields a position that does, and it is the largest such |
| `TwoSum.TowSum` | blind75/1_tow_sum.py:16-35 | result is `[]` exactly when no `i < j` has `nums[i] + nums[j] == target`; otherwise it is `[i, j]` with `0 <= i < j < len(nums)` and that sum; `j` is the smallest second index of any pair; `i` is the largest index before `j` that completes the sum; loop invariant: the dictionary holds exactly the values seen, each at its last position, and no pair ends before the current position |
| `TwoSum.TowSumBasic` | blind75/1_tow_sum.py:40 | `[2, 7, 11, 15]`, target 9 gives `[0, 1]` |
| `TwoSum.TowSumNegatives` | blind75/1_tow_sum.py:44 | `[-1, -2, -3, -4, -5]`, target -8 gives `[2, 4]` |
| `TwoSum.TowSumSelfComplement` | blind75/1_tow_sum.py:48 | `[3, 3]`, target 6 gives `[0, 1]`: the lookup runs before the store, so the indices differ |
| `TwoSum.TowSumKeepsLastOccurrence` | blind75/1_tow_sum.py:28-32 | `[1, 1, 2]`, target 3 gives `[1, 2]`: the overwrite keeps the last occurrence |
| `TwoSum.TowSumNoPair` | blind75/1_tow_sum.py:35 | `[1, 2, 3]`, target 100 gives `[]` |
| `HillsValleys.Plateaus` | blind75/2_count_hills_valleys.py:4-5 | the plateau list of the first `n` elements is no longer than `n`, starts with the first element and ends with element `n - 1` |
| `HillsValleys.PlateausAt` | blind75/2_count_hills_valleys.py:4-5 | `Plateaus` collapses runs: there is one plateau per change of value plus one, and position `k` carries the value of plateau number `PlateauIndex(s, k)` |
| `HillsValleys.PlateausAdjacentDiffer` | blind75/2_count_hills_valleys.py:4-5 | neighbouring plateaus have different values, so the runs are maximal |
| `HillsValleys.PlateausOfDistinct` | blind75/2_count_hills_valleys.py:4-5 | without equal neighbours each element is its own plateau; `CountHillValleyAlternating` uses this for its input, which has no equal neighbours |
| `HillsValleys.PlateausConstant` | blind75/2_count_hills_valleys.py:30-34 | elements that are all equal form a single plateau |
| `HillsValleys.CountExtremes` | blind75/2_count_hills_valleys.py:37-38 | the number of interior entries of a plateau list that are a hill or a valley is at most its length minus 2, and 0 below length 3 |
| `HillsValleys.CountExtremesSnoc` | blind75/2_count_hills_valleys.py:37-38 | appending a plateau adds one exactly when the previous last plateau becomes a hill or valley between its two neighbours |
| `HillsValleys.CountExtremesStep` | blind75/2_count_hills_valleys.py:37-38 | the same, stated for growing prefixes of a plateau list |
| `HillsValleys.HillValleyCount` | blind75/2_count_hills_valleys.py:22-23 | the declarative count is 0 for fewer than 3 elements and at most `n - 2` otherwise |
| `HillsValleys.AllEqualHasNone` | blind75/2_count_hills_valleys.py:30-34 | an array whose elements are all equal has count 0 |
| `HillsValleys.PlateausPrefix` | blind75/2_count_hills_valleys.py:4-5 | the plateaus of the first `n` elements depend on those elements only |
| `HillsValleys.PlateausCons` | blind75/2_count_hills_valleys.py:4-5 | a new first element joins the first plateau when equal to it and starts a new plateau otherwise |
| `HillsValleys.CountExtremesCons` | blind75/2_count_hills_valleys.py:4-5 | prepending a plateau adds one exactly when the old first plateau becomes a hill or valley |
| `HillsValleys.PlateausReverse` | blind75/2_count_hills_valleys.py:4-5 | the plateaus of the reversed array are the reversed plateau list |
| `HillsValleys.CountExtremesReverse` | blind75/2_count_hills_valleys.py:4-5 | reversing a plateau list keeps its count of hills and valleys |
| `HillsValleys.HillValleyCountReverse` | blind75/2_count_hills_valleys.py:4-5 | reversing the array does not change the count |
| `HillsValleys.CountedStart` | blind75/2_count_hills_valleys.py:25-28 | the scan state `count = 0`, `prev = nums[0]`, `i = 1` satisfies the loop invariant |
| `HillsValleys.CountedStep` | blind75/2_count_hills_valleys.py:30-42 | a skipped position keeps `prev`, `count` and the plateau list; any other position closes a plateau, adds one when it is a hill or valley against `prev` and `nums[i + 1]`, and makes `nums[i]` the new `prev` |
| `HillsValleys.CountHillValley` | blind75/2_count_hills_valleys.py:16-45 | the result equals `HillValleyCount(nums)`: the number of plateaus with a neighbour on both sides that are strictly above or strictly below both, each counted once; plateaus touching index 0 or `n - 1` never count; loop invariant: `prev` is the nearest value left of `i` that differs from `nums[i]`, or `nums[i]` itself when that plateau starts at 0 |
| `HillsValleys.CountHillValleyBasic` | blind75/2_count_hills_valleys.py:50 | `[2, 4, 1, 1, 6, 5]` gives 3 |
| `HillsValleys.CountHillValleyMonotone` | blind75/2_count_hills_valleys.py:54 | `[6, 6, 5, 5, 4, 1]` gives 0 |
| `HillsValleys.CountHillValleyAlternating` | blind75/2_count_hills_valleys.py:58 | `[1, 2, 1, 3, 5, 4, 2, 1, 3]` gives 4 |

## Left out

- The `if __name__ == "__main__":` blocks (`1_tow_sum.py:38-51`, `2_count_hills_valleys.py:48-61`) print to the console. Their asserted cases are the example methods above; the printing is not modelled.
- Running time and memory (single pass, average constant-time dictionary operations) cannot be stated as contracts. A Dafny `map` has the behaviour of the dictionary but no cost model.
- The `typing.List` import and the type annotations carry no behaviour.
