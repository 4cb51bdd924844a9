/**
 The one-pass pair search `tow_sum` (LeetCode problem 1): scan the list from
 left to right, keep a dictionary from every value seen so far to the position
 where it was last seen, and stop at the first position whose complement
 (target minus its value) is already in the dictionary.
 */
module TwoSum {

  /** Positions i and j of nums, i strictly before j, whose values add up to target. */
  ghost predicate IsPair(nums: seq<int>, target: int, i: int, j: int)
  {
    0 <= i < j < |nums| && nums[i] + nums[j] == target
  }

  /** Some two distinct positions of nums add up to target. */
  ghost predicate HasPair(nums: seq<int>, target: int)
  {
    exists i, j :: IsPair(nums, target, i, j)
  }

  /**
   m is the dictionary `num_to_index` as it stands once the loop has stored the
   first n elements of s: its keys are exactly the values of s[..n], and since
   storing `num -> index` overwrites an earlier entry, each maps to the LAST
   position below n that holds it.
   */
  ghost predicate IsIndexMap(s: seq<int>, n: nat, m: map<int, int>)
  {
    && n <= |s|
    && (forall k :: 0 <= k < n ==> s[k] in m)
    && (forall v :: v in m ==> 0 <= m[v] < n && s[m[v]] == v)
    && (forall v, k :: v in m && m[v] < k < n ==> s[k] != v)
  }

  /** Storing `s[n] -> n` turns the dictionary of s[..n] into that of s[..n + 1]. */
  lemma Store(s: seq<int>, n: nat, m: map<int, int>)
    requires n < |s| && IsIndexMap(s, n, m)
    ensures IsIndexMap(s, n + 1, m[s[n] := n])
  {
  }

  /**
   The lookup at position j against the dictionary of nums[..j]: a miss means
   no earlier position completes the sum with j; a hit gives the last such
   position.
   */
  lemma Lookup(nums: seq<int>, target: int, j: nat, m: map<int, int>)
    requires j < |nums| && IsIndexMap(nums, j, m)
    ensures target - nums[j] !in m ==> forall i :: !IsPair(nums, target, i, j)
    ensures target - nums[j] in m ==>
      IsPair(nums, target, m[target - nums[j]], j)
      && forall k :: IsPair(nums, target, k, j) ==> k <= m[target - nums[j]]
  {
  }

  /**
   `tow_sum(nums, target)`. The result is [] exactly when no pair exists;
   otherwise it is [i, j] with the smallest possible j (the loop returns at the
   first hit) and, for that j, the largest possible i (the dictionary keeps the
   last occurrence of each value). Since the lookup comes before the insertion,
   i and j are always distinct.
   */
  method TowSum(nums: seq<int>, target: int) returns (r: seq<int>)
    ensures r == [] <==> !HasPair(nums, target)
    ensures r != [] ==> |r| == 2 && IsPair(nums, target, r[0], r[1])
    ensures r != [] ==> forall i, j :: IsPair(nums, target, i, j) ==> r[1] <= j
    ensures r != [] ==> forall k :: IsPair(nums, target, k, r[1]) ==> k <= r[0]
  {
    var numToIndex: map<int, int> := map[];
    for index := 0 to |nums|
      invariant IsIndexMap(nums, index, numToIndex)
      invariant forall i, j :: IsPair(nums, target, i, j) ==> index <= j
    {
      var num := nums[index];
      var complement := target - num;
      Lookup(nums, target, index, numToIndex);
      if complement in numToIndex {
        ghost var i := numToIndex[complement];
        assert HasPair(nums, target) by {
          assert IsPair(nums, target, i, index);
        }
        return [numToIndex[complement], index];
      }
      assert forall i :: !IsPair(nums, target, i, index);
      Store(nums, index, numToIndex);
      numToIndex := numToIndex[num := index];
    }
    return [];
  }

  // The cases the source checks under its `__main__` block, the overwrite
  // at work, and the no-pair path of the final `return []`.

  method TowSumBasic() returns (r: seq<int>)
    ensures r == [0, 1]
  {
    assert IsPair([2, 7, 11, 15], 9, 0, 1);
    r := TowSum([2, 7, 11, 15], 9);
  }

  method TowSumNegatives() returns (r: seq<int>)
    ensures r == [2, 4]
  {
    var nums := [-1, -2, -3, -4, -5];
    assert IsPair(nums, -8, 2, 4);
    r := TowSum(nums, -8);
    assert r[1] == 4 by {
      assert IsPair(nums, -8, r[0], r[1]);
    }
  }

  method TowSumSelfComplement() returns (r: seq<int>)
    ensures r == [0, 1]
  {
    assert IsPair([3, 3], 6, 0, 1);
    r := TowSum([3, 3], 6);
  }

  method TowSumKeepsLastOccurrence() returns (r: seq<int>)
    ensures r == [1, 2]
  {
    assert IsPair([1, 1, 2], 3, 1, 2);
    r := TowSum([1, 1, 2], 3);
  }

  method TowSumNoPair() returns (r: seq<int>)
    ensures r == []
  {
    r := TowSum([1, 2, 3], 100);
  }
}
