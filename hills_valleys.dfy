/**
 The hill-and-valley counter `countHillValley` (LeetCode problem 2210). A
 plateau is a maximal run of equal neighbouring elements; a plateau that has a
 plateau on each side is a hill when it is strictly above both and a valley
 when it is strictly below both. The function counts hills plus valleys in a
 single scan that skips over equal neighbours.
 */
module HillsValleys {

  /** mid is strictly above both neighbours (a hill) or strictly below both (a valley). */
  predicate IsHillOrValley(left: int, mid: int, right: int)
  {
    (mid > left && mid > right) || (mid < left && mid < right)
  }

  /**
   The values of the plateaus of the first n elements of s, left to right:
   s[..n] with every run of equal neighbours collapsed to one element.
   */
  function Plateaus(s: seq<int>, n: nat): (p: seq<int>)
    requires n <= |s|
    ensures |p| <= n
    ensures n > 0 ==> |p| > 0 && p[0] == s[0] && p[|p| - 1] == s[n - 1]
  {
    if n <= 1 then s[..n]
    else if s[n - 1] == s[n - 2] then Plateaus(s, n - 1)
    else Plateaus(s, n - 1) + [s[n - 1]]
  }

  /** Which plateau of s position k belongs to: the number of changes of value up to k. */
  function PlateauIndex(s: seq<int>, k: nat): nat
    requires k < |s|
  {
    if k == 0 then 0
    else PlateauIndex(s, k - 1) + (if s[k - 1] != s[k] then 1 else 0)
  }

  /**
   The number of interior entries of d (those with an entry on each side) that
   are a hill or a valley with respect to their two neighbours.
   */
  function CountExtremes(d: seq<int>): (c: nat)
    ensures c <= if |d| < 3 then 0 else |d| - 2
  {
    if |d| < 3 then 0
    else
      CountExtremes(d[..|d| - 1])
      + (if IsHillOrValley(d[|d| - 3], d[|d| - 2], d[|d| - 1]) then 1 else 0)
  }

  /**
   The number of hills and valleys of nums: the plateaus with a neighbouring
   plateau on both sides that are strictly above both or strictly below both.
   A plateau touching either end never counts, and each counts at most once.
   */
  function HillValleyCount(nums: seq<int>): (c: nat)
    ensures |nums| < 3 ==> c == 0
    ensures |nums| >= 2 ==> c <= |nums| - 2
  {
    CountExtremes(Plateaus(nums, |nums|))
  }

  /** s read from right to left. */
  function Reverse(s: seq<int>): (r: seq<int>)
    ensures |r| == |s|
    ensures forall k :: 0 <= k < |s| ==> r[k] == s[|s| - 1 - k]
  {
    if s == [] then [] else [s[|s| - 1]] + Reverse(s[..|s| - 1])
  }

  // ---------------------------------------------------------------------
  // How Plateaus and CountExtremes grow at either end

  /** The plateaus of the first n elements depend on those elements only. */
  lemma {:induction false} PlateausPrefix(s: seq<int>, m: nat, n: nat)
    requires n <= m <= |s|
    ensures Plateaus(s[..m], n) == Plateaus(s, n)
  {
    if n > 1 {
      PlateausPrefix(s, m, n - 1);
    } else {
      assert s[..m][..n] == s[..n];
    }
  }

  /** Appending x adds one when the old last entry becomes an interior hill or valley. */
  lemma CountExtremesSnoc(d: seq<int>, x: int)
    ensures CountExtremes(d + [x]) == CountExtremes(d)
      + (if |d| >= 2 && IsHillOrValley(d[|d| - 2], d[|d| - 1], x) then 1 else 0)
  {
    assert (d + [x])[..|d|] == d;
  }

  /** The same for prefixes: d[..k + 1] adds one when d[k - 1] is a hill or valley. */
  lemma CountExtremesStep(d: seq<int>, k: nat)
    requires 2 <= k < |d|
    ensures CountExtremes(d[..k + 1]) ==
      CountExtremes(d[..k]) + if IsHillOrValley(d[k - 2], d[k - 1], d[k]) then 1 else 0
  {
    assert d[..k + 1][..k] == d[..k];
  }

  /** Prepending x merges it into the first plateau of t or starts a new one. */
  lemma {:induction false} PlateausCons(x: int, t: seq<int>, n: nat)
    requires n <= |t|
    ensures Plateaus([x] + t, n + 1) == if n > 0 && x == t[0] then Plateaus(t, n) else [x] + Plateaus(t, n)
  {
    var u := [x] + t;
    if n == 0 {
      assert u[..1] == [x];
    } else if n == 1 {
      assert u[..1] == [x] && t[..1] == [t[0]];
    } else {
      PlateausCons(x, t, n - 1);
      assert u[n] == t[n - 1] && u[n - 1] == t[n - 2];
      assert ([x] + Plateaus(t, n - 1)) + [t[n - 1]] == [x] + (Plateaus(t, n - 1) + [t[n - 1]]);
    }
  }

  /** Prepending x adds one when the old first entry becomes an interior hill or valley. */
  lemma {:induction false} CountExtremesCons(x: int, d: seq<int>)
    ensures CountExtremes([x] + d) == CountExtremes(d)
      + (if |d| >= 2 && IsHillOrValley(x, d[0], d[1]) then 1 else 0)
  {
    if |d| == 2 {
      assert ([x] + d)[..2] == [x, d[0]];
    } else if |d| >= 3 {
      var u := [x] + d;
      var init := d[..|d| - 1];
      assert u[..|u| - 1] == [x] + init;
      CountExtremesCons(x, init);
    }
  }

  // ---------------------------------------------------------------------
  // Properties of the count

  /** Plateaus really collapses runs: position k carries the value of plateau PlateauIndex(s, k). */
  lemma {:induction false} PlateausAt(s: seq<int>, n: nat, k: nat)
    requires k < n <= |s|
    ensures |Plateaus(s, n)| == PlateauIndex(s, n - 1) + 1
    ensures PlateauIndex(s, k) < |Plateaus(s, n)| && Plateaus(s, n)[PlateauIndex(s, k)] == s[k]
  {
    if n > 1 {
      PlateausAt(s, n - 1, n - 2);
      if k < n - 1 {
        PlateausAt(s, n - 1, k);
      }
    }
  }

  /** Neighbouring plateaus differ: the runs Plateaus collapses are maximal. */
  lemma {:induction false} PlateausAdjacentDiffer(s: seq<int>, n: nat)
    requires n <= |s|
    ensures forall k :: 0 <= k < |Plateaus(s, n)| - 1 ==> Plateaus(s, n)[k] != Plateaus(s, n)[k + 1]
  {
    if n > 1 {
      PlateausAdjacentDiffer(s, n - 1);
    }
  }

  /** Without equal neighbours every element is a plateau of its own. */
  lemma {:induction false} PlateausOfDistinct(s: seq<int>, n: nat)
    requires n <= |s|
    requires forall k :: 0 <= k < n - 1 ==> s[k] != s[k + 1]
    ensures Plateaus(s, n) == s[..n]
  {
    if n > 1 {
      PlateausOfDistinct(s, n - 1);
      assert s[..n - 1] + [s[n - 1]] == s[..n];
    }
  }

  /** Elements that are all equal form a single plateau. */
  lemma {:induction false} PlateausConstant(s: seq<int>, n: nat, v: int)
    requires n <= |s|
    requires forall k :: 0 <= k < n ==> s[k] == v
    ensures Plateaus(s, n) == if n == 0 then [] else [v]
  {
    if n > 1 {
      PlateausConstant(s, n - 1, v);
    }
  }

  /** An array whose elements are all equal has no hill or valley. */
  lemma AllEqualHasNone(nums: seq<int>, v: int)
    requires forall k :: 0 <= k < |nums| ==> nums[k] == v
    ensures HillValleyCount(nums) == 0
  {
    PlateausConstant(nums, |nums|, v);
  }

  /** The plateaus of the reversed array are the plateaus in reverse order. */
  lemma {:induction false} PlateausReverse(s: seq<int>)
    ensures Plateaus(Reverse(s), |s|) == Reverse(Plateaus(s, |s|))
  {
    if s != [] {
      var n, x := |s|, s[|s| - 1];
      var init := s[..n - 1];
      PlateausReverse(init);
      PlateausCons(x, Reverse(init), n - 1);
      PlateausPrefix(s, n - 1, n - 1);
      var p := Plateaus(s, n - 1);
      if n > 1 && x != s[n - 2] {
        assert (p + [x])[..|p|] == p;
      }
    }
  }

  /** Being a hill or a valley does not depend on which neighbour is called left. */
  lemma {:induction false} CountExtremesReverse(d: seq<int>)
    ensures CountExtremes(Reverse(d)) == CountExtremes(d)
  {
    if d != [] {
      var init := d[..|d| - 1];
      CountExtremesReverse(init);
      CountExtremesCons(d[|d| - 1], Reverse(init));
    }
  }

  /** The definition is symmetric in left and right, so reversing the array keeps the count. */
  lemma HillValleyCountReverse(nums: seq<int>)
    ensures HillValleyCount(Reverse(nums)) == HillValleyCount(nums)
  {
    PlateausReverse(nums);
    CountExtremesReverse(Plateaus(nums, |nums|));
  }

  // ---------------------------------------------------------------------
  // The scan

  /**
   What the scan knows at position i: d is the list of plateaus of nums[..i + 1]
   (the last of them is i's own), count is the number of hills and valleys
   among them, and prev is the value of the plateau before i's, or nums[i]
   itself when i's plateau starts at 0.
   */
  ghost predicate Counted(nums: seq<int>, i: nat, prev: int, count: nat, d: seq<int>)
  {
    && i < |nums|
    && d == Plateaus(nums, i + 1)
    && prev == (if |d| == 1 then nums[i] else d[|d| - 2])
    && count == CountExtremes(d)
  }

  /** Before the first iteration: i = 1, prev = nums[0], count = 0. */
  lemma CountedStart(nums: seq<int>)
    requires |nums| >= 2
    ensures Counted(nums, 1, nums[0], 0, Plateaus(nums, 2))
  {
  }

  /**
   One iteration: a position equal to its right neighbour changes nothing; any
   other position closes a plateau, which counts when it is a hill or a valley
   against prev and the right neighbour.
   */
  lemma CountedStep(nums: seq<int>, i: nat, prev: int, count: nat, d: seq<int>)
    requires Counted(nums, i, prev, count, d) && i + 1 < |nums|
    ensures nums[i] == nums[i + 1] ==> Counted(nums, i + 1, prev, count, d)
    ensures nums[i] != nums[i + 1] ==>
      Counted(nums, i + 1, nums[i], count + (if IsHillOrValley(prev, nums[i], nums[i + 1]) then 1 else 0), d + [nums[i + 1]])
  {
    CountExtremesSnoc(d, nums[i + 1]);
  }

  /**
   `countHillValley(nums)`. The loop visits positions 1 .. n - 2, skips a
   position equal to its right neighbour without touching prev, and otherwise
   tests it against prev and its right neighbour, so every plateau with
   neighbours on both sides is tested exactly once, at its last position.
   */
  method CountHillValley(nums: seq<int>) returns (count: nat)
    ensures count == HillValleyCount(nums)
  {
    if |nums| < 3 {
      return 0;
    }
    count := 0;
    var prev := nums[0];
    var n := |nums|;
    var i := 1;
    ghost var from := 0;  // a position holding prev
    ghost var d := Plateaus(nums, 2);  // the plateaus of nums[..i + 1]
    CountedStart(nums);
    while i < n - 1
      invariant 1 <= i <= n - 1
      // prev is the nearest value to the left of i's plateau, or that plateau starts at 0
      invariant 0 <= from < i && prev == nums[from]
      invariant forall k :: from < k <= i ==> nums[k] == nums[i]
      invariant from == 0 || nums[from] != nums[i]
      // the same in terms of the plateaus seen so far, with the count of them
      invariant Counted(nums, i, prev, count, d)
      decreases n - 1 - i
    {
      CountedStep(nums, i, prev, count, d);
      if nums[i] == nums[i + 1] {
        i := i + 1;
        continue;
      }
      if IsHillOrValley(prev, nums[i], nums[i + 1]) {
        count := count + 1;
      }
      d := d + [nums[i + 1]];
      prev := nums[i];
      from := i;
      i := i + 1;
    }
  }

  // The cases the source checks under its `__main__` block

  method CountHillValleyBasic() returns (c: nat)
    ensures c == 3
  {
    var nums := [2, 4, 1, 1, 6, 5];
    assert Plateaus(nums, 2) == [2, 4];
    assert Plateaus(nums, 3) == [2, 4, 1];
    assert Plateaus(nums, 4) == [2, 4, 1];
    assert Plateaus(nums, 5) == [2, 4, 1, 6];
    assert Plateaus(nums, 6) == [2, 4, 1, 6, 5];
    ghost var d := Plateaus(nums, 6);
    CountExtremesStep(d, 2);
    CountExtremesStep(d, 3);
    CountExtremesStep(d, 4);
    assert d[..5] == d;
    c := CountHillValley(nums);
  }

  method CountHillValleyMonotone() returns (c: nat)
    ensures c == 0
  {
    var nums := [6, 6, 5, 5, 4, 1];
    assert Plateaus(nums, 2) == [6];
    assert Plateaus(nums, 3) == [6, 5];
    assert Plateaus(nums, 4) == [6, 5];
    assert Plateaus(nums, 5) == [6, 5, 4];
    assert Plateaus(nums, 6) == [6, 5, 4, 1];
    ghost var d := Plateaus(nums, 6);
    CountExtremesStep(d, 2);
    CountExtremesStep(d, 3);
    assert d[..4] == d;
    c := CountHillValley(nums);
  }

  method CountHillValleyAlternating() returns (c: nat)
    ensures c == 4
  {
    var nums := [1, 2, 1, 3, 5, 4, 2, 1, 3];
    // no two neighbours are equal, so every element is a plateau of its own
    PlateausOfDistinct(nums, 9);
    assert nums[..9] == nums;
    ghost var d := Plateaus(nums, 9);
    CountExtremesStep(d, 2);
    CountExtremesStep(d, 3);
    CountExtremesStep(d, 4);
    CountExtremesStep(d, 5);
    CountExtremesStep(d, 6);
    CountExtremesStep(d, 7);
    CountExtremesStep(d, 8);
    assert d[..9] == d;
    c := CountHillValley(nums);
  }
}
