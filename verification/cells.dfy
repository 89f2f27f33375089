/**
 * The values of the apple grid: a row-major sequence of digits, 0 meaning a
 * removed apple. The grid operations shared by both versions of the game
 * (src/AppleGame.js and src/components/AppleGame.js): the board total, the
 * sum of a selection, and the removal of a batch of indices.
 */
module Cells {
  import opened Wrappers

  /** Every value of g lies in lo..hi. */
  predicate CellsInRange(g: seq<int>, lo: int, hi: int) {
    forall k :: 0 <= k < |g| ==> lo <= g[k] <= hi
  }

  predicate StrictlyIncreasing(s: seq<int>) {
    forall j, k :: 0 <= j < k < |s| ==> s[j] < s[k]
  }

  /** No index occurs twice in s. */
  predicate Distinct(s: seq<int>) {
    forall j, k :: 0 <= j < k < |s| ==> s[j] != s[k]
  }

  /** Every index of s addresses a cell of a grid of length n. */
  predicate IndicesIn(s: seq<int>, n: int) {
    forall k :: 0 <= k < |s| ==> 0 <= s[k] < n
  }

  /** The board total, `apples.reduce((sum, num) => sum + num, 0)`. */
  function Total(g: seq<int>): (t: int)
    ensures CellsInRange(g, 0, 9) ==> 0 <= t <= 9 * |g|
  {
    if g == [] then 0 else Total(g[..|g| - 1]) + g[|g| - 1]
  }

  /** A board of digits 1..9 has a total between its length and nine times its length. */
  lemma {:induction false} DigitTotalBounds(g: seq<int>)
    requires CellsInRange(g, 1, 9)
    ensures |g| <= Total(g) <= 9 * |g|
  {
    if g != [] {
      DigitTotalBounds(g[..|g| - 1]);
    }
  }

  /**
   * `selected.reduce((acc, index) => acc + apples[index], 0)`. An index
   * outside the grid reads `undefined` and turns the sum into NaN, which is
   * never equal to 10; the model returns None for it.
   */
  function SelectionSum(apples: seq<int>, selected: seq<int>): (r: Option<int>)
    ensures r.Some? <==> IndicesIn(selected, |apples|)
  {
    if selected == [] then Some(0)
    else
      var i := selected[|selected| - 1];
      match SelectionSum(apples, selected[..|selected| - 1])
      case None => None
      case Some(s) => if 0 <= i < |apples| then Some(s + apples[i]) else None
  }

  /**
   * The match rule of the mouse-up handler: the selected values sum to
   * exactly 10. A selection reaching outside the grid (a NaN sum) never
   * matches, and neither does the empty one.
   */
  function IsMatch(apples: seq<int>, selected: seq<int>): (b: bool)
    ensures b ==> IndicesIn(selected, |apples|) && selected != []
  {
    SelectionSum(apples, selected) == Some(10)
  }

  /** Over cells holding 0..9, a selection sums to at most nine per selected index. */
  lemma {:induction false} SelectionSumBound(apples: seq<int>, selected: seq<int>)
    requires CellsInRange(apples, 0, 9) && IndicesIn(selected, |apples|)
    ensures 0 <= SelectionSum(apples, selected).value <= 9 * |selected|
  {
    if selected != [] {
      SelectionSumBound(apples, selected[..|selected| - 1]);
    }
  }

  /**
   * The rule has no size floor, but since a cell holds at most 9 a match
   * always spans at least two indices.
   */
  lemma MatchNeedsTwoCells(apples: seq<int>, selected: seq<int>)
    requires CellsInRange(apples, 0, 9) && IsMatch(apples, selected)
    ensures |selected| >= 2
  {
    SelectionSumBound(apples, selected);
  }

  /** `prev.map((val, idx) => (indices.includes(idx) ? 0 : val))`. */
  function ZeroOut(g: seq<int>, removed: seq<int>): (r: seq<int>)
    ensures |r| == |g|
    ensures forall i :: 0 <= i < |g| ==> r[i] == (if i in removed then 0 else g[i])
  {
    seq(|g|, i requires 0 <= i < |g| => if i in removed then 0 else g[i])
  }

  /**
   * Removal batches converge: applying two batches in either order gives the
   * same grid, and a batch applied again (the server echoing a client's own
   * removal back on `/topic/appleUpdate`) changes nothing.
   */
  lemma RemovalsConverge(g: seq<int>, a: seq<int>, b: seq<int>)
    ensures ZeroOut(ZeroOut(g, a), b) == ZeroOut(ZeroOut(g, b), a)
    ensures ZeroOut(ZeroOut(g, a), a) == ZeroOut(g, a)
  {
  }

  /** The grid after a sequence of removal batches, applied in order. */
  function RemoveAll(g: seq<int>, batches: seq<seq<int>>): seq<int> {
    if batches == [] then g
    else ZeroOut(RemoveAll(g, batches[..|batches| - 1]), batches[|batches| - 1])
  }

  /** Removals keep the grid's length and every cell within 0..9. */
  lemma {:induction false} RemovalsKeepDigits(g: seq<int>, batches: seq<seq<int>>)
    requires CellsInRange(g, 0, 9)
    ensures |RemoveAll(g, batches)| == |g|
    ensures CellsInRange(RemoveAll(g, batches), 0, 9)
  {
    if batches != [] {
      RemovalsKeepDigits(g, batches[..|batches| - 1]);
    }
  }

  lemma {:induction false} TotalClearOne(g: seq<int>, x: int)
    requires 0 <= x < |g|
    ensures Total(g[x := 0]) == Total(g) - g[x]
  {
    var n := |g|;
    if x == n - 1 {
      assert g[x := 0][..n - 1] == g[..n - 1];
    } else {
      assert g[x := 0][..n - 1] == g[..n - 1][x := 0];
      TotalClearOne(g[..n - 1], x);
    }
  }

  /**
   * Removing a selection of distinct indices lowers the board total by
   * exactly the selection's sum.
   */
  lemma {:induction false} TotalAfterRemoval(g: seq<int>, s: seq<int>)
    requires Distinct(s) && IndicesIn(s, |g|)
    ensures Total(ZeroOut(g, s)) == Total(g) - SelectionSum(g, s).value
  {
    if s == [] {
      assert ZeroOut(g, s) == g;
    } else {
      var s', x := s[..|s| - 1], s[|s| - 1];
      assert Distinct(s') && IndicesIn(s', |g|);
      TotalAfterRemoval(g, s');
      var h := ZeroOut(g, s');
      assert x !in s' by {
        forall k | 0 <= k < |s'| ensures s'[k] != x {
          assert s[k] != s[|s| - 1];
        }
      }
      assert ZeroOut(g, s) == h[x := 0];
      TotalClearOne(h, x);
    }
  }

  /**
   * The generator's invariant (total a multiple of 10) survives the removal
   * of an accepted match of distinct indices, though nothing re-checks it.
   */
  lemma MatchKeepsTotalMultipleOfTen(g: seq<int>, s: seq<int>)
    requires Total(g) % 10 == 0
    requires Distinct(s) && IsMatch(g, s)
    ensures Total(ZeroOut(g, s)) % 10 == 0
    ensures Total(ZeroOut(g, s)) == Total(g) - 10
  {
    TotalAfterRemoval(g, s);
  }
}
