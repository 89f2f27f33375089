/**
 * The puzzle state both versions of the game keep in React state and change
 * in their pointer handlers: grid, selection, drag start and area, the
 * removal animation map and the score (class Board), and the removal
 * animation started by an accepted match, a `frame` counter advanced once per
 * interval tick (class Animation). Each handler runs to completion, and the
 * `setState` updaters it queues are applied in order at the call.
 */
module Puzzle {
  import opened Wrappers
  import opened Cells
  import opened Geometry

  /** The number of ticks an animation runs: frames 0..10. */
  const LastFrame := 10

  /** The scale drawn at a frame, `1 - frame / 10`: from 1 down to 0. */
  function Scale(frame: nat): (s: real)
    requires frame <= LastFrame
    ensures 0.0 <= s <= 1.0
    ensures frame == 0 <==> s == 1.0
    ensures frame == LastFrame <==> s == 0.0
  {
    1.0 - (frame as real) / 10.0
  }

  /** `{ ...prev }` with `newAnimations[index] = s` for each animated index. */
  function SetScale(m: map<int, real>, indices: seq<int>, s: real): (r: map<int, real>)
    ensures r.Keys == m.Keys + (set i | i in indices)
    ensures forall i :: i in indices ==> r[i] == s
    ensures forall i :: i in m && i !in indices ==> r[i] == m[i]
  {
    map i | i in m.Keys + (set j | j in indices) :: if i in indices then s else m[i]
  }

  /** `{ ...prev }` with `delete newAnimations[index]` for each animated index. */
  function WithoutKeys(m: map<int, real>, indices: seq<int>): (r: map<int, real>)
    ensures r.Keys == m.Keys - (set i | i in indices)
    ensures forall i :: i in r ==> r[i] == m[i]
  {
    map i | i in m && i !in indices :: m[i]
  }

  /** A later tick's scales replace an earlier tick's on the same indices. */
  lemma RescaleOverwrites(m: map<int, real>, indices: seq<int>, s1: real, s2: real)
    ensures SetScale(SetScale(m, indices, s1), indices, s2) == SetScale(m, indices, s2)
  {
  }

  /** Deleting the animated entries leaves the map as if the animation had never set them. */
  lemma AnimationLeavesNoTrace(m: map<int, real>, indices: seq<int>, s: real)
    ensures WithoutKeys(SetScale(m, indices, s), indices) == WithoutKeys(m, indices)
  {
  }

  class Board {
    const rule: HitRule
    var apples: seq<int>
    var selected: seq<int>
    var dragStart: Option<Point>
    var dragArea: Option<Rect>
    var animations: map<int, real>
    var score: int

    /**
     * The selection is the output of a hit test (strictly increasing, never
     * negative) and exists only while a drag is in progress; the drag area
     * contains the drag start; the score is never negative.
     */
    ghost predicate Valid()
      reads this
    {
      && StrictlyIncreasing(selected)
      && (forall k :: 0 <= k < |selected| ==> 0 <= selected[k])
      && (dragStart.None? ==> dragArea.None? && selected == [])
      && (dragStart.Some? ==> dragArea.Some? && Contains(dragArea.value, dragStart.value))
      && score >= 0
    }

    constructor (rule: HitRule, apples: seq<int>)
      ensures Valid()
      ensures this.rule == rule && this.apples == apples
      ensures selected == [] && dragStart == None && dragArea == None
      ensures animations == map[] && score == 0
    {
      this.rule := rule;
      this.apples := apples;
      selected := [];
      dragStart := None;
      dragArea := None;
      animations := map[];
      score := 0;
    }

    /** Pointer down: a new drag starts at p with an empty area and no selection. */
    method MouseDown(p: Point)
      requires Valid()
      modifies this`dragStart, this`dragArea, this`selected
      ensures Valid()
      ensures dragStart == Some(p) && dragArea == Some(DragArea(p, p)) && selected == []
    {
      dragStart := Some(p);
      dragArea := Some(Rect(p.x, p.y, 0, 0));
      selected := [];
    }

    /**
     * Pointer move: while dragging, the area becomes the normalised rectangle
     * from the drag start to p and the selection is the hit test of the
     * current grid against it; otherwise nothing changes.
     */
    method MouseMove(p: Point)
      requires Valid()
      modifies this`dragArea, this`selected
      ensures Valid()
      ensures old(dragStart).None? ==> dragArea == old(dragArea) && selected == old(selected)
      ensures old(dragStart).Some? ==>
        && dragArea == Some(DragArea(dragStart.value, p))
        && selected == HitTest(rule, apples, dragArea.value)
    {
      if dragStart.Some? {
        var area := DragArea(dragStart.value, p);
        dragArea := Some(area);
        selected := HitTest(rule, apples, area);
      }
    }

    /**
     * Pointer up: the selection is accepted exactly when its values sum to
     * 10; then an animation of the selected indices starts and the score
     * grows by the number of selected indices. Grid and animation map are
     * untouched here, and selection, drag area and drag start are cleared
     * either way.
     */
    method MouseUp() returns (anim: Animation?)
      requires Valid()
      modifies this`selected, this`dragArea, this`dragStart, this`score
      ensures Valid()
      ensures (anim != null) == IsMatch(apples, old(selected))
      ensures anim != null ==> fresh(anim) && anim.indices == old(selected) && anim.frame == 0
      ensures score == old(score) + (if anim != null then |old(selected)| else 0)
      ensures score >= old(score)
      ensures selected == [] && dragArea == None && dragStart == None
    {
      anim := null;
      if SelectionSum(apples, selected) == Some(10) {
        anim := new Animation(selected);
        score := score + |selected|;
      }
      selected := [];
      dragArea := None;
      dragStart := None;
    }
  }

  /** One running removal animation: the interval callback and its `frame` counter. */
  class Animation {
    const indices: seq<int>
    var frame: nat

    constructor (indices: seq<int>)
      ensures this.indices == indices && frame == 0
    {
      this.indices := indices;
      frame := 0;
    }

    /**
     * One interval tick. Every animated index gets the scale of the current
     * frame and the frame advances. The tick that moves the frame past 10
     * clears the interval, zeroes the animated cells, deletes their animation
     * entries and returns the indices to publish; no tick follows it.
     */
    method Tick(board: Board) returns (removed: Option<seq<int>>)
      requires frame <= LastFrame
      requires board.Valid()
      modifies this`frame, board`apples, board`animations
      ensures board.Valid()
      ensures frame == old(frame) + 1
      ensures frame <= LastFrame ==>
        && board.animations == SetScale(old(board.animations), indices, Scale(old(frame)))
        && board.apples == old(board.apples)
        && removed == None
      ensures frame > LastFrame ==>
        && board.animations == WithoutKeys(SetScale(old(board.animations), indices, Scale(old(frame))), indices)
        && board.apples == ZeroOut(old(board.apples), indices)
        && removed == Some(indices)
    {
      board.animations := SetScale(board.animations, indices, Scale(frame));
      frame := frame + 1;
      removed := None;
      if frame > LastFrame {
        board.apples := ZeroOut(board.apples, indices);
        board.animations := WithoutKeys(board.animations, indices);
        removed := Some(indices);
      }
    }

    /**
     * The whole animation with no other event in between: eleven ticks, after
     * which every animated index is 0 and has no animation entry, every other
     * cell and entry is as before, and exactly the animated indices are
     * returned for publishing.
     */
    method Run(board: Board) returns (removed: seq<int>)
      requires frame == 0
      requires board.Valid()
      modifies this`frame, board`apples, board`animations
      ensures board.Valid()
      ensures frame == LastFrame + 1
      ensures board.apples == ZeroOut(old(board.apples), indices)
      ensures board.animations == WithoutKeys(old(board.animations), indices)
      ensures removed == indices
    {
      var result := None;
      while frame <= LastFrame
        invariant frame <= LastFrame + 1
        invariant board.Valid()
        invariant frame == 0 ==> board.animations == old(board.animations)
        invariant 0 < frame <= LastFrame ==>
          board.animations == SetScale(old(board.animations), indices, Scale(frame - 1))
        invariant frame <= LastFrame ==> board.apples == old(board.apples) && result == None
        invariant frame > LastFrame ==>
          && board.apples == ZeroOut(old(board.apples), indices)
          && board.animations == WithoutKeys(old(board.animations), indices)
          && result == Some(indices)
        decreases LastFrame + 1 - frame
      {
        ghost var f := frame;
        result := Tick(board);
        if 0 < f {
          RescaleOverwrites(old(board.animations), indices, Scale(f - 1), Scale(f));
        }
        if frame > LastFrame {
          AnimationLeavesNoTrace(old(board.animations), indices, Scale(f));
        }
      }
      removed := result.value;
    }
  }

  /** Hit tests and sums for the board [3, 3, 4, 0], one fact per lemma. */
  lemma FirstThreeTouched()
    ensures HitTest(CircleOverlap, [3, 3, 4, 0], Rect(110, 110, 120, 30)) == [0, 1, 2]
  {
  }
  lemma FirstTwoTouched()
    ensures HitTest(CircleOverlap, [3, 3, 4, 0], Rect(110, 110, 70, 30)) == [0, 1]
  {
  }
  lemma AllFourTouched()
    ensures HitTest(CircleOverlap, [3, 3, 4, 0], Rect(110, 110, 150, 30)) == [0, 1, 2, 3]
  {
  }
  lemma FirstThreeSumToTen()
    ensures SelectionSum([3, 3, 4, 0], [0, 1, 2]) == Some(10)
    ensures ZeroOut([3, 3, 4, 0], [0, 1, 2]) == [0, 0, 0, 0]
  {
    assert [0, 1, 2][..2] == [0, 1];
    assert [0, 1][..1] == [0];
  }
  lemma FirstTwoSumToSix()
    ensures SelectionSum([3, 3, 4, 0], [0, 1]) == Some(6)
  {
    assert [0, 1][..1] == [0];
  }
  lemma AllFourSumToTen()
    ensures SelectionSum([3, 3, 4, 0], [0, 1, 2, 3]) == Some(10)
  {
    assert [0, 1, 2, 3][..3] == [0, 1, 2];
    FirstThreeSumToTen();
  }

  /**
   * A drag over the multiplayer board [3, 3, 4, 0] from (110, 110) to
   * (230, 140) touches the first three apples (centres at x = 125, 175, 225):
   * 3 + 3 + 4 = 10 is accepted, the score becomes 3, and once the animation
   * has run those three cells are 0.
   */
  method AcceptedMatchScenario() returns (selection: seq<int>, score: int, apples: seq<int>)
    ensures selection == [0, 1, 2] && score == 3 && apples == [0, 0, 0, 0]
  {
    FirstThreeTouched();
    FirstThreeSumToTen();
    var board := new Board(CircleOverlap, [3, 3, 4, 0]);
    board.MouseDown(Point(110, 110));
    board.MouseMove(Point(230, 140));
    selection := board.selected;
    var anim := board.MouseUp();
    var removed := anim.Run(board);
    score, apples := board.score, board.apples;
  }

  /**
   * Stopping at (180, 140) touches only the first two apples: 3 + 3 = 6 is
   * rejected, the grid and score stay as they were and the selection is cleared.
   */
  method RejectedMatchScenario() returns (accepted: bool, score: int, apples: seq<int>, selection: seq<int>)
    ensures !accepted && score == 0 && apples == [3, 3, 4, 0] && selection == []
  {
    FirstTwoTouched();
    FirstTwoSumToSix();
    var board := new Board(CircleOverlap, [3, 3, 4, 0]);
    board.MouseDown(Point(110, 110));
    board.MouseMove(Point(180, 140));
    var anim := board.MouseUp();
    accepted := anim != null;
    score, apples, selection := board.score, board.apples, board.selected;
  }

  /**
   * Stretching the drag to (260, 140) also touches the removed fourth cell:
   * the sum is still 10 and the score grows by 4, one point for a cell that
   * is no longer drawn.
   */
  method RemovedCellScenario() returns (selection: seq<int>, score: int)
    ensures selection == [0, 1, 2, 3] && score == 4
  {
    AllFourTouched();
    AllFourSumToTen();
    var board := new Board(CircleOverlap, [3, 3, 4, 0]);
    board.MouseDown(Point(110, 110));
    board.MouseMove(Point(260, 140));
    selection := board.selected;
    var anim := board.MouseUp();
    score := board.score;
  }
}
