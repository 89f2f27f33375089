/**
 * The single-player game (src/AppleGame.js): the grid generator and the
 * board it mounts with. `Math.random()` is a supplied sequence of draws in
 * [0, 1); one board consumes CellCount consecutive draws.
 */
module SoloGame {
  import opened Wrappers
  import opened Cells
  import opened Geometry
  import opened Puzzle

  predicate ValidDraws(random: seq<real>) {
    forall k :: 0 <= k < |random| ==> 0.0 <= random[k] < 1.0
  }

  /** `Math.floor(Math.random() * 9) + 1`. */
  function Digit(random: real): (d: int)
    requires 0.0 <= random < 1.0
    ensures 1 <= d <= 9
  {
    (random * 9.0).Floor + 1
  }

  /** `Array.from({ length }, () => Digit(Math.random()))` over one block of draws. */
  function DrawBoard(random: seq<real>): (g: seq<int>)
    requires ValidDraws(random)
    ensures |g| == |random| && CellsInRange(g, 1, 9)
  {
    seq(|random|, k requires 0 <= k < |random| => Digit(random[k]))
  }

  /** The draws split into consecutive whole boards; a short tail is left unused. */
  function Blocks(random: seq<real>): (b: seq<seq<real>>)
    ensures forall k :: 0 <= k < |b| ==> |b[k]| == CellCount
    ensures ValidDraws(random) ==> forall k :: 0 <= k < |b| ==> ValidDraws(b[k])
    decreases |random|
  {
    if |random| < CellCount then [] else [random[..CellCount]] + Blocks(random[CellCount..])
  }

  /** The loop's exit test, `!(total % 10 !== 0 || total === 0)`. */
  predicate Acceptable(total: int) {
    total % 10 == 0 && total != 0
  }

  /**
   * For a board total, which is never negative, the loop stops exactly on a
   * multiple of 10 that is at least 10.
   */
  lemma AcceptableTotals(total: int)
    requires total >= 0
    ensures Acceptable(total) <==> total >= 10 && total % 10 == 0
  {
  }

  /**
   * What `generateApples` returns for the supplied draws: after `rounds`
   * boards, the first board whose total is a positive multiple of 10, every
   * earlier board having been rejected; or None when the draws run out
   * before an acceptable board appears.
   */
  predicate FirstAcceptable(random: seq<real>, apples: Option<seq<int>>, rounds: nat)
    requires ValidDraws(random)
  {
    && rounds <= |Blocks(random)|
    && (apples.Some? ==>
      && rounds >= 1
      && apples.value == DrawBoard(Blocks(random)[rounds - 1])
      && Acceptable(Total(apples.value))
      && (forall k :: 0 <= k < rounds - 1 ==> !Acceptable(Total(DrawBoard(Blocks(random)[k])))))
    && (apples.None? ==>
      && rounds == |Blocks(random)|
      && (forall k :: 0 <= k < rounds ==> !Acceptable(Total(DrawBoard(Blocks(random)[k])))))
  }

  /**
   * `generateApples`: redraw the whole board until its total is a positive
   * multiple of 10. `rounds` is the number of boards drawn.
   */
  method GenerateApples(random: seq<real>) returns (apples: Option<seq<int>>, rounds: nat)
    requires ValidDraws(random)
    ensures FirstAcceptable(random, apples, rounds)
  {
    var board: seq<int> := [];
    var total := 0;
    var rest := random;
    rounds := 0;
    while total % 10 != 0 || total == 0
      invariant ValidDraws(rest)
      invariant rounds <= |Blocks(random)| && Blocks(rest) == Blocks(random)[rounds..]
      invariant rounds == 0 ==> total == 0
      invariant rounds > 0 ==> board == DrawBoard(Blocks(random)[rounds - 1]) && total == Total(board)
      invariant forall k :: 0 <= k < rounds - 1 ==> !Acceptable(Total(DrawBoard(Blocks(random)[k])))
      decreases |rest|
    {
      if |rest| < CellCount {
        return None, rounds;
      }
      board := DrawBoard(rest[..CellCount]);
      total := Total(board);
      rest := rest[CellCount..];
      rounds := rounds + 1;
    }
    apples := Some(board);
  }

  /**
   * What an acceptable drawn board satisfies: 300 digits in 1..9 whose total
   * is a multiple of 10 and at least 300, so the `total === 0` half of the
   * exit test never rejects a drawn board.
   */
  lemma GeneratedBoard(block: seq<real>)
    requires ValidDraws(block) && |block| == CellCount
    requires Acceptable(Total(DrawBoard(block)))
    ensures |DrawBoard(block)| == CellCount && CellsInRange(DrawBoard(block), 1, 9)
    ensures Total(DrawBoard(block)) % 10 == 0 && Total(DrawBoard(block)) >= CellCount
  {
    DigitTotalBounds(DrawBoard(block));
  }

  /**
   * Mounting the single-player game: `useState(generateApples)`. The board
   * exists exactly when the generator produced a grid, starts with that grid,
   * no selection, no drag and score 0, and uses the centre-point hit test.
   */
  method Mount(random: seq<real>) returns (board: Board?, apples: Option<seq<int>>, rounds: nat)
    requires ValidDraws(random)
    ensures FirstAcceptable(random, apples, rounds)
    ensures (board != null) == apples.Some?
    ensures board != null ==>
      && fresh(board) && board.Valid() && board.rule == CentrePoint
      && board.apples == apples.value
      && board.selected == [] && board.dragStart == None && board.dragArea == None
      && board.score == 0 && board.animations == map[]
    ensures board != null ==>
      && |board.apples| == CellCount && CellsInRange(board.apples, 1, 9)
      && Total(board.apples) % 10 == 0 && Total(board.apples) >= CellCount
  {
    apples, rounds := GenerateApples(random);
    board := null;
    if apples.Some? {
      GeneratedBoard(Blocks(random)[rounds - 1]);
      board := new Board(CentrePoint, apples.value);
    }
  }
}
