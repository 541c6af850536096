/**
 * The older play screen of src/ui/Menu.java: its board text, and one round
 * of `Print` with the game engine's answers supplied as a trace.
 */
module UiMenu {
  import opened Wrappers
  import opened JavaInt
  import opened DalDirection
  import opened DalGrid
  import opened DalCell
  import opened BlGameLogic
  import opened UiText
  import opened UiStage

  const LoserMessage: string := "YOU ARE LOOSER"
  const WinnerMessage: string := "YOU ARE WINNER"

  /**
   * What the engine reports before one check of the play loop: whether the
   * game is over, and how many segments the snake has.
   */
  datatype Observation = Observation(gameOver: bool, snakeLength: nat)

  /** How one call of `Print` ends. */
  datatype Round =
    | NotPlayed                                   // a key other than '1'
    | Unfinished                                  // the trace ran out while the loop went on
    | Finished(message: string, cellCounter: int) // the loop stopped; the message shown

  /** The condition of the play loop; `target` is the Java value of `yLength * xLength - 1`. */
  predicate KeepPlaying(gameOver: bool, cellCounter: int, target: int)
  {
    !gameOver && cellCounter != target
  }

  /** The tile count less one, as Java `int` arithmetic computes it. */
  function Target(xLength: int, yLength: int): (t: Int32)
    ensures 0 < xLength && 0 < yLength && yLength * xLength <= MaxInt32 ==> t == yLength * xLength - 1
  {
    Wrap32(Wrap32(yLength * xLength) - 1)
  }

  /**
   * Where the play loop stops: the counter it stops with and whether the
   * game was lost, or None when the trace ends first. The loop stops on a
   * lost game, or when the counter reaches the target, which is a win.
   */
  function RoundEnd(trace: seq<Observation>, cellCounter: int, target: int): (r: Option<(int, bool)>)
    ensures r.Some? ==> !KeepPlaying(r.value.1, r.value.0, target)
    ensures r.Some? && !r.value.1 ==> r.value.0 == target
    ensures r.None? <==> forall k :: 0 <= k < |trace| ==> KeepPlaying(trace[k].gameOver, Counter(trace, cellCounter, k), target)
    // the loop stops at the first failing check, with that check's counter and game-over flag
    ensures r.Some? ==> exists k :: (0 <= k < |trace| && StopsAt(trace, cellCounter, target, k)
                                     && r.value == (Counter(trace, cellCounter, k), trace[k].gameOver))
  {
    if |trace| == 0 then None
    else if !KeepPlaying(trace[0].gameOver, cellCounter, target) then
      assert StopsAt(trace, cellCounter, target, 0);
      Some((cellCounter, trace[0].gameOver))
    else
      var r := RoundEnd(trace[1..], trace[0].snakeLength, target);
      assert forall k :: 0 <= k < |trace| - 1 ==>
        Counter(trace[1..], trace[0].snakeLength, k) == Counter(trace, cellCounter, k + 1);
      if r.Some? then
        var k :| 0 <= k < |trace| - 1 && StopsAt(trace[1..], trace[0].snakeLength, target, k) &&
          r.value == (Counter(trace[1..], trace[0].snakeLength, k), trace[1..][k].gameOver);
        assert StopsAt(trace, cellCounter, target, k + 1) by {
          forall k' | 0 <= k' < k + 1
            ensures KeepPlaying(trace[k'].gameOver, Counter(trace, cellCounter, k'), target)
          {
            if k' > 0 {
              assert trace[1..][k' - 1] == trace[k'];
            }
          }
        }
        r
      else
        r
  }

  /** Check `k` is the first one whose loop condition fails. */
  predicate StopsAt(trace: seq<Observation>, cellCounter: int, target: int, k: nat)
    requires k < |trace|
  {
    && (forall k' :: 0 <= k' < k ==> KeepPlaying(trace[k'].gameOver, Counter(trace, cellCounter, k'), target))
    && !KeepPlaying(trace[k].gameOver, Counter(trace, cellCounter, k), target)
  }

  /** The counter at the k-th check: the start value, then the length seen at the previous check. */
  function Counter(trace: seq<Observation>, start: int, k: nat): int
    requires k <= |trace|
  {
    if k == 0 then start else trace[k - 1].snakeLength
  }

  /** The outcome the play loop's trace leads to, as `Print` reports it. */
  function Outcome(end: Option<(int, bool)>): Round
  {
    match end
    case None => Unfinished
    case Some((counter, lost)) => Finished(if lost then LoserMessage else WinnerMessage, counter)
  }

  /**
   * The loser text is shown exactly when the engine reported the game over;
   * the winner text only once the snake has reached the target length.
   */
  lemma RoundMessage(trace: seq<Observation>, cellCounter: int, target: int)
    ensures Outcome(RoundEnd(trace, cellCounter, target)).Finished? ==>
      var end := RoundEnd(trace, cellCounter, target).value;
      && (Outcome(Some(end)).message == LoserMessage <==> end.1)
      && (Outcome(Some(end)).message == WinnerMessage ==> end.0 == target)
  {
  }

  class Menu {
    var snakeHead: Cell
    var grid: Grid
    var logic: GameLogic
    var cellCounter: int

    /** `new Menu(logic)`, less the terminal it borrows. */
    constructor (logic: GameLogic)
      requires logic.Valid()
      ensures this.logic == logic && grid == logic.grid && snakeHead == logic.snakeCells[0]
      ensures cellCounter == 1
    {
      this.grid := logic.grid;
      this.snakeHead := logic.snakeCells[0];
      this.logic := logic;
      this.cellCounter := 1;
    }

    /**
     * `printCurrentGameStage`: the board, an empty line and the score,
     * centred on a console of the given size.
     */
    method PrintCurrentGameStage(consoleWidth: int, consoleHeight: int) returns (screen: string)
      requires grid.Valid()
      ensures screen == CenteredText(JavaSplit(MenuStageText(grid.Tiles(), cellCounter)),
                                     consoleWidth, consoleHeight)
    {
      var txt := BoardText(grid);
      txt := txt + "\n";
      txt := txt + "\n" + IntToString(cellCounter);
      screen := GetCenteredText(txt, consoleWidth, consoleHeight);
    }

    /**
     * One call of `Print`: fresh buffers for the next round are built first;
     * on key '1' the play loop runs over the engine's trace and the round's
     * message is chosen; then the buffers replace the board, the head and
     * the logic, and the counter goes back to 1. The recursive call that
     * shows the menu again is not modelled.
     */
    method Print(key: int, trace: seq<Observation>) returns (round: Round)
      requires grid.Valid()
      modifies this
      ensures CharOf(key) != '1' as int ==> round == NotPlayed
      ensures CharOf(key) == '1' as int ==>
        round == Outcome(RoundEnd(trace, old(cellCounter), Target(old(grid.xLength), old(grid.yLength))))
      ensures cellCounter == 1
      ensures fresh(grid) && grid.Valid()
      ensures grid.xLength == old(grid.xLength) && grid.yLength == old(grid.yLength)
      ensures grid.table[0, 0] == HeadRight
      ensures forall i, j :: 0 <= i < grid.yLength && 0 <= j < grid.xLength && (i, j) != (0, 0) ==>
                grid.table[i, j] == DefaultTexture
      ensures fresh(snakeHead) && snakeHead.grid == grid && snakeHead.x == 1 && snakeHead.y == 1
      ensures fresh(logic) && logic.Valid() && logic.grid == grid && logic.currentDirection == RIGHT
      ensures logic.snakeCells.Length == 1 && logic.snakeCells[0] == snakeHead
    {
      var gridBuffer := new Grid(grid.xLength, grid.yLength);
      var head := new Cell(gridBuffer);
      var logicBuffer := new GameLogic(gridBuffer, head);
      assert InBounds(head.x, head.y, gridBuffer.xLength, gridBuffer.yLength);

      round := NotPlayed;
      if CharOf(key) == '1' as int {
        round := PlayRound(trace, Target(grid.xLength, grid.yLength));
      }

      grid := gridBuffer;
      snakeHead := head;
      logic := logicBuffer;
      cellCounter := 1;
    }

    /**
     * The `case '1'` branch of `Print`: the play loop, with `cellCounter`
     * taking the snake's length at each pass, then the message.
     */
    method PlayRound(trace: seq<Observation>, target: int) returns (round: Round)
      modifies this`cellCounter
      ensures round == Outcome(RoundEnd(trace, old(cellCounter), target))
      ensures round.Finished? ==> cellCounter == round.cellCounter
    {
      var k := 0;
      while k < |trace| && KeepPlaying(trace[k].gameOver, cellCounter, target)
        invariant 0 <= k <= |trace|
        invariant RoundEnd(trace[k..], cellCounter, target) == RoundEnd(trace, old(cellCounter), target)
      {
        cellCounter := trace[k].snakeLength;
        k := k + 1;
      }
      if k == |trace| {
        round := Unfinished;
      } else if trace[k].gameOver {
        round := Finished(LoserMessage, cellCounter);
      } else {
        round := Finished(WinnerMessage, cellCounter);
      }
    }
  }
}
