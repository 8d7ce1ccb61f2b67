/** Worked batches, as a console or a player would issue them. */
module Examples {

  import opened Decimal
  import opened Directions
  import opened Geometry
  import opened Commands

  /** `!!plb test 1 3 spawn` from the console with prefix `bot_`. */
  lemma RangeBatchFromConsole()
    ensures Plan(Request(Console, "bot_", "test", 1, 3, "spawn"), Unplaced)
      == ["/player bot_test1 spawn", "/player bot_test2 spawn", "/player bot_test3 spawn"]
  {
    var req := Request(Console, "bot_", "test", 1, 3, "spawn");
    PlanShape(req, Unplaced);
    assert IntToString(1) == "1" && IntToString(2) == "2" && IntToString(3) == "3";
    assert Plan(req, Unplaced)[0] == CommandAt(req, Unplaced, 1) == "/player bot_test1 spawn";
    assert Plan(req, Unplaced)[1] == CommandAt(req, Unplaced, 2) == "/player bot_test2 spawn";
    assert Plan(req, Unplaced)[2] == CommandAt(req, Unplaced, 3) == "/player bot_test3 spawn";
  }

  /** `!!plb li test 1 3 +x 2 spawn`: the bots stand 2 blocks apart eastwards, the first
      one at the origin of the command. */
  lemma LineBatchActions(src: Source)
    ensures var req := Request(src, "bot_", "test", 1, 3, "spawn");
      ActionAt(req, Line(Direction(X, 1), 2), 1) == "spawn at ~0 ~ ~" &&
      ActionAt(req, Line(Direction(X, 1), 2), 2) == "spawn at ~2 ~ ~" &&
      ActionAt(req, Line(Direction(X, 1), 2), 3) == "spawn at ~4 ~ ~"
  {
    var req := Request(src, "bot_", "test", 1, 3, "spawn");
    assert IntToString(0) == "0" && IntToString(2) == "2" && IntToString(4) == "4";
    LineCellAction(req, 1, 0, "spawn at ~0 ~ ~");
    LineCellAction(req, 2, 1, "spawn at ~2 ~ ~");
    LineCellAction(req, 3, 2, "spawn at ~4 ~ ~");
  }

  /** The bot with index `i == start + steps` of a `+x` line with interval 2 stands
      `2 * steps` blocks east. */
  lemma LineCellAction(req: Request, i: int, steps: nat, expected: string)
    requires req.action == "spawn" && i == req.start + steps
    requires "spawn at ~" + IntToString(2 * steps) + " ~ ~" == expected
    ensures ActionAt(req, Line(Direction(X, 1), 2), i) == expected
  {
    LineActionAt(req, Direction(X, 1), 2, steps);
    var o := LineOffset(Direction(X, 1), steps, 2);
    assert o == Offset(2 * steps, 0);
    SpawnWithPosition(LineCoord(X, o));
    assert "spawn at " + LineCoord(X, o) == "spawn at ~" + IntToString(2 * steps) + " ~ ~";
  }

  /** Five bots are not a perfect square, so the grid side is rounded up from 2 to 3. */
  lemma FiveBotsSide()
    ensures IntSqrt(5) == 2 && !IsPerfectSquare(5) && SideLength(5) == 3
  {
    assert IntSqrt(1) == 1;
    PerfectSquareIff(5);
  }

  /** `!!plb re test 1 5 +x +z 1 spawn` (side 3, see `FiveBotsSide`): the grid is filled row
      by row, rows eastwards along x, columns southwards along z; `GridCoordsOfFiveBots`
      spells the coordinates out. */
  lemma GridBatchActions(src: Source)
    ensures var req := Request(src, "bot_", "test", 1, 5, "spawn");
      var layout := Grid(Direction(X, 1), Direction(Z, 1), 3, 1);
      ActionAt(req, layout, 1) == "spawn at " + GridCoord(Offset(0, 0)) &&
      ActionAt(req, layout, 2) == "spawn at " + GridCoord(Offset(0, 1)) &&
      ActionAt(req, layout, 3) == "spawn at " + GridCoord(Offset(0, 2)) &&
      ActionAt(req, layout, 4) == "spawn at " + GridCoord(Offset(1, 0)) &&
      ActionAt(req, layout, 5) == "spawn at " + GridCoord(Offset(1, 1))
  {
    var req := Request(src, "bot_", "test", 1, 5, "spawn");
    GridCellAction(req, 1, 0, 0);
    GridCellAction(req, 2, 0, 1);
    GridCellAction(req, 3, 0, 2);
    GridCellAction(req, 4, 1, 0);
    GridCellAction(req, 5, 1, 1);
  }

  /** The coordinates of the five bots of `GridBatchActions`. */
  lemma GridCoordsOfFiveBots()
    ensures GridCoord(Offset(0, 0)) == "~0 ~ ~0" && GridCoord(Offset(0, 1)) == "~0 ~ ~1"
    ensures GridCoord(Offset(0, 2)) == "~0 ~ ~2" && GridCoord(Offset(1, 0)) == "~1 ~ ~0"
    ensures GridCoord(Offset(1, 1)) == "~1 ~ ~1"
  {
    assert IntToString(0) == "0" && IntToString(1) == "1" && IntToString(2) == "2";
  }

  /** The bot with index `i == start + 3 * row + col` of a `+x +z` grid of side 3, interval 1,
      stands at `~row ~ ~col`. */
  lemma GridCellAction(req: Request, i: int, row: nat, col: nat)
    requires req.action == "spawn" && i == req.start + 3 * row + col && col < 3
    ensures ActionAt(req, Grid(Direction(X, 1), Direction(Z, 1), 3, 1), i) == "spawn at " + GridCoord(Offset(row, col))
  {
    var idx: nat := 3 * row + col;
    var layout := Grid(Direction(X, 1), Direction(Z, 1), 3, 1);
    assert i == req.start + idx;
    GridActionAt(req, Direction(X, 1), Direction(Z, 1), 3, 1, idx);
    assert Row(idx, 3) == row && Col(idx, 3) == col;
    var o := GridOffset(Direction(X, 1), Direction(Z, 1), row, col, 1);
    assert o == Offset(row, col);
    SpawnWithPosition(GridCoord(o));
    assert ActionAt(req, layout, req.start + idx) == "spawn at " + GridCoord(o);
  }

  /** `spawn` has no `at` in it, so a position clause is appended. */
  lemma SpawnWithPosition(coord: string)
    ensures FullAction("spawn", coord) == "spawn at " + coord
  {
    NoAtInSpawn();
    assert "spawn" + " at " == "spawn at ";
  }

  lemma NoAtInSpawn()
    ensures !Text.Contains("spawn", "at")
  {
    assert !Text.Contains("n", "at");
    assert "wn"[..2][0] == 'w' && "wn"[1..] == "n" && !Text.Contains("wn", "at");
    assert "awn"[..2][1] == 'w' && "awn"[1..] == "wn" && !Text.Contains("awn", "at");
    assert "pawn"[..2][0] == 'p' && "pawn"[1..] == "awn" && !Text.Contains("pawn", "at");
    assert "spawn"[..2][0] == 's' && "spawn"[1..] == "pawn";
  }

  /** Position injection looks for the letters `at`, not for a position clause: a game-mode
      word such as `spectator` suppresses it, so every bot of the line is spawned at the
      invoking position. */
  lemma SubstringDetection(coord: string)
    ensures FullAction("spawn in spectator", coord) == "spawn in spectator"
  {
    var action := "spawn in spectator";
    assert action[14] == 'a' && action[15] == 't';
    assert action[14..16] == "at";
    assert Text.OccursAt(action, "at", 14);
  }
}
