/** The plugin object and its three batch commands. Each command validates its
    arguments, then issues one server command per bot index in ascending order;
    the server is modelled by the log of the commands it was asked to execute. */
module Batch {

  import opened Wrappers
  import opened Decimal
  import opened Directions
  import opened Geometry
  import opened Commands

  datatype ErrorKind = BadRange | BadDirection

  /** The kind of message replied to the requester; the wording is not modelled. */
  datatype Reply = Error(kind: ErrorKind) | Warning | Success

  /** The host server, seen through the commands it has been asked to execute. */
  class Server {
    var executed: seq<string>

    constructor ()
      ensures executed == []
    {
      executed := [];
    }

    method Execute(cmd: string)
      modifies this
      ensures executed == old(executed) + [cmd]
    {
      executed := executed + [cmd];
    }
  }

  /** The offsets of the grid cell at (`row`, `col`), accumulated one direction at a time:
      `dir1` moves `row` steps, `dir2` moves `col` steps, on whichever axis each names. */
  method GridPlacement(dir1: Direction, dir2: Direction, row: int, col: int, interval: int)
    returns (xOffset: int, zOffset: int)
    ensures Offset(xOffset, zOffset) == GridOffset(dir1, dir2, row, col, interval)
  {
    xOffset := 0;
    zOffset := 0;

    if dir1.axis == X {
      xOffset := xOffset + row * interval * dir1.sign;
    } else if dir1.axis == Z {
      zOffset := zOffset + row * interval * dir1.sign;
    }

    if dir2.axis == X {
      xOffset := xOffset + col * interval * dir2.sign;
    } else if dir2.axis == Z {
      zOffset := zOffset + col * interval * dir2.sign;
    }
  }

  class PlayerBatch {
    const server: Server
    /** The configured prefix of every bot name (`base_name`). */
    var baseName: string

    constructor (server: Server, baseName: string)
      ensures this.server == server && this.baseName == baseName
    {
      this.server := server;
      this.baseName := baseName;
    }

    /** `!!plb <name> <start> <end> <action>`: the action on every bot of the range, unplaced. */
    method ProcessCommand(src: Source, name: string, start: int, end: int, action: string)
      returns (replies: seq<Reply>)
      modifies server
      ensures start > end ==> replies == [Error(BadRange)] && server.executed == old(server.executed)
      ensures start <= end ==>
        replies == [Success] &&
        server.executed == old(server.executed) + Plan(Request(src, baseName, name, start, end, action), Unplaced)
    {
      if start > end {
        return [Error(BadRange)];
      }
      ghost var req := Request(src, baseName, name, start, end, action);
      for i := start to end + 1
        invariant server.executed == old(server.executed) + Issued(req, Unplaced, i)
      {
        var botName := baseName + name + IntToString(i);
        var cmd := CommandText(src, botName, action);
        server.Execute(cmd);
      }
      replies := [Success];
    }

    /** `!!plb li <name> <start> <end> <direction> <interval> <action>`: bots on a line, the
        bot with index `i` moved `(i - start) * interval` along the direction. */
    method ProcessLineCommand(src: Source, name: string, start: int, end: int,
                              direction: string, interval: int, action: string)
      returns (replies: seq<Reply>)
      modifies server
      ensures start > end ==> replies == [Error(BadRange)] && server.executed == old(server.executed)
      ensures start <= end && ParseDirection(direction).None? ==>
        replies == [Error(BadDirection)] && server.executed == old(server.executed)
      ensures start <= end && ParseDirection(direction).Some? ==>
        replies == [Success] &&
        server.executed == old(server.executed) +
          Plan(Request(src, baseName, name, start, end, action), Line(ParseDirection(direction).value, interval))
    {
      if start > end {
        return [Error(BadRange)];
      }
      var parsed := ParseDirection(direction);
      if parsed.None? {
        return [Error(BadDirection)];
      }
      var dir := parsed.value;
      ghost var req := Request(src, baseName, name, start, end, action);
      ghost var layout := Line(dir, interval);
      for i := start to end + 1
        invariant server.executed == old(server.executed) + Issued(req, layout, i)
      {
        var botName := baseName + name + IntToString(i);
        var offset := (i - start) * interval * dir.sign;
        ghost var placed := LineOffset(dir, i - start, interval);
        var coord;
        if dir.axis == X {
          coord := "~" + IntToString(offset) + " ~ ~";
          assert coord == LineCoord(dir.axis, placed);
        } else {
          coord := "~ ~ ~" + IntToString(offset);
          assert coord == LineCoord(dir.axis, placed);
        }
        var fullAction := FullAction(action, coord);
        var cmd := CommandText(src, botName, fullAction);
        LineActionAt(req, dir, interval, i - start);
        assert cmd == CommandAt(req, layout, i);
        server.Execute(cmd);
      }
      replies := [Success];
    }

    /** `!!plb re <name> <start> <end> <direction1> <direction2> <interval> <action>`: bots on a
        square grid filled row by row; rows advance along `direction1`, columns along `direction2`.
        A warning precedes the success reply exactly when the number of bots is not a perfect square. */
    method ProcessSquareCommand(src: Source, name: string, start: int, end: int,
                                direction1: string, direction2: string, interval: int, action: string)
      returns (replies: seq<Reply>)
      modifies server
      ensures start > end ==> replies == [Error(BadRange)] && server.executed == old(server.executed)
      ensures start <= end && (ParseDirection(direction1).None? || ParseDirection(direction2).None?) ==>
        replies == [Error(BadDirection)] && server.executed == old(server.executed)
      ensures start <= end && ParseDirection(direction1).Some? && ParseDirection(direction2).Some? ==>
        var total := end - start + 1;
        replies == (if IsPerfectSquare(total) then [] else [Warning]) + [Success] &&
        server.executed == old(server.executed) +
          Plan(Request(src, baseName, name, start, end, action),
               Grid(ParseDirection(direction1).value, ParseDirection(direction2).value, SideLength(total), interval))
    {
      if start > end {
        return [Error(BadRange)];
      }
      var parsed1 := ParseDirection(direction1);
      var parsed2 := ParseDirection(direction2);
      if parsed1.None? || parsed2.None? {
        return [Error(BadDirection)];
      }
      var dir1, dir2 := parsed1.value, parsed2.value;

      var total := end - start + 1;
      var sideLength := IntSqrt(total);
      PerfectSquareIff(total);
      replies := [];
      if sideLength * sideLength != total {
        replies := replies + [Warning];
        sideLength := sideLength + 1;
      }
      assert sideLength == SideLength(total);

      IssueGrid(src, name, start, end, dir1, dir2, sideLength, interval, action);
      replies := replies + [Success];
    }

    /** The loop of the grid command: the bot with zero-based position `idx` goes to row
        `idx / side`, column `idx % side`. */
    method IssueGrid(src: Source, name: string, start: int, end: int,
                     dir1: Direction, dir2: Direction, sideLength: nat, interval: int, action: string)
      requires start <= end && sideLength >= 1
      modifies server
      ensures server.executed == old(server.executed) +
        Plan(Request(src, baseName, name, start, end, action), Grid(dir1, dir2, sideLength, interval))
    {
      var total := end - start + 1;
      ghost var req := Request(src, baseName, name, start, end, action);
      ghost var layout := Grid(dir1, dir2, sideLength, interval);
      for idx := 0 to total
        invariant server.executed == old(server.executed) + Issued(req, layout, start + idx)
      {
        var i := start + idx;
        var botName := baseName + name + IntToString(i);

        var row := idx / sideLength;
        var col := idx % sideLength;
        var xOffset, zOffset := GridPlacement(dir1, dir2, row, col, interval);

        var coord := "~" + IntToString(xOffset) + " ~ ~" + IntToString(zOffset);
        assert coord == GridCoord(GridOffset(dir1, dir2, Row(idx, sideLength), Col(idx, sideLength), interval));
        var fullAction := FullAction(action, coord);
        var cmd := CommandText(src, botName, fullAction);
        GridActionAt(req, dir1, dir2, sideLength, interval, idx);
        assert cmd == CommandAt(req, layout, i);
        server.Execute(cmd);
      }
    }
  }
}
