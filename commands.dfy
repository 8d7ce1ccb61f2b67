/** What the batch generators send to the server: bot names, coordinate clauses,
    the two command forms, and the full ordered command list of a batch. */
module Commands {

  import opened Decimal
  import opened Text
  import opened Directions
  import opened Geometry

  /** Who sent the batch request: a player (commands run as that player, relative to
      their position) or the console. */
  datatype Source = Player(name: string) | Console

  /** A parsed batch request; `base` is the configured bot-name prefix. */
  datatype Request = Request(src: Source, base: string, name: string, start: int, end: int, action: string)

  /** How a batch places its bots: not at all, along a line, or on a square grid of side `side`. */
  datatype Layout =
    | Unplaced
    | Line(dir: Direction, interval: int)
    | Grid(dir1: Direction, dir2: Direction, side: nat, interval: int)

  predicate ValidLayout(layout: Layout) { layout.Grid? ==> layout.side >= 1 }

  /** `base + name + str(i)`. */
  function BotName(base: string, name: string, i: int): string
  {
    base + name + IntToString(i)
  }

  /** The server command that makes bot `bot` perform `action`, in the form of the source's context. */
  function CommandText(src: Source, bot: string, action: string): string
  {
    match src
    case Player(p) => "/execute as " + p + " at @s run player " + bot + " " + action
    case Console => "/player " + bot + " " + action
  }

  /** The action with a position clause appended, unless `at` already occurs in it. */
  function FullAction(action: string, coord: string): string
  {
    if Contains(action, "at") then action else action + " at " + coord
  }

  /** A line offset rendered on its own axis: `~d ~ ~` for x, `~ ~ ~d` for z. */
  function LineCoord(axis: Axis, o: Offset): string
  {
    if axis == X then "~" + IntToString(o.x) + " ~ ~" else "~ ~ ~" + IntToString(o.z)
  }

  /** A grid offset rendered on both axes: `~x ~ ~z`. */
  function GridCoord(o: Offset): string
  {
    "~" + IntToString(o.x) + " ~ ~" + IntToString(o.z)
  }

  /** The action sent to the bot with index `i` of the batch. */
  function ActionAt(req: Request, layout: Layout, i: int): string
    requires ValidLayout(layout) && i >= req.start
  {
    match layout
    case Unplaced => req.action
    case Line(dir, interval) =>
      FullAction(req.action, LineCoord(dir.axis, LineOffset(dir, i - req.start, interval)))
    case Grid(dir1, dir2, side, interval) =>
      var idx := i - req.start;
      FullAction(req.action, GridCoord(GridOffset(dir1, dir2, Row(idx, side), Col(idx, side), interval)))
  }

  /** The line action of the bot at zero-based position `idx` of the batch. */
  lemma LineActionAt(req: Request, dir: Direction, interval: int, idx: nat)
    ensures ActionAt(req, Line(dir, interval), req.start + idx)
      == FullAction(req.action, LineCoord(dir.axis, LineOffset(dir, idx, interval)))
  {
    assert (req.start + idx) - req.start == idx;
  }

  /** The grid action of the bot at zero-based position `idx` of the batch. */
  lemma GridActionAt(req: Request, dir1: Direction, dir2: Direction, side: nat, interval: int, idx: nat)
    requires side >= 1
    ensures ActionAt(req, Grid(dir1, dir2, side, interval), req.start + idx)
      == FullAction(req.action, GridCoord(GridOffset(dir1, dir2, Row(idx, side), Col(idx, side), interval)))
  {
    assert (req.start + idx) - req.start == idx;
  }

  /** The command for the bot with index `i` of the batch. */
  function CommandAt(req: Request, layout: Layout, i: int): string
    requires ValidLayout(layout) && i >= req.start
  {
    CommandText(req.src, BotName(req.base, req.name, i), ActionAt(req, layout, i))
  }

  /** The commands for the indices `req.start` up to, not including, `hi`, in that order. */
  function Issued(req: Request, layout: Layout, hi: int): seq<string>
    requires ValidLayout(layout)
    decreases hi - req.start
  {
    if hi <= req.start then [] else Issued(req, layout, hi - 1) + [CommandAt(req, layout, hi - 1)]
  }

  /** The whole batch: one command per index of the inclusive range `start..end`. */
  function Plan(req: Request, layout: Layout): seq<string>
    requires ValidLayout(layout)
  {
    Issued(req, layout, req.end + 1)
  }

  lemma {:induction false} IssuedLength(req: Request, layout: Layout, hi: int)
    requires ValidLayout(layout) && hi >= req.start
    ensures |Issued(req, layout, hi)| == hi - req.start
    decreases hi - req.start
  {
    if hi > req.start {
      IssuedLength(req, layout, hi - 1);
    }
  }

  lemma {:induction false} IssuedAt(req: Request, layout: Layout, hi: int, k: int)
    requires ValidLayout(layout) && 0 <= k < hi - req.start
    ensures |Issued(req, layout, hi)| == hi - req.start
    ensures Issued(req, layout, hi)[k] == CommandAt(req, layout, req.start + k)
    decreases hi - req.start
  {
    IssuedLength(req, layout, hi - 1);
    if k < hi - 1 - req.start {
      IssuedAt(req, layout, hi - 1, k);
    }
  }

  /** A batch over `start..end` has exactly `end - start + 1` commands, and the k-th is the
      command for index `start + k`: ascending index order, one command per bot. */
  lemma PlanShape(req: Request, layout: Layout)
    requires ValidLayout(layout) && req.start <= req.end
    ensures |Plan(req, layout)| == req.end - req.start + 1
    ensures forall k :: 0 <= k < |Plan(req, layout)| ==>
      Plan(req, layout)[k] == CommandAt(req, layout, req.start + k)
  {
    IssuedLength(req, layout, req.end + 1);
    forall k | 0 <= k < |Plan(req, layout)|
      ensures Plan(req, layout)[k] == CommandAt(req, layout, req.start + k)
    {
      IssuedAt(req, layout, req.end + 1, k);
    }
  }

  /** The k-th command of a batch names the bot `base + name + str(start + k)` in the form of
      the request's context. */
  lemma PlanCommandForm(req: Request, layout: Layout, k: int)
    requires ValidLayout(layout) && 0 <= k <= req.end - req.start
    ensures k < |Plan(req, layout)|
    ensures var bot, act := BotName(req.base, req.name, req.start + k), ActionAt(req, layout, req.start + k);
      Plan(req, layout)[k] ==
        if req.src.Player? then "/execute as " + req.src.name + " at @s run player " + bot + " " + act
        else "/player " + bot + " " + act
  {
    PlanShape(req, layout);
    var i := req.start + k;
    var bot, act := BotName(req.base, req.name, i), ActionAt(req, layout, i);
    assert Plan(req, layout)[k] == CommandAt(req, layout, i) == CommandText(req.src, bot, act);
  }

  /** Bots of one batch have pairwise distinct names. */
  lemma BotNamesDistinct(base: string, name: string, i: int, j: int)
    requires BotName(base, name, i) == BotName(base, name, j)
    ensures i == j
  {
    var p := base + name;
    assert IntToString(i) == BotName(base, name, i)[|p|..];
    assert IntToString(j) == BotName(base, name, j)[|p|..];
    IntToStringInjective(i, j);
  }

  /** Position injection: an action that contains `at` anywhere is sent unchanged, any other
      gets ` at <coord>` appended; the result always contains `at`, so injecting again
      changes nothing. */
  lemma FullActionInjection(action: string, coord: string, coord': string)
    ensures (exists i :: OccursAt(action, "at", i)) ==> FullAction(action, coord) == action
    ensures !(exists i :: OccursAt(action, "at", i)) ==> FullAction(action, coord) == action + " at " + coord
    ensures FullAction(FullAction(action, coord), coord') == FullAction(action, coord)
  {
    if !Contains(action, "at") {
      assert action + " at " + coord == (action + " ") + "at" + (" " + coord);
      ContainsInMiddle(action + " ", "at", " " + coord);
    }
  }

  /** Two strings that each contain no space and are followed by a space agree when the
      whole strings agree. */
  lemma SplitAtSpace(a1: string, r1: string, a2: string, r2: string)
    requires ' ' !in a1 && ' ' !in a2
    requires a1 + " " + r1 == a2 + " " + r2
    ensures a1 == a2 && r1 == r2
  {
    var s := a1 + " " + r1;
    assert forall k :: 0 <= k < |a1| ==> s[k] == a1[k] != ' ';
    assert forall k :: 0 <= k < |a2| ==> s[k] == a2[k] != ' ';
    assert s[|a1|] == ' ' && s[|a2|] == ' ';
    assert a1 == s[..|a1|] && a2 == s[..|a2|];
    assert r1 == s[|a1| + 1..] && r2 == s[|a2| + 1..];
  }

  /** A grid coordinate is its x field, one space, and the rest. */
  lemma GridCoordSplit(o: Offset)
    ensures GridCoord(o) == ("~" + IntToString(o.x)) + " " + ("~ ~" + IntToString(o.z))
    ensures ' ' !in "~" + IntToString(o.x)
  {
    assert " ~ ~" == " " + "~ ~";
  }

  /** Distinct grid offsets are rendered as distinct coordinates. */
  lemma GridCoordInjective(o1: Offset, o2: Offset)
    requires GridCoord(o1) == GridCoord(o2)
    ensures o1 == o2
  {
    var x1, x2 := IntToString(o1.x), IntToString(o2.x);
    var z1, z2 := IntToString(o1.z), IntToString(o2.z);
    GridCoordSplit(o1);
    GridCoordSplit(o2);
    SplitAtSpace("~" + x1, "~ ~" + z1, "~" + x2, "~ ~" + z2);
    assert x1 == ("~" + x1)[1..] && x2 == ("~" + x2)[1..];
    assert z1 == ("~ ~" + z1)[3..] && z2 == ("~ ~" + z2)[3..];
    IntToStringInjective(o1.x, o2.x);
    IntToStringInjective(o1.z, o2.z);
  }

  /** Distinct offsets along the same axis are rendered as distinct coordinates. */
  lemma LineCoordInjective(axis: Axis, o1: Offset, o2: Offset)
    requires LineCoord(axis, o1) == LineCoord(axis, o2)
    ensures axis == X ==> o1.x == o2.x
    ensures axis == Z ==> o1.z == o2.z
  {
    if axis == X {
      var a1, a2 := "~" + IntToString(o1.x), "~" + IntToString(o2.x);
      assert LineCoord(axis, o1) == a1 + " " + "~ ~" && LineCoord(axis, o2) == a2 + " " + "~ ~";
      SplitAtSpace(a1, "~ ~", a2, "~ ~");
      assert IntToString(o1.x) == a1[1..] && IntToString(o2.x) == a2[1..];
      IntToStringInjective(o1.x, o2.x);
    } else {
      assert IntToString(o1.z) == LineCoord(axis, o1)[5..];
      assert IntToString(o2.z) == LineCoord(axis, o2)[5..];
      IntToStringInjective(o1.z, o2.z);
    }
  }

  /** The first bot of a line is placed at `~0 ~ ~` (x axis) or `~ ~ ~0` (z axis); with a
      non-zero interval no two bots of the line share a coordinate. */
  lemma LineCoordinates(req: Request, dir: Direction, interval: int, i: int, j: int)
    requires IsUnit(dir) && req.start <= i && req.start <= j
    ensures LineCoord(dir.axis, LineOffset(dir, 0, interval)) == if dir.axis == X then "~0 ~ ~" else "~ ~ ~0"
    ensures interval != 0 && i != j ==>
      LineCoord(dir.axis, LineOffset(dir, i - req.start, interval)) != LineCoord(dir.axis, LineOffset(dir, j - req.start, interval))
  {
    assert IntToString(0) == "0";
    var oi, oj := LineOffset(dir, i - req.start, interval), LineOffset(dir, j - req.start, interval);
    if interval != 0 && LineCoord(dir.axis, oi) == LineCoord(dir.axis, oj) {
      LineCoordInjective(dir.axis, oi, oj);
      assert oi == oj;
      LineOffsetInjective(dir, i - req.start, j - req.start, interval);
    }
  }

  /** The first bot of a grid is placed at `~0 ~ ~0`; with perpendicular directions and a
      non-zero interval no two bots of the grid share a coordinate. */
  lemma GridCoordinates(dir1: Direction, dir2: Direction, side: nat, interval: int, i1: nat, i2: nat)
    requires IsUnit(dir1) && IsUnit(dir2) && side >= 1
    ensures GridCoord(GridOffset(dir1, dir2, Row(0, side), Col(0, side), interval)) == "~0 ~ ~0"
    ensures dir1.axis != dir2.axis && interval != 0 && i1 != i2 ==>
      GridCoord(GridOffset(dir1, dir2, Row(i1, side), Col(i1, side), interval))
        != GridCoord(GridOffset(dir1, dir2, Row(i2, side), Col(i2, side), interval))
  {
    assert IntToString(0) == "0";
    assert Row(0, side) == 0 && Col(0, side) == 0;
    GridOffsetAdditive(dir1, dir2, 0, 0, interval);
    var o1 := GridOffset(dir1, dir2, Row(i1, side), Col(i1, side), interval);
    var o2 := GridOffset(dir1, dir2, Row(i2, side), Col(i2, side), interval);
    if dir1.axis != dir2.axis && interval != 0 && GridCoord(o1) == GridCoord(o2) {
      GridCoordInjective(o1, o2);
      GridOffsetInjective(dir1, dir2, side, i1, i2, interval);
    }
  }
}
