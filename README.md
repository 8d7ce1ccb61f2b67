# Player batch commands, modelled in Dafny

The PlayerBatch plugin drives "fake player" bots on a Minecraft server. Its three chat
commands take a bot name, an inclusive index range `start..end` and an action. They send
one server command per index, in ascending order:

- `!!plb <name> <start> <end> <action>` runs the action on bots `base + name + i`. It adds
  no position.
- `!!plb li <name> <start> <end> <direction> <interval> <action>` places the bots on a line.
  Bot `i` is moved `(i - start) * interval` blocks along `+x`, `-x`, `+z` or `-z`.
- `!!plb re <name> <start> <end> <direction1> <direction2> <interval> <action>` places the
  bots on a square grid. The side is the smallest `s` with `s * s >= total`. Rows advance
  along `direction1` and columns along `direction2`, and the two contributions add up.

A position clause ` at <coord>` is added to the action only when the letters `at` do not
already occur in it. The command takes one of two forms, depending on who sent the request:
`/execute as <player> at @s run player <bot> <action>` for a player, and
`/player <bot> <action>` for the console.

The project is split into these modules:

- `Decimal` (`decimal.dfy`): Python's `str(i)` for integers, with a parser that reads it back.
- `Text` (`text.dfy`): Python's substring test `t in s`.
- `Directions` (`directions.dfy`): the four direction tokens.
- `Geometry` (`geometry.dfy`): the exact integer square root, the grid side, row and column,
  and the line and grid offsets.
- `Commands` (`commands.dfy`): the specification.
  - `CommandAt` is the command for one index.
  - `Plan` is the ordered command list of a whole batch.
  - The lemmas state what a batch contains.
- `Batch` (`player_batch.dfy`): the plugin object.
  - `Server` records every command it is asked to execute in `executed`.
  - `PlayerBatch` has one method per chat command. Each method checks its arguments, then
    loops over the range and appends to the server's log.
  - Each method's postcondition ties the new log to `old(log) + Plan(...)`. An invalid range
    or direction leaves the log unchanged.
- `Examples` (`scenarios.dfy`): concrete batches.

The grid command's loop is written as its own method, `IssueGrid`. The offset accumulation
of one cell is also its own method, `GridPlacement`. It makes one guarded `+=` per direction,
so two per cell, each on whichever axis that direction names. Both keep the
statements of the source. They are split out only to keep each proof small.

## Model

| member | source | states |
|---|---|---|
| Decimal.NatToString | player_batch/main.py:123 | the decimal numeral of a natural is non-empty, all digits, and has no leading zero |
| Decimal.IntToString | player_batch/main.py:165-169 | `str(n)` is non-empty, starts with `-` exactly when `n < 0`, and holds no space |
| Decimal.NatToStringRoundTrip | player_batch/main.py:123 | the value of the digits of `n` is `n` |
| Decimal.IntToStringRoundTrip | player_batch/main.py:165-169 | parsing `str(n)` gives `n` back, negative values included |
| Decimal.IntToStringInjective | player_batch/main.py:123 | distinct integers render as distinct strings |
| Text.Contains | player_batch/main.py:171 | `t in s` holds exactly when some position of `s` starts an occurrence of `t` |
| Text.ContainsInMiddle | player_batch/main.py:171 | a string built as `p + t + q` contains `t` |
| Directions.ParseDirection | player_batch/main.py:137-144 | the token is accepted exactly when it is `+x`, `-x`, `+z` or `-z`; an accepted token yields a sign of 1 or -1, the x axis exactly for a token ending in `x`, and sign 1 exactly for a token starting with `+`; every other token yields None |
| Directions.ParseDirectionRoundTrip | player_batch/main.py:137-144 | the four tokens and the four unit directions correspond one to one: parsing a direction's token gives the direction, and a token that parses is that direction's token |
| Geometry.IntSqrt | player_batch/main.py:205 | `r * r <= n < (r + 1) * (r + 1)`: the floor square root |
| Geometry.PerfectSquareIff | player_batch/main.py:206 | the floor root squares back to `n` exactly when `n` is a perfect square |
| Geometry.SideLength | player_batch/main.py:204-208 | the side is at least 1, `total <= s * s`, and `(s - 1) * (s - 1) < total` |
| Geometry.SideLengthLeast | player_batch/main.py:204-208 | no smaller square holds `total` bots |
| Geometry.SideLengthExact | player_batch/main.py:206-208 | the side squares to `total` exactly when `total` is a perfect square, so the warning is replied exactly for non-squares |
| Geometry.GridCellInSquare | player_batch/main.py:210-217 | for every `idx < total`, with side `s`: `row * s + col == idx`, `col < s` and `row < s` |
| Geometry.CellBelowSquare | player_batch/main.py:216-217 | an index below `s * s` has row and column below `s`, and they give the index back |
| Geometry.LineOffset | player_batch/main.py:165-169 | a line offset moves only along the line's own axis |
| Geometry.LineSpacing | player_batch/main.py:165 | the first bot is at offset 0, and each next bot is `interval * sign` further along the axis |
| Geometry.LineOffsetInjective | player_batch/main.py:165 | with a non-zero interval, distinct positions on a line get distinct offsets |
| Geometry.GridOffsetAdditive | player_batch/main.py:214-229 | cell (0,0) is at offset 0; with perpendicular axes, rows move along `direction1` and columns along `direction2`; with the same axis, that axis gets the sum and the other stays 0 |
| Geometry.GridOffsetInjective | player_batch/main.py:210-229 | with perpendicular directions and a non-zero interval, distinct grid indices get distinct offsets |
| Commands.IssuedLength | player_batch/main.py:122 | the commands for `start..hi-1` number `hi - start` |
| Commands.IssuedAt | player_batch/main.py:122-129 | the k-th command issued is the command for index `start + k` |
| Commands.PlanShape | player_batch/main.py:122-129 | a batch over `start <= end` has exactly `end - start + 1` commands, and the k-th is the command for index `start + k` (ascending order) |
| Commands.PlanCommandForm | player_batch/main.py:123-128 | the k-th command names bot `base + name + str(start + k)`: `/execute as <player> at @s run player <bot> <action>` for a player, `/player <bot> <action>` for the console |
| Commands.BotNamesDistinct | player_batch/main.py:123 | the bots of one batch have pairwise distinct names |
| Commands.FullActionInjection | player_batch/main.py:171 | an action containing `at` is sent unchanged, any other gets ` at <coord>` appended, and injecting twice changes nothing |
| Commands.GridCoordInjective | player_batch/main.py:229 | distinct grid offsets render as distinct `~x ~ ~z` strings |
| Commands.LineCoordInjective | player_batch/main.py:166-169 | distinct offsets on one axis render as distinct `~d ~ ~` or `~ ~ ~d` strings |
| Commands.LineCoordinates | player_batch/main.py:165-169 | the first line bot is at `~0 ~ ~` or `~ ~ ~0`; with a non-zero interval no two line bots share a coordinate |
| Commands.GridCoordinates | player_batch/main.py:214-229 | the first grid bot is at `~0 ~ ~0`; with perpendicular directions and a non-zero interval no two grid bots share a coordinate |
| Batch.Server.Execute | player_batch/main.py:129 | executing a command appends it to the server's log |
| Batch.GridPlacement | player_batch/main.py:214-227 | the `+=` steps on `x_offset` and `z_offset` yield the additive grid offset of the cell |
| Batch.PlayerBatch.ProcessCommand | player_batch/main.py:111-131 | `start > end` replies an error and issues nothing; otherwise the log grows by exactly the unplaced batch's commands, then success is replied |
| Batch.PlayerBatch.ProcessLineCommand | player_batch/main.py:146-179 | a bad range, then a bad direction token, each reply an error and issue nothing; otherwise the log grows by exactly the line batch's commands, then success is replied |
| Batch.PlayerBatch.ProcessSquareCommand | player_batch/main.py:185-239 | a bad range, then a bad token in either direction, each reply an error and issue nothing; otherwise a warning is replied exactly when `total` is not a perfect square, then the log grows by exactly the grid batch's commands with side `SideLength(total)`, then success is replied |
| Batch.PlayerBatch.IssueGrid | player_batch/main.py:210-237 | the grid loop appends the commands for indices `start..end` in order, each placed at row `idx // side` and column `idx % side` |
| Examples.RangeBatchFromConsole | player_batch/main.py:122-128 | `bot_` + `test` over 1..3 with `spawn` from the console gives `/player bot_test1 spawn`, `/player bot_test2 spawn`, `/player bot_test3 spawn` |
| Examples.LineBatchActions | player_batch/main.py:163-171 | `li test 1 3 +x 2 spawn` sends `spawn at ~0 ~ ~`, `spawn at ~2 ~ ~`, `spawn at ~4 ~ ~` |
| Examples.FiveBotsSide | player_batch/main.py:204-208 | five bots have floor root 2, are not a perfect square, and get a grid of side 3 |
| Examples.GridBatchActions | player_batch/main.py:210-230 | `re test 1 5 +x +z 1 spawn` sends `spawn at ` followed by the coordinates of cells (0,0), (0,1), (0,2), (1,0), (1,1), in that order |
| Examples.GridCoordsOfFiveBots | player_batch/main.py:229 | those cells render as `~0 ~ ~0`, `~0 ~ ~1`, `~0 ~ ~2`, `~1 ~ ~0`, `~1 ~ ~1` |
| Examples.SubstringDetection | player_batch/main.py:171 | `spawn in spectator` contains the letters `at`, so it gets no position clause |

## Left out

- The chat command tree is not modelled. This covers the MCDR `Literal`, `QuotableText`,
  `Integer` and `GreedyText` nodes, the permission check and the help registration
  (player_batch/main.py:21-72). The model receives the parsed, typed arguments directly.
- `load_config` and `save_config` are not modelled, because they are file and JSON I/O.
  The configured `base_name` is a field set by the constructor.
- `show_help` is static text and is not modelled. Its examples promise spacings of 3 and 5
  blocks for `interval` 1. The code spaces bots by `interval` itself, and the model follows
  the code.
- Reply texts are not modelled. A reply is `Error(BadRange)`, `Error(BadDirection)`,
  `Warning` or `Success`.
- The `try/except` logging paths are not modelled. They catch failures of the host's
  `server.execute`, and `Server.Execute` here always succeeds.
- `ProcessSquareCommand` does not model the `OverflowError` that `total ** 0.5` raises
  (player_batch/main.py:205) once `total` is beyond the range of a double. The source then
  replies with a failure (player_batch/main.py:241-243) and issues no command. The model
  issues the whole grid.
- `ProcessSquareCommand` computes the grid side with an exact integer square root
  (`IntSqrt`), not with the floating-point `int(total ** 0.5)`. The two agree for every
  total below 2^52. Above that, the double nearest to a total just below a perfect square
  can be the square itself. For `total = 10^16 - 1`, `total ** 0.5` is `10^8`, so the
  source warns and takes side 100000001. The model takes `SideLength == 100000000`, the
  smallest square that holds the bots.
- `__main__.py` is not modelled. It is event-listener wiring for the host, and it calls
  `on_bot_joined`, which `player_batch/main.py` never defines. The code has no pending-action
  table, readiness reconciliation, timeout sweeping, pacing delays or cancellation flag, so
  none of these is modelled.
- Offsets and intervals are Python integers, which are unbounded, so no wrap-around is
  modelled.
- The request source's `is_player` and `player` attributes are modelled as the datatype
  `Source = Player(name) | Console`.
