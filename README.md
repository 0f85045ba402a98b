# Nex in Dafny: the board engine and the players

Nex is a two-player connection game on a rhombus of hexagonal cells. Players
take turns claiming free cells. The first player whose cells form a chain
between two opposite edges of the board wins. Each player has a stroke,
and the stroke decides which pair of opposite edges that player must join.
With `'\\'`, the last cell of each upper row is seeded `'='` and the first
cell of each lower row `'0'`, so the upper-right edge must be joined to the
lower-left one. With `'/'`, the first cell of each upper row is seeded `'0'`
and the last cell of each lower row `'='`, so the upper-left edge must be
joined to the lower-right one.

This project models the game engine (`classes.py`) and the players
(`players.py`), and proves properties of both.

- The board has `size` rows growing from 1 to `size` cells and then
  `size - 1` rows shrinking again: `size * size` cells in all.
- Every cell has three attributes:
  - an owner, or none while it is free;
  - the edge labels it is joined to: `'0'` and `'='`, modelled as `Zero`
    and `Equals`;
  - the same-owner neighbours it is linked to.
- A move (`Game.make_step`) copies the game and claims the cell for the
  player to move. It then seeds the cell's edge labels by a fixed boundary
  rule and links the cell both ways to every neighbour the mover owns. Each
  link floods the labels through the group (`Cell.update_side`). The mover
  wins if the cell now holds both labels and nobody has won yet.
  Finally the turn passes.
- Players start with a score derived from the board size and pay a
  penalty per move. A human player makes the move it was given. The
  computer player cycles through a fixed ordering of the cells and plays
  the first free one.

## Layout

- `wrappers.dfy`: the `Option` type.
- `geometry.dfy` (module `Geometry`):
  - the cells of the board (`OnBoard`, `Board`, `BoardSize`);
  - the neighbours of a cell, both as written (`NeighboursAsWritten`) and
    corrected (`Neighbours`), against the hexagon layout of the drawn board;
  - the choice between the two (`Layout`: `AsWritten` or `Drawn`, with
    `NeighboursIn`);
  - the rounding of a point to nearby cells (`ValidRoundedCoordinates`).
- `connectivity.dfy` (module `Connectivity`): labels, links and walks along
  links, plus the value-level meaning of `update_side` (`Flooded`) and of
  `add_link` (`Linked`, `Pushed`).
- `games.dfy` (module `Games`):
  - the class `Game`, whose three maps `owner`, `connected` and `links`
    hold the three cell attributes by coordinate, and whose constant
    `layout` is the neighbour rule its moves link along;
  - its methods for `update_side`, `add_link`, the seeding and the linking
    loop, and `make_step`;
  - the state after a move as a value (`Played`);
  - the invariant `ConsistentState`, which every move keeps;
  - pictures of small games (`Pictured`), used to replay the move sequence
    of `test_make_step` and a sequence on which the two neighbour rules
    name different winners.
- `players.dfy` (module `Players`): the score arithmetic, the classes
  `Player`, `Human` and `AI`, and `CreatePlayer`.

Every `Game` method is proved against a specification function:
- `UpdateSide` leaves `Flooded(...)`;
- `AddLink` leaves `Linked(...)`;
- `Move` and `MakeStep` leave `Played(...)`.

The lemmas state what those functions mean:
- the flood reaches every cell reachable over links and nothing else;
- linked cells share their labels;
- a move claims exactly one cell and takes no label away;
- the winner is set at most once.

The engine is modelled once for both neighbour rules. `AsWritten` is
`get_neighbours` with its six fixed offsets, and it is what a `Game` uses
unless told otherwise, as in the program. `Drawn` links the cells whose
drawn hexagons share a side. Every property of moves is proved for both
rules. The two rules give different neighbours in the lower half of the
board, and so can give different winners; see Findings.

Neither rule gives every corner of the board two neighbours:
- With `get_neighbours`, the bottom corner has one neighbour.
- With touching hexagons, the top and bottom corners have two neighbours
  and the two side corners have three.

## Model

| member | source | states |
|---|---|---|
| Geometry.Board | classes.py:46-52 | The constructor's coordinates are exactly those passing the validity test, i.e. row i has columns 0 .. RowLength(i) - 1 (i + 1 cells in the upper rows, 2·size - i - 1 in the lower ones). |
| Geometry.BoardSize | classes.py:46-52 | A board of side size has exactly size·size cells. |
| Geometry.SingleCellBoard | classes.py:46-52 | The board of size 1 is the single cell (0, 0). |
| Geometry.FilteredMembers | classes.py:90-95 | Filtering offsets keeps exactly the shifted coordinates that pass the validity test. |
| Geometry.NeighboursAsWritten | classes.py:89-95 | get_neighbours with the six fixed offsets yields at most 6 cells, all on the board, never the cell itself. |
| Geometry.NeighboursAsWrittenSymmetric | classes.py:44 | The six fixed offsets are closed under negation, so as written adjacency is symmetric. |
| Geometry.Neighbours | classes.py:89-95 | The corrected adjacency yields at most 6 cells, all on the board, never the cell itself. |
| Geometry.NeighboursAreTouching | classes.py:89-95 | b is a corrected neighbour of a exactly when b is on the board and the drawn hexagons of a and b share a side. |
| Geometry.NeighboursSymmetric | classes.py:89-95 | The corrected adjacency is symmetric. |
| Geometry.OffsetsAreUnitSteps | classes.py:44 | The six fixed offsets are exactly the non-zero unit steps whose two components differ by at most one. |
| Geometry.FilteredHas | classes.py:90-95 | Filtering a cell's offsets keeps exactly the board cells at one of those offsets from it. |
| Geometry.NeighboursIn | classes.py:89-95 | Under either rule a cell has at most 6 neighbours, all on the board, never itself. |
| Geometry.NeighboursInOffsets | classes.py:89-95 | Under either rule the neighbours are exactly the board cells at one of the rule's offsets from the cell. |
| Geometry.NeighbouringSymmetric | classes.py:80-83 | Under either rule, b is a neighbour of a exactly when a is a neighbour of b, so the two add_link calls of a move link both ways. |
| Geometry.DrawnIsTouching | classes.py:89-95 | Under the Drawn rule a board cell's neighbours are exactly the cells whose hexagons share a side with it. |
| Geometry.SingleCellHasNoNeighbours | tests/test_classes.py:48-50 | On the one-cell board (0, 0) has no neighbour, with either adjacency. |
| Geometry.TopCornerNeighbours | tests/test_classes.py:52-60 | From size 2 on, the top corner (0, 0) has exactly the two neighbours (1, 0) and (1, 1), with either adjacency. |
| Geometry.InnerCellNeighbours | tests/test_classes.py:57-62 | On the size-4 board, (2, 1) has exactly six neighbours, listed, with either adjacency. |
| Geometry.AsWrittenMisplacesLowerLinks | classes.py:44 | As written, from size 3 on, (size-1, 0) is linked to (size, 1) although their hexagons do not touch, and (size-1, 1) is not linked to (size, 0) although they do. |
| Geometry.AsWrittenBottomCorner | classes.py:44 | As written, the bottom corner (2·size-2, 0) has the single neighbour (2·size-3, 0). |
| Geometry.BottomCornerNeighbours | classes.py:89-95 | With the corrected adjacency the bottom corner has the two neighbours above it. |
| Geometry.LeftCornerNeighbours | classes.py:89-95 | With the corrected adjacency the left corner (size-1, 0) has exactly three neighbours: the cell above, the next cell of its row and the cell below. |
| Geometry.RightCornerNeighbours | classes.py:89-95 | With the corrected adjacency the right corner (size-1, size-1) has exactly three neighbours: the cell above, the previous cell of its row and the cell below. |
| Geometry.Floor | classes.py:99 | math.floor: the integer r with r <= x < r + 1. |
| Geometry.Ceil | classes.py:99 | math.ceil: the integer r with r - 1 < x <= r. |
| Geometry.NearIntegers | classes.py:99 | An integer is floor(x) or ceil(x) exactly when it lies strictly within 1 of x. |
| Geometry.ValidRoundedCoordinates | classes.py:98-103 | get_valid_rounded_coordinates yields only cells of the board. |
| Geometry.RoundedAreNearbyCells | classes.py:98-103 | get_valid_rounded_coordinates yields exactly the board cells whose row and column each lie strictly within 1 of the point. |
| Geometry.RoundedAtMostFour | classes.py:99 | It yields at most four cells. |
| Geometry.RoundedOnCell | classes.py:98-103 | A point with integer coordinates on the board yields just that cell. |
| Geometry.RoundingExamples | tests/test_classes.py:88-102 | The five cases of the rounding tests give the expected cell sets: (0, 0); none; the four cells around (2.5, 1.1); none; (0, 0). |
| Connectivity.SidesConnectedAll | classes.py:21-22 | sides_connected holds exactly when the cell's label set is {'0', '='}, every label there is. |
| Connectivity.Flooded | classes.py:14-19 | The state update_side leaves is over the same cells; its meaning is proved by FloodComplete, FloodKeepsOtherSides and FloodRestoresFlow. |
| Connectivity.Linked | classes.py:24-29 | The state add_link leaves is over the same cells; its meaning is proved by PushOneMore and NewLinkFlows. |
| Connectivity.FloodIdempotent | classes.py:14-16 | update_side with a label the cell already holds (and which already flows along the links) changes nothing. |
| Connectivity.FloodRestoresFlow | classes.py:17-19 | After the flood the label flows along every link, including the links into the start cell. |
| Connectivity.FloodKeepsOtherSides | classes.py:14-19 | Flooding one label never adds or removes the other label anywhere. |
| Connectivity.FloodComplete | classes.py:17-19 | A flood whose worklist is empty has labelled exactly the cells reachable from the start, and the label flows along every link. |
| Connectivity.FloodUnlinked | classes.py:17-19 | On a cell without links, update_side labels that cell alone. |
| Connectivity.SideReachesAll | classes.py:18-19 | A label that flows along every link reaches every cell reachable from a cell holding it. |
| Connectivity.ChainShares | classes.py:24-29 | With symmetric links along which every label flows, all cells of a chain of links hold the same label set. |
| Connectivity.NewLinkFlows | classes.py:27 | A new link a -> b can stop a label flowing only into b, and only a label a holds. |
| Connectivity.PushOneMore | classes.py:28-29 | Pushing the labels of add_link one at a time, each by update_side, adds them all along the links. |
| Games.Seeds | classes.py:70-79 | A cell of the board is seeded only if it is the first or the last cell of its row, i.e. on the edge of the rhombus. |
| Games.SeedsMarkEdges | classes.py:70-79 | The seeding rule: '\\' marks '=' on the last cell of an upper row and '0' on the first cell of a lower row; '/' marks '0' on the first cell of an upper row and '=' on the last cell of a lower row; any other stroke marks nothing. |
| Games.SeedsBothOnlyOnSingleCell | classes.py:70-79 | A single cell is seeded with both labels only on the one-cell board. |
| Games.SingleCellSeedsBoth | classes.py:70-79 | On the one-cell board either stroke seeds both labels. |
| Games.Mates | classes.py:80-81 | The cells the move links to are at most six, never the target itself, and all owned by the mover. |
| Games.MatesAdjacent | classes.py:80-81 | A cell is a mate exactly when it is a board cell the mover owns at one of the rule's offsets from the target: get_neighbours' six offsets as written, and under the Drawn rule exactly the touching cells the mover owns. |
| Games.MatesIgnoreTarget | classes.py:69-81 | Claiming the target first does not change which neighbours are linked to. |
| Games.JoinMatches | classes.py:80-83 | After claiming a free cell and joining it to its mates, links are still exactly between same-owner neighbours under the game's rule. |
| Games.Regrouped | classes.py:80-83 | The labels after a move keep their domain, and the target holds the given label set. |
| Games.ConsistentSymmetric | classes.py:82-83 | In a consistent game every link is matched by the link back. |
| Games.LinksBelowNeighbours | classes.py:80-83 | In a consistent game a cell is linked only to its neighbours under the game's rule, never to a free cell, and a free cell has no links. |
| Games.RoomNextToFree | classes.py:25-26 | Every neighbour of a free cell has at most 5 links, so linking it never raises "Too much neighbours". |
| Games.LinkingStarts | classes.py:80-83 | Before the linking loop the target is not its own neighbour, has at most 6 neighbours, each with room for a link, and is joined to no mate yet. |
| Games.FreeCellReady | classes.py:68-83 | A free cell of a consistent game, seeded or not, is ready to be linked. |
| Games.StepConsistent | classes.py:60-87 | make_step keeps a game consistent under either rule: the board, links exactly between same-owner neighbours, labels flowing along links, free cells unlabelled, and a winner exactly when a cell of the winner holds both labels. |
| Games.MoveFacts | classes.py:68-85 | What the seeding, the linking loop and the winner rule leave is exactly Played, and it is consistent. |
| Games.Played | classes.py:60-87 | The game after a move has its labels and links over the same cells; PlayedClaims, PlayedGrows, StepConsistent and the pictured lemmas below state the rest. |
| Games.PlayedSmall | classes.py:80-85 | A move on an unlinked cell whose mates are unlinked gives the target and each mate its seeds together with all the mates' labels, leaves every other cell's labels alone, and wins exactly when those labels are both, if nobody had won. |
| Games.JoinedReach | classes.py:80-83 | With the target and its mates unlinked before the move, the group the target joins is exactly the target and its mates. |
| Games.PlayedMoved | classes.py:66-83 | Such a move changes exactly the owner of the target, the labels of the target and its mates, and the links between them. |
| Games.ClaimOwned | classes.py:69 | Claiming a free cell adds exactly that cell to the owned ones, so one more cell is owned. |
| Games.PlayedClaims | classes.py:66-85 | A move on a free cell gives it to the mover, changes no other owner, owns exactly one more cell, and never replaces a winner. |
| Games.PlayedGrows | classes.py:68-83 | A move on a free cell of a consistent game takes no label away from any cell. |
| Games.GroupOfTargetBelow | classes.py:80-83 | Every cell the target reaches once joined to its mates held no more labels than the mates did. |
| Games.RegroupedGrows | classes.py:80-83 | Regrouping with a label set at least as large as each group member's keeps every label. |
| Games.NoWinnerWhileFree | classes.py:84-85 | Nobody has won a consistent game in which every cell is free. |
| Games.InitialConsistent | classes.py:36-52 | A new game is consistent under either rule. |
| Games.InitialPictured | classes.py:36-52 | A new game is pictured by no owners, no labels and no links. |
| Games.PicturedMates | classes.py:80-81 | In a pictured game the mates of a move are the pictured cells of the mover at one of the rule's offsets. |
| Games.PicturedWinner | classes.py:84-85 | In a pictured game without a winner, the move wins exactly when the target's seeds together with the mates' pictured labels are both labels. |
| Games.PicturedStep | classes.py:60-87 | A move in a pictured game on an unlinked cell with unlinked mates gives the picture with the target taken, the target and mates relabelled and linked, and the winner as PicturedWinner says. |
| Games.MakeStepScenario | tests/test_classes.py:64-86 | The make_step test under either rule: after each move the owners, labels and links of every cell are as pictured; no cell holds both labels until the last move, after which (2, 0), (1, 1) and (2, 1) do and the second player has won. |
| Games.LowerHalfWinDiverges | classes.py:44 | On the board of size 3, after five moves ending with '\\' on (3, 0), the first player has won under the Drawn rule and nobody has won as written. |
| Games.SingleCellUnwon | classes.py:84-85 | Before the first move on the one-cell board nobody has won. |
| Games.SeededWin | classes.py:84-85 | A move whose seeds alone hold both labels wins, if nobody has won yet. |
| Games.FirstMoveWinsSingleCell | classes.py:70-85 | On the one-cell board the first move wins, with either stroke. |
| Games.Game.LinkedCellsShareLabels | classes.py:24-29 | In a consistent game every cell reachable over links holds the same labels. |
| Games.Game.NewCells | classes.py:46-52 | The nested loops of the constructor build exactly the new game: every cell of the board, free, unlabelled and unlinked. |
| Games.Game.constructor | classes.py:36-52 | The new game has every board cell, all free, unlabelled and unlinked, no winner, the given players and the given neighbour rule (get_neighbours' by default); it is consistent. |
| Games.Game.Copy | classes.py:65 | deepcopy: a new game with the same state. |
| Games.Game.UpdateSide | classes.py:14-19 | update_side leaves exactly Flooded: the label added to every cell reachable from the start, nothing else changed; it then flows along every link. |
| Games.Game.PushSides | classes.py:28-29 | The loop of add_link pushes every label of the set into b and along b's links. |
| Games.Game.AddLink | classes.py:24-29 | add_link fails, changing nothing, exactly when a already has more than 5 links; otherwise b joins a's links and a's labels are pushed from b along the links. |
| Games.Game.Mark | classes.py:70-79 | update_side on a cell without links labels that cell alone. |
| Games.Game.Seed | classes.py:70-79 | The seeding adds exactly Seeds(size, t, stroke) to the target. |
| Games.Game.LinkPair | classes.py:82-83 | The two add_link calls link t and n both ways; t gains the labels n held, and no label is lost. |
| Games.Game.LinkMate | classes.py:80-83 | One round of the linking loop joins the target to one more mate. |
| Games.Game.VisitNeighbour | classes.py:80-83 | One neighbour of the loop is linked exactly when the mover owns it. |
| Games.Game.LinkAll | classes.py:80-83 | After the loop over the neighbours the target is joined to every mate. |
| Games.Game.LinkMates | classes.py:80-83 | The linking loop joins the target to all its mates. |
| Games.Game.SeedAndLink | classes.py:70-83 | After seeding and the linking loop, the free target holds its seeds and every label its mates held, is joined both ways to exactly its mates under the game's rule, labels flow along the links, and cells the target cannot reach keep their labels. |
| Games.Game.Settle | classes.py:66-85 | The mover owns the target, wins if the target holds both labels and nobody has won, and the players swap. |
| Games.Game.Move | classes.py:64-87 | The copied game becomes Played under the game's rule (get_neighbours' unless built otherwise), stays consistent, and the players swap. |
| Games.Game.MakeStep | classes.py:60-87 | On an occupied cell the same game comes back; otherwise a fresh game with the same size and rule, equal to Played under that rule, with the players swapped. The parent is unchanged, and the result is consistent. |
| Players.RoundToTens | players.py:11 | round(n, -1): a multiple of ten within 5 of n, with an even tens digit on a tie. |
| Players.RoundToTensUnique | players.py:11 | That contract fixes the result. |
| Players.InitialScore | players.py:11 | max(5·round(size², -1), 100): at least 100 and at least 5·round(size², -1), and equal to one of them. |
| Players.InitialScoreExamples | players.py:11 | Starting scores for sizes 1, 4, 5, 7, 10 and 15 (100, 100, 100, 250, 500, 1100), with ties rounding to an even tens digit. |
| Players.Penalized | players.py:17-18 | max(0, score - penalty): never negative, at least score - penalty, and equal to 0 or to it. |
| Players.PenaltyLowers | players.py:17-18 | With a non-negative score and penalty, a penalty never raises the score and never makes it negative. |
| Players.PenaltiesAdd | players.py:17-18 | Two penalties in a row cost as much as one of their sum. |
| Players.Player.constructor | players.py:9-12 | A player starts with the name, InitialScore(size) and penalty 11. |
| Players.Player.MakeStep | players.py:14-15 | A bare player makes no move. |
| Players.Player.TakePenalty | players.py:17-18 | The score becomes Penalized(score, penalty); the default penalty is 11. |
| Players.Human.constructor | players.py:22-25 | A human starts with no pending move and penalty 10. |
| Players.Human.SetStep | players.py:34-35 | The pending move is the one given. |
| Players.Human.MakeStep | players.py:27-32 | With no pending move, or one on an owned cell, nothing is returned and step and score stay. Otherwise the move is made on the game with this player's stroke, the result is Played under the game's rule, step is cleared and the penalty is paid. |
| Players.Human.Consume | players.py:30-31 | After a move the pending move is cleared and the penalty is paid. |
| Players.Wrap | players.py:43 | A position in the cycle through the cell order stays within the order. |
| Players.FirstFree | players.py:46-47 | The offset at which the cycle, resumed at the cursor, meets the first free cell: that cell is free and every cell before it is owned; no offset when every cell is owned. |
| Players.FirstFreeFinds | players.py:41-47 | Since the order holds every cell, the cycle finds a free cell whenever one exists, wherever it resumes. |
| Players.AI.constructor | players.py:39-43 | The computer player starts at the head of its ordering of the game's cells, with penalty 11. |
| Players.AI.Search | players.py:46-47 | The loop finds exactly FirstFree. |
| Players.AI.Advance | players.py:46 | The cycle resumes after the cell just played. |
| Players.AI.MakeStep | players.py:45-49 | The first free cell of the cycle is played with this player's stroke: the result is Played on that cell under the game's rule, the default penalty is paid, and the cycle resumes after it. Without a free cell there is no move. |
| Players.CreatePlayer | players.py:52-56 | create_player makes a computer player exactly for "AI", a human otherwise. |

## Left out

- Graphics (`graphics.py`) and drawing helpers (`utilites.py`) are not part
  of this model. Only the column formula of `get_gui_from_math` is used, to
  define which hexagons touch.
- Owners and the winner are `Option` values, where the source tests them
  for truthiness.
  - A move on an occupied cell (classes.py:61): a cell owned by a player
    named by the empty string counts as free in the source.
  - The winner (classes.py:84): a winner named by the empty string counts
    as no winner, so a later connecting move by the other player replaces
    it.

  The model does not reproduce either.
- PlayedClaims: "never replaces a winner" relies on the winner being an
  `Option`; in the source it holds only for a winner with a non-empty name.
- Out-of-range coordinates raise `KeyError` in the source. In the model
  they are preconditions: the cell must be on the board, and the player's
  name must be a key of `sides`.
- A stroke other than `'\\'` and `'/'` is the single value `Other`, which
  seeds nothing.
- The order in which Python iterates sets and generators is not modelled.
  Neighbours and rounded coordinates are sets, and the neighbour loop
  visits the cells in an arbitrary order.
- Game.UpdateSide: the recursion of `update_side` is a worklist loop with
  the same result, so the visiting order and the call stack are not modelled.
- Game.Copy: `deepcopy` is a fresh object holding the same immutable maps.
  Python's sharing of cell objects inside one game is replaced by
  coordinates.
- Game.Move: orders its steps differently from `make_step`, with the same
  result:
  - the owner of the target, the winner and the player swap are written
    after the seeding and the linking;
  - the linking loop reads the owners as they were before the claim.

  The seeding and the linking never read the players, and the target is
  never its own neighbour (`MatesIgnoreTarget`).
- Game.AddLink: the `"Too much neighbours"` exception becomes `ok == false`
  with no change; every move is proved never to reach it.
- AI.MakeStep: returns no move when every cell is owned, where the source
  loops forever. With an empty ordering both return nothing.
- AI.constructor: the shuffled cell list is a parameter, an arbitrary
  ordering of the game's cells, since `random.shuffle` is randomness.
  `itertools.cycle` is the cursor into that ordering.
- Human.MakeStep and AI.MakeStep pay the penalty before making the move on
  the game. This gives the same result, since the game does not read the
  player.
- Players: `Human` and `AI` hold a `Player` rather than inheriting from it.
  The penalty of a human is set to 10 after the player is built, as in the
  source.
- MakeStepScenario and LowerHalfWinDiverges start from any game pictured
  as new (InitialPictured shows that `Initial(3)` is one) and stand for the
  two players by any two distinct names.
- Geometry.Floor, Geometry.Ceil and Geometry.ValidRoundedCoordinates take
  exact reals. The NaN and infinite floats on which `math.floor` and
  `math.ceil` raise, and float rounding, are not modelled.
- `Cell.__str__`, `argparse` and the program's entry point are not modelled.

## Findings

| source | as written | input that shows it | evidently intended | confidence | as-written member | corrected member |
|---|---|---|---|---|---|---|
| classes.py:44 | `get_neighbours` uses the same six offsets in every row, although the lower half of the rhombus is drawn shifted the other way (graphics.py:131-137) | size 3: (2, 0) is linked to (3, 1), whose hexagon it does not touch; (2, 1) and (3, 0) touch but are not linked; the bottom corner (4, 0) has a single neighbour | a cell's neighbours are the cells whose drawn hexagons share a side with it: the top and bottom corners have two, the side corners three | medium, not executed | Geometry.AsWrittenMisplacesLowerLinks | Geometry.NeighboursAreTouching |
| classes.py:80-85 | a move links only along `get_neighbours`, so the winner depends on the misplaced lower-half links | size 3: A plays '\\' on (1, 1), B '/' on (4, 0), A '\\' on (2, 1), B '/' on (2, 2), A '\\' on (3, 0); the group of (1, 1) and (2, 1) holds '=' and (3, 0) is seeded '0', but (3, 0) is not linked to the touching (2, 1), so nobody wins | A has joined the upper-right edge to the lower-left one along touching hexagons and wins | medium, not executed | Games.LowerHalfWinDiverges | Games.LowerHalfWinDiverges |
