# Othello engines, players and tree searches

This project models the rules and players of the near129/othello repository in
Dafny. The repository holds two generations of an Othello engine and the players
built on them.

- **The bitboard engine** (`src/othello_logic.rs`). `legal_move`, `reverse` and
  `put` work on two 64-bit masks, one for the mover and one for the opponent.
  Bit `63 - i` is square `i`, counted row by row from the upper-left corner.
  Module `OthelloLogic` keeps the shift-and-mask loops as methods over `bv64`.
  It proves them against a direct statement of the rules: a square is legal when
  it is empty and brackets a line of opponent stones in some direction. Modules
  `Bits`, `BitCount` and `Geometry` give the squares of a mask, popcounts and the
  eight directions.
- **The array board** (`src/board.rs`). It is an 8x8 grid of optional stones,
  indexed `[y][x]`. Its scans walk the eight neighbour offsets square by square.
  Module `ArrayBoard` keeps the grid as a class over a two-dimensional `array`.
  `put` collects the stones to turn over and fails without touching the grid
  when there are none. The counts are loops.
- **Small helpers.** Module `Parse` holds the move parser `input_parse`, which
  `src/utils.rs`, `othello/src/utils.rs` and `Square::parse` share. Module
  `Utils` holds the game result and the two-plane board encoding.
- **Players.**
  - `RandomPlayer` (the idx-th legal square of a bitmask),
    `LegacyRandomPlayer` and `GridPlayer` (the idx-th true cell of a grid,
    column by column).
  - `GreedyPlayer`: the first move that leaves the mover the most stones, or a
    random move when the coin says so.
- **Tree searches.** Each search keeps its tables (`Qsa`, `Nsa`, `Ns`, and `Ps`
  where there is one) as map fields of a class. Its recursive `_search` is a
  method that changes them in place.
  - `AlphaZero` is `othello/src/players/alphazero.rs`: mover-first keys, a
    network prior, and root noise.
  - `LegacyAlphaZero` is `src/players/alphazero.rs`: `(black, white)` keys and
    negated values.
  - `MctsPlayer` is `othello/src/players/mcts.rs`: win counts and a global
    visit count `N`.

  Each method is specified by a pure function of the tables before the call:
  `Simulated`, `Visited`, `Followed`, `Backed`. These functions take a
  `Variant`:
  - `AsWritten` follows the program. In `AlphaZero` the search follows the legal
    move with the largest position, and it updates an action value as
    `(Nsa + Qsa + v) / (Nsa + 1)`. `LegacyAlphaZero` uses the same update, and
    its stored prior always adds the legal-move mask.
  - `Corrected` follows the program with those defects repaired (see Findings):
    the best-scoring move, the running mean, and the mask added only to a
    policy with no mass on the legal squares.

  The classes run `AsWritten`. The search properties are lemmas about those
  functions, for both variants unless a row says otherwise:
  - the tables stay consistent, with every state's count equal to the sum of its
    actions' counts;
  - returned values stay in [-1, 1]; action values stay in [-1, 2] as written
    and in [-1, 1] once corrected;
  - states with fewer stones are left alone;
  - which move a visit follows;
  - the readout is a distribution.

  Module `SearchTables` holds what the searches share.

The `othello` crate's own bitboard `Board` is not part of this model. Module
`Game` keeps its three fields: the black mask, the white mask and the side to
move. Its rules are the functions of an `Engine` value:
- the legal-move mask;
- the position list of a mask;
- `put`, which can refuse;
- `finished`.

The search lemmas assume only that every accepted move adds a stone
(`AddsStones`). The greedy player assumes that the position list names the legal
squares (`ListsLegal`) and that a move leaves the mover at least one stone
(`LeavesStone`).

Random draws are parameters:
- the index `draw` drawn from `0..n`;
- the greedy coin;
- the Dirichlet noise.

The network is a function from a board to a policy and a value, or a failure.
The square roots and logarithms of the scores are function parameters. Floats
are reals.

Two modelling choices to note:
- `Board::put` in `src/board.rs` does not check that the target square is empty.
  The model does not check either. Its properties about counts and availability
  are stated for an empty target.
- `reverse` and `put` in `src/othello_logic.rs` have no callers in the
  repository. Their properties are stated for the inputs a board gives them:
  disjoint masks and a one-square position.

## Model

| member | source | states |
|---|---|---|
| OthelloLogic.ScanLine | src/othello_logic.rs:15-22 | One mask and one shift of `legal_move`: the squares the pass reaches are exactly those from which a line of opponent stones in that direction is closed by a mover's stone |
| OthelloLogic.RunWithinRoom | src/othello_logic.rs:18-21 | The first shift and five more rounds are enough: a line bounded by the room left on the board is a line of any length |
| OthelloLogic.CapturesAllLines | src/othello_logic.rs:5-11 | The four masks, each with both shifts, cover the eight directions |
| OthelloLogic.LegalMove | src/othello_logic.rs:4-27 | The legal mask holds exactly the empty squares that bracket some line. So it never holds an occupied square |
| OthelloLogic.FlipsSome | src/othello_logic.rs:44-46 | A direction captures exactly when its walk turns some stone over; otherwise it adds nothing |
| OthelloLogic.FlipsOpponent | src/othello_logic.rs:39-43 | A stone the walk turns over is an opponent stone, and it is not the target square |
| OthelloLogic.ReverseLine | src/othello_logic.rs:37-48 | One direction of `reverse` adds to `rev` exactly the stones it brackets in that direction |
| OthelloLogic.FlipsAllLines | src/othello_logic.rs:29-33 | The four masks, each shifted both ways, walk all eight directions |
| OthelloLogic.Reverse | src/othello_logic.rs:28-53 | `rev` holds exactly the stones the move turns over: a subset of the opponent, non-zero exactly when some direction captures |
| OthelloLogic.NotFlippedSelf | src/othello_logic.rs:28-53 | The target square is never among the stones turned over |
| OthelloLogic.PutDisjoint | src/othello_logic.rs:55-60 | On an empty target the new masks stay disjoint |
| OthelloLogic.PutCounts | src/othello_logic.rs:55-60 | On an empty target the total popcount rises by exactly one; the mover gains one plus what the opponent loses; a legal move takes at least one stone |
| OthelloLogic.Put | src/othello_logic.rs:55-61 | The new masks square by square: the target toggles for the mover, turned-over stones change sides. Disjointness, popcount conservation, a strict loss for the opponent on a legal move, and no change but the target when nothing is captured |
| OthelloLogic.LegalAgreesWithReverse | src/othello_logic.rs:4-53 | For an empty one-square position: it is in `legal_move` exactly when `reverse` turns something over |
| ArrayBoard.Reverse | src/board.rs:11-17 | The other colour is never the colour itself |
| ArrayBoard.ReverseInvolution | src/board.rs:11-17 | Reversing twice gives the colour back |
| ArrayBoard.AddCoord | src/board.rs:54-61 | `Ok((x+dx, y+dy))` exactly when both coordinates lie in 0..8; otherwise the fixed "Out of range" error |
| ArrayBoard.AddCoordBack | src/board.rs:54-61 | A step and the opposite step lead back to the start |
| ArrayBoard.ParseSquare | src/board.rs:38-52 | A parsed square is on the board. On ASCII input it is accepted exactly when it is `[a-h][0-7]`, and it names that input. Every rejection carries the fixed message |
| ArrayBoard.Board.constructor | src/board.rs:86-93 | The opening layout: White on (3,3) and (4,4), Black on (4,3) and (3,4) as (x, y), every other square empty |
| ArrayBoard.InitialCounts | src/board.rs:86-93 | The opening layout holds two stones of each colour |
| ArrayBoard.Board.Probe | src/board.rs:99-112 | The walk in one direction finds a bracketed line exactly when the direct rule says so |
| ArrayBoard.BracketsIffSandwich | src/board.rs:99-112 | The walk agrees with the direct statement: an adjacent opponent stone, more opponent stones, then a mover's stone before an empty square or the edge |
| ArrayBoard.Board.IsAvailableSquare | src/board.rs:94-116 | The result is the availability rule on the current grid |
| ArrayBoard.AvailableIffSandwich | src/board.rs:94-116 | Available means the square is empty and some direction of `D` is bracketed |
| ArrayBoard.Board.GetAvailableSquares | src/board.rs:117-127 | The list holds exactly the available squares, ordered by x and then by y |
| ArrayBoard.Board.CollectLine | src/board.rs:131-148 | One direction of `put`'s scan collects exactly the line the direction brackets, or nothing |
| ArrayBoard.LineShape | src/board.rs:136-147 | The collected squares of one line follow one another in its direction, and each holds the other colour |
| ArrayBoard.Board.Collect | src/board.rs:129-150 | The scan over `D` collects the concatenation of the lines, in `D`'s order |
| ArrayBoard.FlipsBelowCollected | src/board.rs:129-150 | The collected squares are distinct, on the board, and hold the other colour. So turning each over is defined and happens once |
| ArrayBoard.Board.Put | src/board.rs:128-164 | Nothing to turn over is an error that leaves the grid unchanged. Otherwise the target and every collected square hold the mover's stone and the rest is unchanged |
| ArrayBoard.PutIffAvailable | src/board.rs:128-164 | On an empty target `put` succeeds exactly where `is_available_square` holds |
| ArrayBoard.PutCounts | src/board.rs:151-162 | On an empty target the mover's count rises by 1 + k and the opponent's falls by k, where k stones are turned over |
| ArrayBoard.Count | src/board.rs:174-186 | The counter holds the number of black and the number of white squares of the grid |
| Parse.InputParse | src/utils.rs:2-16 | Success only on length-2 input, with both coordinates below 8, equal to the wrapped byte offsets from `a` and `0`. Every other length and every rejection gets the fixed message |
| Parse.AsciiParse | othello/src/utils.rs:3-17 | On ASCII input, with the standard character classes, the parser as written is exactly `[a-h][0-7]` |
| Parse.StrictParseRender | othello/src/utils.rs:3-17 | Rendering a square and parsing it back gives the square |
| Parse.RenderStrictParse | othello/src/utils.rs:3-17 | Whatever the intended parser accepts is the rendering of what it returns |
| Parse.NonAsciiLetterAccepted | src/utils.rs:7-8 | The parser as written accepts "š0" as (0, 0), which `[a-h][0-7]` rejects |
| Utils.GameResultSign | othello/src/utils.rs:19-31 | The result is 0 on equal counts, 1 when the given player has more stones, -1 when fewer |
| Utils.GameResultZeroSum | othello/src/utils.rs:26-30 | White's result is the negation of Black's |
| Utils.EntryOneHot | othello/src/utils.rs:41-45 | Every entry of the encoding is 0 or 1, and no square is set in both planes |
| Utils.EntryMoverFirst | othello/src/utils.rs:34-45 | Plane 0 holds the mover's stones and plane 1 the opponent's: the two halves of the search key |
| Utils.Mark | othello/src/utils.rs:40-45 | One round of the loop sets only square i's row i / 8 and column i % 8 |
| Utils.CreateBoardTensor | othello/src/utils.rs:32-48 | A fresh 2x8x8 array whose entry at (plane, r, c) encodes square 8r + c. The same function is src/players/alphazero.rs:68-84 |
| RandomPlayer.NthSquare | othello/src/players/random.rs:28-36 | The counting-down loop returns the legal square with exactly `draw` legal squares before it |
| RandomPlayer.PicksUnique | othello/src/players/random.rs:28-36 | Each draw picks one square at most |
| RandomPlayer.EverySquareDrawn | othello/src/players/random.rs:27-36 | Every legal square is picked by one draw in `0..n`. So for `draw < n` the `unreachable!` is never reached |
| RandomPlayer.FindMove | othello/src/players/random.rs:21-38 | No legal move gives `NotFoundLegalMove`; otherwise the one-bit mask of the legal square that the draw picks |
| LegacyRandomPlayer.Player.constructor | src/players/random.rs:9-12 | `stone()` returns the stone given to `new` |
| LegacyRandomPlayer.Player.FindMove | src/players/random.rs:15-32 | No legal move gives "Can't put stone"; otherwise the one-bit mask of the legal square that the draw picks |
| GridPlayer.Player.constructor | src/players.rs:13-18 | `stone()` returns the stone given to `new` |
| GridPlayer.Swap | src/players.rs:23-38 | Counting the true cells row by row, as `flatten` does, equals counting them column by column, as the scan does |
| GridPlayer.EveryCellDrawn | src/players.rs:27-38 | Every true cell has fewer than n true cells before it in the scan's order |
| GridPlayer.Player.FindMove | src/players.rs:21-40 | No true cell gives "Can't put stone". Otherwise the returned (i, j) is on the board, `grid[j][i]` is true, and `draw` true cells come before it, column by column |
| GreedyPlayer.FirstMaxKeep | othello/src/players/greedy.rs:37-40 | A gain no larger than the best so far keeps the first maximum in place |
| GreedyPlayer.FirstMaxNew | othello/src/players/greedy.rs:37-40 | A gain strictly larger than the best so far becomes the first maximum |
| GreedyPlayer.Consider | othello/src/players/greedy.rs:37-40 | One round keeps `best` at the first maximum of the gains so far |
| GreedyPlayer.Greediest | othello/src/players/greedy.rs:29-42 | A refused move is an error. Otherwise the result is the first move of the list whose stone count is largest, so `best` is never empty |
| GreedyPlayer.FindMove | othello/src/players/greedy.rs:22-56 | No legal move gives `NotFoundLegalMove`. With the coin up, the first legal move that leaves the mover the most stones. With the coin down, the legal square that the draw picks, as the random player does |
| Game.KeyMoverFirst | othello/src/players/alphazero.rs:178-182 | The key holds the mover's stones first and the opponent's second |
| Game.KeyUnkey | othello/src/players/mcts.rs:66-71 | The key and the side to move determine the board |
| SearchTables.LastMax | othello/src/players/mcts.rs:72-85 | `max_by` returns a largest element, and the last of them: every later element is strictly smaller |
| SearchTables.LastMaxIndex | othello/src/players/mcts.rs:108-113 | The readout's `max_by` returns the index of the last largest share |
| SearchTables.LastMaxOrder | othello/src/players/mcts.rs:76-84 | Two scores that order the moves alike make `max_by` choose the same move |
| SearchTables.BalancedVisit | othello/src/players/alphazero.rs:230-239 | One more visit of s through q keeps every state's count equal to the sum of its actions' counts |
| SearchTables.BalancedEnter | othello/src/players/alphazero.rs:255-256 | Entering a new state with no visits keeps the counts balanced |
| SearchTables.CountsTotal | othello/src/players/alphazero.rs:164-171 | The root's 64 counts, with 0 for actions never taken, add up to its visit count |
| SearchTables.DistributionSum | othello/src/players/alphazero.rs:172-173 | Counts divided by their positive total sum to 1 |
| SearchTables.DividedZero | othello/src/players/mcts.rs:61-62 | With a zero total every share is 0. The source gives NaN |
| SearchTables.ReadoutChoice | othello/src/players/alphazero.rs:74-81 | The last largest share of a positive total is the root's most visited square |
| SearchTables.PeakIsOne | src/players/alphazero.rs:138-139 | Counts divided by their largest: every share is at most 1, and one is exactly 1 |
| SearchTables.MeanIsAverage | othello/src/players/alphazero.rs:231-234 | The corrected update folds one more value into the mean of n values |
| SearchTables.MeanBounded | othello/src/players/alphazero.rs:231-234 | The corrected update keeps values in [-1, 1] |
| SearchTables.QUpdateLeavesRange | othello/src/players/alphazero.rs:232-233 | The update as written takes two wins to 1.5, where the mean stays at 1 |
| SearchTables.QUpdateWithin | othello/src/players/alphazero.rs:232-233 | The update as written keeps the value of an action counted at least once in [-1, 2] |
| SearchTables.UpdateBounded | othello/src/players/alphazero.rs:231-234 | Each variant's update keeps a value within its ceiling: [-1, 2] as written for a counted action, [-1, 1] once corrected |
| AlphaZero.MaskSum | othello/src/players/alphazero.rs:85-94 | The mask adds up to the number of legal moves |
| AlphaZero.LegalMoveToArray | othello/src/players/alphazero.rs:85-94 | A fresh array with 1 exactly on the legal squares, 0 elsewhere |
| AlphaZero.Prior | othello/src/players/alphazero.rs:249-254 | The stored prior is 0 on every illegal square and sums to 1 where the adjusted policy has mass |
| AlphaZero.AdjustedFallback | othello/src/players/alphazero.rs:250-253 | A policy that gives the legal squares nothing is replaced by the mask |
| AlphaZero.UniformFallback | othello/src/players/alphazero.rs:249-254 | Such a policy falls back to the uniform prior over the legal moves |
| AlphaZero.MixDistribution | othello/src/players/alphazero.rs:145-160 | Mixing a distribution with noise that sums to 1 gives a distribution |
| AlphaZero.MixedConsistent | othello/src/players/alphazero.rs:145-160 | Mixing noise into the root's prior changes no count and no action value |
| AlphaZero.Choose | othello/src/players/alphazero.rs:194-215 | The choice by score (the corrected choice here, and the legacy search's own): a legal move with the best score, the last of them on a tie |
| AlphaZero.LargestPosition | othello/src/players/alphazero.rs:216-220 | As written the choice is the move with the largest position |
| AlphaZero.PositionChoiceDiffers | othello/src/players/alphazero.rs:216-220 | When the later-listed move scores higher, the choice as written still takes the other move |
| AlphaZero.Pick | othello/src/players/alphazero.rs:194-217 | The followed move is legal. As written it holds the largest position of the legal moves; corrected, it has the best score |
| AlphaZero.RecordedConsistent | othello/src/players/alphazero.rs:230-239 | The backup keeps the tables consistent: `Nsa` is set to 1 if new and incremented otherwise, `Ns` is incremented, and counts stay balanced |
| AlphaZero.RecordedBounded | othello/src/players/alphazero.rs:230-238 | Backing up a value in [-1, 1] keeps every action value within the variant's ceiling: [-1, 2] as written when every valued action was counted, [-1, 1] once corrected |
| AlphaZero.ExpandedConsistent | othello/src/players/alphazero.rs:241-257 | The first visit enters `Ps` and `Ns = 0` and leaves `Qsa` and `Nsa` alone, so the tables stay consistent |
| AlphaZero.VisitedMove | othello/src/players/alphazero.rs:194-222 | From a known state with a legal move, a simulation plays the move `Pick` gives: the largest position as written, the best score once corrected |
| AlphaZero.FollowedBy | othello/src/players/alphazero.rs:221-239 | The move played: a finished child backs up and returns the game result for the mover. Otherwise the deeper simulation's error is passed on, or its value, negated when the turn passes, is backed up and returned |
| AlphaZero.SimulatedGrows | othello/src/players/alphazero.rs:176-259 | A simulation never forgets a state |
| AlphaZero.SimulatedConsistent | othello/src/players/alphazero.rs:176-259 | A simulation keeps the tables consistent |
| AlphaZero.SimulatedKeeps | othello/src/players/alphazero.rs:176-259 | A simulation changes no entry of a state with fewer stones than its board |
| AlphaZero.FollowedKeeps | othello/src/players/alphazero.rs:221-239 | The same for a given move played from the board |
| AlphaZero.SimulatedVisit | othello/src/players/alphazero.rs:194-240 | A simulation from a known state that returns v followed the move `Pick` gives, which the board accepted. The state's and the action's counts grew by one, and the action value took v in by the variant's update. v is the game result for the mover when the move ends the game. Otherwise the deeper simulation succeeded, and v is its value, negated when the turn passes |
| AlphaZero.SimulatedBounded | othello/src/players/alphazero.rs:223-240 | With a network whose values lie in [-1, 1], results stay in [-1, 1]. Action values stay in [-1, 2] as written (from consistent tables) and in [-1, 1] once corrected |
| AlphaZero.SimulatedRoot | othello/src/players/alphazero.rs:176-259 | A successful simulation either enters its root with 0 visits or counts one more visit of it |
| AlphaZero.SimulatedOnlyChosen | othello/src/players/alphazero.rs:216-239 | A simulation changes the count and value of no root action other than the one it follows |
| AlphaZero.SimulatedLargestPosition | othello/src/players/alphazero.rs:216-239 | As written, a successful simulation from a known state counts one more visit of the legal move with the largest position and of no other root move, whatever the scores |
| AlphaZero.SimulatedLeavesRange | othello/src/players/alphazero.rs:232-233 | As written, backing 1 up through an action that holds 1 after one visit stores 1.5, outside [-1, 1]; the corrected update keeps 1 |
| AlphaZero.ReadoutTotal | othello/src/players/alphazero.rs:164-173 | The root's counts add up to its visit count, so the readout is a distribution |
| AlphaZero.Mcts.constructor | othello/src/players/alphazero.rs:116-129 | New tables are empty, and `cpuct` and the simulation count are those given |
| AlphaZero.Mcts.ClearCache | othello/src/players/alphazero.rs:130-135 | Every table is emptied |
| AlphaZero.Mcts.Expand | othello/src/players/alphazero.rs:241-257 | The in-place expansion is the expansion function of the tables before the call |
| AlphaZero.Mcts.Record | othello/src/players/alphazero.rs:230-239 | The in-place backup, with the update as written, is the as-written backup function of the tables before the call |
| AlphaZero.Mcts.Simulate | othello/src/players/alphazero.rs:176-259 | The new tables and the result are `Simulated` as written of the tables before the call: the move with the largest position and the update as written |
| AlphaZero.Mcts.Follow | othello/src/players/alphazero.rs:221-239 | The move played, the deeper simulation run in place, and the value backed up with the update as written, as `Followed` as written says |
| AlphaZero.Mcts.Search | othello/src/players/alphazero.rs:136-174 | The tables stay consistent. With a network valued in [-1, 1], action values that lay in [-1, 2] still do. The root's count grows by the number of simulations, plus one when the root was already known. The readout is its counts over that count, which sums to 1 |
| AlphaZero.Mcts.FindMove | othello/src/players/alphazero.rs:69-82 | The returned square is the root's most visited, the last of them on a tie |
| LegacyAlphaZero.BoardKeyIgnoresTurn | src/players/alphazero.rs:151 | The key `(black, white)` does not change with the side to move, and differs from the mover-first key when White moves |
| LegacyAlphaZero.TerminalValue | src/players/alphazero.rs:143-150 | A finished board is valued as White's game result, whoever is to move |
| LegacyAlphaZero.AdjustedAsWritten | src/players/alphazero.rs:198-203 | As written the mask is added whenever the masked sum is at least 0 |
| LegacyAlphaZero.PriorAsWritten | src/players/alphazero.rs:198-204 | The prior as written sums to 1 where the adjusted policy has mass |
| LegacyAlphaZero.MaskAlwaysAdded | src/players/alphazero.rs:201-203 | A policy sure of one of two legal moves is stored as 2/3 and 1/3 as written, where the intended prior keeps 1 and 0 |
| LegacyAlphaZero.ExpandedConsistent | src/players/alphazero.rs:190-207 | The first visit enters `Ps` (the prior as written or corrected) and `Ns = 0`, so the tables stay consistent |
| LegacyAlphaZero.VisitedMove | src/players/alphazero.rs:152-177 | From an unfinished known state with a legal move, a simulation plays the move with the best score |
| LegacyAlphaZero.FollowedBy | src/players/alphazero.rs:177-189 | The deeper value v is recorded through the move as it is, by the variant's update, and -v is returned |
| LegacyAlphaZero.SimulatedGrows | src/players/alphazero.rs:142-209 | A simulation never forgets a state |
| LegacyAlphaZero.SimulatedConsistent | src/players/alphazero.rs:142-209 | A simulation keeps the tables consistent |
| LegacyAlphaZero.SimulatedKeeps | src/players/alphazero.rs:142-209 | A simulation changes no entry of a state with fewer stones than its board |
| LegacyAlphaZero.FollowedKeeps | src/players/alphazero.rs:177-189 | The same for a given move played from the board |
| LegacyAlphaZero.SimulatedVisit | src/players/alphazero.rs:152-189 | A simulation from an unfinished known state followed the move with the best score. The state's and the action's counts grew by one, and the action value took in the negation of the returned value by the variant's update |
| LegacyAlphaZero.SimulatedBounded | src/players/alphazero.rs:142-209 | With a network whose values lie in [-1, 1], results stay in [-1, 1]. Action values stay in [-1, 2] as written (from consistent tables) and in [-1, 1] once corrected |
| LegacyAlphaZero.SimulatedRoot | src/players/alphazero.rs:142-209 | A finished root changes nothing. Otherwise the root is entered with 0 visits or gains one visit, and the tables stay consistent |
| LegacyAlphaZero.SimulatedLeavesRange | src/players/alphazero.rs:181-182 | As written, backing 1 up through an action that holds 1 after one visit stores 1.5, outside [-1, 1]; the corrected update keeps 1 |
| LegacyAlphaZero.Mcts.constructor | src/players/alphazero.rs:113-123 | New tables are empty, and `cpuct` and the simulation count are those given |
| LegacyAlphaZero.Mcts.ClearCache | src/players/alphazero.rs:124-129 | Every table is emptied |
| LegacyAlphaZero.Mcts.Expand | src/players/alphazero.rs:190-207 | The in-place expansion, with the prior as written, is the as-written expansion function of the tables before the call |
| LegacyAlphaZero.Mcts.Record | src/players/alphazero.rs:179-188 | The in-place backup, with the update as written, is the as-written backup function of the tables before the call |
| LegacyAlphaZero.Mcts.Simulate | src/players/alphazero.rs:142-209 | The new tables and the result are `Simulated` as written of the tables before the call |
| LegacyAlphaZero.Mcts.Follow | src/players/alphazero.rs:177-189 | The move played, the deeper simulation run in place, and its value recorded, as `Followed` says |
| LegacyAlphaZero.Mcts.Search | src/players/alphazero.rs:130-140 | The tables stay consistent. With a network valued in [-1, 1], action values that lay in [-1, 2] still do. The readout is the root's counts over their largest, with a maximum of exactly 1. The root's count grows with each simulation, and its counts add up to it |
| LegacyAlphaZero.Mcts.FindMove | src/players/alphazero.rs:52-66 | The returned square is the root's most visited, the last of them on a tie |
| MctsPlayer.SeededEntries | othello/src/players/mcts.rs:79 | Scoring keeps every win count and enters 1 for every listed move that had none |
| MctsPlayer.Entered | othello/src/players/mcts.rs:76-83 | Scoring leaves the state with a visit count of at least 1 |
| MctsPlayer.Choose | othello/src/players/mcts.rs:72-85 | The followed move is a legal move with the best score, the last on a tie |
| MctsPlayer.ChooseByWins | othello/src/players/mcts.rs:76-84 | The exploration term is the same for every move of a state, so the choice is the last move with the most wins |
| MctsPlayer.FollowedDeeper | othello/src/players/mcts.rs:87-101 | A move that does not end the game backs up the deeper value, negated when the turn passes |
| MctsPlayer.SimulatedMove | othello/src/players/mcts.rs:72-86 | With a legal move, a simulation plays the chosen one from the scored tables |
| MctsPlayer.EnteredKeeps | othello/src/players/mcts.rs:76-83 | Scoring state s leaves every other state's entries alone |
| MctsPlayer.BackupKeeps | othello/src/players/mcts.rs:94-100 | A backup through s leaves every other state's entries alone |
| MctsPlayer.SimulatedKeeps | othello/src/players/mcts.rs:65-102 | A simulation changes no entry of a state with fewer stones than its board |
| MctsPlayer.EnteredConsistent | othello/src/players/mcts.rs:76-83 | Scoring keeps the tables consistent and gives every listed move a win count |
| MctsPlayer.BackupConsistent | othello/src/players/mcts.rs:94-100 | A backup keeps the tables consistent |
| MctsPlayer.SimulatedConsistent | othello/src/players/mcts.rs:65-102 | A simulation keeps the tables consistent |
| MctsPlayer.DeeperConsistent | othello/src/players/mcts.rs:87-101 | The backup after a consistent deeper simulation keeps the tables consistent |
| MctsPlayer.SimulatedResult | othello/src/players/mcts.rs:87-93 | Every value a simulation returns is -1, 0 or 1 |
| MctsPlayer.SimulatedVisit | othello/src/players/mcts.rs:72-101 | A simulation returning v followed the last move with the most wins. The state's count grew by one (from 1 for a new state) and so did the action's count. The win count grew exactly when v is 1 |
| MctsPlayer.SimulatedRoot | othello/src/players/mcts.rs:65-102 | A successful simulation counts one more visit of its root |
| MctsPlayer.ReadoutTotal | othello/src/players/mcts.rs:53-62 | The root's counts add up to its visit count less one, so the readout is a distribution |
| MctsPlayer.Player.constructor | othello/src/players/mcts.rs:23-32 | `N` is 1 and the tables are empty |
| MctsPlayer.Player.ClearCache | othello/src/players/mcts.rs:33-37 | The tables are emptied and `N` is kept |
| MctsPlayer.Player.Enter | othello/src/players/mcts.rs:76-83 | The in-place scoring is `Entered` of the tables before the call |
| MctsPlayer.Player.Back | othello/src/players/mcts.rs:94-100 | The in-place backup is `Backup` of the tables before the call |
| MctsPlayer.Player.Simulate | othello/src/players/mcts.rs:65-102 | The new tables and the result are `Simulated` of the tables before the call |
| MctsPlayer.Player.InitSearch | othello/src/players/mcts.rs:38-43 | k successful simulations raise the root's count by k |
| MctsPlayer.Player.Search | othello/src/players/mcts.rs:44-63 | The readout is the root's counts over their sum. That sum is the root's count less one, and the readout sums to 1 |
| MctsPlayer.Player.FindMove | othello/src/players/mcts.rs:106-116 | The returned square is the root's most visited, the last of them on a tie |

## Left out

- OthelloLogic.Reverse and OthelloLogic.Put: stated only for disjoint masks and a position holding exactly one square. These are the inputs a board gives. The functions themselves accept any words.
- Parse.InputParse: `is_alphabetic` and `is_numeric` are parameters, because the model has no Unicode character classes. The ASCII results assume the standard classes.
- Parse.InputParse: `c as u8 - b'a'` is modelled as wrapping byte subtraction, its release-build behaviour. A character below `a` or `0` panics in a debug build, and that panic is not modelled.
- AlphaZero.Mcts and LegacyAlphaZero.Mcts: the in-place searches run only the variant as written. The corrected variant is modelled by the search functions (`Simulated(Corrected, ..)`) and their lemmas, not by a method.
- Floats: f32 values are reals. A division by zero in a readout gives NaN in the source and 0 in the model. The same holds for the stored prior (`AlphaZero.Prior`, `LegacyAlphaZero.PriorAsWritten`). Where the adjusted policy sums to 0, the source divides by that zero sum and stores NaN; the model keeps the zeros. This happens when a state with no legal move is expanded. In the newer crate it also happens when the legal squares' policy sums below 0 and adding the mask brings the sum to exactly 0. A panic of `partial_cmp().unwrap()` on NaN is not modelled. Square roots and logarithms are function parameters.
- Panics of `max_by(..).unwrap()` on an empty move list and of `put(..)?` on a refused move are errors of the result (`NoMove`, `Rejected`).
- The network: `model.run`, the ONNX loading (`AlphaZeroPlayer::new`, `new_from_model_path`, `Default`) and the tensor reshape are left out. The network is a function from a board to a policy and a value, or a failure (`BadOutput`).
- The Dirichlet noise: the sample is a parameter of `AlphaZero.Mcts.Search`. Its construction from `alpha` and the legal map is not modelled.
- Random number generators: `SmallRng`, `gen_range` and `gen_bool` are not modelled. The draw and the greedy coin are parameters of `FindMove`.
- The `othello` crate's `Board` (`get_legal_moves`, `to_position_list`, `put`, `finished`, `count_stone`, `Position`) is not part of this model. Only its fields are concrete; its rules are the `Engine` functions. `AlphaZero.LargestPosition` assumes that `Position`'s `partial_cmp` is the order of its `u64` bit: a larger position is an earlier square. The choice as written, and the example in the fourth Findings row, rest on that order.
- `src/players.rs` reads `get_available_squares` as a grid of booleans, while `src/board.rs` returns a list of squares. The grid player is modelled over the grid it indexes.
- `MCTSPlayer::default` (cpuct √2, 10000 simulations) and the `Default` constructors of the other players only choose constants.
- Formatting (`Display` for `Board`), the user interfaces, the self-play and benchmark drivers, and the training scripts are not part of this model.

## Findings

| source | as written | input that shows it | evidently intended | confidence | as-written member | corrected member |
|---|---|---|---|---|---|---|
| src/utils.rs:7-8 | `x.is_alphabetic() && x as u8 - b'a' < 8` keeps only the low byte of a character | "š0": U+0161 has low byte 0x61 = `a`, so it parses as (0, 0) | accept exactly `[a-h][0-7]`, as the error message says | not executed | Parse.NonAsciiLetterAccepted | Parse.StrictParse |
| othello/src/players/alphazero.rs:232-233 | `Qsa := (Nsa + Qsa + v) / (Nsa + 1)` | Nsa = 1, Qsa = 1, v = 1 gives 1.5, outside the values' range | the running mean `(Nsa * Qsa + v) / (Nsa + 1)` | not executed | AlphaZero.SimulatedLeavesRange | SearchTables.MeanIsAverage |
| src/players/alphazero.rs:181-182 | the same update `(Nsa + Qsa + v) / (Nsa + 1)` | Nsa = 1, Qsa = 1, v = 1 gives 1.5 | the running mean | not executed | LegacyAlphaZero.SimulatedLeavesRange | LegacyAlphaZero.SimulatedBounded |
| othello/src/players/alphazero.rs:216-217 | `max_by` compares `a.1`, the position, so the computed score is ignored | moves listed as square 1, square 0 where square 1 scores higher: as written the search takes square 0 | compare the scores `a.0`, as src/players/alphazero.rs:175 and othello/src/players/mcts.rs:84 do | not executed | AlphaZero.SimulatedLargestPosition | AlphaZero.Pick |
| src/players/alphazero.rs:201 | the mask is added to the policy whenever its masked sum is `>= 0.0` | policy [1, 0] with both squares legal: stored prior [2/3, 1/3] | add the mask only when the legal squares hold no mass (`<= 0.0`, as othello/src/players/alphazero.rs:251 does) | not executed | LegacyAlphaZero.MaskAlwaysAdded | AlphaZero.Prior |
