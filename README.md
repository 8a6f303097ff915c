# 3T-VI in Dafny

3T-VI is a Tic-Tac-Toe program in which two learning players, O and X, play
match after match against each other. This project models its core and proves
properties of the model:

- `board.dfy` (module `Boards`): the `Board` of `model.py`. A 3x3 grid is
  packed into an 18-bit integer. Cell (i, j) is the 2-bit field at bits
  2(3i+j) and 2(3i+j)+1. `00` is X (-1), `01` is empty (0), `10` is O (+1),
  and `11` is illegal. The empty board is `0x15555`. `get`, `invert` and
  `result` are functions of the packed value (`Get`, `Inverted`, `Result`).
  `as_array` is the 3x3 view `AsArray`. The class `Board` holds the value and
  updates it in place (`Set`, `Clear`). Every bit formula is related to the
  3x3 view: what `set` writes, what `invert` swaps, and what `result` reports.
  Mark counting (`MarkCount`) supports the game invariant.
- `agents.dfy` (module `Agents`): the `VI` player without its network. The
  network is a function from boards to two length-3 score vectors (`Net`).
  The training step is a function from network and batch to network
  (`Learner`). The random numbers are inputs. The model covers:
  - the choice of a move: greedy argmax, or a random empty cell when
    `epsilon > 0 and random() < 1/epsilon` holds or the greedy cell is taken;
  - the record of a match, an insertion-ordered dictionary from board to
    action, modelled as a sequence of entries;
  - the reward and the bootstrapped targets of `_prepare_batch`;
  - the decay of epsilon.

  The exploration test is kept as written. For 0 < epsilon <= 1 it always
  holds, so every move is random until epsilon reaches 0, after 10000
  matches (`AlwaysExplores`, `ExplorationPhase`). After that a move is the
  greedy action unless the greedy cell is taken; then it is a random empty
  cell (`GreedyWhenSettled`).
- `game.dfy` (module `Games`): the `Main` timer loop of `main.py`. Each method
  of the class `Game` (`Step`, `Think`, `Move`, `Check`, `Reset`) is proved
  against a function on a value snapshot of the game (`GameState`). A match
  invariant (`Inv`) is proved to hold initially and to be kept by every tick.
  It says:
  - the board is legal;
  - the player to move follows from the opener and the parity of the number
    of marks;
  - each player has recorded exactly one distinct board per move it made.

  From the invariant it follows that a move always has an empty cell to find
  and that training never sees an empty record. Without the first,
  `_randomize` would never end; without the second, `_reward` would divide by
  zero.
- `outcomes.dfy` (module `Outcomes`): two further facts about the match loop.
  Under the invariant each record has distinct boards, as a dictionary's keys
  are. No tick leads to a board on which both sides have a full line, so
  `result()` never has to choose between two winners.
- `options.dfy`: the `Option` type that stands for Python's `None`.

## Model

| member | source | states |
|---|---|---|
| Boards.CellAt | model.py:21-23 | `as_array` holds at row i, column j exactly what `get(i, j)` returns |
| Boards.ValidCells | model.py:30-35 | a packed value has no `11` field exactly when `get` returns only -1, 0 or +1 on every cell |
| Boards.EmptyBoard | model.py:17-19 | the empty board `0x15555` is legal, every cell reads 0, and `result()` is None |
| Boards.Board.constructor | model.py:17-19 | `Board()` holds `0x15555` |
| Boards.Board.FromId | model.py:17-19 | `Board(id)` holds the given id |
| Boards.Board.Clear | model.py:25-28 | `clear()` sets the id back to `0x15555` in place |
| Boards.SetGet | model.py:73-83 | after `set(i, j, xo)`, `get(i, j)` is xo, every other cell reads as before, and a legal board stays legal |
| Boards.PlacedPut | model.py:79-82 | set's mask-and-or changes the 3x3 view in cell (i, j) only, which takes xo |
| Boards.Board.Set | model.py:73-83 | `set` rewrites the id in place with the mask-and-or formula (whose meaning SetGet and PlacedPut state) |
| Boards.InvertGet | model.py:40-41 | `invert()` maps each cell -1 to +1 and +1 to -1, keeps 0, and leaves an illegal field illegal |
| Boards.InvertInvolution | model.py:40-41 | `invert` applied twice gives back the same id, for every 18-bit id |
| Boards.InvertValid | model.py:40-41 | the inverted board is legal exactly when the board is |
| Boards.Board.Invert | model.py:40-41 | `invert()` returns a new board holding the XOR formula's id and leaves the receiver unchanged |
| Boards.SameBoard | model.py:85-91 | two boards are `==` (and hash alike) exactly when all nine cells agree |
| Boards.LineMasks | model.py:46-54 | row k masked with `0x3F` equals `0x00` (`0x2A`) exactly when row k is all X (all O); column k masked with `0x30C3` equals `0x0000` (`0x2082`) exactly when column k is all X (all O) |
| Boards.DiagonalMasks | model.py:56-70 | the diagonal masks compare equal exactly when a diagonal is all X or all O, and `id & 0x15555 == 0` exactly when no cell is empty |
| Boards.ScanStep | model.py:46-54 | iteration k of the loop in `result` returns -1 on a full X row or column, +1 on a full O row or column, and goes on otherwise |
| Boards.ScanLast | model.py:56-71 | after the loop, `result` checks the diagonals for X, then for O, then returns 0 for a full board and None otherwise |
| Boards.ScanWinner | model.py:43-71 | from iteration k, the scan returns only None, -1, 0 or +1, and it returns -1 (+1) only when X (O) has a line among the ones it still checks |
| Boards.ScanUndecided | model.py:43-71 | from iteration k, the scan returns 0 exactly when no remaining line is full and every cell holds a mark, and None exactly when no remaining line is full and some cell holds no mark |
| Boards.ResultMeaning | model.py:43-71 | `result()` is -1 only if X has a full line and +1 only if O has one; with only one side having a line it names that side; it is 0 exactly when no line is full and every cell holds a mark, and None exactly when no line is full and some cell holds no mark (on a legal board: some cell is empty) |
| Boards.OpenCell | model.py:43-71 | a legal board on which `result()` is None has an empty cell |
| Boards.PlacedCount | model.py:79-82 | setting a mark on an empty cell adds one mark to the board |
| Boards.InvertedCount | model.py:40-41 | `invert` keeps the number of marks |
| Boards.AsArray | model.py:21-23 | `as_array` is a 3x3 array, row i holding `get(i, 0..2)` |
| Boards.Get | model.py:30-35 | defines `get`: the 2-bit field of cell (i, j), reached by shifting 6i then 2j bits and masking, minus 1 (`00` -1, `01` 0, `10` +1, `11` 2); CellAt, ValidCells and SetGet state what it reads |
| Boards.ValidBits | model.py:30-35 | a packed value is legal exactly when no 2-bit field has both bits set, that is `id & (id >> 1) & 0x15555 == 0` |
| Boards.Placed | model.py:79-82 | defines `set`'s new id: the field of cell (i, j) is masked out and replaced by `00` for -1 or `10` for +1; SetGet and PlacedPut state its meaning |
| Boards.Inverted | model.py:40-41 | defines `invert`'s XOR formula; InvertGet, InvertValid and InvertInvolution state its meaning |
| Boards.Scan | model.py:45-71 | defines the loop of `result` from iteration k: rows and columns k, k+1, ... first, then the diagonals and the full-board test; ScanStep, ScanLast, ScanWinner and ScanUndecided state its meaning |
| Boards.Result | model.py:43-71 | defines `result()` as the scan from iteration 0; ResultMeaning states its meaning |
| Boards.WinsPut | model.py:79-82 | writing one side's mark into a cell gives the other side no full line it did not have |
| Boards.EmptyCount | model.py:17-19 | the empty board holds no mark |
| Boards.WinsCount | model.py:50-66 | a full line of one side means at least three marks |
| Boards.FinishedCount | model.py:43-71 | a board on which `result()` is not None holds at least three marks |
| Agents.Argmax | model.py:123 | `numpy.argmax` over three scores returns an index of a largest score, and no earlier index holds one as large |
| Agents.ArgmaxUnique | model.py:123 | that index is the only one with both properties |
| Agents.FirstHit | model.py:191-196 | the position of the first random draw that points at an empty cell: it is empty, and every earlier one is not |
| Agents.Randomize | model.py:191-196 | the rejection loop of `_randomize` returns the first draw that points at an empty cell |
| Agents.VI.Move | model.py:121-129 | `move` returns the chosen action, which is an empty cell; the record then sends the board to that action; the recorded boards stay distinct; net and epsilon are unchanged |
| Agents.ChosenFree | model.py:121-129 | whichever branch `move` takes, the action points at an empty cell |
| Agents.AlwaysExplores | model.py:124-125 | for 0 < epsilon <= 1 and random() in [0, 1), the test `random() < 1/epsilon` holds, so `move` plays the first random empty cell |
| Agents.GreedyWhenSettled | model.py:124-125 | with epsilon 0, `move` keeps the greedy action exactly when its cell is empty |
| Agents.InsertLookup | model.py:127 | after `experience[board] = action`, the board maps to the action and every other board maps as before |
| Agents.InsertOrder | model.py:127 | a new board goes last in insertion order; a recorded board keeps every entry in its place |
| Agents.InsertDistinct | model.py:127 | the dictionary assignment keeps the recorded boards distinct |
| Agents.InsertKeys | model.py:127 | every key after the assignment is the new board or was a key before |
| Agents.LookupMissing | model.py:127 | a board that is no entry's key maps to nothing |
| Agents.MultiplierValue | model.py:199 | `min(1, 3/n)` lies in (0, 1]; it is 1 for n <= 3 and 3/n for n >= 3 |
| Agents.Reward | model.py:198-206 | the reward lies in [-1, 1]; it is positive exactly when the result is not a loss; it is 0.7, 1 or -1 for a tie, win or loss when n <= 3, and that value times 3/n when n >= 3 |
| Agents.BatchTargets | model.py:160-186 | the batch has one board and one target pair per recorded move, in insertion order; each target equals the prediction for its board except at the taken row and column; there a non-final target holds 0.9 times the prediction for the next board at the next action, and the final target holds the reward |
| Agents.VI.PrepareBatch | model.py:160-186 | the loop over consecutive pairs builds exactly that batch, and the record is emptied |
| Agents.VI.Train | model.py:137-142 | `train` builds the batch from the record, takes one training step on it, decays epsilon to `max(epsilon - 1e-4, 0)` and empties the record |
| Agents.Greedy | model.py:123 | defines the greedy action: the argmax row and the argmax column of the prediction |
| Agents.Explores | model.py:124 | defines the exploration test `epsilon > 0 and random() < 1/epsilon` on the draw standing for `random()` |
| Agents.Chosen | model.py:121-126 | defines the action `move` plays: the first random empty cell when the test holds or the greedy cell is taken, the greedy action otherwise; ChosenFree, AlwaysExplores and GreedyWhenSettled state its meaning |
| Agents.Insert | model.py:127 | defines `experience[board] = action` on an insertion-ordered dictionary; InsertLookup, InsertOrder and InsertDistinct state its meaning |
| Agents.Target | model.py:169-183 | defines the targets of one recorded move; BatchTargets states them |
| Agents.BatchOf | model.py:160-186 | defines the batch `_prepare_batch` returns; BatchTargets states its contents |
| Agents.Decay | model.py:142 | defines `max(epsilon - 1e-4, 0)`; DecayedValue and ExplorationPhase state where repeated decay leads |
| Agents.VI.constructor | model.py:102-110 | a new player starts with epsilon 1 and an empty record |
| Agents.DecayedValue | model.py:142 | after k matches from epsilon >= 0, epsilon is `max(epsilon - k * 1e-4, 0)` |
| Agents.ExplorationPhase | model.py:142 | from epsilon 1, epsilon stays in (0, 1] for fewer than 10000 matches and is 0 from then on |
| Games.Game.constructor | main.py:8-18 | a new game has a newly allocated board and two newly allocated players; it has an empty board, players with epsilon 1 and empty records, the random opener as both start and turn, thinking and checking set, zero counters and both panels ready |
| Games.Game.Count | main.py:36-48 | the counter and the panels change as a function of the result |
| Games.CountedOnce | main.py:36-48 | exactly one counter goes up by exactly one: X's wins for a negative result, O's for a positive one, ties for 0; the panels show won against lost, or tied on both sides |
| Games.Game.Check | main.py:36-55 | `_check` counts the result, trains O on the result and X on its negation, and clears `_checking` |
| Games.Game.Move | main.py:57-67 | on turn +1, O moves on the board itself and +1 is placed on its cell; on turn -1, X moves on the inverted board and -1 is placed on its cell of the real board; the turn is negated and `_thinking` is set |
| Games.InvertedHits | main.py:62-64 | a draw that points at an empty cell of the board does so on the inverted board too |
| Games.Game.Reset | main.py:69-74 | `_reset` empties the board, negates the opener, hands it the turn and sets `_checking` |
| Games.Game.Think | main.py:89-97 | with a non-zero delay the panels show who is thinking and `_thinking` is cleared; with delay 0 nothing changes |
| Games.Game.Step | main.py:76-87 | a tick thinks or moves while `result()` is None; once the board is finished it checks while `_checking` holds and resets after that |
| Games.InitialInv | main.py:15-18 | the game starts in a state that satisfies the match invariant |
| Games.InvCanTick | main.py:76-87 | under the invariant, a board without a result has an empty cell, and a finished board that is still to be checked has a non-empty record for each player |
| Games.TickedInv | main.py:76-87 | every tick from a state satisfying the invariant has what it needs and leads to a state that satisfies it |
| Games.ScoredInv | main.py:36-55 | checking a finished match leads to a state that satisfies the invariant |
| Games.RestartedInv | main.py:69-74 | resetting with empty records leads to a state that satisfies the invariant |
| Games.PlayedInv | main.py:57-67 | a move on an unfinished board leads to a state that satisfies the invariant |
| Games.PlayedByO | main.py:58-60 | O's move keeps the invariant |
| Games.PlayedByX | main.py:62-64 | X's move, chosen on the inverted board, keeps the invariant |
| Games.MoveTurns | main.py:57-67 | a mark on an empty cell keeps the board legal, adds one mark and hands the turn to the other player |
| Games.PlacedValid | model.py:79-82 | a mark set on a legal board leaves it legal |
| Games.MoveRecords | model.py:127 | the mover records the board it played on as a new last entry; both records then fit a board with one more mark |
| Games.NewestBoard | model.py:127 | a board with as many marks as the current one has no entry in a record of the current match |
| Games.Appended | model.py:127 | recording a move made on a board with n marks turns the record for n marks into the record for n + 1 |
| Games.Initial | main.py:8-18 | defines the state a new game starts in; InitialInv shows it satisfies the invariant |
| Games.Counted | main.py:36-48 | defines the counting half of `_check`; CountedOnce states its meaning |
| Games.Scored | main.py:36-55 | defines `_check` on the state: counting, then O trained on the result and X on its negation, then `_checking` cleared |
| Games.Played | main.py:57-67 | defines `_move` on the state: O plays on the board, X on the inverted board, each mark goes on the real board, and the turn passes |
| Games.Restarted | main.py:69-74 | defines `_reset` on the state |
| Games.Thought | main.py:89-97 | defines `_think` on the state, with the delay as an input |
| Games.Ticked | main.py:76-87 | defines `_step` on the state: think or move while `result()` is None, then check, then reset |
| Outcomes.InvDistinct | model.py:127 | under the invariant, neither player's record holds a board twice |
| Outcomes.RecordedDistinct | model.py:127 | records whose t-th board holds 2t (or 2t + 1) marks have distinct boards |
| Outcomes.EmptyOneWinner | model.py:17-19 | the empty board has no full line for either side |
| Outcomes.PlacedOneWinner | main.py:57-64 | a mark set while `result()` is None leaves the other side without a full line, so at most one side has one |
| Outcomes.OneWinnerKept | main.py:76-87 | no tick leads from a board where at most one side has a full line to one where both do |

## Left out

- The Keras network (`_build`, `_predict`, `train_on_batch`) is not modelled. Predictions are the function `Net`, and a training step is the function `Learner`; both are inputs.
- `load` and `save` are file I/O and are left out. A new player starts with epsilon 1 and no saved progress, and `_check` does not save.
- `random.random`, `random.randrange` and `random.choice` are not modelled. Their values are inputs: `coin` for `random()`, the sequence `draws` for the `randrange(3)` pairs, and the opener for the constructor.
- Agents.Randomize: requires that some draw points at an empty cell. On a full board `_randomize` loops forever, and with real randomness it ends only with probability 1. `Games.InvCanTick` proves that every board the game moves on has an empty cell.
- Agents.VI.Train: requires a non-empty record, because with an empty one `_reward` divides by zero (ZeroDivisionError). `Games.InvCanTick` proves that the game never trains on an empty record.
- Games.Game.Step: requires the two conditions above (draws that reach an empty cell; non-empty records at a check). The invariant gives the non-empty records and an empty cell for the draws to find (`Games.InvCanTick`). That the draws reach that cell is assumed (`Games.TickedInv` requires it), as `_randomize` ends only with probability 1.
- Floating point is modelled as exact reals: 0.7, 0.9, 1e-4, `1/epsilon`, `3/n` and the repeated `epsilon - 1e-4`. IEEE-754 rounding is not modelled, so the 10000-match boundary of `ExplorationPhase` may differ by one in floating point.
- The board id is an 18-bit bit-vector. An `int` of 2^18 or more passed to `Board(id)` is not modelled; `set`, `get` and `result` mask their fields to 18 bits anyway.
- The assertions in `get` and `set` on out-of-range indices or a mark other than -1 or +1 are not modelled as errors. The `Index` and `Mark` types exclude those arguments.
- Boards.ResultMeaning: when both sides have a full line, the side `result()` names depends on the scan order and is not stated. `Outcomes.OneWinnerKept` proves that no tick of the game leads to such a board.
- Boards.Board.Set: its postcondition gives the new id through the mask-and-or formula only. The cell-level meaning is in `SetGet` and `PlacedPut`, which hold for every id.
- `as_array` returns a sequence of sequences, not a numpy array. `__str__`, `__repr__` and `__ne__` are display or trivial and are not modelled. `id()` is the field `id`.
- The Qt parts of `main.py` are not modelled: the timer in `__init__`, `refresh`, `_toggle` and the `__main__` block. `delay()` is an input of `Think` and `Step`.
- view.py is not part of this model. The starting values of the counters (0) and of the panels (`'ready'`) that it sets are taken as given in `Games.Initial`.
