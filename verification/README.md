# Hilbert curve engine — a Dafny model

This project models the curve engine of a small SDL program that draws a
Hilbert curve cell by cell on a square grid (`src/main.c`). The engine has
these parts:

- **Grid.** The grid factory `HC_Graph_Create` builds a grid of
  `2^order × 2^order` blank cells.
- **Classifier.** `HC_Get_Cell_By_Dirs` names the tile of a cell from the
  side the path enters by and the side it leaves by.
- **Grammar.** The two L-system productions are `A → -BF+AFA+FB-` and
  `B → +AF-BFB-FA+`, and the symbols are the characters they are written in.
- **Interpreter.** The interpreter keeps a stack of one frame per order. Each
  frame is a production string and an index into it.
  - `HC_Algo_Create` sets it up.
  - `HC_Algo_Advance` reads symbols until it has drawn one cell or the curve
    is finished.
  - `HC_Algo_Complete` advances until the curve is finished.

The model is written in these modules:

- `Directions`: the direction enum, turns, and unit moves.
- `Cells`: the cell enum and the classifier.
- `Grammar`: the productions and symbols. It also gives the productions a
  depth-bounded denotation: the actions a production stands for when read by
  a frame at a given level.
- `Grid`: the grid, its row-major indexing, and the factory.
- `Turtle`: what one action does to the grid and cursor, and what a run of
  actions does.
- `Curve`: the geometry of the track a run of actions walks. It includes the
  Hilbert property: the expansion of a non-terminal to depth n fills a
  `2^n`-square, visiting each cell once.
- `Drawing`: under the conditions the Hilbert property provides, drawing a
  track logs no warning and stores a real tile in every cell of the track.
- `Machine`: the interpreter itself.
  - It has the engine state, one symbol read (`ReadSymbol`, one pass of the
    do-while loop), `Advance` and `Complete`.
  - It carries a simulation invariant. What a state goes on to produce
    (`Outcome`) is its remaining actions run on its grid and cursor. Each
    read keeps `Outcome` unchanged once the read's own drawing is put in
    front of it.
- `Correctness`: the headline `CurveFillsGrid`. For every order the factory
  accepts, a fresh engine run to completion has these properties:
  - it logs no warning;
  - it draws one path cell per grid cell, each cell once;
  - consecutive cells are neighbours whose tiles open towards each other;
  - the path starts in the bottom-left cell, open downward, and ends in the
    bottom-right cell, open to the right;
  - no grid cell is left blank.

## Modelling choices

- **Outputs instead of side effects.** The renderer's blit and the warning
  log become returned values: a `seq<Segment>` of the cells handed to the
  renderer, and a `seq<Warning>`. Debug logging is dropped.
- **Directions.** `Dir` is a four-valued datatype. `Ord` gives the C enum
  values (Right 0, Down 1, Left 2, Up 3). The turns are checked against the
  C formulas `(d - 1 + 4) % 4` and `(d + 1) % 4`.
- **Production strings.** A production is a `string` without its
  terminator. Reading index `|p|` yields the NULL symbol, as the C string's
  terminator does. A character that is no grammar symbol is consumed and
  ignored, as in the source's switch, which has no default.
- **Frame stack.** The stack is a sequence of `order` frames plus the top
  index (`state_index`). A popped frame is zeroed (`Cleared`). The bottom
  frame's production becomes "none" when the curve is finished.
- **Positions off the grid.** The cell of a position is found by its
  row-major index, `y * sidelen + x`, with no check on `x` or `y`. When that
  index lies outside the cell array, the C code writes or reads outside the
  array, which is undefined behaviour; the model stores nothing there and
  logs an `OutOfRange` warning. An off-grid position whose index lies inside
  the array, such as `(sidelen, 0)`, aliases another cell (here `(0, 1)`):
  the C code and the model both write that cell, with no warning.
  `CurveFillsGrid` shows the cursor never leaves the grid, so neither case
  arises for the curve the engine draws.
- **The last cell.** The grammar has no `F` after the last cell, so the code
  classifies that cell in place on the final terminator
  (`src/main.c:538-539`) and does not hand it to the renderer. Some
  descriptions of the program say every cell, the last one included, is
  emitted for drawing. The model follows the code: `Finish` stores the last
  cell and emits no segment. The `Correctness.Path` of a finished run adds
  the last cell after the emitted segments.

## Model

| member | source | states |
|---|---|---|
| Cells.Classify | src/main.c:111-180 | An equal entry/exit pair is no path through a cell: the classifier yields the blank cell exactly then. Every other pair yields the tile whose two open sides are exactly the entry and the exit. |
| Cells.ClassifySymmetric | src/main.c:120-172 | Swapping entry and exit gives the same tile. |
| Cells.ClassifyInjective | src/main.c:120-172 | Two proper pairs get the same tile exactly when they are the same unordered pair, so the six unordered pairs give six distinct tiles. |
| Cells.ClassifyStraight | src/main.c:120-172 | A straight pass is `VERT` on the vertical axis and `HORZ` on the horizontal one, from either end. |
| Directions.RotateLeft | src/main.c:552-555 | The left turn has the enum value `(d - 1 + 4) % 4` and rotates the unit vector a quarter turn counter-clockwise on screen. |
| Directions.RotateRight | src/main.c:557-560 | The right turn has the enum value `(d + 1) % 4` and rotates the unit vector a quarter turn clockwise on screen. |
| Directions.TurnArithmetic | src/main.c:552-560 | A left and a right turn undo each other, and four turns the same way are the identity. |
| Directions.Move | src/main.c:584-606 | One step moves the cursor by the unit vector of the facing direction; y grows downward. |
| Directions.Opposite | src/main.c:615-627 | The cached entry side after a move is the reverse of the move's unit vector. |
| Directions.OppositeFacts | src/main.c:615-627 | The cached entry side is an involution with no fixed point, and it equals two turns either way. |
| Grammar.Decode | src/main.c:35-42 | The cast of a production character to a symbol is undone by the symbol's character. It is never NULL. It is a symbol without effect exactly when the character is none of `A B F - +`. |
| Grammar.SymbolAt | src/main.c:488-492 | The symbol read at an index is NULL exactly at the terminator; before it, it is the character at that index. |
| Grammar.ProdStr | src/main.c:182-195 | The production lookup gives a string exactly for the two non-terminals, namely that non-terminal's production, and NULL for every other symbol. |
| Grammar.ProductionsMirror | src/main.c:32-33 | B's production is A's with the non-terminals swapped and the turns swapped, and the other way round. |
| Grammar.ProductionShape | src/main.c:32-33 | Both productions share one eleven-symbol layout: outer turn, other non-terminal, `F`, inner turn, itself, `F`, itself, inner turn, `F`, other non-terminal, outer turn. The two turns differ. |
| Grammar.ExpandProduction | src/main.c:32-33 | One level of rewriting: a production stands for its turns and three `F`s around the curves of its four non-terminals, in the production's order. |
| Grammar.FirstOrder | src/main.c:500-520 | At the depth limit a non-terminal is skipped, so the order-1 curve is the production's turns and its three `F`s alone. |
| Grid.CreateGraph | src/main.c:382-414 | The factory refuses an order outside 1 to 15. Otherwise it builds a grid of side `1 << order` with at most 2^30 cells (within a signed 32-bit int), all blank. |
| Grid.IndexInRange | src/main.c:564-569 | The row-major index `y * sidelen + x` of a cell on the grid lies inside the cell array. |
| Grid.IndexInjective | src/main.c:564-569 | Two cells on the grid share a row-major index only if they are the same cell. |
| Grid.IndexOnto | src/main.c:398-400 | Every slot `j` of the cell array is the row-major index of the cell `(j % side, j / side)`, which lies on the grid. |
| Turtle.ClassifyWarnings | src/main.c:178 | The classifier logs a warning exactly when entry and exit are equal. |
| Turtle.StoreElsewhere | src/main.c:569 | A store into a cell on the grid lands there, logs nothing, and leaves every other cell as it was. |
| Turtle.DrawForward | src/main.c:562-631 | `F` does the following: it stores and hands to the renderer the cursor's cell classified from entry and exit; it moves one unit along the facing direction; it keeps the facing and caches the reverse side as the new entry; it leaves every other cell alone. For a cell on the grid moving onto the grid, it logs nothing exactly when entry and exit differ and the cell entered is blank. |
| Turtle.Act | src/main.c:552-631 | A turn changes only the facing direction, as the left and right formulas say, and draws and logs nothing. |
| Turtle.Finish | src/main.c:538-539 | The final terminator stores the cursor's cell, classified in place, without moving the cursor or handing anything to the renderer. For a cell on the grid it logs only the classifier's warning and leaves every other cell alone. |
| Curve.Hilbert | src/main.c:32-33 | The expansion of a non-terminal to depth n, started at p facing u, fills the square of side 2^n spanned by u and the production's side direction. It visits each cell once and no other cell, and it ends at the far corner along u, facing u. |
| Drawing.RunClean | src/main.c:562-631 | Drawing a track that starts cleanly logs no warning, as required when the cursor never re-enters a non-blank cell. The track has distinct cells on the grid, blank but the first. The cursor ends at the track's end. Each cell is handed to the renderer once, in order, with a real tile that is also stored, and every other cell is left alone. |
| Machine.CreateEngine | src/main.c:425-461 | A fresh engine holds a valid, unfinished state on the given grid. The cursor is in the bottom-left cell, facing right (the zeroed enum), entered from below. The bottom frame reads A's production from its start. |
| Machine.ReadPush | src/main.c:500-515 | Below the depth limit, a non-terminal is consumed and a frame is pushed one level up, reading that non-terminal's production from its start; nothing else in the state changes. The state stays valid, one read comes off what is pending, and what the state goes on to produce is unchanged. |
| Machine.ReadSkip | src/main.c:516-519 | At the depth limit a non-terminal is consumed and skipped: the state changes only by the top frame's index moving on, with nothing drawn, logged or changed in what the state produces. |
| Machine.ReadPop | src/main.c:525-531 | The terminator of a frame above the bottom pops it: that frame is cleared and the depth drops by one, nothing else changing. The state stays valid and unfinished, one read comes off what is pending, nothing is drawn or logged, and what the state goes on to produce is unchanged. |
| Machine.ReadFinish | src/main.c:532-544 | The terminator of the bottom frame classifies the last cell in place, marks the curve finished and ends the call. The grid and warnings are those of classifying and storing the cursor's cell; the cursor is unchanged and nothing is handed to the renderer. |
| Machine.ReadAction | src/main.c:552-631 | A turn or `F` is consumed and carried out on the grid and cursor: the new grid, cursor, drawn cell and warnings are exactly those of the action, and the frames change only by the index moving on. Only `F` ends the call, and it hands exactly one cell to the renderer. |
| Machine.ReadOther | src/main.c:491-494 | A character that is no grammar symbol is consumed with no other effect: only the top frame's index moves on. |
| Machine.ReadSymbolSound | src/main.c:486-634 | Every pass of the loop keeps the state valid and takes one read off what is pending. What it draws and logs, followed by what the new state produces, is what the old state produces. It ends the call exactly on `F` or on the bottom frame's terminator, and it finishes the curve exactly on the latter. A pass that does not end the call leaves the grid and the cursor's cell and entry side as they were; one that ends it on `F` is one forward step; one that finishes classifies the cursor's cell in place. |
| Machine.Advance | src/main.c:463-637 | `Advance` returns a valid state and reports "finished" exactly when that state is finished. What it draws and logs, followed by what the new state produces, is what the old state produces. On an unfinished state it strictly shrinks the pending reads, so it terminates. Each such call turns the cursor in place to some direction `d`, then either classifies the cell it stands on from its entry side and `d`, stores it, hands it to the renderer and steps one cell along `d`, entered from the opposite side, or, when it finishes, stores that classification without moving. Its warnings are those of that one step or of that final store. |
| Machine.AdvanceDrawsOne | src/main.c:477-636 | A finished state is returned as it is. A call that does not finish hands exactly one cell to the renderer, and the call that finishes hands none. |
| Machine.Complete | src/main.c:639-648 | `Complete` stops on a finished state. Everything it drew and logged, together with the final grid and cursor, is what the fresh state goes on to produce. |
| Correctness.StartRemaining | src/main.c:441-446 | A fresh engine still has to carry out exactly the order-n expansion of A. |
| Correctness.CoveringEnds | src/main.c:436-439 | Drawing, on a blank grid from the start cursor, any actions whose track covers the grid, then finishing: the result logs no warning and has one cell per grid cell. It starts in the bottom-left cell open downward and ends in the bottom-right cell open to the right. |
| Correctness.CoveringLaid | src/main.c:608-613 | Drawing, on a blank grid from the start cursor, any actions whose track covers the grid, then finishing, lays a path whose cells are distinct cells of the grid, each holding the real tile drawn for it. Consecutive cells open towards each other, and no grid cell stays blank. |
| Correctness.CurveFillsGrid | src/main.c:425-648 | For every order from 1 to 15, a fresh engine run to completion draws the order-n Hilbert curve: no warning, every grid cell once with a real tile, joined end to end, from the bottom-left to the bottom-right corner. |

## Left out

- The SDL program around the engine (`init`, `cleanup`, `main`, the event loop, window and texture handling) is I/O and is not modelled.
- The blit is modelled only as the segment handed to the renderer. The sprite rectangle arithmetic and `pScale` are presentation.
- `SDL_LogDebug` output is not modelled. `SDL_LogWarn` and `SDL_LogError` calls on the engine's paths become returned warnings or a `Failure`.
- Allocation failures in `HC_Graph_Create` and `HC_Algo_Create` are left out: allocation always succeeds, since the outcome depends on the C heap, not on the engine's logic.
- `HC_Graph_Destroy` and `HC_Algo_Destroy` only free memory and are not modelled.
- The NULL `algo` checks in `HC_Algo_Advance` and `HC_Algo_Complete` are left out: the model has no null engine.
- The `default:` branches of the direction switches are unreachable, because `Dir` has exactly four values. The classifier's fall-through for equal directions is modelled.
- `HC_Algo_Create` is modelled for grids the factory builds (`GraphValid`). The C function accepts any graph pointer.
- Cursor coordinates are unbounded integers. Fixed-width overflow of `x`, `y` and `idx` is not modelled. For the curve the engine draws, the cursor never leaves the grid, whose indices fit in a signed 32-bit int.
- The `pOrder` parameter (6 in the program) is not fixed: `CurveFillsGrid` covers every order from 1 to 15.
- The pointer identity of the production strings is modelled by their value. A frame holds the string itself.
