# Connect Four engine: a verified model

This project models the core of a Connect Four engine for the standard
7 × 6 board. The engine has two ways to choose a move: a game-tree search
and a chain of hand-written rules. The model covers:

- **The bitboard** (`board.py`, modules `Boards`, `BoardState`, `Bits`,
  `Lines`, `Mirrors`, `Probes`). `posOX` holds the stones of one side.
  `posAll` holds one word per column. `put`, `undo`, `posReverse`, `win`,
  `winWithoutVerticle`, `symmetry`, `getRow`, `exists` and `topStone` work
  on these words, as in the source.
  Two ghost fields give every stone a colour: `colors`, one per logged
  move, and `top`, the colour `posOX` holds. `Board.Valid` states that the
  words are exactly those the logged moves produce. So every bit-level
  operation is proved against a plain description: columns as towers of
  colours (`Grid`), and four in a line as `Connected`.
- **The evaluator** (`heuristic.py`, modules `Heuristics`, `Windows`,
  `Patterns`). `patternSetting` fills the pattern tables. `evaluate`
  slides a mask over every window of four cells. The sum it computes is
  proved equal to `Score`: over the grid, every window holding only one
  side's stones scores that side's table entry for the number of stones.
- **The game tree** (`gameTree.py`, module `GameTrees`). `miniMax` is
  alpha-beta search with two memo tables: `data` for won, lost and drawn
  positions, and `heuData` for depth-limited estimates by depth limit.
  `search` runs `miniMax` for each root column, keeps the best score,
  breaks ties by column height and stops early on a proven win. The
  search is specified by a ghost record of the calls it makes (`Trace`,
  `Branch`). `Result` states each of `miniMax`'s six cases: recorded,
  won, drawn, estimated, depth cut, searched. In the searched case, every
  child score is the `Result` of that child's own search, with the
  alpha-beta window in force at that step. `Result` also states the
  `neverSymmetry` flag each call leaves: each child starts with the flag
  the child before it left (`Branch.never`), as it starts with the tables
  that child left.
- **The rule-based player** (`rule.py`, module `Rules`). `solver` and the
  rules that probe the shared board are methods. They use `put`, `win`,
  `posReverse` and `undo`, and give the board back unchanged. Rules 9 and
  10 read only the log and the list, so they are functions (`Rule9`,
  `Rule10`). Each rule is proved equal to a ghost function of the log and
  the colours: `FirstWin`, `FirstDouble`, `Drop`, `Central(ThreeCols …)`,
  `Central(PairCols …)`, `FirstIn`. The chain as a whole is `Verdict`,
  with rule 5 as written. Lemmas about `Verdict` say four things:
  - the player never plays a full column;
  - it takes an immediate win when it has one;
  - otherwise it blocks an immediate win of the opponent;
  - rule 5 as written never names a column inside `solver` (see Findings).

Python's inheritance (`GameTree` < `Heuristic` < `Board`, `Rule` <
`Board`) becomes composition: `Heuristic`, `GameTree` and `Rule` hold the
`Board` they share as a `const board` field.

## Model

| member | source | states |
|---|---|---|
| Boards.Board.constructor | board.py:21-44 | the empty board: both words zero, no moves, an empty log, `neverSymmetry` false, valid and alternating |
| Boards.Board.PosCurrent | board.py:69-70 | the key is `KeyWord` of the log and colours: the stones of `posOX`, all stones and the sentinels |
| BoardState.StonesKeyInjective | board.py:69-70 | two games have the same `posCurrent` exactly when their column heights and their `posOX` stones agree |
| Boards.CurrentDistinguishes | board.py:69-70 | two valid boards have equal keys exactly when `posOX` and `posAll` are equal |
| BoardState.KeyInjective | board.py:69-70 | equal keys imply equal column heights and equal stones of the side `posOX` holds |
| Boards.Board.PosReverse | board.py:74-75 | `posOX` becomes the other side's stones (`Flip`), `top` is negated, the board stays valid and nothing else changes |
| BoardState.FlipFlip | board.py:74-75 | reversing twice against the same columns gives back `posOX` |
| Boards.Board.Possible | board.py:107-108 | true exactly when the column holds fewer than six stones |
| Boards.Board.Put | board.py:112-120 | the log gains col and `moves` grows by one; the column word gains a stone; `posOX` holds the side just played; `neverSymmetry` is unchanged and stays sound; the board stays valid and alternating |
| BoardState.LegalAppend | board.py:107-120 | a move into a column with room leaves every column at most six high |
| BoardState.StackedPut | board.py:116 | after `put`, the column words are those of the longer log |
| Boards.Board.Puts | board.py:124-126 | the log gains cols in order; their colours alternate from the side to move; `top` flips with an odd count |
| Boards.Board.Undo | board.py:130-138 | the last move leaves the log, the colours and its column word; `posOX` takes the other side; `neverSymmetry` is left as it is; the board stays valid |
| Boards.Board.UndoRestoring | board.py:130-138 | `undo` with `neverSymmetry` put back to the value saved before the put it takes back: the flag stays sound (see Findings) |
| BoardState.StackedUndo | board.py:136 | after `undo`, the column words are those of the log without its last move |
| BoardState.PutUndoAll | board.py:112-138 | `undo` right after `put` gives back `posAll` |
| BoardState.TotalIsLength | board.py:112-120 | the column heights add up to the length of the log, the number of moves |
| BoardState.EmptyBoard | board.py:28-30 | the zero words are the words of the empty log |
| Boards.Board.GetRow | board.py:190-193 | the row of the column's top stone: its stone count minus one, -1 for an empty column |
| BoardState.TopRow | board.py:191-193 | the loop over rows stops at k - 1 for a column word holding k stones |
| Boards.Board.Exists | board.py:198-210 | 0 exactly for a stone of the side called 'O', 1 exactly for the other side, -1 exactly for an empty cell |
| Rules.ExistsCell | board.py:198-210 | `exists` reads the cell of the board's grid |
| Boards.Board.TopStone | board.py:215-216 | 0 or 1 for the colour of the column's top stone, in the encoding of `exists` |
| Boards.Board.Symmetry | board.py:79-102 | false once `neverSymmetry` is set, else true exactly when columns c and 6 - c hold the same towers; `neverSymmetry` is set exactly when it was or the first differing pair clashes; when the flag was sound, the answer is exactly whether the board is symmetric and the flag stays sound |
| Mirrors.Split | board.py:86-95 | `colO[c]` and `colX[c]` are the fields of column c in the two words |
| Mirrors.Compare | board.py:97-102 | `same` exactly when all three outer pairs match; `never` exactly when a pair fails to match and clashes |
| Mirrors.SameVerdict | board.py:97-102 | on field words read off a position, all three pairs match exactly when the position is symmetric |
| Mirrors.NeverVerdict | board.py:97-102 | on field words read off a position, a clash is reported exactly when the first differing pair has one |
| Mirrors.SymmetricPairs | board.py:97-98 | the three outer column pairs decide symmetry |
| Mirrors.ClashForever | board.py:95-101 | once a row holds one colour at c and the other at 6 - c, no position that extends the log by more moves is symmetric |
| Mirrors.FirstClashForever | board.py:99-100 | a first clash is sound for the extensions of the clashing position: no position that extends its log is symmetric |
| Mirrors.DoomedNotSymmetric | board.py:99-100 | a position with a first clash on its way (`Doomed`, the meaning of a sound flag) is not symmetric |
| Mirrors.DoomedGrows | board.py:112-120 | a `put` keeps a position doomed |
| Mirrors.ClashDooms | board.py:99-100 | a position whose first differing pair clashes is doomed |
| Mirrors.StaleClash | board.py:95-101 | after a stone in column 3, the trial position of replies in columns 2 and 4 has a first clash, while the symmetric position of two stones in column 3 is not doomed |
| Boards.StaleMoves | gameTree.py:138-151 | on the board of a first stone in the centre, trial stones in columns 2 and 4 clash and a second stone in the centre makes the board symmetric, so `StaleSymmetry` applies |
| Boards.StaleSymmetry | board.py:79-138 | as written: after trial puts whose position clashes, `symmetry` there, two `undo`s and a put that makes the board symmetric, `symmetry` answers false on that symmetric board |
| Boards.Trials | board.py:79-120 | the two trial puts and `symmetry` at the clashing trial position set `neverSymmetry` |
| Boards.RestoredSymmetry | board.py:79-138 | corrected: the same moves taken back by `UndoRestoring` leave a sound flag, and `symmetry` answers true on the symmetric board |
| Boards.Board.Win | board.py:142-167 | true exactly when at least six moves were made and the side `posOX` holds has four in a line |
| Boards.Board.WinWithoutVertical | board.py:172-185 | true exactly when at least six moves were made and that side has four in a horizontal or diagonal line |
| Boards.Board.Lined | board.py:160-164 | the loop over directions is true exactly when one shift-and test is non-zero |
| Boards.Board.Winning | board.py:160-164 | the shift-and tests on `posOX` are true exactly when its colour has four in a line (and, without vertical, in a flat line) |
| BoardState.ConnectsConnected | board.py:160-164 | the four shift-and tests find exactly the lines of four of the colour the word mirrors |
| BoardState.StonesConnect | board.py:160-164 | on the stones of a game, the shift-and tests find exactly that colour's lines of four |
| BoardState.FlatThenAll | board.py:172-185 | every line `winWithoutVerticle` finds, `win` finds too |
| Lines.HorizontalExact | board.py:161-162 | the stride-7 test is non-zero exactly when four stones lie in a row |
| Lines.VerticalExact | board.py:161-162 | the stride-1 test is non-zero exactly when four stones lie in a column |
| Lines.RisingExact | board.py:161-162 | the stride-8 test is non-zero exactly when four stones lie on a rising diagonal |
| Lines.FallingExact | board.py:161-162 | the stride-6 test is non-zero exactly when four stones lie on a falling diagonal |
| Probes.Play | board.py:112-120 | `put` on the colours: the log gains col, the colours gain the side to move, and `top` is that side |
| Probes.Take | board.py:130-138 | `undo` on the colours: the last move and its colour are removed, and `top` flips |
| Probes.Turn | board.py:74-75 | `posReverse` on the colours: the log and colours are unchanged, and `top` flips |
| Probes.Won | board.py:142-167 | `win` is true exactly when the side `posOX` holds has four in a line after at least six moves |
| Probes.WonFlat | board.py:172-185 | `winWithoutVerticle` is true exactly for a horizontal or diagonal four after at least six moves |
| Probes.RoomLeft | board.py:107-108 | a column with room means fewer than 42 moves were made |
| Probes.AtMostCells | board.py:107-120 | a game of legal moves has at most 42 moves |
| Probes.NotFull | board.py:107-108 | a board with fewer than 42 moves has a column with room |
| Heuristics.ScoresRise | heuristic.py:38-39 | both tables rise strictly with the number of stones; moving first, they are equal; moving second, two and three own stones score more than the opponent's |
| Heuristics.Heuristic.constructor | heuristic.py:27-44 | an empty board, the score tables of the engine's side, and pattern tables as `patternSetting` fills them |
| Heuristics.Heuristic.PatternSetting | heuristic.py:52-57 | every combination of r = 1..3 bits of a pattern is entered with `scoreO[r]` and `scoreX[r]`; other keys are unchanged |
| Heuristics.Heuristic.Credited | heuristic.py:69 | the side counted as 'O' is the side of `exists`, except when `posOX` is empty: then the `and`/`or` idiom falls through to the other side |
| Heuristics.Heuristic.Evaluate | heuristic.py:67-90 | the result is `Score`, the sum over all 69 windows of four of the value each window gives the credited side |
| Heuristics.KindScore | heuristic.py:73-89 | one pattern kind: the sum over its window columns of each column's windows |
| Heuristics.ColumnScore | heuristic.py:76-87 | the windows of one kind anchored in one column, bottom to top, with mask and shift moved as the source does |
| Heuristics.WindowScore | heuristic.py:82-85 | a window with only the credited side's stones gains its entry, one with only the other side's loses theirs, else nothing |
| Heuristics.ScoreOpposite | heuristic.py:82-85 | the value is zero-sum: the other side, scoring with the swapped tables, values the board at the opposite |
| Heuristics.ScoreBare | heuristic.py:67-90 | the empty board is worth 0 |
| GameTrees.GameTree.constructor | gameTree.py:28-54 | empty `data` and `heuData`, ply 12 moving first and 11 moving second, no proven win, both flags down |
| GameTrees.GameTree.GetColOrder | gameTree.py:74-91 | [2, 1, 0] before the first move; else [3, 2, 1, 0] exactly when `symmetry` reports the board symmetric; else the centre order; `neverSymmetry` afterwards is exactly `OrderFlag`: unchanged before the first move, and otherwise set when it was set or the board's first differing pair clashes |
| GameTrees.CentreOrderSpreads | gameTree.py:91 | the centre order lists each column once, never farther from the centre than a later one |
| GameTrees.HalfOrderCovers | gameTree.py:81 | the symmetric order holds each column or its mirror image |
| GameTrees.FirstOrderCovers | gameTree.py:77 | the first-move order holds each column but the centre, or its mirror image, and never the centre |
| GameTrees.MirrorHeight | gameTree.py:79-81 | on a symmetric board a column and its mirror have the same height, so half the columns suffice |
| GameTrees.MaxTurnMeans | gameTree.py:95-96 | `maxTurn` is true exactly when the last stone is the opponent's, so the engine is to move |
| GameTrees.GameTree.Filter | gameTree.py:138-141 | `remove` of every full column from a copy leaves exactly the columns with room, in order |
| GameTrees.PossiblesKeep | gameTree.py:139-141 | the filtered order keeps exactly the columns with room |
| GameTrees.PossiblesOrder | gameTree.py:139-141 | the filtered order has no repeats and keeps the relative order of the columns |
| GameTrees.SomeOpen | gameTree.py:138-141 | before the board is full, every order `getColOrder` gives keeps a column with room |
| GameTrees.GameTree.Columns | gameTree.py:138-141 | the searched columns are the order for the board with full columns removed; the list is never empty, and every entry has room; `neverSymmetry` is `OrderFlag` of the position |
| GameTrees.WinScoreClass | gameTree.py:111-112 | a won score exceeds 1000 in magnitude, and is positive exactly when the side to move lost |
| GameTrees.WinSooner | gameTree.py:111 | a sooner win scores higher and a sooner loss lower |
| GameTrees.WinSign | gameTree.py:111-112 | a won score is positive exactly when the last stone played is the engine's |
| GameTrees.GameTree.MiniMax | gameTree.py:101-178 | the score, the tables and `neverSymmetry` are `Result` for the position: its `data` entry; the win score; 1000 for a draw; its `heuData` entry; the evaluation at the depth limit (in these five the flag is unchanged); or the alpha-beta search of its children, which leaves the flag the last child's search left, starting from `getColOrder`'s; the board is given back |
| GameTrees.GameTree.Fresh | gameTree.py:109-178 | a position not in `data` gives the `Result` of its remaining cases |
| GameTrees.GameTree.Finish | gameTree.py:110-114 | a won position scores `WinScore` and enters it in `data` |
| GameTrees.GameTree.Draw | gameTree.py:118-120 | a full board without a win scores 1000 and enters it in `data` |
| GameTrees.GameTree.Going | gameTree.py:123-178 | a position where the game goes on gives its `heuData` entry, the depth cut, or its search |
| GameTrees.GameTree.Estimate | gameTree.py:127-132 | the depth cut returns the heuristic `Score` of the board and enters it in the bucket of the depth limit |
| GameTrees.GameTree.Expand | gameTree.py:138-178 | the search of the children is `Explored`: ordered columns, the one best child for the side to move, the cut rule, the tables written as `Leaves` says and the flag the last child left |
| GameTrees.GameTree.Branches | gameTree.py:143-178 | the loop over the columns and the final store make `Explored` for the given column order |
| GameTrees.GameTree.Scan | gameTree.py:147-167 | the loop's score and cut obey `Pruning`; without a cut every column is searched; each child is `Walked` with the window narrowed by the scores before it, entered with the tables and the flag the child before left; the flag afterwards is the last child's |
| GameTrees.GameTree.Round | gameTree.py:149-167 | one column: its child score updates the best, alpha and beta as the source does, or cuts |
| GameTrees.GameTree.Step | gameTree.py:149-151 | one column is searched with the current window, and the walk grows by its record; the tables and the flag become those the child left |
| GameTrees.GameTree.Child | gameTree.py:149-151 | `put`, `miniMax` and `undo`: the child score is the `Result` of the child position's own search, entered with the current flag; the record holds the flag it left, the one on the board afterwards; the board is given back |
| GameTrees.GameTree.Descend | gameTree.py:150 | the child's `miniMax` from the position the `put` left is a visit of that column |
| GameTrees.UncutInside | gameTree.py:155-167 | without a cut, every child score stays strictly inside the bound it was compared with |
| GameTrees.VisitFrom | gameTree.py:149-151 | a search from the position a column leads to is a visit of that column |
| GameTrees.WalkPush | gameTree.py:147-151 | one more child, searched as `Visited` says, extends the walk, and the tables and the flag become those it left |
| GameTrees.ExploredOf | gameTree.py:138-178 | ordered columns, `Pruning`, a complete walk unless cut, and the store make `Explored` |
| GameTrees.GameTree.Save | gameTree.py:170-176 | a score of magnitude at least 1000 goes into `data`; any other goes into `heuData` for the depth limit; nothing else changes |
| GameTrees.GrowsStore | gameTree.py:113 | writing a key that `data` lacked keeps every earlier entry |
| GameTrees.DeepensStore | gameTree.py:129-131 | writing a key that a `heuData` bucket lacked keeps every bucket's earlier entries |
| GameTrees.GameTree.Search | gameTree.py:184-337 | the depth is raised past filled buckets; the columns are the root order; the column returned is `Picked`: the first proven win, or else the best score with the height tie-break; each child is the `Result` of its own search with the window (-10000, 10000); the loop starts with the flag `RootFlag` of the root `symmetry` call and ends with the flag the last column's search left |
| GameTrees.GameTree.Climb | gameTree.py:187-190 | `ply` grows while the bucket of `ply + moves` exists, unless the depth was lowered before |
| GameTrees.GameTree.RootColumns | gameTree.py:193-218 | [2, 1, 0] before the first move; else, from [3, 2, 1, 0] when symmetric or else the centre order, the columns with room; `neverSymmetry` is `RootFlag`: set when it was or the board's first differing pair clashes |
| GameTrees.GameTree.Choose | gameTree.py:193-337 | the root order, the scores, the pick, the final adjustment and the flag together, as `Search` states them |
| GameTrees.GameTree.Rank | gameTree.py:227-337 | the scoring loop and the settling after the column order, as `Search` states them |
| GameTrees.GameTree.Scores | gameTree.py:227-315 | the root loop: each column's child score is its own search with the window (-10000, 10000) and depth limit `ply + moves`, entered with the flag the column before left; the column kept is `Scoring` |
| GameTrees.GameTree.Weigh | gameTree.py:312-315 | a column without a proven win is kept when it is the first, scores higher, or ties with a higher top row, and the running best stays `Tally` |
| GameTrees.GameTree.Visit | gameTree.py:229-232 | `put`, `miniMax` and `undo` for a root column extend `Rooted` by that column's record, and the flag becomes the one its search left |
| GameTrees.RootPush | gameTree.py:227-232 | one more root column, searched as `Visited` says, extends the root loop |
| GameTrees.GameTree.Claim | gameTree.py:254-258 | a child score above 1000 that beats `maxScore` is recorded, caps `ply` at the depth of that win, and ends the loop with its column |
| GameTrees.PlyToWin | gameTree.py:256 | the depth cap of a proven win is the number of moves until that win |
| GameTrees.GameTree.Done | gameTree.py:312-315 | with all columns scored and no proven win, the column kept is the choice |
| GameTrees.GameTree.Higher | gameTree.py:314 | the tie-break `getRow(col) > getRow(bestCol)` is true exactly when col holds more stones |
| GameTrees.BestUnique | gameTree.py:312-315 | the column the loop keeps is determined by the scores: highest score, then most stones, then first |
| GameTrees.BestPush | gameTree.py:312-315 | one more column scored keeps `Best` for the longer prefix |
| GameTrees.TallyPush | gameTree.py:312-315 | one more column without a proven win updates the running best as `Best` says |
| GameTrees.TallyWin | gameTree.py:254-258 | a proven win ends the loop with its column |
| GameTrees.GameTree.Settle | gameTree.py:321-334 | `ply` drops by one after a first-move search above 11; the buckets below `moves + ply` are emptied; both flags go down |
| GameTrees.GameTree.Purge | gameTree.py:328-330 | the buckets of depth limits below the limit are emptied; every other bucket, and the keys, stay |
| Rules.Rule.constructor | rule.py:12-14 | an empty board, with every column allowed |
| Rules.Rule.Rule1 | rule.py:16-27 | the first listed column with room where the engine wins at once, -1 when none; the board is given back |
| Rules.FirstWinMeans | rule.py:18-27 | `FirstWin` is -1 exactly when no listed column wins; otherwise it is a winning column with room |
| Rules.FirstWinNone | rule.py:18-27 | `FirstWin` is -1 exactly when no listed column with room wins |
| Rules.FirstWinAt | rule.py:18-27 | a `FirstWin` other than -1 is at an index i of the list, and no column before i wins |
| Rules.WinsAt | rule.py:20-26 | `put`, `win` and `undo` are true exactly when the side to move wins with that column; the board is given back |
| Rules.Rule.Rule2 | rule.py:29-41 | the first listed column where the opponent would win at once, -1 when none; the board is given back |
| Rules.Rule.Rule3 | rule.py:43-57 | the list loses exactly the columns where the engine's stone would let the opponent win on top of it, and keeps its order |
| Rules.UndercutAt | rule.py:51-57 | the probe is true exactly when, after the engine's stone, the opponent's stone on top of it wins |
| Rules.DropKeeps | rule.py:49-55 | the list after `Drop` keeps exactly the entries not removed |
| Rules.DropStep | rule.py:50-55 | one step of the loop over the copy is one more entry decided |
| Rules.RemoveFirst | rule.py:55 | `list.remove(x)` takes out the first occurrence of x |
| Rules.Rule.Rule4 | rule.py:59-87 | the first listed column after which the engine would have two winning columns, -1 when none; the board is given back |
| Rules.ForkAt | rule.py:72-84 | `put`, `posReverse`, the count of winning columns for the side that moved, then everything undone |
| Rules.CountWins | rule.py:77-82 | the inner loop counts the columns with room where the side to move wins |
| Rules.OpenWin | rule.py:78-82 | one column of that loop: true exactly when the column has room and a stone there of the side to move wins; the board comes back to the same position |
| Rules.WinCountTwo | rule.py:85 | a count of at least two means two different winning columns with room |
| Rules.WinCountTally | rule.py:77-82 | the count is the number of winning columns |
| Rules.FirstDoubleFork | rule.py:70-87 | `FirstDouble` is -1 exactly when no listed column with room gives two winning columns; otherwise it is the first such column |
| Rules.FirstDoubleIn | rule.py:70-87 | `FirstDouble` is -1 or a listed column with room |
| Rules.Rule.Rule5 | rule.py:89-107 | as written: the first listed column after which the engine, not the opponent, would have two winning columns, -1 when none; the board is given back |
| Rules.ReplyAt | rule.py:94-102 | `put` and then, without `posReverse`, the count of the winning columns of the side that did not move |
| Rules.Rule5Misses | rule.py:89-107 | a position where the opponent's stone in column 3 gives it two winning columns; as written rule 5 gives -1, as intended it gives 3 |
| Rules.Rule.Rule5Blocking | rule.py:89-107 | as intended: the first listed column after which the opponent would have two winning columns, -1 when none; the board is given back |
| Rules.DoublesBlocks | rule.py:89-107 | with rule 5 corrected (`DoublesBlocking`): when the engine has no fork, a column that would give the opponent a fork makes rules 4 to 11 answer with a column where the opponent would have two winning columns |
| Rules.Rule5Idle | rule.py:89-107 | when the engine has no immediate win, rule 5 as written gives -1 on every list: after the opponent's stone in col, only col itself can win for the engine |
| Rules.ReplyCount | rule.py:94-102 | with no immediate win for the engine, the inner count after the opponent's stone in col is at most 1 |
| Rules.ReplyElsewhere | rule.py:94-102 | after the opponent's stone in col, the engine wins in another column only where it already won |
| Rules.FourMovesNoReply | rule.py:94-102 | after four alternating moves and the opponent's stone, the engine's reply makes only its third stone and cannot win |
| Rules.VerdictSkipsRule5 | rule.py:352-383 | once rule 1 has found no win, rule 5 as written gives -1: it never names a column inside `solver` |
| Rules.Rule.Rule6 | rule.py:109-123 | the list loses exactly the columns where, after the engine's stone in col, a second stone of the engine on top would make a flat four |
| Rules.OvercutAt | rule.py:115-123 | the probe is true exactly when, after the engine's stone in col, a second stone of the engine on top makes a flat four |
| Rules.Rule.Rule7 | rule.py:125-170 | the column chosen from the list of columns where the engine's stone completes an open three in its row |
| Rules.ThreeAt | rule.py:143-155 | one column adds col once per window of its row reading [-1, d, d, d, -1] with col in the middle three |
| Rules.Match | rule.py:151-154 | the inner window loop appends col as often as the pattern matches around it |
| Rules.RowCells | rule.py:146 | the seven `exists` calls read row r of the grid |
| Rules.ThreeColsPush | rule.py:139-155 | each column adds its matches to the list in order |
| Rules.ThreeColsIn | rule.py:139-155 | rule 7's list holds only listed columns with room |
| Rules.PickCentre | rule.py:156-170 | -1 for an empty list, the entry for one, and the `index`/`pop` scan for more |
| Rules.NearestFirst | rule.py:159-167 | on a strictly increasing list of columns, the scan's index is the first entry nearest the centre |
| Rules.CentralNearest | rule.py:156-170 | on a strictly increasing list, the pick is the first entry nearest the centre |
| Rules.Rule.Rule7_1 | rule.py:172-206 | as rule 7, for the opponent's stones |
| Rules.Rule.Rule8 | rule.py:208-243 | the column chosen from the list of columns where the engine's stone makes an open pair in its row |
| Rules.PairAt | rule.py:216-226 | one column: the pair test on the row of the new stone, left first and then right |
| Rules.PairColsPush | rule.py:215-226 | each column adds itself to the list exactly when its pair test holds |
| Rules.PairColsIn | rule.py:215-226 | rule 8's list holds only listed columns |
| Rules.Rule.Rule8_1 | rule.py:253-286 | as rule 8, for the opponent's stones |
| Rules.Rule9 | rule.py:288-298 | -1 unless exactly one move was made; else one column nearer the centre than that move, and column 2 after a centre move |
| Rules.Rule10 | rule.py:300-308 | the column of the last move when it has room and is listed, else -1 |
| Rules.Rule.Rule11 | rule.py:310-319 | after the first move, the first listed column of [3, 2, 4, 1, 5, 0, 6]; -1 on an empty board |
| Rules.FirstInMeans | rule.py:316-318 | `FirstIn` is -1 exactly when no entry of the order is listed; otherwise it is the first one listed |
| Rules.FirstInNearest | rule.py:316-318 | on a non-empty list, rule 11 gives a listed column nearest the centre, the left one of two |
| Rules.CentremostNearest | rule.py:316 | the first listed column of the centre order is one nearest the centre |
| Rules.Rule.Rule12 | rule.py:321-328 | column 2 or 4 on an empty board, else -1 |
| Rules.Rule.Rule13 | rule.py:330-340 | a column with room when the list is empty, else -1 |
| Rules.Rule.Solver | rule.py:342-442 | a choice `Chose` allows (the verdict of rules 1 to 11, or rules 12 and 13 after it), always a column with room; the board is given back |
| Rules.Rule.Reset | rule.py:346-349 | the list becomes the columns with room, left to right |
| Rules.Rule.Defend | rule.py:362-374 | rules 3 to 13, with rule 3's single remaining column taken at once |
| Rules.Rule.Forks | rule.py:375-383 | rules 4 to 13, with rule 5 as written |
| Rules.Rule.ForksBlocking | rule.py:89-107 | rules 4 to 13 with rule 5 corrected: the choice `DoublesBlocking` allows |
| Rules.Rule.Narrows | rule.py:385-396 | rules 6 to 13, with rule 6's single remaining column taken at once |
| Rules.Rule.Shapes | rule.py:398-416 | rules 7 to 13 |
| Rules.Rule.Openings | rule.py:418-442 | rules 9 to 13 |
| Rules.ShapeOpen | rule.py:398-431 | rules 7 to 11 name -1 or a column with room |
| Rules.DoublesOpen | rule.py:375-431 | rules 4 to 11 name -1 or a column with room |
| Rules.DefenceOpen | rule.py:362-431 | rules 3 to 11 name -1 or a column with room |
| Rules.VerdictOpen | rule.py:342-431 | rules 1 to 11 name -1 or a column with room |
| Rules.ChoseOpen | rule.py:342-442 | every choice `solver` may make is a column with room: the engine never plays a full column |
| Rules.VerdictWins | rule.py:352-355 | when the engine can win at once, `solver` plays a winning column |
| Rules.VerdictBlocks | rule.py:357-360 | when the engine cannot win at once and the opponent could, `solver` plays a column where the opponent would win |

## Left out

- The board is fixed at 7 × 6. The source takes `width` and `height` as parameters, but hard-codes width-7 column orders itself (gameTree.py:76-91, rule.py:140, 316).
- Python integers are unbounded. The words are modelled as `bv64` and the scores and counters as `int`. The board uses 49 bits, so no value here leaves these types.
- `printBoard`, `printHeuristic`, and the `print` calls in `GameTree.__init__`, `search` and `solver` are output only. They are not modelled.
- GameTrees.GameTree.Search: the timing rules are not modelled. These are the `time()` measurements and the branches that raise or lower `ply` and call `search` again mid-loop (gameTree.py:229, 234-247, 260-307). Without them `heuristicChanged` is always 0, so the `ply -= heuristicChanged` of gameTree.py:324-325 changes nothing. `timeLimit` and `initTime` are left out with them.
- GameTrees.GameTree.Search returns -1 where the source returns `None`, on a board with no column with room.
- GameTrees.GameTree.Climb keeps `alreadyIncreased` as a `bool`. gameTree.py:189 adds 1 to it, which makes it an integer with the same truth value.
- The `colOrder` field of `GameTree` is a local value in the model. The source assigns it in `miniMax` and reads it only in the next lines (gameTree.py:138-147), and its constructor value (gameTree.py:42) is never read.
- Heuristics.Heuristic.Evaluate's result is stated exactly, but no bound on it is claimed.
- Rules.Rule.Rule12 and Rules.Rule.Rule13 model `random.choice` (rule.py:326, 337) as a free choice: any column the source could pick. Rule13 picks one with room. The source retries until it draws one, and the model does not count the retries.
- The last line of `solver`, `random.choice(self.colList)`, is never reached. Rule 11 answers whenever the list is non-empty and the game has begun. Rule 12 answers on an empty board. Rule 13 answers when the list is empty. Rules.Rule.Openings proves this with `assert false` on that path.
- Rules.Rule.Solver and Rules.Rule.Rule13 require a board that is not full (`|board.log| < Cells`) when the list is empty. On a full board, the loop of rule.py:335-339 never ends. play.py:18-32 calls `solver` only for turns 0 to 41, so the board always has a free cell there.
- Boards.Board.Undo requires a non-empty log, and requires that `posOX` holds the side of the last stone (`LastOnTop`), as it does right after a `put`. On an empty log, the source's `log.pop()` raises an error. Otherwise it leaves a board whose words no game produces. Every caller in the source undoes its own `put`.
- Boards.Board.TopStone requires a column with a stone. On an empty column, the source calls `exists(col, -1)`, and the negative shift raises an error.
- Boards.Board.Exists requires a row from 0 to 6. Beyond these, the source's mask falls in another column's field. Every caller passes the row of a stone.
- Rules.Rule.Rule2, Rules.Rule.Rule3, Rules.Rule.Rule5, Rules.Rule.Rule6, Rules.Rule.Rule8 and Rules.Rule.Rule8_1 require every listed column to have room (`Allowed`). These rules `put` into listed columns without asking `possible`. They rely on `solver` building the list from the columns with room, which `Reset` guarantees.
- Rules.Rule.Rule5 is kept as written, and so is the chain of `solver` (`Forks`, `Doubles`). The corrected rule, Rules.Rule.Rule5Blocking, is used only by the corrected chain (`ForksBlocking`, `DoublesBlocking`). See Findings.
- Boards.Board.Undo keeps `neverSymmetry`, as the source does, and the search (`Result`, `Enters`) follows that flag exactly. The restoring undo, Boards.Board.UndoRestoring, is used only by Boards.RestoredSymmetry. See Findings.
- Rules.VerdictSkipsRule5 requires alternating colours when exactly four moves were made. The ghost chain does not otherwise assume alternation. With four moves, a sixth stone can complete a line only if one side has four stones among the six.
- `puts` (board.py:124-126) is modelled, though the source uses it only for tests.

## Findings

| source | as written | input that shows it | evidently intended | confidence | as-written member | corrected member |
|---|---|---|---|---|---|---|
| rule.py:89-107 | After `posReverse`, `put(col)` plays the opponent's stone, and `posOX` then holds the opponent's stones. The inner `put(col2)` therefore plays the engine's stone, so the count is of the engine's winning replies, not the opponent's. | Moves [6, 1, 6, 2], engine first, list [3]. The opponent's stone in column 3 gives it the cells (1,0) to (3,0) of the bottom row, and columns 0 and 4 then both win for it. The engine has no winning reply, so rule 5 gives -1 and the fork is not blocked. Inside `solver` rule 5 never names a column: it runs only after rule 1 found no win for the engine, and the opponent's stone in col then leaves the engine a win at most in col itself. | Count the opponent's winning columns after its stone in col, as rule 4 does for the engine: a second `posReverse` after `put(col)`. | not executed | Rules.Rule.Rule5, Rules.Rule5Misses, Rules.VerdictSkipsRule5 | Rules.Rule.Rule5Blocking, Rules.DoublesBlocks |
| board.py:99-100 | `symmetry` sets `neverSymmetry` when the first column pair that differs clashes, and nothing lowers it again: `undo` (board.py:130-138) leaves it. `miniMax` asks `symmetry` through `getColOrder` (gameTree.py:138) at positions it tries and takes back, so a clash at a trial position stays remembered at positions that do not extend it. | A first stone in column 3. The search tries column 2 and then column 4; at that position, when it is above the depth limit and in neither table, `getColOrder` asks `symmetry`, pair (2, 4) differs with a clash in row 0, and the flag is set. After both `undo`s, a second stone in column 3 gives a symmetric board, but `symmetry` answers False: `getColOrder` gives the seven columns of the centre order, not [3, 2, 1, 0]. | Keep the flag only while the clash is on the board: save it before each trial `put` and restore it at the matching `undo`. `symmetry` then answers exactly whether the board is symmetric. | not executed | Boards.StaleSymmetry, Boards.StaleMoves, Mirrors.StaleClash | Boards.Board.UndoRestoring, Boards.RestoredSymmetry, Boards.Board.Symmetry |
