# Bao rules engine in Dafny

This project models the move engine of a Bao game server. Bao is a
mancala-family game played on a board of 32 pits, 16 per player. Each side
has an outer row and an inner row, and the two inner rows face each other.
The engine is written in JavaScript as plain functions over a 32-cell
integer board. The repository holds two versions of it, and both are
modelled:

- `server/bao-engine.js` is the live engine, the one the server loads. It
  validates a move and lifts the chosen pit. It then sows one seed per pit
  along the mover's fixed 16-pit cycle. Where the last seed lands it relays,
  stops on a frozen overflow, or captures. A capture takes the facing pit
  and the outer pit behind it and sows that catch on from the landing pit.
  Every step goes into an animation log (`lift`, `sow`, `relay`,
  `capture`). At the end of the turn the engine checks whether the next
  player can still move.
- `server/bao-engine/index.js` is an earlier draft. It relays on any
  landing count above 1. Its capture only removes the facing pit's seeds.
  Its sowing path is different, its win test looks at the inner row only,
  and it keeps no log.

Modules:

- `Wrappers` (wrappers.dfy): `Option`.
- `BaoBoard` (board.dfy): the 32-pit `Board` (a sequence of 32 naturals),
  `Player`, pit ownership and rows, and the facing-pit reflection
  `OpponentPit`. Both engine files define `isPlayersPit` and
  `getOpponentPit` with the same body (`server/bao-engine/index.js:158-160`
  and `:201-209`), so each is modelled once, here.
- `BaoGame` (game.dfy): the game state and `CreateGame`. The two files'
  `createGame` bodies are the same. Only the default game type differs, and
  the two `CreateDefaultGame` methods model that difference.
- `BaoEngine` (engine.dfy) and `BaoEngineProofs` (engine_proofs.dfy): the
  live engine and what it guarantees.
- `BaoDraft` (draft.dfy) and `BaoDraftProofs` (draft_proofs.dfy): the draft
  and what it guarantees.

Each engine has two halves. One is a set of specification functions:
`ApplyMove` for a whole move, and `RunSowing` for the sowing loop, built one
pass at a time from `DropSeed`, `ResolveLanding` and `SowStep`. The other is
the imperative code that the source actually has. `MakeMove` copies the
board into a fresh `array<nat>` and runs the `while (seedsToSow > 0)` loop on
it in place. `CheckWinCondition` scans with a flag loop. `CreateGame` fills
the board with a loop. Each method's `ensures` ties its result to the
specification, and the lemmas state the properties of the specification.

Neither loop has a variant: chains of relays, and in the live engine of
captures, need not end. Both the specification and the method therefore
take a `fuel` bound on loop passes and return `OutOfFuel` when it runs out.
Nothing here claims that a move terminates.

Behaviour of the code that the model keeps exactly as written:

- Seeds leave the game in the live engine. At a capture, line 144 of
  `server/bao-engine.js` sets a behind pit holding 10 or more seeds to 0
  before the catch is counted at line 145, so those seeds are gone
  (`BaoEngineProofs.MoveConservation`, `BaoEngineProofs.BehindPitSeedsLost`).
- The live engine sows the catch on from the landing pit itself
  (lines 149-150). The comment at line 160 says a full game would continue
  from a 'kichwa' instead.
- The draft's capture (`server/bao-engine/index.js:126-128`) empties the
  facing pit and sows nothing, so every captured seed leaves the game
  (`BaoDraftProofs.DraftMoveConservation`). The comment at
  `server/bao-engine/index.js:131` says a full implementation would sow the
  catch.
- A landing count of exactly 10 matches neither the relay test at line 122
  (`< 10`) nor the overflow test at line 128 (`> 10`). It falls through to
  the capture test at line 141. So it stops the move even in an outer row,
  unless it captures (`BaoEngineProofs.LandingRules`).
- `isCapture` returns false at line 215 only for a landing count of 0 or
  2..9. It therefore captures on a count of 1 and also on 10 or more
  (`BaoEngine.IsCapture`).
- A pit of 10 or more is called frozen. The message at line 96 says such a
  pit "cannot be moved or captured". Lines 95-102 refuse to lift an inner
  pit holding 10 or more in 'mtaji', and line 220 refuses to capture a
  facing pit holding 10 or more. The sowing at lines 114-115, however,
  still drops seeds into the mover's own frozen inner pits
  (`BaoEngineProofs.OwnFrozenPitStillSown`). Only the opponent's frozen
  inner pits are never touched (`BaoEngineProofs.MoveOnlyMoverGains`).

## Model

| member | source | states |
|---|---|---|
| BaoBoard.IsPlayersPit | server/bao-engine.js:185-187 | Player 1 owns 0..15 and player 2 owns 16..31. Every pit on the board belongs to exactly one player, the one on whose half it lies, and no index off the board belongs to anyone. |
| BaoBoard.OpponentPit | server/bao-engine.js:228-236 | A P1 inner pit p (8..15) faces the P2 inner pit 31 − p, and a P2 inner pit q faces the P1 inner pit 31 − q. Any other pit gives −1. |
| BaoBoard.OpponentPitInvolution | server/bao-engine.js:228-236 | The facing of a facing inner pit is the pit itself, on the other player's side. |
| BaoGame.CreateGame | server/bao-engine.js:29-67 | Player 1 moves first, the game is not over, there is no winner. 'kujifunza' gives all 32 pits 2 seeds, phase 'mtaji' and empty hands. Any other type gives pits 11 and 19 six seeds, pits 12, 13, 20 and 21 two, every other pit none, 22 seeds per hand and phase 'namua'. Both total 64 seeds. |
| BaoGame.KiswahiliLayoutTotal | server/bao-engine.js:49-64 | The house layout holds 20 seeds on the board. |
| BaoEngine.CreateDefaultGame | server/bao-engine.js:29-48 | With no game type, the live engine builds the all-2 'mtaji' board of 64 seeds. |
| BaoEngine.NextPit | server/bao-engine.js:189-204 | The result is always one of the mover's pits. From a mover's pit it is the next place round the mover's 16-pit cycle, start + (p − start + 1) mod 16. |
| BaoEngine.OpponentPitBehind | server/bao-engine.js:238-266 | A P1 inner pit q gives the P1 outer pit 15 − q. A P2 inner pit q gives the P2 outer pit 47 − q. Any other pit gives −1. |
| BaoEngine.IsCapture | server/bao-engine.js:206-226 | True exactly when the pit is in the mover's inner row, holds 1 or at least 10 seeds, and its facing pit holds 1..9. |
| BaoEngine.RunSowing | server/bao-engine.js:113-164 | The loop stops only with no seeds in hand; with no fuel left, it has a result exactly when nothing remains to sow. |
| BaoEngine.CaptureInto | server/bao-engine.js:141-162 | A capture keeps the landing pit and always takes a catch into the hand. The facing pit ends empty, no pit gains seeds, and the log grows. |
| BaoEngine.ResolveLanding | server/bao-engine.js:121-162 | The landing rules keep the current pit and only extend the log. They never add seeds to any pit: a relay or capture only takes seeds off the board. |
| BaoEngine.HasValidMoves | server/bao-engine.js:268-293 | A player has no valid move exactly when every one of its pits is empty or is an outer pit holding 1 or at least 10 seeds. |
| BaoEngine.EndOfTurn | server/bao-engine.js:166-177 | The board is the sown board. The game ends exactly when the next player has no valid move; the mover then wins, keeps the turn and is announced. Otherwise the turn passes with no winner. Hands and phase are kept. |
| BaoEngine.ApplyMove | server/bao-engine.js:77-180 | A move never changes the hands or the phase, since placing seeds from a hand is not implemented. A move that ends the game makes the mover the winner. Only a move on an own pit of a running game can run out of fuel. |
| BaoEngine.CheckWinCondition | server/bao-engine.js:268-293 | The game is over exactly when the next player has no non-empty inner pit and no outer pit holding 2..9. The winner is then the other player, otherwise none. |
| BaoEngine.SowOneSeed | server/bao-engine.js:113-119 | Advancing, incrementing the array cell and logging a `sow` leave the array, pit, hand and log equal to one seed drop of the specification. |
| BaoEngine.ApplyLandingRules | server/bao-engine.js:121-140 | The in-place landing branch (relay, frozen stop, outer relay, capture) leaves the array and log equal to the specification's landing rules. |
| BaoEngine.CaptureOpposite | server/bao-engine.js:141-162 | The in-place capture leaves the array, hand and log equal to the specification's capture. |
| BaoEngine.MakeMove | server/bao-engine.js:77-180 | Validation, the fuel-bounded in-place sowing loop on a copy of the board, and the end of turn give exactly the specified outcome. |
| BaoEngineProofs.NextPitNClosedForm | server/bao-engine.js:189-204 | k steps from a mover's pit land at start + (p − start + k) mod 16. |
| BaoEngineProofs.NextPitCycle | server/bao-engine.js:189-204 | Each step stays on the mover's side and moves, and 16 steps return to the start. |
| BaoEngineProofs.NextPitNoShorterCycle | server/bao-engine.js:189-204 | No number of steps from 1 to 15 returns to the start. |
| BaoEngineProofs.NextPitReachesAll | server/bao-engine.js:189-204 | Every pit of the mover is reached from every other within 16 steps. |
| BaoEngineProofs.MoveValidation | server/bao-engine.js:85-111 | The move is rejected when the game is over, the pit is not the mover's, or in 'mtaji' the pit holds fewer than 2 seeds or is an inner pit with 10 or more. A rejection changes only the message (nothing when the game is over) and logs nothing. An accepted move's log starts with `lift` of the chosen pit and its full count. |
| BaoEngineProofs.RunSowingExtendsLog | server/bao-engine.js:111-157 | The sowing loop only appends to the log. |
| BaoEngineProofs.LandingRules | server/bao-engine.js:121-162 | Sowing continues after a landing exactly when the pit holds 2..9, or more than 10 outside the inner rows, or a capture is due. A relay empties the pit, takes its count into the hand and logs `relay`. Otherwise nothing changes. |
| BaoEngineProofs.CaptureStep | server/bao-engine.js:141-162 | A capture empties the facing pit and the behind pit, both opponent pits, and leaves every other pit alone. The new hand is the facing count plus the behind count when that is 1..9. It logs one `capture` per non-empty source, each with the whole catch, and sowing continues from the landing pit. |
| BaoEngineProofs.SowStepOnlyMoverGains | server/bao-engine.js:113-164 | In one pass an opponent pit either keeps its count or is emptied, and a frozen opponent inner pit keeps its count. |
| BaoEngineProofs.RunSowingOnlyMoverGains | server/bao-engine.js:113-164 | The same holds over the whole sowing loop. |
| BaoEngineProofs.MoveOnlyMoverGains | server/bao-engine.js:105-177 | During a move only the mover's 16 pits gain seeds. The opponent's pits are only emptied, and its frozen inner pits never change. |
| BaoEngineProofs.CaptureConservation | server/bao-engine.js:141-162 | A capture moves its catch from the board into the hand. Only the seeds of a behind pit holding 10 or more leave the game. |
| BaoEngineProofs.LandingConservation | server/bao-engine.js:121-162 | Each landing rule (relay, stop, capture) keeps board plus hand constant, less the seeds of an uncounted behind pit. |
| BaoEngineProofs.SowStepConservation | server/bao-engine.js:113-164 | One pass keeps board plus hand constant, except for the seeds of a behind pit of 10 or more zeroed at a capture. |
| BaoEngineProofs.RunSowingConservation | server/bao-engine.js:113-164 | Over the whole loop, the final board plus the seeds lost equals the starting board plus hand. |
| BaoEngineProofs.MoveConservation | server/bao-engine.js:105-177 | A move never adds seeds. The total of board and hands is unchanged unless a capture meets a behind pit holding 10 or more, and then it drops by exactly those seeds. |
| BaoEngineProofs.BehindPitSeedsLost | server/bao-engine.js:141-157 | A concrete move by player 1 from pit 13 captures 1 seed and zeroes a behind pit of 10 uncounted. Its log is `lift, sow, sow, capture, sow`, and the seed total drops from 13 to 3. |
| BaoEngineProofs.CaptureSowsCatchOn | server/bao-engine.js:141-157 | A concrete capture of 2 + 1 seeds logs two `capture` events that each carry the whole catch of 3. It then sows the 3 seeds on from pit 15 into pits 0..2. |
| BaoEngineProofs.OwnFrozenPitStillSown | server/bao-engine.js:95-119 | Player 1 may not lift inner pit 8 holding 12 seeds. Sowing 2 seeds from pit 7 still drops one into it, leaving 13. |
| BaoEngineProofs.MoveEndOfTurn | server/bao-engine.js:166-177 | After an accepted move the game is over exactly when the next player has no inner pit above 0 and no outer pit holding 2..9. The mover then wins and keeps the turn; otherwise the turn passes and there is no winner. Hands and phase are unchanged. |
| BaoDraft.CreateDefaultGame | server/bao-engine/index.js:29-68 | With no game type, the draft builds the 'kiswahili' house layout with 22 seeds per hand and phase 'namua', 64 seeds in all. |
| BaoDraft.NextPit | server/bao-engine/index.js:162-173 | From a mover's pit the draft's next pit is another pit of the same mover. |
| BaoDraft.IsCapture | server/bao-engine/index.js:188-199 | True exactly when the pit is in the mover's inner row, holds exactly 1 seed, and the facing pit is not empty. |
| BaoDraft.RunSowing | server/bao-engine/index.js:107-135 | The loop stops only with no seeds in hand, on a pit of the mover. |
| BaoDraft.ResolveLanding | server/bao-engine/index.js:114-134 | The landing keeps the current pit and never adds seeds to any pit. The hand changes only by taking up the whole landing pit, which is then empty. |
| BaoDraft.HasSeedsInInnerRow | server/bao-engine/index.js:211-228 | Some inner pit of the player holds a seed exactly when the inner row's seeds add up to more than 0. |
| BaoDraft.EndOfTurn | server/bao-engine/index.js:139-152 | The board is the sown board. The game ends exactly when the next player's inner row is empty; the mover then wins, keeps the turn and is announced. Otherwise the turn passes with no winner. Hands and phase are kept. |
| BaoDraft.ApplyMove | server/bao-engine/index.js:79-153 | A draft move never changes the hands or the phase. A move that ends the game makes the mover the winner. Only a move on an own pit of a running game can run out of fuel. |
| BaoDraft.CheckWinCondition | server/bao-engine/index.js:211-228 | The game is over exactly when the next player's inner row is empty, and the winner is then the other player. |
| BaoDraft.SowOneSeed | server/bao-engine/index.js:108-134 | The in-place loop body (drop, relay on more than 1, capture that empties the facing pit) equals one pass of the specification. |
| BaoDraft.MakeMove | server/bao-engine/index.js:79-153 | The draft's validation, fuel-bounded in-place loop and end of turn give exactly the specified outcome. |
| BaoDraftProofs.NextPitNOnCycle | server/bao-engine/index.js:162-173 | From the j-th of the nine pits 0..7, 15 (player 1) or 16..23, 31 (player 2), k steps reach the (j + k) mod 9-th. |
| BaoDraftProofs.DraftSowingSkipsPits | server/bao-engine/index.js:162-173 | On that cycle sowing returns to its pit after 9 steps and never lands on player 1's inner pits 8..14 or player 2's outer pits 24..30. |
| BaoDraftProofs.DraftNextPitSteps | server/bao-engine/index.js:162-173 | The draft jumps 7 to 15 and 23 to 31, wraps 15 to 0 and 31 to 16, and otherwise steps to the next index. |
| BaoDraftProofs.DraftMoveValidation | server/bao-engine/index.js:90-97 | A finished game is returned unchanged. A pit that is not the mover's, or that holds fewer than 2 seeds in 'mtaji', changes only the message. In a running game a move was accepted exactly when it ended the game or passed the turn. There is no frozen-pit rule. |
| BaoDraftProofs.DraftLandingRules | server/bao-engine/index.js:114-134 | A landing pit above 1 seed always relays, with no upper bound. Otherwise a capture empties the facing opponent pit and ends the move without sowing the catch. Otherwise nothing changes. |
| BaoDraftProofs.DraftSowStepConservation | server/bao-engine/index.js:107-135 | One pass keeps board plus hand constant, less the facing pit's seeds on a capture. |
| BaoDraftProofs.DraftRunSowingConservation | server/bao-engine/index.js:107-135 | Over the whole loop, the final board plus the seeds captured equals the starting board plus hand. |
| BaoDraftProofs.DraftMoveConservation | server/bao-engine/index.js:99-152 | A draft move lowers the total of board and hands by exactly the seeds it captures. |
| BaoDraftProofs.DraftRunSowingOpponentOnlyEmptied | server/bao-engine/index.js:107-135 | During the draft's sowing every opponent pit keeps its count or is emptied. |
| BaoDraftProofs.DraftMoveEndOfTurn | server/bao-engine/index.js:139-152 | After an accepted draft move the game is over exactly when the next player's inner row is empty. The mover then wins and keeps the turn; otherwise the turn passes. |

## Left out

- Termination of the sowing loops: neither loop has a variant. Both are run under a `fuel` bound on loop passes, and a run that would go on past it is reported as `OutOfFuel` instead of looping.
- The `sowingDirection` field: it is set to null and never read, so the state has no such field.
- Placement from hand in the 'namua' phase: neither engine implements it. The hands are only initialised and carried along.
- Message wording: messages are a tag (`PlayerWins`, `NotYourPit`, ...), not the source's strings.
- The JSON deep copy and `console.log`: the model has value semantics, and the copy of the board into the working array is explicit.
- JavaScript's dynamic typing: a `pitIndex` that is not an integer, a board that is not 32 non-negative integers, and a `currentPlayer` other than 1 or 2 are not representable. A pit index outside 0..31 is modelled and rejected.
- The empty-catch case of line 146 of `server/bao-engine.js` cannot occur: `isCapture` has the facing pit holding 1..9, so the catch is always positive. `BaoEngine.CaptureInto` marks that branch unreachable.
- Lines 174-184 of the draft's `getNextPit` follow unconditional returns and cannot run, so they have no counterpart.
- The rest of the repository (socket handlers, routes, authentication, database access and the 3D client) is not part of this model.
