/** What the draft engine (server/bao-engine/index.js) guarantees, stated
    about its specification functions in BaoDraft. */
module BaoDraftProofs {
  import opened Wrappers
  import opened BaoBoard
  import opened BaoGame
  import opened BaoDraft

  // ---------------------------------------------------------------------
  // The sowing path
  // ---------------------------------------------------------------------

  /** The draft's NextPit applied k times. */
  function NextPitN(pit: int, player: Player, k: nat): int {
    if k == 0 then pit else NextPit(NextPitN(pit, player, k - 1), player)
  }

  /** The nine pits the draft's sowing circles through: 0..7 and 15 for
      player 1, 16..23 and 31 for player 2, in that order. */
  function CyclePit(player: Player, j: nat): (pit: nat)
    requires j < 9
    ensures IsPlayersPit(pit, player)
  {
    var base := if player == P1 then 0 else 16;
    if j < 8 then base + j else base + 15
  }

  /** One step moves from the m-th pit of the cycle to the next one. */
  lemma CycleStep(player: Player, m: nat)
    requires m < 9
    ensures NextPit(CyclePit(player, m), player) == CyclePit(player, (m + 1) % 9)
  {
  }

  lemma ModNineStep(x: nat)
    ensures (x % 9 + 1) % 9 == (x + 1) % 9
  {
    var q := x / 9;
    var m := x % 9;
    assert x == 9 * q + m;
    if m == 8 {
      assert x + 1 == 9 * (q + 1);
    } else {
      assert x + 1 == 9 * q + (m + 1);
    }
  }

  /** k steps from the j-th pit of the cycle reach the (j + k) mod 9-th. */
  lemma {:induction false} NextPitNOnCycle(player: Player, j: nat, k: nat)
    requires j < 9
    ensures NextPitN(CyclePit(player, j), player, k) == CyclePit(player, (j + k) % 9)
  {
    if k > 0 {
      NextPitNOnCycle(player, j, k - 1);
      CycleStep(player, (j + k - 1) % 9);
      ModNineStep(j + k - 1);
    }
  }

  /** Once on the cycle, sowing returns to the same pit after 9 steps and
      never lands on player 1's inner pits 8..14 or player 2's outer pits
      24..30. */
  lemma DraftSowingSkipsPits(player: Player, j: nat, k: nat)
    requires j < 9
    ensures NextPitN(CyclePit(player, j), player, 9) == CyclePit(player, j)
    ensures
      var p := NextPitN(CyclePit(player, j), player, k);
      && IsPlayersPit(p, player)
      && !(8 <= p <= 14)
      && !(24 <= p <= 30)
  {
    NextPitNOnCycle(player, j, 9);
    assert (j + 9) % 9 == j;
    NextPitNOnCycle(player, j, k);
  }

  /** From the mover's pits before 15 (player 1) or 31 (player 2), one step
      is the next index; the inner row of player 1 and the outer row of
      player 2 are only entered from a lifted pit. */
  lemma DraftNextPitSteps(pit: int, player: Player)
    requires IsPlayersPit(pit, player)
    ensures player == P1 && pit == 7 ==> NextPit(pit, player) == 15
    ensures player == P2 && pit == 23 ==> NextPit(pit, player) == 31
    ensures pit == 15 || pit == 31 ==> NextPit(pit, player) == pit - 15
    ensures pit != 7 && pit != 15 && pit != 23 && pit != 31 ==> NextPit(pit, player) == pit + 1
  {
  }

  // ---------------------------------------------------------------------
  // Validation
  // ---------------------------------------------------------------------

  /** The draft's three rules: the game is running, the pit is the mover's,
      and in 'mtaji' it holds at least 2 seeds. There is no frozen-pit rule. */
  predicate IsLegalDraftMove(g: GameState, move: Move) {
    && !g.gameOver
    && IsPlayersPit(move.pitIndex, g.currentPlayer)
    && !(g.phase == Mtaji && g.board[move.pitIndex] < 2)
  }

  /** A finished game is returned unchanged; any other illegal move returns
      the state with only its message changed. In a running game a finished
      move was accepted exactly when it ended the game or passed the turn;
      with no frozen-pit rule, this includes lifting an inner pit of 10 or
      more seeds in 'mtaji'. */
  lemma DraftMoveValidation(g: GameState, move: Move, fuel: nat)
    ensures g.gameOver ==> ApplyMove(g, move, fuel) == Finished(g)
    ensures !IsLegalDraftMove(g, move) ==>
      && ApplyMove(g, move, fuel).Finished?
      && ApplyMove(g, move, fuel).finalState == g.(message := ApplyMove(g, move, fuel).finalState.message)
    ensures !g.gameOver && ApplyMove(g, move, fuel).Finished? ==>
      (IsLegalDraftMove(g, move) <==>
        ApplyMove(g, move, fuel).finalState.gameOver
        || ApplyMove(g, move, fuel).finalState.currentPlayer == g.currentPlayer.Other())
  {
  }

  // ---------------------------------------------------------------------
  // Landing rules
  // ---------------------------------------------------------------------

  /** Where the last seed lands, the draft relays whenever the pit now holds
      more than 1 seed, with no upper bound; otherwise a capture empties the
      facing pit and the move ends, its seeds not sown on; otherwise the move
      ends unchanged. */
  lemma DraftLandingRules(player: Player, d: Sowing)
    requires d.pit < NumPits && d.seedsToSow == 0
    ensures d.board[d.pit] > 1 ==>
      ResolveLanding(player, d) == Sowing(d.board[d.pit := 0], d.pit, d.board[d.pit])
    ensures d.board[d.pit] <= 1 && IsCapture(d.board, d.pit, player) ==>
      && ResolveLanding(player, d).seedsToSow == 0
      && ResolveLanding(player, d).board == d.board[OpponentPit(d.pit) := 0]
      && !IsPlayersPit(OpponentPit(d.pit), player)
    ensures d.board[d.pit] <= 1 && !IsCapture(d.board, d.pit, player) ==>
      ResolveLanding(player, d) == d
  {
  }

  // ---------------------------------------------------------------------
  // Seed accounting and which pits change
  // ---------------------------------------------------------------------

  /** Seeds a pass removes from play: the facing pit's count on a capture. */
  ghost function StepCaptured(player: Player, s: Sowing): nat
    requires IsPlayersPit(s.pit, player) && s.seedsToSow > 0
  {
    var d := DropSeed(player, s);
    if d.seedsToSow == 0 && d.board[d.pit] <= 1 && IsCapture(d.board, d.pit, player)
    then d.board[OpponentPit(d.pit)] else 0
  }

  ghost function RunCaptured(player: Player, s: Sowing, fuel: nat): nat
    requires IsPlayersPit(s.pit, player)
    decreases fuel
  {
    if s.seedsToSow == 0 || fuel == 0 then 0
    else StepCaptured(player, s) + RunCaptured(player, SowStep(player, s), fuel - 1)
  }

  lemma DraftSowStepConservation(player: Player, s: Sowing)
    requires IsPlayersPit(s.pit, player) && s.seedsToSow > 0
    ensures Sum(SowStep(player, s).board) + SowStep(player, s).seedsToSow + StepCaptured(player, s)
         == Sum(s.board) + s.seedsToSow
  {
    var p := NextPit(s.pit, player);
    SumUpdate(s.board, p, s.board[p] + 1);
    var d := DropSeed(player, s);
    if d.seedsToSow == 0 {
      if d.board[d.pit] > 1 {
        SumUpdate(d.board, d.pit, 0);
      } else if IsCapture(d.board, d.pit, player) {
        SumUpdate(d.board, OpponentPit(d.pit), 0);
      }
    }
  }

  lemma {:induction false} DraftRunSowingConservation(player: Player, s: Sowing, fuel: nat)
    requires IsPlayersPit(s.pit, player) && RunSowing(player, s, fuel).Some?
    ensures Sum(RunSowing(player, s, fuel).value.board) + RunCaptured(player, s, fuel)
         == Sum(s.board) + s.seedsToSow
    decreases fuel
  {
    if s.seedsToSow > 0 {
      DraftSowStepConservation(player, s);
      DraftRunSowingConservation(player, SowStep(player, s), fuel - 1);
    }
  }

  ghost function DraftMoveCaptured(g: GameState, move: Move, fuel: nat): nat {
    if IsLegalDraftMove(g, move) then
      RunCaptured(g.currentPlayer, Lifted(g.board, move.pitIndex), fuel)
    else 0
  }

  /** The draft's total of board and hands drops by exactly the seeds captured. */
  lemma DraftMoveConservation(g: GameState, move: Move, fuel: nat)
    requires ApplyMove(g, move, fuel).Finished?
    ensures SeedTotal(ApplyMove(g, move, fuel).finalState) + DraftMoveCaptured(g, move, fuel) == SeedTotal(g)
  {
    if IsLegalDraftMove(g, move) {
      SumUpdate(g.board, move.pitIndex, 0);
      DraftRunSowingConservation(g.currentPlayer, Lifted(g.board, move.pitIndex), fuel);
    }
  }

  /** Between two boards, every opponent pit kept its count or was emptied. */
  predicate OpponentOnlyEmptied(player: Player, before: Board, after: Board) {
    forall i | 0 <= i < NumPits && !IsPlayersPit(i, player) :: after[i] == before[i] || after[i] == 0
  }

  lemma {:induction false} DraftRunSowingOpponentOnlyEmptied(player: Player, s: Sowing, fuel: nat)
    requires IsPlayersPit(s.pit, player) && RunSowing(player, s, fuel).Some?
    ensures OpponentOnlyEmptied(player, s.board, RunSowing(player, s, fuel).value.board)
    decreases fuel
  {
    if s.seedsToSow > 0 {
      var d := DropSeed(player, s);
      if d.seedsToSow == 0 {
        DraftLandingRules(player, d);
      }
      assert OpponentOnlyEmptied(player, s.board, SowStep(player, s).board);
      DraftRunSowingOpponentOnlyEmptied(player, SowStep(player, s), fuel - 1);
    }
  }

  // ---------------------------------------------------------------------
  // End of turn
  // ---------------------------------------------------------------------

  /** After a legal draft move the game is over exactly when the next
      player's inner row is empty; the mover then wins and keeps the turn,
      otherwise the turn passes. */
  lemma DraftMoveEndOfTurn(g: GameState, move: Move, fuel: nat)
    requires IsLegalDraftMove(g, move) && ApplyMove(g, move, fuel).Finished?
    ensures
      var f := ApplyMove(g, move, fuel).finalState;
      var mover := g.currentPlayer;
      && (f.gameOver <==> forall i | 0 <= i < NumPits && InPlayersInnerRow(i, mover.Other()) :: f.board[i] == 0)
      && (f.gameOver ==> f.currentPlayer == mover && f.winner == Some(mover))
      && (!f.gameOver ==> f.currentPlayer == mover.Other() && f.winner == None)
  {
  }
}
