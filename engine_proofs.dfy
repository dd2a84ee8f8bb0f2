/** What the live engine (server/bao-engine.js) guarantees, stated about its
    specification functions in BaoEngine. */
module BaoEngineProofs {
  import opened Wrappers
  import opened BaoBoard
  import opened BaoGame
  import opened BaoEngine

  // ---------------------------------------------------------------------
  // The sowing cycle
  // ---------------------------------------------------------------------

  /** NextPit applied k times. */
  function NextPitN(pit: int, player: Player, k: nat): int {
    if k == 0 then pit else NextPit(NextPitN(pit, player, k - 1), player)
  }

  /** From one of the mover's pits, k steps land k places further round the
      mover's 16 pits. */
  lemma {:induction false} NextPitNClosedForm(pit: int, player: Player, k: nat)
    requires IsPlayersPit(pit, player)
    ensures NextPitN(pit, player, k) == CycleStart(player) + (pit - CycleStart(player) + k) % 16
  {
    if k > 0 {
      NextPitNClosedForm(pit, player, k - 1);
      var x := pit - CycleStart(player) + k - 1;
      ModSixteenStep(x);
    }
  }

  lemma ModSixteenStep(x: int)
    ensures (x % 16 + 1) % 16 == (x + 1) % 16
  {
    var q := x / 16;
    assert x == 16 * q + x % 16;
    if x % 16 == 15 {
      assert x + 1 == 16 * (q + 1);
    } else {
      assert x + 1 == 16 * q + (x % 16 + 1);
    }
  }

  /** The mover's pits form one cycle of length 16: each step stays on the
      mover's side and moves, and sixteen steps return to the start. */
  lemma NextPitCycle(pit: int, player: Player)
    requires IsPlayersPit(pit, player)
    ensures IsPlayersPit(NextPit(pit, player), player) && NextPit(pit, player) != pit
    ensures NextPitN(pit, player, 16) == pit
  {
    NextPitNClosedForm(pit, player, 16);
    ModSixteenShift(pit - CycleStart(player), 1);
  }

  /** No fewer than sixteen steps return to the start. */
  lemma NextPitNoShorterCycle(pit: int, player: Player, k: nat)
    requires IsPlayersPit(pit, player) && 0 < k < 16
    ensures NextPitN(pit, player, k) != pit
  {
    NextPitNClosedForm(pit, player, k);
  }

  /** Every pit of the mover is reached from every other. */
  lemma NextPitReachesAll(pit: int, q: int, player: Player)
    requires IsPlayersPit(pit, player) && IsPlayersPit(q, player)
    ensures NextPitN(pit, player, Distance(pit, q)) == q
  {
    var k := Distance(pit, q);
    NextPitNClosedForm(pit, player, k);
    var x := pit - CycleStart(player);
    var y := q - CycleStart(player);
    var t := (q - pit) / 16;
    assert q - pit == 16 * t + k;
    assert x + k == y + 16 * (-t);
    ModSixteenShift(y, -t);
  }

  /** Adding whole turns does not change a position on the 16-pit cycle. */
  lemma ModSixteenShift(x: int, turns: int)
    requires 0 <= x < 16
    ensures (x + 16 * turns) % 16 == x
  {
  }

  /** How many steps forward q lies from pit on a 16-pit cycle. */
  function Distance(pit: int, q: int): (k: nat)
    ensures k < 16
  {
    (q - pit) % 16
  }

  // ---------------------------------------------------------------------
  // Validation
  // ---------------------------------------------------------------------

  /** The move validator's four rules: the game is running, the pit is the
      mover's, and in 'mtaji' the pit holds at least 2 and, in an inner row,
      fewer than 10 seeds. */
  predicate IsLegalMove(g: GameState, move: Move) {
    && !g.gameOver
    && IsPlayersPit(move.pitIndex, g.currentPlayer)
    && !(g.phase == Mtaji && g.board[move.pitIndex] < 2)
    && !(g.phase == Mtaji && InInnerRow(move.pitIndex) && g.board[move.pitIndex] >= 10)
  }

  /** An illegal move changes nothing but the message (not even that when the
      game is over) and logs nothing; a legal move's log starts with the lift
      of the whole chosen pit. So a finished move logs nothing exactly when
      it was rejected. */
  lemma MoveValidation(g: GameState, move: Move, fuel: nat)
    ensures !IsLegalMove(g, move) ==>
      && ApplyMove(g, move, fuel).Finished?
      && ApplyMove(g, move, fuel).moveSequence == []
      && ApplyMove(g, move, fuel).finalState == g.(message := ApplyMove(g, move, fuel).finalState.message)
      && (g.gameOver ==> ApplyMove(g, move, fuel).finalState == g)
    ensures IsLegalMove(g, move) && ApplyMove(g, move, fuel).Finished? ==>
      && |ApplyMove(g, move, fuel).moveSequence| > 0
      && ApplyMove(g, move, fuel).moveSequence[0] == Lift(move.pitIndex, g.board[move.pitIndex])
  {
    if IsLegalMove(g, move) {
      var s0 := Lifted(g.board, move.pitIndex);
      var r := RunSowing(g.currentPlayer, s0, fuel);
      if r.Some? {
        RunSowingExtendsLog(g.currentPlayer, s0, fuel);
      }
    }
  }

  /** The log of one loop pass extends the log before it. */
  lemma SowStepExtendsLog(player: Player, s: Sowing)
    requires s.seedsToSow > 0
    ensures s.events <= SowStep(player, s).events
  {
  }

  lemma {:induction false} RunSowingExtendsLog(player: Player, s: Sowing, fuel: nat)
    requires RunSowing(player, s, fuel).Some?
    ensures s.events <= RunSowing(player, s, fuel).value.events
    decreases fuel
  {
    if s.seedsToSow > 0 {
      SowStepExtendsLog(player, s);
      RunSowingExtendsLog(player, SowStep(player, s), fuel - 1);
    }
  }

  // ---------------------------------------------------------------------
  // Landing rules
  // ---------------------------------------------------------------------

  /** Where the last seed lands, sowing goes on exactly when the pit now holds
      2..9, or more than 10 outside the inner rows, or a capture is due;
      otherwise nothing changes. A pit holding exactly 10 therefore stops the
      move even in an outer row unless it captures. A relay lifts the whole
      pit and logs it. */
  lemma LandingRules(player: Player, d: Sowing)
    requires d.pit < NumPits && d.seedsToSow == 0
    ensures ResolveLanding(player, d).pit == d.pit
    ensures ResolveLanding(player, d).seedsToSow > 0 <==>
      || 1 < d.board[d.pit] < 10
      || (d.board[d.pit] > 10 && !InInnerRow(d.pit))
      || IsCapture(d.board, d.pit, player)
    ensures ResolveLanding(player, d).seedsToSow == 0 ==> ResolveLanding(player, d) == d
    ensures (1 < d.board[d.pit] < 10 || (d.board[d.pit] > 10 && !InInnerRow(d.pit))) ==>
      && ResolveLanding(player, d).board == d.board[d.pit := 0]
      && ResolveLanding(player, d).seedsToSow == d.board[d.pit]
      && ResolveLanding(player, d).events == d.events + [Relay(d.pit, d.board[d.pit])]
  {
    var c := d.board[d.pit];
    if IsCapture(d.board, d.pit, player) {
      CaptureStep(player, d);
    } else if c > 10 && !InInnerRow(d.pit) {
      assert !InP1InnerRow(d.pit) && !InP2InnerRow(d.pit);
    }
  }

  /** A capture empties the facing pit and the outer pit behind it and sows
      their seeds from the landing pit. The catch is the facing count plus the
      behind count when that is 1..9; a behind pit of 10 or more is emptied
      without being counted. Every capture event carries the whole catch. */
  lemma CaptureStep(player: Player, d: Sowing)
    requires d.pit < NumPits && d.seedsToSow == 0 && IsCapture(d.board, d.pit, player)
    ensures
      var facing := OpponentPit(d.pit);
      var behind := OpponentPitBehind(facing);
      var taken := d.board[facing] + (if d.board[behind] < 10 then d.board[behind] else 0);
      var r := ResolveLanding(player, d);
      && !IsPlayersPit(facing, player) && !IsPlayersPit(behind, player)
      && r.pit == d.pit
      && r.seedsToSow == taken > 0
      && r.board[facing] == 0 && r.board[behind] == 0
      && (forall i | 0 <= i < NumPits && i != facing && i != behind :: r.board[i] == d.board[i])
      && r.events == d.events + [Capture(facing, d.pit, taken)]
                   + (if 0 < d.board[behind] < 10 then [Capture(behind, d.pit, taken)] else [])
  {
    var facing := OpponentPit(d.pit);
    var behind := OpponentPitBehind(facing);
    assert ResolveLanding(player, d) == CaptureInto(player, d);
  }

  // ---------------------------------------------------------------------
  // Which pits change
  // ---------------------------------------------------------------------

  /** Between two boards, every pit of the opponent either kept its count or
      was emptied, and a frozen opponent inner pit (10 or more) kept it. */
  predicate OnlyMoverGains(player: Player, before: Board, after: Board) {
    forall i | 0 <= i < NumPits && !IsPlayersPit(i, player) ::
      after[i] == before[i] || (after[i] == 0 && !(InInnerRow(i) && before[i] >= 10))
  }

  lemma SowStepOnlyMoverGains(player: Player, s: Sowing)
    requires s.seedsToSow > 0
    ensures OnlyMoverGains(player, s.board, SowStep(player, s).board)
  {
    var d := DropSeed(player, s);
    if d.seedsToSow == 0 && IsCapture(d.board, d.pit, player) {
      CaptureStep(player, d);
      LandingRules(player, d);
    } else if d.seedsToSow == 0 {
      LandingRules(player, d);
    }
  }

  lemma {:induction false} RunSowingOnlyMoverGains(player: Player, s: Sowing, fuel: nat)
    requires RunSowing(player, s, fuel).Some?
    ensures OnlyMoverGains(player, s.board, RunSowing(player, s, fuel).value.board)
    decreases fuel
  {
    if s.seedsToSow > 0 {
      var n := SowStep(player, s);
      SowStepOnlyMoverGains(player, s);
      RunSowingOnlyMoverGains(player, n, fuel - 1);
    }
  }

  /** During a move only the mover's pits gain seeds; the opponent's pits are
      only ever emptied, and a frozen opponent inner pit is never touched. */
  lemma MoveOnlyMoverGains(g: GameState, move: Move, fuel: nat)
    requires ApplyMove(g, move, fuel).Finished?
    ensures OnlyMoverGains(g.currentPlayer, g.board, ApplyMove(g, move, fuel).finalState.board)
  {
    if IsLegalMove(g, move) {
      var s0 := Lifted(g.board, move.pitIndex);
      RunSowingOnlyMoverGains(g.currentPlayer, s0, fuel);
    }
  }

  // ---------------------------------------------------------------------
  // Seed accounting
  // ---------------------------------------------------------------------

  /** Seeds that leave the board at a landing: the contents of a behind pit
      holding 10 or more when a capture is taken. */
  ghost function LandingLoss(player: Player, d: Sowing): nat
    requires d.pit < NumPits
  {
    if IsCapture(d.board, d.pit, player) then
      var behind := OpponentPitBehind(OpponentPit(d.pit));
      if d.board[behind] >= 10 then d.board[behind] else 0
    else 0
  }

  ghost function StepLoss(player: Player, s: Sowing): nat
    requires s.seedsToSow > 0
  {
    var d := DropSeed(player, s);
    if d.seedsToSow == 0 then LandingLoss(player, d) else 0
  }

  /** Seeds lost over a whole run of the loop. */
  ghost function RunLoss(player: Player, s: Sowing, fuel: nat): nat
    decreases fuel
  {
    if s.seedsToSow == 0 || fuel == 0 then 0
    else StepLoss(player, s) + RunLoss(player, SowStep(player, s), fuel - 1)
  }

  /** A capture moves the catch from the board into the hand; only a behind
      pit of 10 or more is lost. */
  lemma CaptureConservation(player: Player, d: Sowing)
    requires d.pit < NumPits && d.seedsToSow == 0 && IsCapture(d.board, d.pit, player)
    ensures Sum(CaptureInto(player, d).board) + CaptureInto(player, d).seedsToSow + LandingLoss(player, d)
         == Sum(d.board)
  {
    var facing := OpponentPit(d.pit);
    var behind := OpponentPitBehind(facing);
    var kept := if 0 < d.board[behind] < 10 then d.board[behind] else 0;
    var b1 := d.board[behind := kept];
    SumUpdate(d.board, behind, kept);
    var b2 := b1[facing := 0];
    SumUpdate(b1, facing, 0);
    if b2[behind] > 0 {
      SumUpdate(b2, behind, 0);
    }
  }

  /** Where the last seed lands, board plus hand stay constant, less any
      seeds lost. */
  lemma LandingConservation(player: Player, d: Sowing)
    requires d.pit < NumPits && d.seedsToSow == 0
    ensures Sum(ResolveLanding(player, d).board) + ResolveLanding(player, d).seedsToSow + LandingLoss(player, d)
         == Sum(d.board)
  {
    var c := d.board[d.pit];
    LandingRules(player, d);
    if 1 < c < 10 || (c > 10 && !InInnerRow(d.pit)) {
      SumUpdate(d.board, d.pit, 0);
    } else if IsCapture(d.board, d.pit, player) {
      assert ResolveLanding(player, d) == CaptureInto(player, d);
      CaptureConservation(player, d);
    }
  }

  /** One pass keeps board plus hand constant, less any seeds lost. */
  lemma SowStepConservation(player: Player, s: Sowing)
    requires s.seedsToSow > 0
    ensures Sum(SowStep(player, s).board) + SowStep(player, s).seedsToSow + StepLoss(player, s)
         == Sum(s.board) + s.seedsToSow
  {
    var p := NextPit(s.pit, player);
    SumUpdate(s.board, p, s.board[p] + 1);
    var d := DropSeed(player, s);
    if d.seedsToSow == 0 {
      LandingConservation(player, d);
    }
  }

  lemma {:induction false} RunSowingConservation(player: Player, s: Sowing, fuel: nat)
    requires RunSowing(player, s, fuel).Some?
    ensures Sum(RunSowing(player, s, fuel).value.board) + RunLoss(player, s, fuel)
         == Sum(s.board) + s.seedsToSow
    decreases fuel
  {
    if s.seedsToSow > 0 {
      SowStepConservation(player, s);
      RunSowingConservation(player, SowStep(player, s), fuel - 1);
    }
  }

  /** The seeds a move loses: none for a rejected move. */
  ghost function MoveLoss(g: GameState, move: Move, fuel: nat): nat {
    if IsLegalMove(g, move) then RunLoss(g.currentPlayer, Lifted(g.board, move.pitIndex), fuel) else 0
  }

  /** A move never creates seeds, and it keeps the total of board and hands
      exactly unless a capture meets a behind pit holding 10 or more. */
  lemma MoveConservation(g: GameState, move: Move, fuel: nat)
    requires ApplyMove(g, move, fuel).Finished?
    ensures SeedTotal(ApplyMove(g, move, fuel).finalState) + MoveLoss(g, move, fuel) == SeedTotal(g)
    ensures SeedTotal(ApplyMove(g, move, fuel).finalState) <= SeedTotal(g)
  {
    if IsLegalMove(g, move) {
      var pit := move.pitIndex;
      var s0 := Lifted(g.board, pit);
      SumUpdate(g.board, pit, 0);
      RunSowingConservation(g.currentPlayer, s0, fuel);
    }
  }

  /** A concrete move that loses seeds: player 1 sows 2 seeds from pit 13, the
      last lands in the empty pit 15, which faces pit 16 (1 seed) with pit 31
      (10 seeds) behind it. Pit 31 is emptied, only the seed of pit 16 is
      sown on, and the ten seeds of pit 31 are gone. */
  lemma BehindPitSeedsLost()
    ensures
      var board: Board := seq(NumPits, i => if i == 13 then 2 else if i == 16 then 1 else if i == 31 then 10 else 0);
      var g := GameState(board, 0, 0, P1, Mtaji, false, None, GameStarts);
      var o := ApplyMove(g, Move(13), 3);
      && o.Finished?
      && o.moveSequence == [Lift(13, 2), Sow(14, 1), Sow(15, 0), Capture(16, 15, 1), Sow(0, 0)]
      && SeedTotal(g) == 13
      && SeedTotal(o.finalState) == 3
  {
    var board: Board := seq(NumPits, i => if i == 13 then 2 else if i == 16 then 1 else if i == 31 then 10 else 0);
    var g := GameState(board, 0, 0, P1, Mtaji, false, None, GameStarts);
    var s0 := Lifted(board, 13);
    var s1 := SowStep(P1, s0);
    assert s1.seedsToSow == 1 && s1.pit == 14;
    var d := DropSeed(P1, s1);
    assert d.pit == 15 && d.board[15] == 1 && d.seedsToSow == 0;
    assert IsCapture(d.board, 15, P1);
    var s2 := SowStep(P1, s1);
    CaptureStep(P1, d);
    assert s2.seedsToSow == 1 && s2.pit == 15;
    var s3 := SowStep(P1, s2);
    var e := DropSeed(P1, s2);
    assert e.pit == 0 && e.board[0] == 1;
    LandingRules(P1, e);
    assert s3 == e;
    assert RunSowing(P1, s0, 3) == Some(s3);
    var o := ApplyMove(g, Move(13), 3);
    assert o.Finished? && o.moveSequence == s3.events;
    assert s3.events == [Lift(13, 2), Sow(14, 1), Sow(15, 0), Capture(16, 15, 1), Sow(0, 0)];
    // 13 seeds before the move
    var z: seq<nat> := seq(NumPits, _ => 0);
    SumAllEqual(z, 0);
    SumUpdate(z, 13, 2);
    SumUpdate(z[13 := 2], 16, 1);
    SumUpdate(z[13 := 2][16 := 1], 31, 10);
    assert board == z[13 := 2][16 := 1][31 := 10];
    assert SeedTotal(g) == 13;
    // 10 of them lost at the capture
    assert StepLoss(P1, s0) == 0;
    assert LandingLoss(P1, d) == 10;
    assert StepLoss(P1, s1) == 10;
    assert StepLoss(P1, s2) == 0;
    assert RunLoss(P1, s0, 3) == 10;
    assert MoveLoss(g, Move(13), 3) == 10;
    MoveConservation(g, Move(13), 3);
  }

  /** A capture that takes both pits: player 1 sows 2 seeds from pit 13 and
      the last lands in the empty pit 15, facing pit 16 (2 seeds) with pit 31
      (1 seed) behind it. Both are emptied, both capture events carry the
      catch of 3, and the 3 seeds are sown on from pit 15 into pits 0..2. */
  lemma CaptureSowsCatchOn()
    ensures
      var board: Board := seq(NumPits, i => if i == 13 then 2 else if i == 16 then 2 else if i == 31 then 1 else 0);
      var g := GameState(board, 0, 0, P1, Mtaji, false, None, GameStarts);
      var o := ApplyMove(g, Move(13), 5);
      && o.Finished?
      && o.moveSequence == [Lift(13, 2), Sow(14, 1), Sow(15, 0), Capture(16, 15, 3), Capture(31, 15, 3),
                            Sow(0, 2), Sow(1, 1), Sow(2, 0)]
      && o.finalState.board == seq(NumPits, i => if 0 <= i <= 2 || i == 14 || i == 15 then 1 else 0)
  {
    var board: Board := seq(NumPits, i => if i == 13 then 2 else if i == 16 then 2 else if i == 31 then 1 else 0);
    var s0 := Lifted(board, 13);
    var s1 := SowStep(P1, s0);
    assert s1.pit == 14 && s1.seedsToSow == 1;
    var d := DropSeed(P1, s1);
    assert d.pit == 15 && d.board[15] == 1 && IsCapture(d.board, 15, P1);
    CaptureStep(P1, d);
    var s2 := SowStep(P1, s1);
    assert s2.seedsToSow == 3 && s2.pit == 15;
    assert s2.board == seq(NumPits, i => if i == 14 || i == 15 then 1 else 0);
    var s3 := SowStep(P1, s2);
    assert s3.pit == 0 && s3.seedsToSow == 2;
    var s4 := SowStep(P1, s3);
    assert s4.pit == 1 && s4.seedsToSow == 1;
    var e := DropSeed(P1, s4);
    assert e.pit == 2 && e.board[2] == 1 && e.seedsToSow == 0;
    LandingRules(P1, e);
    var s5 := SowStep(P1, s4);
    assert s5 == e;
    assert s5.board == seq(NumPits, i => if 0 <= i <= 2 || i == 14 || i == 15 then 1 else 0);
    assert RunSowing(P1, s0, 5) == Some(s5);
  }

  /** The mover's own frozen pits still take seeds: player 1 sows 2 seeds
      from pit 7; the first goes into pit 8, which already holds 12 and so
      could not itself be lifted in 'mtaji', and it ends with 13. */
  lemma OwnFrozenPitStillSown()
    ensures
      var board: Board := seq(NumPits, i => if i == 7 then 2 else if i == 8 then 12 else 0);
      var g := GameState(board, 0, 0, P1, Mtaji, false, None, GameStarts);
      var o := ApplyMove(g, Move(7), 2);
      && !IsLegalMove(g, Move(8))
      && o.Finished?
      && o.moveSequence == [Lift(7, 2), Sow(8, 1), Sow(9, 0)]
      && o.finalState.board[8] == 13
  {
    var board: Board := seq(NumPits, i => if i == 7 then 2 else if i == 8 then 12 else 0);
    var s0 := Lifted(board, 7);
    var s1 := SowStep(P1, s0);
    assert s1.pit == 8 && s1.seedsToSow == 1 && s1.board[8] == 13;
    var d := DropSeed(P1, s1);
    assert d.pit == 9 && d.board[9] == 1 && d.seedsToSow == 0;
    assert !IsCapture(d.board, 9, P1);
    LandingRules(P1, d);
    var s2 := SowStep(P1, s1);
    assert s2 == d;
    assert RunSowing(P1, s0, 2) == Some(s2);
  }

  // ---------------------------------------------------------------------
  // End of turn
  // ---------------------------------------------------------------------

  /** After a legal move the game is over exactly when the next player has no
      non-empty inner pit and no outer pit holding 2..9; then the mover wins
      and keeps the turn, otherwise the turn passes and there is no winner.
      Hands and phase are untouched. */
  lemma MoveEndOfTurn(g: GameState, move: Move, fuel: nat)
    requires IsLegalMove(g, move) && ApplyMove(g, move, fuel).Finished?
    ensures
      var f := ApplyMove(g, move, fuel).finalState;
      var mover := g.currentPlayer;
      && (f.gameOver <==> !HasValidMoves(f.board, mover.Other()))
      && (f.gameOver ==> f.currentPlayer == mover && f.winner == Some(mover))
      && (!f.gameOver ==> f.currentPlayer == mover.Other() && f.winner == None)
      && f.phase == g.phase
      && f.p1SeedsInHand == g.p1SeedsInHand && f.p2SeedsInHand == g.p2SeedsInHand
  {
  }
}
