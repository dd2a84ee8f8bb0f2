/** The live Bao engine (server/bao-engine.js): move validation, the
    sow / relay / capture loop with its animation log, and the end-of-turn
    win test.

    The loop of makeMove has no evident variant (relays and captures can
    chain without end), so both its specification (RunSowing) and its
    implementation (MakeMove) take a fuel bound on the number of loop passes
    and report OutOfFuel when it is spent. */
module BaoEngine {
  import opened Wrappers
  import opened BaoBoard
  import opened BaoGame

  /** One entry of the move sequence consumed by the animation layer. */
  datatype Event =
    | Lift(fromPit: nat, count: nat)
    | Sow(toPit: nat, seedsLeft: nat)
    | Relay(fromPit: nat, count: nat)
    | Capture(fromPit: nat, toPit: nat, count: nat)

  datatype MoveOutcome =
    | Finished(finalState: GameState, moveSequence: seq<Event>)
    | OutOfFuel

  /** The working variables of the sowing loop: the board copy, the pit last
      sown, the seeds still in hand and the log so far. */
  datatype Sowing = Sowing(board: Board, pit: nat, seedsToSow: nat, events: seq<Event>)

  /** The first pit of a player's sowing cycle. */
  function CycleStart(player: Player): nat {
    if player == P1 then 0 else 16
  }

  // ---------------------------------------------------------------------
  // Index helpers
  // ---------------------------------------------------------------------

  /** The pit after currentPit on the mover's fixed cycle: 0..7, 8..15, back
      to 0 for player 1; 16..23, 24..31, back to 16 for player 2. Any index
      outside the mover's pits goes to the start of the cycle. */
  function NextPit(currentPit: int, player: Player): (next: nat)
    ensures IsPlayersPit(next, player)
    ensures IsPlayersPit(currentPit, player) ==>
      next == CycleStart(player) + (currentPit - CycleStart(player) + 1) % 16
  {
    if player == P1 then
      if 0 <= currentPit < 7 then currentPit + 1
      else if currentPit == 7 then 8
      else if 8 <= currentPit < 15 then currentPit + 1
      else if currentPit == 15 then 0
      else 0
    else
      if 16 <= currentPit < 23 then currentPit + 1
      else if currentPit == 23 then 24
      else if 24 <= currentPit < 31 then currentPit + 1
      else if currentPit == 31 then 16
      else 16
  }

  /** The opponent's outer pit in the same column as an inner pit: 15 - p for
      player 1's inner row, 47 - p for player 2's; -1 for any other pit. */
  function OpponentPitBehind(pitIndex: int): (behind: int)
    ensures InP1InnerRow(pitIndex) ==> InPlayersOuterRow(behind, P1) && behind == 15 - pitIndex
    ensures InP2InnerRow(pitIndex) ==> InPlayersOuterRow(behind, P2) && behind == 47 - pitIndex
    ensures !InInnerRow(pitIndex) ==> behind == -1
  {
    if InP1InnerRow(pitIndex) then
      match pitIndex
      case 8 => 7
      case 9 => 6
      case 10 => 5
      case 11 => 4
      case 12 => 3
      case 13 => 2
      case 14 => 1
      case 15 => 0
      case _ => 0
    else if InP2InnerRow(pitIndex) then
      match pitIndex
      case 16 => 31
      case 17 => 30
      case 18 => 29
      case 19 => 28
      case 20 => 27
      case 21 => 26
      case 22 => 25
      case 23 => 24
      case _ => 0
    else
      -1
  }

  /** A landing captures exactly when it is in the mover's inner row, the pit
      now holds 1 or at least 10 seeds, and the facing pit holds 1..9. */
  function IsCapture(board: Board, pitIndex: int, player: Player): (captures: bool)
    ensures captures <==>
      && InPlayersInnerRow(pitIndex, player)
      && (board[pitIndex] == 1 || board[pitIndex] >= 10)
      && 0 < board[OpponentPit(pitIndex)] < 10
  {
    var isPlayerInnerRow :=
      if player == P1 then InP1InnerRow(pitIndex) else InP2InnerRow(pitIndex);
    if !isPlayerInnerRow then false
    else if (board[pitIndex] > 1 && board[pitIndex] < 10) || board[pitIndex] == 0 then false
    else
      var opponentPit := OpponentPit(pitIndex);
      0 < board[opponentPit] < 10
  }

  // ---------------------------------------------------------------------
  // The sowing loop, one pass at a time
  // ---------------------------------------------------------------------

  /** The loop's start: the chosen pit emptied into the hand and logged. */
  function Lifted(board: Board, pitIndex: nat): Sowing
    requires pitIndex < NumPits
  {
    Sowing(board[pitIndex := 0], pitIndex, board[pitIndex], [Lift(pitIndex, board[pitIndex])])
  }

  /** Drop the next seed in the pit after the current one. */
  function DropSeed(player: Player, s: Sowing): Sowing
    requires s.seedsToSow > 0
  {
    var p := NextPit(s.pit, player);
    Sowing(s.board[p := s.board[p] + 1], p, s.seedsToSow - 1, s.events + [Sow(p, s.seedsToSow - 1)])
  }

  /** Lift the whole landing pit again and keep sowing from it. */
  function RelayFrom(s: Sowing): Sowing
    requires s.pit < NumPits
  {
    Sowing(s.board[s.pit := 0], s.pit, s.board[s.pit], s.events + [Relay(s.pit, s.board[s.pit])])
  }

  /** Take the facing pit and the pit behind it and sow the catch from the
      landing pit. A behind pit outside 1..9 is set to 0 before the catch is
      counted, so 10 or more seeds there leave the board uncounted. */
  function CaptureInto(player: Player, s: Sowing): (r: Sowing)
    requires s.pit < NumPits && IsCapture(s.board, s.pit, player)
    ensures r.pit == s.pit && r.seedsToSow > 0
    ensures r.board[OpponentPit(s.pit)] == 0
    ensures forall i | 0 <= i < NumPits :: r.board[i] <= s.board[i]
    ensures s.events < r.events
  {
    var opponentPit := OpponentPit(s.pit);
    var secondOpponentPit := OpponentPitBehind(opponentPit);
    var b1 := s.board[secondOpponentPit :=
      if 0 < s.board[secondOpponentPit] < 10 then s.board[secondOpponentPit] else 0];
    var capturedSeeds := b1[opponentPit] + b1[secondOpponentPit];
    if capturedSeeds > 0 then
      var b2 := b1[opponentPit := 0];
      var events := s.events + [Capture(opponentPit, s.pit, capturedSeeds)];
      if b2[secondOpponentPit] > 0 then
        Sowing(b2[secondOpponentPit := 0], s.pit, capturedSeeds,
               events + [Capture(secondOpponentPit, s.pit, capturedSeeds)])
      else
        Sowing(b2, s.pit, capturedSeeds, events)
    else
      // IsCapture has the facing pit holding 1..9, so the catch is never empty.
      assert false; s
  }

  /** The rules tried, in order, where the last seed landed: relay on 2..9;
      above 10 without a capture, stop in an inner row and relay elsewhere;
      otherwise capture when IsCapture holds; otherwise stop. */
  function ResolveLanding(player: Player, s: Sowing): (r: Sowing)
    requires s.pit < NumPits
    ensures r.pit == s.pit && s.events <= r.events
    ensures forall i | 0 <= i < NumPits :: r.board[i] <= s.board[i]
  {
    var count := s.board[s.pit];
    if 1 < count < 10 then
      RelayFrom(s)
    else if count > 10 && !IsCapture(s.board, s.pit, player) then
      if InP1InnerRow(s.pit) then s
      else if InP2InnerRow(s.pit) then s
      else RelayFrom(s)
    else if IsCapture(s.board, s.pit, player) then
      CaptureInto(player, s)
    else
      s
  }

  /** One pass of the loop body: drop a seed, and if it was the last one,
      apply the landing rules. */
  function SowStep(player: Player, s: Sowing): Sowing
    requires s.seedsToSow > 0
  {
    var d := DropSeed(player, s);
    if d.seedsToSow == 0 then ResolveLanding(player, d) else d
  }

  /** The loop run for at most fuel passes: None when seeds are still in hand
      after that many passes. */
  function RunSowing(player: Player, s: Sowing, fuel: nat): (r: Option<Sowing>)
    ensures r.Some? ==> r.value.seedsToSow == 0
    ensures fuel == 0 ==> (r.Some? <==> s.seedsToSow == 0)
    decreases fuel
  {
    if s.seedsToSow == 0 then Some(s)
    else if fuel == 0 then None
    else RunSowing(player, SowStep(player, s), fuel - 1)
  }

  // ---------------------------------------------------------------------
  // Validation, end of turn and the whole move
  // ---------------------------------------------------------------------

  /** The next player can still move: a non-empty inner pit, or an outer pit
      holding 2..9. Put the other way, the player is stuck exactly when each
      of its pits is empty or an outer pit holding 1 or at least 10. */
  function HasValidMoves(board: Board, player: Player): (has: bool)
    ensures !has <==> forall i | 0 <= i < NumPits && IsPlayersPit(i, player) ::
      board[i] == 0 || (InPlayersOuterRow(i, player) && (board[i] == 1 || board[i] >= 10))
  {
    || (exists i | 0 <= i < NumPits :: InPlayersInnerRow(i, player) && board[i] > 0)
    || (exists i | 0 <= i < NumPits :: InPlayersOuterRow(i, player) && 1 < board[i] < 10)
  }

  /** The state after the sowing loop: the turn passes unless the next player
      has no valid move, in which case the mover wins and keeps the turn. */
  function EndOfTurn(g: GameState, board: Board): (f: GameState)
    ensures f.board == board
    ensures f.gameOver <==> !HasValidMoves(board, g.currentPlayer.Other())
    ensures f.gameOver ==> f.winner == Some(g.currentPlayer) && f.currentPlayer == g.currentPlayer
                           && f.message == PlayerWins(g.currentPlayer)
    ensures !f.gameOver ==> f.winner == None && f.currentPlayer == g.currentPlayer.Other()
                            && f.message == PlayerToMove(g.currentPlayer.Other())
    ensures f.phase == g.phase && f.p1SeedsInHand == g.p1SeedsInHand && f.p2SeedsInHand == g.p2SeedsInHand
  {
    var player := g.currentPlayer;
    var nextPlayer := player.Other();
    var gameOver := !HasValidMoves(board, nextPlayer);
    var winner := if gameOver then Some(nextPlayer.Other()) else None;
    g.(board := board,
       currentPlayer := if gameOver then player else nextPlayer,
       gameOver := gameOver,
       winner := winner,
       message := if gameOver then PlayerWins(nextPlayer.Other()) else PlayerToMove(nextPlayer))
  }

  /** The whole move as a function of the state, the move and the fuel. A
      move never places seeds from a hand and never changes the phase; a game
      that a move ends is won by the mover; only a move that passed the
      game-over and ownership checks can run out of fuel. */
  function ApplyMove(g: GameState, move: Move, fuel: nat): (o: MoveOutcome)
    ensures o.Finished? ==>
      && o.finalState.phase == g.phase
      && o.finalState.p1SeedsInHand == g.p1SeedsInHand && o.finalState.p2SeedsInHand == g.p2SeedsInHand
    ensures o.Finished? && !g.gameOver && o.finalState.gameOver ==> o.finalState.winner == Some(g.currentPlayer)
    ensures o.OutOfFuel? ==> !g.gameOver && IsPlayersPit(move.pitIndex, g.currentPlayer)
  {
    var pitIndex := move.pitIndex;
    var player := g.currentPlayer;
    if g.gameOver then
      Finished(g, [])
    else if !IsPlayersPit(pitIndex, player) then
      Finished(g.(message := NotYourPit), [])
    else if g.board[pitIndex] < 2 && g.phase == Mtaji then
      Finished(g.(message := TooFewSeeds), [])
    else if g.board[pitIndex] >= 10 && g.phase == Mtaji && InP2InnerRow(pitIndex) then
      Finished(g.(message := PitFrozen), [])
    else if g.board[pitIndex] >= 10 && g.phase == Mtaji && InP1InnerRow(pitIndex) then
      Finished(g.(message := PitFrozen), [])
    else
      match RunSowing(player, Lifted(g.board, pitIndex), fuel)
      case None => OutOfFuel
      case Some(s) => Finished(EndOfTurn(g, s.board), s.events)
  }

  // ---------------------------------------------------------------------
  // The engine's imperative code
  // ---------------------------------------------------------------------

  /** The live file's createGame defaults to 'kujifunza', the all-2 layout. */
  method CreateDefaultGame() returns (g: GameState)
    ensures g.phase == Mtaji && forall i :: 0 <= i < NumPits ==> g.board[i] == 2
    ensures g.currentPlayer == P1 && !g.gameOver && SeedTotal(g) == 64
  {
    g := CreateGame("kujifunza");
  }

  /** Scans the next player's inner row, then outer row, for a pit that can
      still be sown. */
  method CheckWinCondition(board: Board, nextPlayer: Player) returns (gameOver: bool, winner: Option<Player>)
    ensures gameOver <==> !HasValidMoves(board, nextPlayer)
    ensures winner == if gameOver then Some(nextPlayer.Other()) else None
  {
    var innerRowStart := if nextPlayer == P1 then P1InnerRowStart else P2InnerRowStart;
    var innerRowEnd := if nextPlayer == P1 then P1InnerRowEnd else P2InnerRowEnd;
    var outerRowStart: nat := if nextPlayer == P1 then 0 else 24;
    var outerRowEnd: nat := if nextPlayer == P1 then 7 else 31;

    var hasValidMoves := false;
    var i := innerRowStart;
    while i <= innerRowEnd
      invariant innerRowStart <= i <= innerRowEnd + 1
      invariant hasValidMoves ==> HasValidMoves(board, nextPlayer)
      invariant !hasValidMoves ==> forall j :: innerRowStart <= j < i ==> board[j] == 0
    {
      if board[i] > 0 {
        hasValidMoves := true;
        break;
      }
      i := i + 1;
    }

    i := outerRowStart;
    while i <= outerRowEnd
      invariant outerRowStart <= i <= outerRowEnd + 1
      invariant hasValidMoves ==> HasValidMoves(board, nextPlayer)
      invariant !hasValidMoves ==> forall j :: innerRowStart <= j <= innerRowEnd ==> board[j] == 0
      invariant !hasValidMoves ==> forall j :: outerRowStart <= j < i ==> !(1 < board[j] < 10)
    {
      if board[i] > 1 && board[i] < 10 {
        hasValidMoves := true;
        break;
      }
      i := i + 1;
    }

    if !hasValidMoves {
      return true, Some(nextPlayer.Other());
    }
    return false, None;
  }

  /** The first half of the loop body: advance, drop one seed, log it. */
  method SowOneSeed(newBoard: array<nat>, player: Player, currentPit: nat, seedsToSow: nat, moveSequence: seq<Event>)
    returns (pit: nat, seedsLeft: nat, events: seq<Event>)
    requires newBoard.Length == NumPits && seedsToSow > 0
    modifies newBoard
    ensures pit < NumPits
    ensures Sowing(newBoard[..], pit, seedsLeft, events)
         == DropSeed(player, Sowing(old(newBoard[..]), currentPit, seedsToSow, moveSequence))
  {
    pit := NextPit(currentPit, player);
    newBoard[pit] := newBoard[pit] + 1;
    seedsLeft := seedsToSow - 1;
    events := moveSequence + [Sow(pit, seedsLeft)];
  }

  /** The second half of the loop body, run when the last seed has landed in
      currentPit: relay, stop, or capture. */
  method ApplyLandingRules(newBoard: array<nat>, player: Player, currentPit: nat, moveSequence: seq<Event>)
    returns (seedsToSow: nat, events: seq<Event>)
    requires newBoard.Length == NumPits && currentPit < NumPits
    modifies newBoard
    ensures Sowing(newBoard[..], currentPit, seedsToSow, events)
         == ResolveLanding(player, Sowing(old(newBoard[..]), currentPit, 0, moveSequence))
  {
    seedsToSow, events := 0, moveSequence;
    if newBoard[currentPit] > 1 && newBoard[currentPit] < 10 {
      seedsToSow := newBoard[currentPit];
      newBoard[currentPit] := 0;
      events := events + [Relay(currentPit, seedsToSow)];
    } else if newBoard[currentPit] > 10 && !IsCapture(newBoard[..], currentPit, player) {
      if InP1InnerRow(currentPit) {
      } else if InP2InnerRow(currentPit) {
      } else {
        seedsToSow := newBoard[currentPit];
        newBoard[currentPit] := 0;
        events := events + [Relay(currentPit, seedsToSow)];
      }
    } else if IsCapture(newBoard[..], currentPit, player) {
      seedsToSow, events := CaptureOpposite(newBoard, player, currentPit, moveSequence);
    }
  }

  /** The capture branch: empty the facing pit and the pit behind it into the
      hand and log one capture event per emptied pit. */
  method CaptureOpposite(newBoard: array<nat>, player: Player, currentPit: nat, moveSequence: seq<Event>)
    returns (seedsToSow: nat, events: seq<Event>)
    requires newBoard.Length == NumPits && currentPit < NumPits
    requires IsCapture(newBoard[..], currentPit, player)
    modifies newBoard
    ensures Sowing(newBoard[..], currentPit, seedsToSow, events)
         == CaptureInto(player, Sowing(old(newBoard[..]), currentPit, 0, moveSequence))
  {
    seedsToSow, events := 0, moveSequence;
    var opponentPit := OpponentPit(currentPit);
    var secondOpponentPit := OpponentPitBehind(opponentPit);
    newBoard[secondOpponentPit] :=
      if newBoard[secondOpponentPit] > 0 && newBoard[secondOpponentPit] < 10
      then newBoard[secondOpponentPit] else 0;
    var capturedSeeds := newBoard[opponentPit] + newBoard[secondOpponentPit];
    if capturedSeeds > 0 {
      newBoard[opponentPit] := 0;
      seedsToSow := capturedSeeds;
      events := events + [Capture(opponentPit, currentPit, capturedSeeds)];
      if newBoard[secondOpponentPit] > 0 {
        newBoard[secondOpponentPit] := 0;
        events := events + [Capture(secondOpponentPit, currentPit, capturedSeeds)];
      }
    }
  }

  /** makeMove: validates the move, runs the sowing loop on a copy of the
      board in an array (at most fuel passes), and ends the turn. */
  method MakeMove(gameState: GameState, move: Move, fuel: nat) returns (outcome: MoveOutcome)
    ensures outcome == ApplyMove(gameState, move, fuel)
  {
    var pitIndex := move.pitIndex;
    var player := gameState.currentPlayer;

    if gameState.gameOver {
      return Finished(gameState, []);
    }
    if !IsPlayersPit(pitIndex, player) {
      return Finished(gameState.(message := NotYourPit), []);
    }
    if gameState.board[pitIndex] < 2 && gameState.phase == Mtaji {
      return Finished(gameState.(message := TooFewSeeds), []);
    }
    if gameState.board[pitIndex] >= 10 && gameState.phase == Mtaji && InP2InnerRow(pitIndex) {
      return Finished(gameState.(message := PitFrozen), []);
    }
    if gameState.board[pitIndex] >= 10 && gameState.phase == Mtaji && InP1InnerRow(pitIndex) {
      return Finished(gameState.(message := PitFrozen), []);
    }

    var newBoard := new nat[NumPits](i => if 0 <= i < NumPits then gameState.board[i] else 0);
    assert newBoard[..] == gameState.board;
    var seedsToSow := newBoard[pitIndex];
    newBoard[pitIndex] := 0;
    var currentPit: nat := pitIndex;
    var moveSequence := [Lift(pitIndex, seedsToSow)];
    var fuelLeft := fuel;

    while seedsToSow > 0
      invariant currentPit < NumPits
      invariant RunSowing(player, Sowing(newBoard[..], currentPit, seedsToSow, moveSequence), fuelLeft)
             == RunSowing(player, Lifted(gameState.board, pitIndex), fuel)
      decreases fuelLeft
    {
      if fuelLeft == 0 {
        return OutOfFuel;
      }
      ghost var before := Sowing(newBoard[..], currentPit, seedsToSow, moveSequence);
      currentPit, seedsToSow, moveSequence := SowOneSeed(newBoard, player, currentPit, seedsToSow, moveSequence);
      if seedsToSow == 0 {
        seedsToSow, moveSequence := ApplyLandingRules(newBoard, player, currentPit, moveSequence);
      }
      assert Sowing(newBoard[..], currentPit, seedsToSow, moveSequence) == SowStep(player, before);
      fuelLeft := fuelLeft - 1;
    }

    ghost var sown := Sowing(newBoard[..], currentPit, seedsToSow, moveSequence);
    assert RunSowing(player, Lifted(gameState.board, pitIndex), fuel) == Some(sown);
    var gameOver, winner := CheckWinCondition(newBoard[..], player.Other());
    outcome := Finished(gameState.(
      board := newBoard[..],
      currentPlayer := if gameOver then player else player.Other(),
      gameOver := gameOver,
      winner := winner,
      message := if gameOver then PlayerWins(player) else PlayerToMove(player.Other())), moveSequence);
    assert outcome.finalState == EndOfTurn(gameState, sown.board);
  }
}
