/** The earlier draft of the engine (server/bao-engine/index.js): the same
    validation without the frozen-pit rule, a relay on any landing above 1
    seed, a capture that only removes the facing pit's seeds, a different
    sowing path, and a win test on the inner row alone. It produces no event
    log. As in BaoEngine, the sowing loop runs under a fuel bound. */
module BaoDraft {
  import opened Wrappers
  import opened BaoBoard
  import opened BaoGame

  datatype MoveOutcome = Finished(finalState: GameState) | OutOfFuel

  /** The working variables of the sowing loop. */
  datatype Sowing = Sowing(board: Board, pit: nat, seedsToSow: nat)

  /** The draft's sowing path: player 1 goes 0..7, jumps 7 to 15 and wraps
      15 to 0; player 2 goes 16..23, jumps 23 to 31 and wraps 31 to 16. Every
      other pit steps to the next index. */
  function NextPit(currentPit: int, player: Player): (next: int)
    ensures IsPlayersPit(currentPit, player) ==> IsPlayersPit(next, player) && next != currentPit
  {
    if player == P1 then
      if currentPit == 15 then 0
      else if currentPit == 7 then 15
      else if currentPit > 7 then currentPit + 1
      else currentPit + 1
    else
      if currentPit == 31 then 16
      else if currentPit == 23 then 31
      else if currentPit > 23 then currentPit + 1
      else currentPit + 1
  }

  /** The draft captures only when the last seed made an own inner pit hold
      exactly 1 and the facing pit is not empty. */
  function IsCapture(board: Board, pitIndex: int, player: Player): (captures: bool)
    ensures captures <==>
      && InPlayersInnerRow(pitIndex, player)
      && board[pitIndex] == 1
      && board[OpponentPit(pitIndex)] > 0
  {
    var isPlayerInnerRow :=
      if player == P1 then InP1InnerRow(pitIndex) else InP2InnerRow(pitIndex);
    if !isPlayerInnerRow || board[pitIndex] != 1 then false
    else
      var opponentPit := OpponentPit(pitIndex);
      board[opponentPit] > 0
  }

  /** The chosen pit emptied into the hand. */
  function Lifted(board: Board, pitIndex: nat): Sowing
    requires pitIndex < NumPits
  {
    Sowing(board[pitIndex := 0], pitIndex, board[pitIndex])
  }

  function DropSeed(player: Player, s: Sowing): (r: Sowing)
    requires IsPlayersPit(s.pit, player) && s.seedsToSow > 0
    ensures IsPlayersPit(r.pit, player)
  {
    var p := NextPit(s.pit, player);
    Sowing(s.board[p := s.board[p] + 1], p, s.seedsToSow - 1)
  }

  /** Where the last seed landed: relay when the pit now holds more than 1;
      otherwise, on a capture, empty the facing pit and end the move. Seeds
      only ever leave the board here, and the hand changes only by taking up
      the whole landing pit. */
  function ResolveLanding(player: Player, s: Sowing): (r: Sowing)
    requires s.pit < NumPits
    ensures r.pit == s.pit
    ensures forall i | 0 <= i < NumPits :: r.board[i] <= s.board[i]
    ensures r.seedsToSow != s.seedsToSow ==> r.seedsToSow == s.board[s.pit] && r.board[s.pit] == 0
  {
    if s.board[s.pit] > 1 then
      Sowing(s.board[s.pit := 0], s.pit, s.board[s.pit])
    else if IsCapture(s.board, s.pit, player) then
      var opponentPit := OpponentPit(s.pit);
      Sowing(s.board[opponentPit := 0], s.pit, s.seedsToSow)
    else
      s
  }

  /** One pass of the loop body. */
  function SowStep(player: Player, s: Sowing): (r: Sowing)
    requires IsPlayersPit(s.pit, player) && s.seedsToSow > 0
    ensures IsPlayersPit(r.pit, player)
  {
    var d := DropSeed(player, s);
    if d.seedsToSow == 0 then ResolveLanding(player, d) else d
  }

  /** The loop run for at most fuel passes. */
  function RunSowing(player: Player, s: Sowing, fuel: nat): (r: Option<Sowing>)
    requires IsPlayersPit(s.pit, player)
    ensures r.Some? ==> r.value.seedsToSow == 0 && IsPlayersPit(r.value.pit, player)
    decreases fuel
  {
    if s.seedsToSow == 0 then Some(s)
    else if fuel == 0 then None
    else RunSowing(player, SowStep(player, s), fuel - 1)
  }

  /** The draft's only test for the next player: a seed in the inner row,
      that is, the inner row's seeds add up to more than 0. */
  function HasSeedsInInnerRow(board: Board, player: Player): (has: bool)
    ensures has <==> Sum(InnerRowOf(board, player)) > 0
  {
    InnerRowSeeds(board, player);
    exists i | 0 <= i < NumPits :: InPlayersInnerRow(i, player) && board[i] > 0
  }

  function EndOfTurn(g: GameState, board: Board): (f: GameState)
    ensures f.board == board
    ensures f.gameOver <==> !HasSeedsInInnerRow(board, g.currentPlayer.Other())
    ensures f.gameOver ==> f.winner == Some(g.currentPlayer) && f.currentPlayer == g.currentPlayer
                           && f.message == PlayerWins(g.currentPlayer)
    ensures !f.gameOver ==> f.winner == None && f.currentPlayer == g.currentPlayer.Other()
                            && f.message == PlayerToMove(g.currentPlayer.Other())
    ensures f.phase == g.phase && f.p1SeedsInHand == g.p1SeedsInHand && f.p2SeedsInHand == g.p2SeedsInHand
  {
    var player := g.currentPlayer;
    var nextPlayer := player.Other();
    var gameOver := !HasSeedsInInnerRow(board, nextPlayer);
    var winner := if gameOver then Some(nextPlayer.Other()) else None;
    g.(board := board,
       currentPlayer := if gameOver then player else nextPlayer,
       gameOver := gameOver,
       winner := winner,
       message := if gameOver then PlayerWins(nextPlayer.Other()) else PlayerToMove(nextPlayer))
  }

  /** The whole draft move as a function of the state, the move and the fuel.
      As in the live engine, hands and phase never change, a game that a move
      ends is won by the mover, and only a move on an own pit of a running
      game can run out of fuel. */
  function ApplyMove(g: GameState, move: Move, fuel: nat): (o: MoveOutcome)
    ensures o.Finished? ==>
      && o.finalState.phase == g.phase
      && o.finalState.p1SeedsInHand == g.p1SeedsInHand && o.finalState.p2SeedsInHand == g.p2SeedsInHand
    ensures o.Finished? && !g.gameOver && o.finalState.gameOver ==> o.finalState.winner == Some(g.currentPlayer)
    ensures o.OutOfFuel? ==> !g.gameOver && IsPlayersPit(move.pitIndex, g.currentPlayer)
  {
    var pitIndex := move.pitIndex;
    var player := g.currentPlayer;
    if g.gameOver then
      Finished(g)
    else if !IsPlayersPit(pitIndex, player) then
      Finished(g.(message := NotYourPit))
    else if g.board[pitIndex] < 2 && g.phase == Mtaji then
      Finished(g.(message := TooFewSeeds))
    else
      match RunSowing(player, Lifted(g.board, pitIndex), fuel)
      case None => OutOfFuel
      case Some(s) => Finished(EndOfTurn(g, s.board))
  }

  // ---------------------------------------------------------------------
  // The draft's imperative code
  // ---------------------------------------------------------------------

  /** The draft's createGame defaults to 'kiswahili', the house layout. */
  method CreateDefaultGame() returns (g: GameState)
    ensures g.phase == Namua && g.p1SeedsInHand == 22 && g.p2SeedsInHand == 22
    ensures forall i :: 0 <= i < NumPits ==> g.board[i] == KiswahiliLayout(i)
    ensures g.currentPlayer == P1 && !g.gameOver && SeedTotal(g) == 64
  {
    g := CreateGame("kiswahili");
  }

  /** Scans the next player's inner row for a seed. */
  method CheckWinCondition(board: Board, nextPlayer: Player) returns (gameOver: bool, winner: Option<Player>)
    ensures gameOver <==> !HasSeedsInInnerRow(board, nextPlayer)
    ensures winner == if gameOver then Some(nextPlayer.Other()) else None
  {
    var innerRowStart := if nextPlayer == P1 then P1InnerRowStart else P2InnerRowStart;
    var innerRowEnd := if nextPlayer == P1 then P1InnerRowEnd else P2InnerRowEnd;

    var hasSeedsInInnerRow := false;
    var i := innerRowStart;
    while i <= innerRowEnd
      invariant innerRowStart <= i <= innerRowEnd + 1
      invariant hasSeedsInInnerRow ==> HasSeedsInInnerRow(board, nextPlayer)
      invariant !hasSeedsInInnerRow ==> forall j :: innerRowStart <= j < i ==> board[j] == 0
    {
      if board[i] > 0 {
        hasSeedsInInnerRow := true;
        break;
      }
      i := i + 1;
    }

    if !hasSeedsInInnerRow {
      return true, Some(nextPlayer.Other());
    }
    return false, None;
  }

  /** The loop body on the array: drop a seed and, if it was the last one,
      relay or capture. */
  method SowOneSeed(newBoard: array<nat>, player: Player, currentPit: nat, seedsToSow: nat)
    returns (pit: nat, seedsLeft: nat)
    requires newBoard.Length == NumPits && IsPlayersPit(currentPit, player) && seedsToSow > 0
    modifies newBoard
    ensures Sowing(newBoard[..], pit, seedsLeft)
         == SowStep(player, Sowing(old(newBoard[..]), currentPit, seedsToSow))
  {
    pit := NextPit(currentPit, player);
    newBoard[pit] := newBoard[pit] + 1;
    seedsLeft := seedsToSow - 1;
    ghost var dropped := Sowing(newBoard[..], pit, seedsLeft);

    if seedsLeft == 0 {
      if newBoard[pit] > 1 {
        seedsLeft := newBoard[pit];
        newBoard[pit] := 0;
      } else if IsCapture(newBoard[..], pit, player) {
        var opponentPit := OpponentPit(pit);
        newBoard[opponentPit] := 0;
      }
      assert Sowing(newBoard[..], pit, seedsLeft) == ResolveLanding(player, dropped);
    }
  }

  /** makeMove of the draft: validates, sows on a copy of the board in an
      array (at most fuel passes) and ends the turn. */
  method MakeMove(gameState: GameState, move: Move, fuel: nat) returns (outcome: MoveOutcome)
    ensures outcome == ApplyMove(gameState, move, fuel)
  {
    var pitIndex := move.pitIndex;
    var player := gameState.currentPlayer;

    if gameState.gameOver {
      return Finished(gameState);
    }
    if !IsPlayersPit(pitIndex, player) {
      return Finished(gameState.(message := NotYourPit));
    }
    if gameState.board[pitIndex] < 2 && gameState.phase == Mtaji {
      return Finished(gameState.(message := TooFewSeeds));
    }

    var newBoard := new nat[NumPits](i => if 0 <= i < NumPits then gameState.board[i] else 0);
    assert newBoard[..] == gameState.board;
    var seedsToSow := newBoard[pitIndex];
    newBoard[pitIndex] := 0;
    var currentPit: nat := pitIndex;
    var fuelLeft := fuel;

    while seedsToSow > 0
      invariant IsPlayersPit(currentPit, player)
      invariant RunSowing(player, Sowing(newBoard[..], currentPit, seedsToSow), fuelLeft)
             == RunSowing(player, Lifted(gameState.board, pitIndex), fuel)
      decreases fuelLeft
    {
      if fuelLeft == 0 {
        return OutOfFuel;
      }
      currentPit, seedsToSow := SowOneSeed(newBoard, player, currentPit, seedsToSow);
      fuelLeft := fuelLeft - 1;
    }

    var gameOver, winner := CheckWinCondition(newBoard[..], player.Other());
    outcome := Finished(gameState.(
      board := newBoard[..],
      currentPlayer := if gameOver then player else player.Other(),
      gameOver := gameOver,
      winner := winner,
      message := if gameOver then PlayerWins(player) else PlayerToMove(player.Other())));
  }
}
