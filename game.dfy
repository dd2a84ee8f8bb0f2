/** The game state both engines read and return, and the constructor both
    engine files define with the same body (server/bao-engine.js:29-67 and
    server/bao-engine/index.js:29-68; only the default game type differs, see
    BaoEngine.CreateDefaultGame and BaoDraft.CreateDefaultGame). */
module BaoGame {
  import opened Wrappers
  import opened BaoBoard

  /** 'namua' is the opening phase with seeds in hand; 'mtaji' is play from the board. */
  datatype Phase = Namua | Mtaji

  /** The human-readable message, kept as a tag: its wording is not modelled. */
  datatype Message =
    | GameStarts
    | NotYourPit
    | TooFewSeeds
    | PitFrozen
    | PlayerWins(winner: Player)
    | PlayerToMove(next: Player)

  datatype GameState = GameState(
    board: Board,
    p1SeedsInHand: nat,
    p2SeedsInHand: nat,
    currentPlayer: Player,
    phase: Phase,
    gameOver: bool,
    winner: Option<Player>,
    message: Message)

  datatype Move = Move(pitIndex: int)

  /** Seeds on the board plus seeds in both hands. */
  function SeedTotal(g: GameState): nat {
    Sum(g.board) + g.p1SeedsInHand + g.p2SeedsInHand
  }

  /** The 'kiswahili' opening layout: each house pit (11 and 19) holds 6 and
      the two pits after it hold 2. */
  function KiswahiliLayout(pitIndex: int): nat {
    if pitIndex == 11 || pitIndex == 19 then 6
    else if pitIndex == 12 || pitIndex == 13 || pitIndex == 20 || pitIndex == 21 then 2
    else 0
  }

  /** Builds the start state: 'kujifunza' fills every pit with 2 and starts in
      'mtaji'; any other game type uses the house layout with 22 seeds in each
      hand and starts in 'namua'. Both layouts hold 64 seeds. */
  method CreateGame(gameType: string) returns (g: GameState)
    ensures g.currentPlayer == P1 && !g.gameOver && g.winner == None && g.message == GameStarts
    ensures gameType == "kujifunza" ==>
      && (forall i :: 0 <= i < NumPits ==> g.board[i] == 2)
      && g.phase == Mtaji && g.p1SeedsInHand == 0 && g.p2SeedsInHand == 0
    ensures gameType != "kujifunza" ==>
      && (forall i :: 0 <= i < NumPits ==> g.board[i] == KiswahiliLayout(i))
      && g.phase == Namua && g.p1SeedsInHand == 22 && g.p2SeedsInHand == 22
    ensures SeedTotal(g) == 64
  {
    var board := new nat[NumPits](_ => 0);
    var p1SeedsInHand, p2SeedsInHand := 0, 0;
    var phase := Namua;
    if gameType == "kujifunza" {
      for i := 0 to NumPits
        invariant forall j :: 0 <= j < i ==> board[j] == 2
      {
        board[i] := 2;
      }
      phase := Mtaji;
      SumAllEqual(board[..], 2);
    } else {
      ghost var empty := board[..];
      SumAllEqual(empty, 0);
      var p1Nyumba, p2Nyumba := 11, 19;
      board[p1Nyumba] := 6;
      board[p1Nyumba + 1] := 2;
      board[p1Nyumba + 2] := 2;
      board[p2Nyumba] := 6;
      board[p2Nyumba + 1] := 2;
      board[p2Nyumba + 2] := 2;
      p1SeedsInHand, p2SeedsInHand := 22, 22;
      phase := Namua;
      KiswahiliLayoutTotal(board[..]);
    }
    g := GameState(board[..], p1SeedsInHand, p2SeedsInHand, P1, phase, false, None, GameStarts);
  }

  /** The house layout holds 20 seeds on the board. */
  lemma KiswahiliLayoutTotal(b: seq<nat>)
    requires |b| == NumPits
    requires forall i :: 0 <= i < NumPits ==> b[i] == KiswahiliLayout(i)
    ensures Sum(b) == 20
  {
    var z := seq(NumPits, _ => 0);
    SumAllEqual(z, 0);
    var s1 := z[11 := 6];
    SumUpdate(z, 11, 6);
    var s2 := s1[12 := 2];
    SumUpdate(s1, 12, 2);
    var s3 := s2[13 := 2];
    SumUpdate(s2, 13, 2);
    var s4 := s3[19 := 6];
    SumUpdate(s3, 19, 6);
    var s5 := s4[20 := 2];
    SumUpdate(s4, 20, 2);
    var s6 := s5[21 := 2];
    SumUpdate(s5, 21, 2);
    assert b == s6;
  }
}
