/** The 32-pit board shared by both Bao engines.

    Player 2's side (top rows as player 1 sees the board):
      31 30 29 28 27 26 25 24   outer row of player 2
      16 17 18 19 20 21 22 23   inner row of player 2
      15 14 13 12 11 10  9  8   inner row of player 1
       0  1  2  3  4  5  6  7   outer row of player 1

    A pit is addressed by its index; the two inner rows face each other. */
module BaoBoard {

  const NumPits: nat := 32
  const P1InnerRowStart: nat := 8
  const P1InnerRowEnd: nat := 15
  const P2InnerRowStart: nat := 16
  const P2InnerRowEnd: nat := 23

  /** Seeds per pit. */
  type Board = b: seq<nat> | |b| == NumPits witness seq(NumPits, _ => 0)

  datatype Player = P1 | P2 {
    /** The opponent. */
    function Other(): Player {
      if this == P1 then P2 else P1
    }
  }

  /** The total number of seeds on a board. */
  function Sum(s: seq<nat>): nat {
    if s == [] then 0 else s[0] + Sum(s[1..])
  }

  /** Player 1 owns pits 0..15, player 2 owns pits 16..31: every pit on the
      board belongs to exactly one player, the one on whose half it lies,
      and no index off the board belongs to anyone. */
  function IsPlayersPit(pitIndex: int, player: Player): (owned: bool)
    ensures owned ==> 0 <= pitIndex < NumPits
    ensures 0 <= pitIndex < NumPits ==> (owned <==> (pitIndex < NumPits / 2 <==> player == P1))
  {
    if player == P1 then 0 <= pitIndex <= 15 else 16 <= pitIndex <= 31
  }

  predicate InP1InnerRow(pitIndex: int) {
    P1InnerRowStart as int <= pitIndex <= P1InnerRowEnd as int
  }

  predicate InP2InnerRow(pitIndex: int) {
    P2InnerRowStart as int <= pitIndex <= P2InnerRowEnd as int
  }

  /** Either player's inner row: the pits that can freeze and take part in a capture. */
  predicate InInnerRow(pitIndex: int) {
    InP1InnerRow(pitIndex) || InP2InnerRow(pitIndex)
  }

  predicate InPlayersInnerRow(pitIndex: int, player: Player) {
    if player == P1 then InP1InnerRow(pitIndex) else InP2InnerRow(pitIndex)
  }

  /** Outer rows: 0..7 for player 1, 24..31 for player 2. */
  predicate InPlayersOuterRow(pitIndex: int, player: Player) {
    if player == P1 then 0 <= pitIndex <= 7 else 24 <= pitIndex <= 31
  }

  /** The eight pits of a player's inner row, in index order. */
  function InnerRowOf(board: Board, player: Player): seq<nat> {
    if player == P1 then board[P1InnerRowStart..P1InnerRowEnd + 1]
    else board[P2InnerRowStart..P2InnerRowEnd + 1]
  }

  /** A sequence of counts sums to 0 exactly when every count is 0. */
  lemma {:induction false} SumZero(s: seq<nat>)
    ensures Sum(s) == 0 <==> forall i | 0 <= i < |s| :: s[i] == 0
  {
    if s != [] {
      SumZero(s[1..]);
      if Sum(s) == 0 {
        forall i | 0 <= i < |s| ensures s[i] == 0 {
          if i > 0 {
            assert s[i] == s[1..][i - 1];
          }
        }
      } else if s[0] == 0 {
        var k :| 0 <= k < |s[1..]| && s[1..][k] != 0;
        assert s[k + 1] != 0;
      }
    }
  }

  /** Some pit of a player's inner row holds a seed exactly when the row's
      seeds sum to more than 0. */
  lemma InnerRowSeeds(board: Board, player: Player)
    ensures (exists i | 0 <= i < NumPits :: InPlayersInnerRow(i, player) && board[i] > 0)
        <==> Sum(InnerRowOf(board, player)) > 0
  {
    var row := InnerRowOf(board, player);
    var start: nat := if player == P1 then P1InnerRowStart else P2InnerRowStart;
    assert |row| == 8;
    assert forall k | 0 <= k < 8 :: row[k] == board[start + k];
    SumZero(row);
    if exists i | 0 <= i < NumPits :: InPlayersInnerRow(i, player) && board[i] > 0 {
      var i :| 0 <= i < NumPits && InPlayersInnerRow(i, player) && board[i] > 0;
      assert row[i - start] > 0;
    } else {
      forall k | 0 <= k < 8 ensures row[k] == 0 {
        assert InPlayersInnerRow(start + k, player);
      }
    }
  }

  /** The opponent's inner pit facing an inner pit; -1 for any other pit. */
  function OpponentPit(pitIndex: int): (facing: int)
    ensures InP1InnerRow(pitIndex) ==> InP2InnerRow(facing) && pitIndex + facing == 31
    ensures InP2InnerRow(pitIndex) ==> InP1InnerRow(facing) && pitIndex + facing == 31
    ensures !InInnerRow(pitIndex) ==> facing == -1
  {
    if InP1InnerRow(pitIndex) then
      P2InnerRowStart + (P1InnerRowEnd - pitIndex)
    else if InP2InnerRow(pitIndex) then
      P1InnerRowStart + (P2InnerRowEnd - pitIndex)
    else
      -1
  }

  /** Facing is symmetric: the pit facing the facing pit is the pit itself. */
  lemma OpponentPitInvolution(pitIndex: int)
    requires InInnerRow(pitIndex)
    ensures InInnerRow(OpponentPit(pitIndex))
    ensures OpponentPit(OpponentPit(pitIndex)) == pitIndex
    ensures InP1InnerRow(pitIndex) <==> !InP1InnerRow(OpponentPit(pitIndex))
  {
  }

  /** Overwriting one pit changes the total by the difference. */
  lemma {:induction false} SumUpdate(s: seq<nat>, i: nat, v: nat)
    requires i < |s|
    ensures Sum(s[i := v]) + s[i] == Sum(s) + v
  {
    if i == 0 {
      assert s[i := v][1..] == s[1..];
    } else {
      SumUpdate(s[1..], i - 1, v);
      assert s[i := v][1..] == s[1..][i - 1 := v];
    }
  }

  /** A board whose every pit holds c seeds holds |s| * c seeds in all. */
  lemma {:induction false} SumAllEqual(s: seq<nat>, c: nat)
    requires forall i :: 0 <= i < |s| ==> s[i] == c
    ensures Sum(s) == |s| * c
  {
    if s != [] {
      SumAllEqual(s[1..], c);
    }
  }
}
