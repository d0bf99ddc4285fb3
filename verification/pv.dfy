/** The principal-variation text appended to evaluation messages
    (chatter.py:414-442). Moves arrive as SAN strings already computed by the
    chess library; the board is reduced to the two facts the text needs. */
module Pv {
  import opened Numerals

  /** Longest PV text, in characters, that a move may extend
      (chatter.py:437). */
  const Budget: nat := 140

  /** The side to move and the full-move number of a position. */
  datatype Board = Board(whiteToMove: bool, fullmove: int)

  /** Playing one move: the side to move changes, and the move number grows
      after Black has moved. */
  function Push(b: Board): Board {
    if b.whiteToMove then Board(false, b.fullmove) else Board(true, b.fullmove + 1)
  }

  /** Taking the last move back (`board.pop()`, chatter.py:422-423). */
  function Unpush(b: Board): Board {
    if b.whiteToMove then Board(false, b.fullmove - 1) else Board(true, b.fullmove)
  }

  /** Taking a move back undoes playing it, and the other way round. */
  lemma PushUnpushInverse(b: Board)
    ensures Unpush(Push(b)) == b
    ensures Push(Unpush(b)) == b
  {
  }

  /** The text one move contributes (chatter.py:434-435): its number before a
      White move, then the move itself, each after a space. */
  function MovePiece(san: string, b: Board): string {
    (if b.whiteToMove then " " + IntToString(b.fullmove) + "." else "") + " " + san
  }

  /** The rendering of a whole move list from `b`, with no budget. This is
      the reference the truncated text is measured against. */
  function Rendering(moves: seq<string>, b: Board): string
    decreases |moves|
  {
    if |moves| == 0 then "" else MovePiece(moves[0], b) + Rendering(moves[1..], Push(b))
  }

  /** The fixed beginning of the PV text (chatter.py:418-430): the incoming
      message and a space when it is not empty, then `PV:` when White is to
      move or `PV: N...` when Black is. */
  function Header(initial: string, b: Board): string {
    (if initial == "" then "" else initial + " ")
    + (if b.whiteToMove then "PV:" else "PV: " + IntToString(b.fullmove) + "...")
  }

  /** The position the PV is shown from (chatter.py:421-427). The PV's
      first move is the bot's move, already played, so its second move is
      the opponent's reply. When it is the bot's turn, the opponent has
      already replied, and that last move is taken back first. Either way
      the rendering starts right after the bot's own move. */
  function PvBoard(board: Board, isOurTurn: bool): Board {
    if isOurTurn then Unpush(board) else board
  }

  /** The loop of chatter.py:432-440: each move is added while the text stays
      within the budget; the first move that would overflow ends it. */
  function Fit(acc: string, moves: seq<string>, b: Board): (r: string)
    ensures acc <= r
    ensures r == acc || |r| <= Budget
    decreases |moves|
  {
    if |moves| == 0 then acc
    else
      var next := acc + MovePiece(moves[0], b);
      if |next| > Budget then acc else Fit(next, moves[1..], Push(b))
  }

  /** `_append_pv(initial)` (chatter.py:414-442). `pv` is the engine's last
      principal variation; its first move is the one already decided and is
      not shown. */
  function AppendPv(initial: string, pv: seq<string>, isOurTurn: bool, board: Board): (r: string)
    ensures |pv| < 2 ==> r == initial
    ensures initial <= r
    ensures |pv| >= 2 ==> Header(initial, PvBoard(board, isOurTurn)) <= r
    ensures |pv| >= 2 && |r| > |Header(initial, PvBoard(board, isOurTurn))| ==> |r| <= Budget
  {
    if |pv| < 2 then initial
    else
      var b := PvBoard(board, isOurTurn);
      Fit(Header(initial, b), pv[1..], b)
  }

  /** `k` moves of `moves` were shown: every prefix of up to `k` moves fits
      the budget, and the next move, if any, does not. */
  predicate StopsAt(acc: string, moves: seq<string>, b: Board, k: nat)
    requires k <= |moves|
  {
    && (forall j :: 0 < j <= k ==> |acc + Rendering(moves[..j], b)| <= Budget)
    && (k < |moves| ==> |acc + Rendering(moves[..k + 1], b)| > Budget)
  }

  /** Rendering the first `j` moves is rendering the first, then the next
      `j - 1` from the position after it. */
  lemma RenderingCons(moves: seq<string>, b: Board, j: nat)
    requires 0 < j <= |moves|
    ensures Rendering(moves[..j], b) == MovePiece(moves[0], b) + Rendering(moves[1..][..j - 1], Push(b))
  {
    assert moves[..j][1..] == moves[1..][..j - 1];
  }

  /** Rendering a prefix of `j` moves from `b` is the first move's piece
      followed by the rendering of `j - 1` moves of the rest. */
  lemma PrefixShift(acc: string, moves: seq<string>, b: Board)
    requires |moves| > 0
    ensures forall j :: 0 < j <= |moves| ==>
      acc + Rendering(moves[..j], b) == (acc + MovePiece(moves[0], b)) + Rendering(moves[1..][..j - 1], Push(b))
  {
    forall j | 0 < j <= |moves|
      ensures acc + Rendering(moves[..j], b) == (acc + MovePiece(moves[0], b)) + Rendering(moves[1..][..j - 1], Push(b))
    {
      RenderingCons(moves, b, j);
    }
  }

  /** When the first move fits, the rest of the loop stopping after `k'`
      moves means the whole loop stops after `k' + 1`. */
  lemma StopsAtStep(acc: string, moves: seq<string>, b: Board, k': nat)
    requires |moves| > 0 && k' <= |moves| - 1
    requires |acc + MovePiece(moves[0], b)| <= Budget
    requires StopsAt(acc + MovePiece(moves[0], b), moves[1..], Push(b), k')
    ensures StopsAt(acc, moves, b, k' + 1)
  {
    var next, rest, k := acc + MovePiece(moves[0], b), moves[1..], k' + 1;
    PrefixShift(acc, moves, b);
    forall j | 0 < j <= k
      ensures |acc + Rendering(moves[..j], b)| <= Budget
    {
      if j == 1 {
        assert rest[..0] == [];
      }
    }
  }

  /** When even the first move overflows, the loop stops after no move. */
  lemma StopsAtFirst(acc: string, moves: seq<string>, b: Board)
    requires |moves| > 0
    requires |acc + MovePiece(moves[0], b)| > Budget
    ensures StopsAt(acc, moves, b, 0)
  {
    RenderingCons(moves, b, 1);
    assert moves[1..][..0] == [];
  }

  /** The loop yields the reference rendering of exactly the longest prefix
      of moves that fits, stopping at the first overflow: no partial move,
      and no later move even if it would fit. */
  lemma {:induction false} FitSpec(acc: string, moves: seq<string>, b: Board)
    ensures exists k :: 0 <= k <= |moves| && Fit(acc, moves, b) == acc + Rendering(moves[..k], b) && StopsAt(acc, moves, b, k)
    decreases |moves|
  {
    assert moves[..0] == [];
    if |moves| == 0 {
      assert StopsAt(acc, moves, b, 0);
    } else if |acc + MovePiece(moves[0], b)| > Budget {
      StopsAtFirst(acc, moves, b);
    } else {
      var next, rest := acc + MovePiece(moves[0], b), moves[1..];
      FitSpec(next, rest, Push(b));
      var k' :| 0 <= k' <= |rest| && Fit(next, rest, Push(b)) == next + Rendering(rest[..k'], Push(b)) && StopsAt(next, rest, Push(b), k');
      PrefixShift(acc, moves, b);
      StopsAtStep(acc, moves, b, k');
      assert Fit(acc, moves, b) == acc + Rendering(moves[..k' + 1], b);
    }
  }

  /** The PV text is the header followed by the reference rendering of the
      longest prefix of the shown moves that fits; when even the first move
      overflows, the header alone (chatter.py:432). */
  lemma AppendPvShape(initial: string, pv: seq<string>, isOurTurn: bool, board: Board)
    requires |pv| >= 2
    ensures var b := PvBoard(board, isOurTurn);
      exists k :: 0 <= k <= |pv| - 1
        && AppendPv(initial, pv, isOurTurn, board) == Header(initial, b) + Rendering(pv[1..][..k], b)
        && StopsAt(Header(initial, b), pv[1..], b, k)
  {
    var b := PvBoard(board, isOurTurn);
    FitSpec(Header(initial, b), pv[1..], b);
  }

  /** `_append_pv()` with no incoming message is empty exactly when the PV
      has fewer than two moves, which is when `!pv` answers
      "No PV available." (chatter.py:145-146). */
  lemma NoPvIffShort(pv: seq<string>, isOurTurn: bool, board: Board)
    ensures AppendPv("", pv, isOurTurn, board) == "" <==> |pv| < 2
  {
    if |pv| >= 2 {
      var h := Header("", PvBoard(board, isOurTurn));
      assert |h| > 0;
    }
  }
}
