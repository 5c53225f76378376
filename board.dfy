/**
 * Queries on the outer track (`posiciones_de_tablero`): which tokens stand on each
 * square, blockades, room to place a token, and whether a path is clear.
 */
module Board {
  import opened Wrappers
  import opened Pieces

  /** For each of the 68 squares, the tokens standing on it in arrival order. */
  type Squares = seq<seq<Token>>

  /** `es_bloqueo`: the square holds exactly two tokens and both belong to one seat. */
  predicate IsBlockade(board: Squares, sq: int): (b: bool)
    requires 0 <= sq < |board|
    ensures b ==> !CanPlace(board, sq) && board[sq][0].owner == board[sq][1].owner
    ensures CanPlace(board, sq) ==> !b
  {
    |board[sq]| == 2 && board[sq][0].owner == board[sq][1].owner
  }

  /** `puede_colocar`: fewer than two tokens stand on the square, whoever owns them. */
  predicate CanPlace(board: Squares, sq: int): (b: bool)
    requires 0 <= sq < |board|
    ensures b <==> |board[sq]| <= 1
  {
    |board[sq]| < 2
  }

  /** No square strictly between `from` and `from + steps` is a blockade. */
  predicate PathClear(board: Squares, from: int, steps: int): (b: bool)
    requires |board| == TrackLen
    ensures steps <= 1 ==> b
    ensures b && steps >= 2 ==> !IsBlockade(board, Ahead(from, 1)) && !IsBlockade(board, Ahead(from, steps - 1))
  {
    forall i :: 1 <= i < steps ==> !IsBlockade(board, Ahead(from, i))
  }

  /**
   * `verificar_camino`: walks the squares 1 .. steps-1 ahead of `from` and stops at the
   * first blockade, which it reports; the start and the destination are never examined.
   */
  method CheckPath(board: Squares, from: int, steps: int) returns (clear: bool, blocked: Option<int>)
    requires |board| == TrackLen
    ensures clear <==> PathClear(board, from, steps)
    ensures clear ==> blocked == None
    ensures !clear ==> exists i :: 1 <= i < steps && blocked == Some(Ahead(from, i))
                                  && IsBlockade(board, Ahead(from, i))
                                  && forall j :: 1 <= j < i ==> !IsBlockade(board, Ahead(from, j))
  {
    var i := 1;
    while i < steps
      invariant 1 <= i
      invariant forall j :: 1 <= j < i ==> !IsBlockade(board, Ahead(from, j))
    {
      var sq := Ahead(from, i);
      if IsBlockade(board, sq) {
        return false, Some(sq);
      }
      i := i + 1;
    }
    return true, None;
  }

  /**
   * Whether a path is clear depends only on the squares strictly between its ends:
   * two boards that differ at most at the start and at the destination agree on it.
   */
  lemma PathIgnoresEnds(b1: Squares, b2: Squares, from: int, steps: int)
    requires |b1| == TrackLen && |b2| == TrackLen
    requires 0 <= from < TrackLen && 0 <= steps <= TrackLen
    requires forall sq :: 0 <= sq < TrackLen && sq != from && sq != Ahead(from, steps) ==> b1[sq] == b2[sq]
    ensures PathClear(b1, from, steps) <==> PathClear(b2, from, steps)
  {
    forall i | 1 <= i < steps
      ensures IsBlockade(b1, Ahead(from, i)) <==> IsBlockade(b2, Ahead(from, i))
    {
      AheadBetween(from, i, steps);
    }
  }

  /** Counting fewer than a full lap never comes back to the start or reaches the destination. */
  lemma AheadBetween(from: int, i: int, steps: int)
    requires 0 <= from < TrackLen && 1 <= i < steps <= TrackLen
    ensures Ahead(from, i) != from && Ahead(from, i) != Ahead(from, steps)
  {
    if from + i < TrackLen {
      assert Ahead(from, i) == from + i;
    } else {
      assert Ahead(from, i) == from + i - TrackLen;
    }
    if from + steps < TrackLen {
      assert Ahead(from, steps) == from + steps;
    } else {
      assert Ahead(from, steps) == from + steps - TrackLen;
    }
  }
}
