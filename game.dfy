/**
 * The program's module-level game data (`posiciones_de_tablero`, every `Ficha.estado`
 * and the `Jugador` counters) as one object, and `mover_ficha` as the method that
 * updates it in place.
 */
module Game {
  import opened Wrappers
  import opened Seqs
  import opened Pieces
  import opened Board
  import opened Rules

  class GameState {
    var board: Squares                // posiciones_de_tablero
    var locs: map<Token, Location>    // Ficha.estado of every token
    var bonus: seq<int>               // Jugador.movimientos_extra
    var streak: seq<int>              // Jugador.contador_dobles
    var lastMoved: seq<Option<Token>> // Jugador.ultima_ficha_movida

    /** The data `mover_ficha` works on, as a value. */
    function Snapshot(): State
      reads this
    {
      State(board, locs, bonus, lastMoved)
    }

    ghost predicate Valid()
      reads this
    {
      Consistent(Snapshot()) && |streak| == Players
    }

    /** The game as the program sets it up: all tokens in jail, nothing on the board, all counters zero. */
    constructor ()
      ensures Valid()
      ensures Snapshot() == Initial() && streak == [0, 0, 0, 0]
      ensures forall t :: ValidToken(t) ==> locs[t] == Jail
    {
      var s := Initial();
      board, locs, bonus, lastMoved := s.board, s.locs, s.bonus, s.lastMoved;
      streak := [0, 0, 0, 0];
      InitialConsistent();
    }

    /** `Jugador.todas_llegaron` for seat `p`: scans its tokens and stops at the first one not at the goal. */
    method AllTokensArrived(p: nat) returns (done: bool)
      requires Valid() && p < Players
      ensures done <==> AllArrived(Snapshot(), p)
    {
      var i := 0;
      while i < TokensPerPlayer
        invariant 0 <= i <= TokensPerPlayer
        invariant forall j :: 0 <= j < i ==> locs[Token(p, j)] == Home(Goal)
      {
        if locs[Token(p, i)] != Home(Goal) {
          return false;
        }
        i := i + 1;
      }
      return true;
    }

    /** `movimientos_extra -= val` for seat `p`: only that bank changes. */
    method Charge(p: nat, val: int)
      requires Valid() && p < Players
      modifies this
      ensures Valid()
      ensures Snapshot() == old(Snapshot()).(bonus := old(bonus)[p := old(bonus[p]) - val])
      ensures streak == old(streak)
    {
      RecountKeepsConsistent(Snapshot(), bonus[p := bonus[p] - val], lastMoved);
      bonus := bonus[p := bonus[p] - val];
    }

    /** `mover_ficha(t, steps)`: applies the move in place and reports its outcome. */
    method MoveToken(t: Token, steps: nat) returns (o: Outcome)
      requires Valid() && ValidToken(t)
      modifies this
      ensures Valid()
      ensures Resolution(Snapshot(), o) == Resolve(old(Snapshot()), t, steps)
      ensures streak == old(streak)
    {
      ResolveKeepsConsistent(Snapshot(), t, steps);
      match locs[t] {
        case Jail => o := LeaveJail(t, steps);
        case Track(from) => o := MoveOnTrack(t, from, steps);
        case Home(i) => o := MoveInLane(t, i, steps);
      }
    }

    /** The jail branch of `mover_ficha`. */
    method LeaveJail(t: Token, steps: nat) returns (o: Outcome)
      requires Shaped(Snapshot()) && ValidToken(t) && locs[t] == Jail
      modifies this
      ensures Resolution(Snapshot(), o) == ExitJail(old(Snapshot()), t, steps)
      ensures streak == old(streak)
    {
      if steps != ExitRoll {
        return NeedsFive;
      }
      var sq := Start(t.owner);
      if CanPlace(board, sq) {
        locs := locs[t := Track(sq)];
        board := board[sq := board[sq] + [t]];
        lastMoved := lastMoved[t.owner := Some(t)];
        o := LeftJail(sq);
      } else {
        o := ExitBlocked;
      }
    }

    /** The outer-track branch of `mover_ficha`. */
    method MoveOnTrack(t: Token, from: int, steps: nat) returns (o: Outcome)
      requires Shaped(Snapshot()) && ValidToken(t) && locs[t] == Track(from) && 0 <= from < TrackLen
      modifies this
      ensures Resolution(Snapshot(), o) == TrackMove(old(Snapshot()), t, from, steps)
      ensures streak == old(streak)
    {
      var d := Distance(from, HomeEntry(t.owner));
      if steps == d {
        var clear, _ := CheckPath(board, from, steps);
        if !clear {
          return PathBlocked;
        }
        EnterLane(t, from);
        o := EnteredLane;
      } else if steps > d {
        o := Overshoot;
      } else {
        var dest := Ahead(from, steps);
        var clear, _ := CheckPath(board, from, steps);
        if !clear {
          return PathBlocked;
        }
        if |board[dest]| > 0 {
          var first := board[dest][0];
          if first.owner != t.owner && dest !in SafeSquares {
            o := CaptureAt(t, from, dest);
            return;
          }
        }
        StepTo(t, from, dest);
        o := Advanced(dest);
      }
    }

    /** Lane entry: off square `from`, onto lane step 0, 10 extra moves banked. */
    method EnterLane(t: Token, from: int)
      requires Shaped(Snapshot()) && ValidToken(t) && 0 <= from < TrackLen
      modifies this
      ensures Snapshot() == Reward(Touch(Put(Unlist(old(Snapshot()), from, t), t, Home(0)), t), t.owner)
      ensures streak == old(streak)
    {
      if t in board[from] {
        board := board[from := RemoveFirst(board[from], t)];
      }
      locs := locs[t := Home(0)];
      bonus := bonus[t.owner := bonus[t.owner] + ExtraMoves];
      lastMoved := lastMoved[t.owner := Some(t)];
    }

    /** A plain move: off square `from`, appended to square `dest`. */
    method StepTo(t: Token, from: int, dest: int)
      requires Shaped(Snapshot()) && ValidToken(t) && 0 <= from < TrackLen && 0 <= dest < TrackLen
      modifies this
      ensures Snapshot() == Touch(Relocate(old(Snapshot()), t, from, dest), t)
      ensures streak == old(streak)
    {
      if t in board[from] {
        board := board[from := RemoveFirst(board[from], t)];
      }
      board := board[dest := board[dest] + [t]];
      locs := locs[t := Track(dest)];
      lastMoved := lastMoved[t.owner := Some(t)];
    }

    /** The capture branch: jail the first occupant, land, then try the 20-square leap. */
    method CaptureAt(t: Token, from: int, dest: int) returns (o: Outcome)
      requires Shaped(Snapshot()) && ValidToken(t) && locs[t] == Track(from)
      requires 0 <= from < TrackLen && 0 <= dest < TrackLen && CaptureApplies(board, t, dest)
      modifies this
      ensures Resolution(Snapshot(), o) == Capture(old(Snapshot()), t, from, dest)
      ensures streak == old(streak)
    {
      ghost var s0 := Snapshot();
      var v := Land(t, from, dest);
      o := LeapOn(t, dest, v);
      assert Capture(s0, t, from, dest) == Leap(Landed(s0, t, from, dest), t, dest, v);
    }

    /** The capture itself: the first occupant of `dest` leaves it for jail and `t` moves from `from` onto `dest`. */
    method Land(t: Token, from: int, dest: int) returns (v: Token)
      requires 0 <= from < |board| && 0 <= dest < |board| && |board[dest]| > 0
      modifies this
      ensures v == old(board[dest][0])
      ensures Snapshot() == Landed(old(Snapshot()), t, from, dest)
      ensures streak == old(streak)
    {
      ghost var s0 := Snapshot();
      v := board[dest][0];
      if v in board[dest] {
        board := board[dest := RemoveFirst(board[dest], v)];
      }
      locs := locs[v := Jail];
      ghost var jailed := Snapshot();
      assert jailed == Put(Unlist(s0, dest, v), v, Jail);
      if t in board[from] {
        board := board[from := RemoveFirst(board[from], t)];
      }
      board := board[dest := board[dest] + [t]];
      locs := locs[t := Track(dest)];
      assert Snapshot() == Relocate(jailed, t, from, dest);
    }

    /** The 20-square leap that follows a capture on `dest`. */
    method LeapOn(t: Token, dest: int, v: Token) returns (o: Outcome)
      requires Shaped(Snapshot()) && ValidToken(t) && 0 <= dest < TrackLen
      modifies this
      ensures Resolution(Snapshot(), o) == Leap(old(Snapshot()), t, dest, v)
      ensures streak == old(streak)
    {
      var leap := Ahead(dest, CaptureLeap);
      var leapClear, _ := CheckPath(board, dest, CaptureLeap);
      if !leapClear {
        return LeapBlocked(v);
      }
      if !CanPlace(board, leap) {
        return LeapFull(v);
      }
      if t in board[dest] {
        board := board[dest := RemoveFirst(board[dest], t)];
      }
      board := board[leap := board[leap] + [t]];
      locs := locs[t := Track(leap)];
      lastMoved := lastMoved[t.owner := Some(t)];
      o := Captured(v, leap);
    }

    /** The home-lane branch of `mover_ficha`. */
    method MoveInLane(t: Token, i: int, steps: nat) returns (o: Outcome)
      requires Shaped(Snapshot()) && ValidToken(t) && locs[t] == Home(i) && 0 <= i < LaneLen
      modifies this
      ensures Resolution(Snapshot(), o) == LaneMove(old(Snapshot()), t, i, steps)
      ensures streak == old(streak)
    {
      ghost var s0 := Snapshot();
      var j := i + steps;
      if j >= LaneLen {
        return LaneOvershoot;
      }
      StepInLane(t, j);
      ghost var moved := Snapshot();
      assert moved == Touch(Put(s0, t, Home(j)), t);
      if j == Goal {
        Bank(t.owner);
        o := ReachedGoal;
        assert LaneMove(s0, t, i, steps) == Resolution(Reward(moved, t.owner), ReachedGoal);
      } else {
        o := LaneAdvanced(j);
        assert LaneMove(s0, t, i, steps) == Resolution(moved, LaneAdvanced(j));
      }
    }

    /** `movimientos_extra += 10` for seat `p`. */
    method Bank(p: nat)
      requires Shaped(Snapshot()) && p < Players
      modifies this
      ensures Snapshot() == Reward(old(Snapshot()), p)
      ensures streak == old(streak)
    {
      bonus := bonus[p := bonus[p] + ExtraMoves];
    }

    /** The token moves to lane step `j` and is recorded as its seat's last moved token. */
    method StepInLane(t: Token, j: int)
      requires Shaped(Snapshot()) && ValidToken(t) && 0 <= j < LaneLen
      modifies this
      ensures Snapshot() == Touch(Put(old(Snapshot()), t, Home(j)), t)
      ensures streak == old(streak)
    {
      locs := locs[t := Home(j)];
      lastMoved := lastMoved[t.owner := Some(t)];
    }

    /** `ultima_ficha_movida = t` for seat `p`: only that record changes. */
    method Record(p: nat, t: Token)
      requires Valid() && p < Players && ValidToken(t)
      modifies this
      ensures Valid()
      ensures Snapshot() == old(Snapshot()).(lastMoved := old(lastMoved)[p := Some(t)])
      ensures streak == old(streak)
    {
      RecountKeepsConsistent(Snapshot(), bonus, lastMoved[p := Some(t)]);
      lastMoved := lastMoved[p := Some(t)];
    }

    /** `contador_dobles = n` for seat `p`: only that streak changes. */
    method SetStreak(p: nat, n: int)
      requires Valid() && p < Players
      modifies this
      ensures Valid()
      ensures Snapshot() == old(Snapshot()) && streak == old(streak)[p := n]
    {
      streak := streak[p := n];
    }
  }
}
