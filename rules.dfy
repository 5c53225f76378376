/**
 * The move rules (`mover_ficha`) as a function from the shared game data, a token and
 * a step count to the new game data and an outcome, with the bookkeeping invariant
 * that every token is in exactly one place and the properties of each kind of move.
 */
module Rules {
  import opened Wrappers
  import opened Seqs
  import opened Pieces
  import opened Board

  /** The shared data `mover_ficha` reads and writes. */
  datatype State = State(
    board: Squares,                 // posiciones_de_tablero
    locs: map<Token, Location>,     // the estado of every token
    bonus: seq<int>,                // movimientos_extra of each seat
    lastMoved: seq<Option<Token>>)  // ultima_ficha_movida of each seat

  /** The shape of the data: 68 squares, one counter per seat, an in-range location per token. */
  ghost predicate Shaped(s: State) {
    && |s.board| == TrackLen
    && |s.bonus| == Players
    && |s.lastMoved| == Players
    && forall t :: ValidToken(t) ==> t in s.locs && InRange(s.locs[t])
  }

  /**
   * Every token is in exactly one place: a token listed on a square has that square as
   * its location, a token whose location is a square is listed there, and no square
   * lists a token twice.
   */
  ghost predicate Consistent(s: State) {
    && Shaped(s)
    && (forall p :: 0 <= p < Players && s.lastMoved[p].Some? ==> ValidToken(s.lastMoved[p].value))
    && (forall n, k :: 0 <= n < TrackLen && 0 <= k < |s.board[n]| ==>
          ValidToken(s.board[n][k]) && s.locs[s.board[n][k]] == Track(n))
    && (forall t :: ValidToken(t) && s.locs[t].Track? ==> t in s.board[s.locs[t].square])
    && (forall n :: 0 <= n < TrackLen ==> NoDup(s.board[n]))
  }

  /** What a move did; the constructors stand for the messages `mover_ficha` returns. */
  datatype Outcome =
    | LeftJail(square: int)                 // left jail onto its start square
    | NeedsFive                             // a jailed token needs a 5
    | ExitBlocked                           // the start square already holds two tokens
    | EnteredLane                           // moved from the track into the home lane
    | PathBlocked                           // a blockade stands on the way
    | Overshoot                             // more steps than the distance to the lane entry
    | Advanced(square: int)                 // plain move along the track
    | Captured(victim: Token, square: int)  // captured, then leapt 20 squares on
    | LeapBlocked(victim: Token)            // captured, but a blockade stops the leap
    | LeapFull(victim: Token)               // captured, but the leap's square holds two tokens
    | LaneAdvanced(index: int)              // moved along the home lane
    | ReachedGoal                           // reached the last step of the home lane
    | LaneOvershoot                         // more steps than the home lane has left
  {
    /** The outcomes that change nothing. */
    predicate Refused() {
      NeedsFive? || ExitBlocked? || PathBlocked? || Overshoot? || LaneOvershoot?
    }

    /** The token sent to jail by a capture, if any. */
    function Victim(): Option<Token> {
      if Captured? || LeapBlocked? || LeapFull? then Some(victim) else None
    }
  }

  datatype Resolution = Resolution(state: State, outcome: Outcome)

  // The in-place steps mover_ficha is made of.

  /** `posiciones_de_tablero[sq].remove(t)`, guarded by `t in ...`. */
  function Unlist(s: State, sq: int, t: Token): (r: State)
    requires 0 <= sq < |s.board|
    ensures Shaped(s) ==> Shaped(r)
  {
    s.(board := s.board[sq := RemoveFirst(s.board[sq], t)])
  }

  /** `posiciones_de_tablero[sq].append(t)`. */
  function Enlist(s: State, sq: int, t: Token): (r: State)
    requires 0 <= sq < |s.board|
    ensures Shaped(s) ==> Shaped(r)
  {
    s.(board := s.board[sq := s.board[sq] + [t]])
  }

  /** `t.estado = l`. */
  function Put(s: State, t: Token, l: Location): (r: State)
    ensures Shaped(s) && InRange(l) ==> Shaped(r)
  {
    s.(locs := s.locs[t := l])
  }

  /** `t.jugador.ultima_ficha_movida = t`. */
  function Touch(s: State, t: Token): (r: State)
    requires t.owner < |s.lastMoved|
    ensures Shaped(s) ==> Shaped(r)
  {
    s.(lastMoved := s.lastMoved[t.owner := Some(t)])
  }

  /** `jugador.movimientos_extra += 10`. */
  function Reward(s: State, p: nat): (r: State)
    requires p < |s.bonus|
    ensures Shaped(s) ==> Shaped(r)
  {
    s.(bonus := s.bonus[p := s.bonus[p] + ExtraMoves])
  }

  /** Take `t` off square `from`, put it on square `to` and make `to` its location. */
  function Relocate(s: State, t: Token, from: int, to: int): (r: State)
    requires 0 <= from < |s.board| && 0 <= to < |s.board|
    ensures Shaped(s) ==> Shaped(r)
  {
    Put(Enlist(Unlist(s, from, t), to, t), t, Track(to))
  }

  /** A move onto `dest` captures when its first occupant belongs to another seat and `dest` is not safe. */
  predicate CaptureApplies(board: Squares, t: Token, dest: int): (b: bool)
    requires 0 <= dest < |board|
    ensures b ==> |board[dest]| >= 1 && board[dest][0].owner != t.owner
    ensures b ==> forall p: nat :: p < Players ==> dest != Start(p)
  {
    |board[dest]| > 0 && board[dest][0].owner != t.owner && dest !in SafeSquares
  }

  /** The state right after a capture: the victim jailed and off `dest`, the mover standing on `dest`. */
  function Landed(s: State, t: Token, from: int, dest: int): (r: State)
    requires 0 <= from < |s.board| && 0 <= dest < |s.board| && |s.board[dest]| > 0
    ensures Shaped(s) ==> Shaped(r)
    ensures |r.board| == |s.board|
    ensures s.board[dest][0] != t ==>
              && s.board[dest][0] in r.locs && r.locs[s.board[dest][0]] == Jail
              && t in r.locs && r.locs[t] == Track(dest)
              && (from != dest ==> r.board[dest] == s.board[dest][1..] + [t])
              && r.bonus == s.bonus && r.lastMoved == s.lastMoved
    ensures s.board[dest][0] != t && from != dest ==>
              && r.board == s.board[from := RemoveFirst(s.board[from], t)][dest := s.board[dest][1..] + [t]]
              && r.locs == s.locs[s.board[dest][0] := Jail][t := Track(dest)]
  {
    var v := s.board[dest][0];
    Relocate(Put(Unlist(s, dest, v), v, Jail), t, from, dest)
  }

  /** `mover_ficha(t, steps)`: dispatch on where the token is. */
  function Resolve(s: State, t: Token, steps: nat): (r: Resolution)
    requires Shaped(s) && ValidToken(t)
    ensures Shaped(r.state)
    ensures r.outcome.Refused() ==> r.state == s
  {
    match s.locs[t]
    case Jail => ExitJail(s, t, steps)
    case Track(from) => TrackMove(s, t, from, steps)
    case Home(i) => LaneMove(s, t, i, steps)
  }

  /**
   * What a move leaves alone and what it does to the counters: no token moves but the
   * mover and a captured victim, the victim ends in jail, other seats' counters are
   * untouched, the mover's seat records at most the mover as last moved, and its bank grows
   * by 10 exactly on entering the lane or reaching the goal.
   */
  ghost predicate MoveFrame(s: State, t: Token, r: Resolution)
    requires Shaped(s) && Shaped(r.state) && ValidToken(t)
  {
    && (forall u :: ValidToken(u) && u != t && Some(u) != r.outcome.Victim() ==> r.state.locs[u] == s.locs[u])
    && (r.outcome.Victim().Some? ==>
          r.outcome.Victim().value in r.state.locs && r.state.locs[r.outcome.Victim().value] == Jail)
    && (forall p :: 0 <= p < Players && p != t.owner ==>
          r.state.bonus[p] == s.bonus[p] && r.state.lastMoved[p] == s.lastMoved[p])
    && r.state.lastMoved[t.owner] in {s.lastMoved[t.owner], Some(t)}
    && r.state.bonus[t.owner] ==
         s.bonus[t.owner] + (if r.outcome.EnteredLane? || r.outcome.ReachedGoal? then ExtraMoves else 0)
  }

  /** Every move keeps to `MoveFrame`. */
  lemma ResolveFrame(s: State, t: Token, steps: nat)
    requires Shaped(s) && ValidToken(t)
    ensures MoveFrame(s, t, Resolve(s, t, steps))
  {
    match s.locs[t]
    case Jail =>
      assert MoveFrame(s, t, ExitJail(s, t, steps));
    case Track(from) =>
      TrackMoveFrame(s, t, from, steps);
    case Home(i) =>
      assert MoveFrame(s, t, LaneMove(s, t, i, steps));
  }

  lemma TrackMoveFrame(s: State, t: Token, from: int, steps: nat)
    requires Shaped(s) && ValidToken(t) && s.locs[t] == Track(from) && 0 <= from < TrackLen
    ensures MoveFrame(s, t, TrackMove(s, t, from, steps))
  {
    var d := Distance(from, HomeEntry(t.owner));
    var dest := Ahead(from, steps);
    if steps < d && PathClear(s.board, from, steps) && CaptureApplies(s.board, t, dest) {
      CaptureFrame(s, t, from, dest);
    }
  }

  lemma CaptureFrame(s: State, t: Token, from: int, dest: int)
    requires Shaped(s) && ValidToken(t) && s.locs[t] == Track(from)
    requires 0 <= from < TrackLen && 0 <= dest < TrackLen && CaptureApplies(s.board, t, dest)
    ensures MoveFrame(s, t, Capture(s, t, from, dest))
  {
    var v := s.board[dest][0];
    var mid := Landed(s, t, from, dest);
    assert v != t;
    assert Capture(s, t, from, dest) == Leap(mid, t, dest, v);
  }

  /** A jailed token comes out only on a 5, onto its start square, if that square holds fewer than two tokens. */
  function ExitJail(s: State, t: Token, steps: nat): (r: Resolution)
    requires Shaped(s) && ValidToken(t) && s.locs[t] == Jail
    ensures Shaped(r.state)
    ensures r.outcome.LeftJail? <==> steps == ExitRoll && CanPlace(s.board, Start(t.owner))
    ensures r.outcome.LeftJail? ==>
              && r.outcome.square == Start(t.owner)
              && r.state.locs[t] == Track(Start(t.owner))
              && r.state.board == s.board[Start(t.owner) := s.board[Start(t.owner)] + [t]]
              && r.state.lastMoved[t.owner] == Some(t)
    ensures !r.outcome.LeftJail? ==> r.state == s && r.outcome == (if steps != ExitRoll then NeedsFive else ExitBlocked)
  {
    if steps != ExitRoll then Resolution(s, NeedsFive)
    else
      var sq := Start(t.owner);
      if CanPlace(s.board, sq) then Resolution(Touch(Put(Enlist(s, sq, t), t, Track(sq)), t), LeftJail(sq))
      else Resolution(s, ExitBlocked)
  }

  /**
   * A token on the track: exactly the distance `d` to the lane entry enters the lane,
   * more is refused, fewer moves along the track, capturing when the rules say so.
   */
  function TrackMove(s: State, t: Token, from: int, steps: nat): (r: Resolution)
    requires Shaped(s) && ValidToken(t) && s.locs[t] == Track(from) && 0 <= from < TrackLen
    ensures Shaped(r.state)
    ensures var d := Distance(from, HomeEntry(t.owner));
            && (steps > d ==> r == Resolution(s, Overshoot))
            && (steps <= d && !PathClear(s.board, from, steps) ==> r == Resolution(s, PathBlocked))
            && (r.outcome.EnteredLane? <==> steps == d && PathClear(s.board, from, steps))
            && (r.outcome.Advanced? <==>
                  steps < d && PathClear(s.board, from, steps) && !CaptureApplies(s.board, t, Ahead(from, steps)))
            && (r.outcome.Victim().Some? <==>
                  steps < d && PathClear(s.board, from, steps) && CaptureApplies(s.board, t, Ahead(from, steps)))
    ensures r.outcome.EnteredLane? ==>
              && r.state.locs[t] == Home(0)
              && r.state.board == s.board[from := RemoveFirst(s.board[from], t)]
              && r.state.lastMoved[t.owner] == Some(t)
    ensures r.outcome.Advanced? ==>
              var dest := Ahead(from, steps);
              && dest == (from + steps) % TrackLen
              && r.outcome.square == dest
              && r.state.locs[t] == Track(dest)
              && r.state.board == Relocate(s, t, from, dest).board
              && (dest != from ==> r.state.board[dest] == s.board[dest] + [t])
              && r.state.lastMoved[t.owner] == Some(t)
  {
    var d := Distance(from, HomeEntry(t.owner));
    if steps == d then
      if !PathClear(s.board, from, steps) then Resolution(s, PathBlocked)
      else Resolution(Reward(Touch(Put(Unlist(s, from, t), t, Home(0)), t), t.owner), EnteredLane)
    else if steps > d then Resolution(s, Overshoot)
    else
      var dest := Ahead(from, steps);
      if !PathClear(s.board, from, steps) then Resolution(s, PathBlocked)
      else if CaptureApplies(s.board, t, dest) then Capture(s, t, from, dest)
      else Resolution(Touch(Relocate(s, t, from, dest), t), Advanced(dest))
  }

  /**
   * The first occupant of `dest` goes to jail and the mover lands on `dest`; the mover
   * then leaps 20 squares on if that leg is clear and its square has room. If the leap
   * fails, the capture and the landing stand.
   */
  function Capture(s: State, t: Token, from: int, dest: int): (r: Resolution)
    requires Shaped(s) && ValidToken(t) && s.locs[t] == Track(from)
    requires 0 <= from < TrackLen && 0 <= dest < TrackLen && CaptureApplies(s.board, t, dest)
    ensures Shaped(r.state)
    ensures r.outcome.Victim() == Some(s.board[dest][0])
    ensures var mid := Landed(s, t, from, dest);
            var leap := Ahead(dest, CaptureLeap);
            && mid.locs[s.board[dest][0]] == Jail
            && (from != dest ==> mid.board[dest] == s.board[dest][1..] + [t])
            && (r.outcome.Captured? <==> PathClear(mid.board, dest, CaptureLeap) && CanPlace(mid.board, leap))
            && (!r.outcome.Captured? ==> r.state == mid && r.state.locs[t] == Track(dest))
            && r == Leap(mid, t, dest, s.board[dest][0])
  {
    var v := s.board[dest][0];
    assert s.board[dest] == [v] + s.board[dest][1..];
    Leap(Landed(s, t, from, dest), t, dest, v)
  }

  /** The leap after capturing `v` on `dest`: 20 squares on if that leg is clear and its square has room. */
  function Leap(mid: State, t: Token, dest: int, v: Token): (r: Resolution)
    requires Shaped(mid) && ValidToken(t) && 0 <= dest < TrackLen
    ensures Shaped(r.state) && r.outcome.Victim() == Some(v)
    ensures var leap := Ahead(dest, CaptureLeap);
            && (r.outcome.Captured? <==> PathClear(mid.board, dest, CaptureLeap) && CanPlace(mid.board, leap))
            && (!r.outcome.Captured? ==> r.state == mid)
            && (r.outcome.Captured? ==>
                  && leap == (dest + CaptureLeap) % TrackLen
                  && r.outcome.square == leap
                  && r.state.locs[t] == Track(leap)
                  && leap != dest
                  && r.state.board == mid.board[dest := RemoveFirst(mid.board[dest], t)][leap := mid.board[leap] + [t]]
                  && r.state.lastMoved[t.owner] == Some(t))
  {
    var leap := Ahead(dest, CaptureLeap);
    if !PathClear(mid.board, dest, CaptureLeap) then Resolution(mid, LeapBlocked(v))
    else if !CanPlace(mid.board, leap) then Resolution(mid, LeapFull(v))
    else Resolution(Touch(Relocate(mid, t, dest, leap), t), Captured(v, leap))
  }

  /** A token in its home lane advances by an exact count; reaching the last step banks 10 extra moves. */
  function LaneMove(s: State, t: Token, i: int, steps: nat): (r: Resolution)
    requires Shaped(s) && ValidToken(t) && s.locs[t] == Home(i) && 0 <= i < LaneLen
    ensures Shaped(r.state)
    ensures i + steps >= LaneLen <==> r.outcome == LaneOvershoot
    ensures i + steps >= LaneLen ==> r.state == s
    ensures i + steps < LaneLen ==>
              && r.state.locs[t] == Home(i + steps)
              && r.state.board == s.board
              && r.state.lastMoved[t.owner] == Some(t)
              && (r.outcome == ReachedGoal <==> i + steps == Goal)
              && (r.outcome != ReachedGoal ==> r.outcome == LaneAdvanced(i + steps))
  {
    var j := i + steps;
    if j >= LaneLen then Resolution(s, LaneOvershoot)
    else
      var moved := Touch(Put(s, t, Home(j)), t);
      if j == Goal then Resolution(Reward(moved, t.owner), ReachedGoal)
      else Resolution(moved, LaneAdvanced(j))
  }

  /** The three-doubles penalty: off the board if the token is on the track, then to jail. */
  function SendToJail(s: State, t: Token): (r: State)
    requires Shaped(s) && ValidToken(t)
    ensures Shaped(r) && r.locs[t] == Jail && r.bonus == s.bonus && r.lastMoved == s.lastMoved
    ensures forall u :: ValidToken(u) && u != t ==> r.locs[u] == s.locs[u]
    ensures s.locs[t].Track? ==> r.board == s.board[s.locs[t].square := RemoveFirst(s.board[s.locs[t].square], t)]
    ensures !s.locs[t].Track? ==> r.board == s.board
  {
    match s.locs[t]
    case Track(sq) => Put(Unlist(s, sq, t), t, Jail)
    case _ => Put(s, t, Jail)
  }

  /** `Jugador.todas_llegaron`: every token of seat `p` stands on the last step of its lane. */
  predicate AllArrived(s: State, p: nat): (b: bool)
    requires Shaped(s) && p < Players
    ensures b <==> forall t :: ValidToken(t) && t.owner == p ==> s.locs[t] == Home(Goal)
  {
    forall i :: 0 <= i < TokensPerPlayer ==> s.locs[Token(p, i)] == Home(Goal)
  }

  /** The game as set up: every token in jail, every square empty, no extra moves, nothing moved yet. */
  function Initial(): (s: State)
  {
    State(
      seq(TrackLen, _ => []),
      map p: nat, i: nat | p < Players && i < TokensPerPlayer :: Token(p, i) := Jail,
      [0, 0, 0, 0],
      [None, None, None, None])
  }

  lemma InitialConsistent()
    ensures Consistent(Initial())
    ensures forall t :: ValidToken(t) ==> Initial().locs[t] == Jail
  {
    var s := Initial();
    forall t | ValidToken(t) ensures t in s.locs && s.locs[t] == Jail {
      assert t == Token(t.owner, t.id);
    }
  }

  // Preservation of the bookkeeping invariant.

  /** Taking a token off its square and giving it an off-track location keeps every token in one place. */
  lemma LeaveTrack(s: State, t: Token, sq: int, l: Location)
    requires Consistent(s) && ValidToken(t) && s.locs[t] == Track(sq) && !l.Track? && InRange(l)
    ensures Consistent(Put(Unlist(s, sq, t), t, l))
  {
    var s' := Put(Unlist(s, sq, t), t, l);
    RemoveFirstMembers(s.board[sq], t);
    forall n, k | 0 <= n < TrackLen && 0 <= k < |s'.board[n]|
      ensures ValidToken(s'.board[n][k]) && s'.locs[s'.board[n][k]] == Track(n)
    {
      var u := s'.board[n][k];
      if n == sq {
        assert u in s.board[sq];
        var j :| 0 <= j < |s.board[sq]| && s.board[sq][j] == u;
      } else {
        assert u == s.board[n][k];
      }
    }
    forall u | ValidToken(u) && s'.locs[u].Track?
      ensures u in s'.board[s'.locs[u].square]
    {
      assert u != t;
    }
  }

  /** Putting an off-track token onto a square, as its new location, keeps every token in one place. */
  lemma JoinTrack(s: State, t: Token, sq: int)
    requires Consistent(s) && ValidToken(t) && !s.locs[t].Track? && 0 <= sq < TrackLen
    ensures Consistent(Put(Enlist(s, sq, t), t, Track(sq)))
  {
    var s' := Put(Enlist(s, sq, t), t, Track(sq));
    forall n, k | 0 <= n < TrackLen && 0 <= k < |s.board[n]| ensures s.board[n][k] != t {
    }
    assert t !in s.board[sq];
    AppendFreshNoDup(s.board[sq], t);
    forall n, k | 0 <= n < TrackLen && 0 <= k < |s'.board[n]|
      ensures ValidToken(s'.board[n][k]) && s'.locs[s'.board[n][k]] == Track(n)
    {
      if n != sq || k < |s.board[sq]| {
        assert s'.board[n][k] == s.board[n][k];
      }
    }
    forall u | ValidToken(u) && s'.locs[u].Track?
      ensures u in s'.board[s'.locs[u].square]
    {
      if u != t {
        var m := s.locs[u].square;
        assert u in s.board[m];
        assert s'.board[m] == s.board[m] || s'.board[m] == s.board[m] + [t];
      }
    }
  }

  /** Changing an off-track location to another off-track one keeps every token in one place. */
  lemma StayOffTrack(s: State, t: Token, l: Location)
    requires Consistent(s) && ValidToken(t) && !s.locs[t].Track? && !l.Track? && InRange(l)
    ensures Consistent(Put(s, t, l))
  {
    var s' := Put(s, t, l);
    forall n, k | 0 <= n < TrackLen && 0 <= k < |s.board[n]| ensures s.board[n][k] != t {
    }
    forall u | ValidToken(u) && s'.locs[u].Track?
      ensures u in s'.board[s'.locs[u].square]
    {
      assert u != t;
    }
  }

  /** Moving a track token from one square to another keeps every token in one place. */
  lemma RelocateKeepsConsistent(s: State, t: Token, from: int, to: int)
    requires Consistent(s) && ValidToken(t) && s.locs[t] == Track(from) && 0 <= to < TrackLen
    ensures Consistent(Relocate(s, t, from, to))
  {
    LeaveTrack(s, t, from, Jail);
    var off := Put(Unlist(s, from, t), t, Jail);
    JoinTrack(off, t, to);
    assert Put(Enlist(off, to, t), t, Track(to)).locs == Relocate(s, t, from, to).locs;
  }

  /** Recording the last moved token or banking extra moves leaves the tokens where they are. */
  lemma TouchRewardKeepConsistent(s: State, t: Token)
    requires Consistent(s) && ValidToken(t)
    ensures Consistent(Touch(s, t)) && Consistent(Reward(s, t.owner))
  {
  }

  lemma CaptureKeepsConsistent(s: State, t: Token, from: int, dest: int)
    requires Consistent(s) && ValidToken(t) && s.locs[t] == Track(from)
    requires 0 <= from < TrackLen && 0 <= dest < TrackLen && CaptureApplies(s.board, t, dest)
    ensures Consistent(Capture(s, t, from, dest).state)
  {
    var v := s.board[dest][0];
    assert v != t;
    LeaveTrack(s, v, dest, Jail);
    var jailed := Put(Unlist(s, dest, v), v, Jail);
    assert jailed.locs[t] == Track(from);
    RelocateKeepsConsistent(jailed, t, from, dest);
    var mid := Landed(s, t, from, dest);
    assert mid == Relocate(jailed, t, from, dest);
    var leap := Ahead(dest, CaptureLeap);
    RelocateKeepsConsistent(mid, t, dest, leap);
    TouchRewardKeepConsistent(Relocate(mid, t, dest, leap), t);
    var r := Capture(s, t, from, dest);
    assert r.state == mid || r.state == Touch(Relocate(mid, t, dest, leap), t);
  }

  lemma TrackMoveKeepsConsistent(s: State, t: Token, from: int, steps: nat)
    requires Consistent(s) && ValidToken(t) && s.locs[t] == Track(from) && 0 <= from < TrackLen
    ensures Consistent(TrackMove(s, t, from, steps).state)
  {
    var d := Distance(from, HomeEntry(t.owner));
    if steps == d && PathClear(s.board, from, steps) {
      LeaveTrack(s, t, from, Home(0));
      var entered := Put(Unlist(s, from, t), t, Home(0));
      TouchRewardKeepConsistent(entered, t);
      TouchRewardKeepConsistent(Touch(entered, t), t);
    } else if steps < d && PathClear(s.board, from, steps) {
      var dest := Ahead(from, steps);
      if CaptureApplies(s.board, t, dest) {
        CaptureKeepsConsistent(s, t, from, dest);
      } else {
        RelocateKeepsConsistent(s, t, from, dest);
        TouchRewardKeepConsistent(Relocate(s, t, from, dest), t);
      }
    }
  }

  /** Every move keeps every token in exactly one place. */
  lemma ResolveKeepsConsistent(s: State, t: Token, steps: nat)
    requires Consistent(s) && ValidToken(t)
    ensures Consistent(Resolve(s, t, steps).state)
  {
    match s.locs[t]
    case Jail => ExitJailKeepsConsistent(s, t, steps);
    case Track(from) => TrackMoveKeepsConsistent(s, t, from, steps);
    case Home(i) => LaneMoveKeepsConsistent(s, t, i, steps);
  }

  lemma ExitJailKeepsConsistent(s: State, t: Token, steps: nat)
    requires Consistent(s) && ValidToken(t) && s.locs[t] == Jail
    ensures Consistent(ExitJail(s, t, steps).state)
  {
    if steps == ExitRoll && CanPlace(s.board, Start(t.owner)) {
      JoinTrack(s, t, Start(t.owner));
      TouchRewardKeepConsistent(Put(Enlist(s, Start(t.owner), t), t, Track(Start(t.owner))), t);
    }
  }

  lemma LaneMoveKeepsConsistent(s: State, t: Token, i: int, steps: nat)
    requires Consistent(s) && ValidToken(t) && s.locs[t] == Home(i) && 0 <= i < LaneLen
    ensures Consistent(LaneMove(s, t, i, steps).state)
  {
    if i + steps < LaneLen {
      StayOffTrack(s, t, Home(i + steps));
      TouchRewardKeepConsistent(Put(s, t, Home(i + steps)), t);
      TouchRewardKeepConsistent(Touch(Put(s, t, Home(i + steps)), t), t);
    }
  }

  /** The three-doubles penalty keeps every token in exactly one place. */
  lemma SendToJailKeepsConsistent(s: State, t: Token)
    requires Consistent(s) && ValidToken(t)
    ensures Consistent(SendToJail(s, t))
  {
    match s.locs[t]
    case Track(sq) => LeaveTrack(s, t, sq, Jail);
    case _ => StayOffTrack(s, t, Jail);
  }

  /** Changing the seats' counters leaves every token where it was. */
  lemma RecountKeepsConsistent(s: State, bonus: seq<int>, lastMoved: seq<Option<Token>>)
    requires Consistent(s) && |bonus| == Players && |lastMoved| == Players
    requires forall p :: 0 <= p < Players && lastMoved[p].Some? ==> ValidToken(lastMoved[p].value)
    ensures Consistent(s.(bonus := bonus, lastMoved := lastMoved))
  {
  }

  // Properties of the rules, including the places where they depart from a clean reading.

  /** A blockade on any square strictly between start and destination stops a track move and changes nothing. */
  lemma BlockadeStopsMove(s: State, t: Token, steps: nat, k: int)
    requires Shaped(s) && ValidToken(t) && s.locs[t].Track?
    requires 1 <= k < steps && IsBlockade(s.board, Ahead(s.locs[t].square, k))
    ensures Resolve(s, t, steps).state == s && Resolve(s, t, steps).outcome.Refused()
  {
    assert !PathClear(s.board, s.locs[t].square, steps);
  }

  /**
   * A plain move makes no room check on its destination: onto a square that already holds
   * two tokens of the mover's own seat, or two tokens on a safe square, a third one lands.
   * Since a blockade is exactly two tokens, the crowded square then blocks nobody, even
   * when all three belong to one seat.
   */
  lemma ThirdTokenLands(s: State, t: Token, steps: nat)
    requires Consistent(s) && ValidToken(t) && s.locs[t].Track?
    requires var from := s.locs[t].square;
             var dest := Ahead(from, steps);
             && steps < Distance(from, HomeEntry(t.owner))
             && PathClear(s.board, from, steps)
             && |s.board[dest]| == 2 && dest != from
             && (s.board[dest][0].owner == t.owner || dest in SafeSquares)
    ensures var r := Resolve(s, t, steps);
            && r.outcome == Advanced(Ahead(s.locs[t].square, steps)) && |r.state.board[r.outcome.square]| == 3
            && !IsBlockade(r.state.board, r.outcome.square)
  {
  }

  /**
   * A capture looks only at the first token on the destination: another seat's blockade
   * standing on an unsafe destination is broken, its first token going to jail.
   */
  lemma BlockadeOnDestinationIsCaptured(s: State, t: Token, steps: nat)
    requires Shaped(s) && ValidToken(t) && s.locs[t].Track?
    requires var from := s.locs[t].square;
             var dest := Ahead(from, steps);
             && steps < Distance(from, HomeEntry(t.owner))
             && PathClear(s.board, from, steps)
             && IsBlockade(s.board, dest) && s.board[dest][0].owner != t.owner && dest !in SafeSquares
    ensures var v := s.board[Ahead(s.locs[t].square, steps)][0];
            var r := Resolve(s, t, steps);
            r.outcome.Victim() == Some(v) && r.state.locs[v] == Jail
  {
  }

  /**
   * A failed leap does not undo the capture: the victim, taken from the destination square,
   * stays in jail and the mover stays on that square, although the move is reported as not allowed.
   */
  lemma FailedLeapKeepsCapture(s: State, t: Token, steps: nat)
    requires Consistent(s) && ValidToken(t)
    requires Resolve(s, t, steps).outcome.LeapBlocked? || Resolve(s, t, steps).outcome.LeapFull?
    ensures s.locs[t].Track?
    ensures var r := Resolve(s, t, steps);
            var dest := Ahead(s.locs[t].square, steps);
            && r.state.locs[t] == Track(dest)
            && s.locs[r.outcome.victim] == Track(dest)
            && r.state.locs[r.outcome.victim] == Jail
  {
    match s.locs[t]
    case Jail =>
    case Home(i) =>
    case Track(from) =>
      var dest := Ahead(from, steps);
      var d := Distance(from, HomeEntry(t.owner));
      assert steps < d && PathClear(s.board, from, steps) && CaptureApplies(s.board, t, dest);
      var r := Capture(s, t, from, dest);
      assert Resolve(s, t, steps) == r;
      assert r.outcome.victim == s.board[dest][0];
  }

  /** A token standing on its own lane-entry square is at distance 0, so no positive roll moves it. */
  lemma EntrySquareIsDeadEnd(s: State, t: Token, steps: nat)
    requires Shaped(s) && ValidToken(t) && s.locs[t] == Track(HomeEntry(t.owner)) && steps >= 1
    ensures Resolve(s, t, steps) == Resolution(s, Overshoot)
  {
    assert Distance(HomeEntry(t.owner), HomeEntry(t.owner)) == 0;
  }

  /** A token on the last step of its lane never moves again on a positive count. */
  lemma GoalIsTerminal(s: State, t: Token, steps: nat)
    requires Shaped(s) && ValidToken(t) && s.locs[t] == Home(Goal) && steps >= 1
    ensures Resolve(s, t, steps) == Resolution(s, LaneOvershoot)
  {
  }

  /** Once all of a seat's tokens have arrived, none of them can be moved by a positive count. */
  lemma ArrivedSeatIsStuck(s: State, p: nat, t: Token, steps: nat)
    requires Shaped(s) && p < Players && AllArrived(s, p)
    requires ValidToken(t) && t.owner == p && steps >= 1
    ensures Resolve(s, t, steps) == Resolution(s, LaneOvershoot)
  {
    assert s.locs[Token(p, t.id)] == Home(Goal);
    GoalIsTerminal(s, t, steps);
  }
}
