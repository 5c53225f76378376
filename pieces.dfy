/**
 * The fixed data of the game: the 68-square outer track, the 8-step home lanes,
 * the four seats with their start and home-entry squares, and the tokens.
 */
module Pieces {

  /** Squares on the shared outer track (NUM_CASILLAS_EXTERNAS). */
  const TrackLen: int := 68
  /** Steps in each seat's home lane (NUM_CASILLAS_INTERNAS); the last one is the goal. */
  const LaneLen: int := 8
  const Goal: int := LaneLen - 1
  const Players: nat := 4
  const TokensPerPlayer: nat := 4
  /** Extra moves banked for entering the home lane or reaching the goal. */
  const ExtraMoves: int := 10
  /** Length of the displacement a capturing token makes after the capture. */
  const CaptureLeap: nat := 20
  /** The die value a jailed token needs to come out. */
  const ExitRoll: nat := 5

  /** Where a token is (`Ficha.estado`): the jail, an outer square, or a step of its home lane. */
  datatype Location = Jail | Track(square: int) | Home(index: int)

  predicate InRange(l: Location) {
    match l
    case Jail => true
    case Track(sq) => 0 <= sq < TrackLen
    case Home(i) => 0 <= i < LaneLen
  }

  /** A token (`Ficha`): the seat that owns it and its number 0..3 within that seat. */
  datatype Token = Token(owner: nat, id: nat)

  predicate ValidToken(t: Token) {
    t.owner < Players && t.id < TokensPerPlayer
  }

  /** The square where seat `p`'s tokens come out of jail (`salida`). */
  function Start(p: nat): (sq: int)
    requires p < Players
    ensures 0 <= sq < TrackLen
  {
    if p == 0 then 0 else if p == 1 then 17 else if p == 2 then 34 else 51
  }

  /** The square from which seat `p` turns into its home lane (`entrada_hogar`). */
  function HomeEntry(p: nat): (sq: int)
    requires p < Players
    ensures 0 <= sq < TrackLen
    ensures (sq + 1) % TrackLen == Start(p)
  {
    if p == 0 then 67 else if p == 1 then 16 else if p == 2 then 33 else 50
  }

  /** The squares where no capture happens (`casillas_seguras`). */
  const SafeSquares: set<int> := {0, 17, 34, 51}

  /** The safe squares are exactly the four start squares. */
  lemma SafeSquaresAreStarts(sq: int)
    ensures sq in SafeSquares <==> exists p: nat :: p < Players && Start(p) == sq
  {
    if sq == 0 {
      assert Start(0) == sq;
    } else if sq == 17 {
      assert Start(1) == sq;
    } else if sq == 34 {
      assert Start(2) == sq;
    } else if sq == 51 {
      assert Start(3) == sq;
    }
  }

  /** The square `i` steps forward of `from` on the circular track. */
  function Ahead(from: int, i: int): (sq: int)
    ensures 0 <= sq < TrackLen
  {
    (from + i) % TrackLen
  }

  /**
   * The forward distance `d` from `from` to `entry` along the track: the number of
   * steps that lands exactly on `entry`, and no fewer steps does.
   */
  function Distance(from: int, entry: int): (d: int)
    requires 0 <= from < TrackLen && 0 <= entry < TrackLen
    ensures 0 <= d < TrackLen && Ahead(from, d) == entry
    ensures forall k :: 0 <= k < d ==> Ahead(from, k) != entry
  {
    if entry >= from then entry - from else (TrackLen - from) + entry
  }
}
