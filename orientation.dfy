/**
 * The orientation mapper: the four orientation names the sensor service
 * reports, the `xrandr` rotation and the coordinate-transformation matrix each
 * one selects (main.c:29-32, 79-105).
 */
module Orientation {
  import opened Wrappers
  import opened CStrings
  import opened Matrix

  datatype Rotation = Normal | Left | Right | Inverted

  /** What a recognised orientation selects. */
  datatype Mapping = Mapping(rotation: Rotation, coords: string)

  /** The `AccelerometerOrientation` value that selects each rotation. */
  function SensorName(r: Rotation): string {
    match r
    case Normal => "normal"
    case Left => "left-up"
    case Right => "right-up"
    case Inverted => "bottom-up"
  }

  /** The argument of `xrandr --rotate` for each rotation. */
  function XrandrName(r: Rotation): string {
    match r
    case Normal => "normal"
    case Left => "left"
    case Right => "right"
    case Inverted => "inverted"
  }

  /** The matrix text used with each rotation. */
  function Coords(r: Rotation): string {
    match r
    case Normal => NormalCoords
    case Left => LeftCoords
    case Right => RightCoords
    case Inverted => InvertCoords
  }

  /** The entries that text denotes. */
  function MatrixOf(r: Rotation): seq<Cell> {
    match r
    case Normal => NormalMatrix
    case Left => LeftMatrix
    case Right => RightMatrix
    case Inverted => InvertMatrix
  }

  /** The rotation that undoes `r`. */
  function Opposite(r: Rotation): Rotation {
    match r
    case Normal => Normal
    case Left => Right
    case Right => Left
    case Inverted => Inverted
  }

  /** Sensor names are distinct, so a name selects at most one rotation. */
  lemma SensorNameInjective(r1: Rotation, r2: Rotation)
    ensures SensorName(r1) == SensorName(r2) ==> r1 == r2
  {
  }

  /** `strcmp(name, SensorName(r)) == 0` holds exactly when the name is that literal. */
  lemma MatchesSensorName(name: string, r: Rotation)
    ensures StrCmpZero(name, SensorName(r)) <==> CView(name) == SensorName(r)
  {
    StrCmpMeaning(name, SensorName(r));
    CViewOfPlain(SensorName(r));
  }

  /**
   * The if/else chain of `strcmp` tests on the orientation name: the first
   * literal that matches selects a rotation and its matrix; no match is None
   * (the "Unknown command" branch).
   */
  function OrientationFor(name: string): (r: Option<Mapping>)
    ensures r.Some? ==> CView(name) == SensorName(r.value.rotation) && r.value.coords == Coords(r.value.rotation)
    ensures r.None? ==> forall rot :: CView(name) != SensorName(rot)
  {
    MatchesSensorName(name, Normal);
    MatchesSensorName(name, Left);
    MatchesSensorName(name, Right);
    MatchesSensorName(name, Inverted);
    if StrCmpZero(name, "normal") then Some(Mapping(Normal, NormalCoords))
    else if StrCmpZero(name, "left-up") then Some(Mapping(Left, LeftCoords))
    else if StrCmpZero(name, "right-up") then Some(Mapping(Right, RightCoords))
    else if StrCmpZero(name, "bottom-up") then Some(Mapping(Inverted, InvertCoords))
    else None
  }

  /** A name is recognised exactly when it is one of the four literals, and then selects that literal's rotation. */
  lemma OrientationForMeaning(name: string, rot: Rotation)
    ensures OrientationFor(name) == Some(Mapping(rot, Coords(rot))) <==> CView(name) == SensorName(rot)
  {
    var r := OrientationFor(name);
    if r.Some? {
      SensorNameInjective(r.value.rotation, rot);
    }
  }

  /** Each rotation's own sensor name maps back to it. */
  lemma OrientationForSensorName(r: Rotation)
    ensures OrientationFor(SensorName(r)) == Some(Mapping(r, Coords(r)))
  {
    CViewOfPlain(SensorName(r));
    OrientationForMeaning(SensorName(r), r);
  }

  /** The match is case-sensitive: a name whose first letter is upper case is not recognised. */
  lemma OrientationCaseSensitive(name: string)
    requires name != [] && 'A' <= name[0] <= 'Z'
    ensures OrientationFor(name).None?
  {
    var r := OrientationFor(name);
    if r.Some? {
      assert CView(name)[0] == name[0];
    }
  }

  /** Each matrix text is the row-major formatting of its entries. */
  lemma CoordsFormatted(r: Rotation)
    ensures Coords(r) == Format(MatrixOf(r))
  {
    match r
    case Normal => NormalFormatted();
    case Left => LeftFormatted();
    case Right => RightFormatted();
    case Inverted => InvertFormatted();
  }

  /** Each matrix text is nine space-separated entries whose last row is `0 0 1`. */
  lemma CoordsShape(r: Rotation)
    ensures Parse(Coords(r)) == Some(MatrixOf(r))
    ensures |MatrixOf(r)| == 9 && MatrixOf(r)[6..] == [0, 0, 1]
  {
    CoordsFormatted(r);
    ParseFormat(MatrixOf(r));
  }

  /** Each matrix is undone by the matrix of the opposite rotation. */
  lemma OppositeUndoes(r: Rotation)
    ensures Mul(MatrixOf(r), MatrixOf(Opposite(r))) == NormalMatrix
  {
    match r
    case Normal => NormalIsLeftIdentity(NormalMatrix);
    case Left => LeftThenRight();
    case Right => RightThenLeft();
    case Inverted => InvertTwice();
  }

  lemma LeftThenRight()
    ensures Mul(LeftMatrix, RightMatrix) == NormalMatrix
  {
  }

  lemma RightThenLeft()
    ensures Mul(RightMatrix, LeftMatrix) == NormalMatrix
  {
  }

  lemma InvertTwice()
    ensures Mul(InvertMatrix, InvertMatrix) == NormalMatrix
  {
  }

  /** Two quarter turns in the same direction make the half turn. */
  lemma QuarterTurnsCompose()
    ensures Mul(LeftMatrix, LeftMatrix) == InvertMatrix
    ensures Mul(RightMatrix, RightMatrix) == InvertMatrix
  {
    LeftTwice();
    RightTwice();
  }

  lemma LeftTwice()
    ensures Mul(LeftMatrix, LeftMatrix) == InvertMatrix
  {
  }

  lemma RightTwice()
    ensures Mul(RightMatrix, RightMatrix) == InvertMatrix
  {
  }
}
