/**
 * The four coordinate-transformation matrices the daemon hands to `xinput`
 * (main.c:29-32), as the text the source holds and as the 3x3 integer
 * matrices that text denotes (row-major, nine entries).
 */
module Matrix {
  import opened Wrappers

  /** Every entry of the four constants is -1, 0 or 1. */
  type Cell = x: int | -1 <= x <= 1

  const NormalCoords: string := "1 0 0 0 1 0 0 0 1"
  const InvertCoords: string := "-1 0 1 0 -1 1 0 0 1"
  const LeftCoords: string := "0 -1 1 1 0 0 0 0 1"
  const RightCoords: string := "0 1 0 -1 0 1 0 0 1"

  const NormalMatrix: seq<Cell> := [1, 0, 0, 0, 1, 0, 0, 0, 1]
  const InvertMatrix: seq<Cell> := [-1, 0, 1, 0, -1, 1, 0, 0, 1]
  const LeftMatrix: seq<Cell> := [0, -1, 1, 1, 0, 0, 0, 0, 1]
  const RightMatrix: seq<Cell> := [0, 1, 0, -1, 0, 1, 0, 0, 1]

  function CellText(x: Cell): string {
    if x == -1 then "-1" else if x == 0 then "0" else "1"
  }

  lemma CellTextRoundTrip(x: Cell)
    ensures ' ' !in CellText(x) && ParseCell(CellText(x)) == Some(x)
  {
  }

  /** The entries from index `i` on, written out separated by single spaces. */
  function FormatFrom(m: seq<Cell>, i: nat): string
    requires i < |m|
    decreases |m| - i
  {
    if i == |m| - 1 then CellText(m[i]) else CellText(m[i]) + " " + FormatFrom(m, i + 1)
  }

  function Format(m: seq<Cell>): string
    requires m != []
  {
    FormatFrom(m, 0)
  }

  /** The space-separated fields of a string (an empty string is one empty field). */
  function Split(s: string): (r: seq<string>)
    ensures r != []
    decreases |s|
  {
    if s == [] then [""]
    else
      var rest := Split(s[1..]);
      if s[0] == ' ' then [""] + rest else [[s[0]] + rest[0]] + rest[1..]
  }

  function ParseCell(t: string): Option<Cell> {
    if t == "-1" then Some(-1) else if t == "0" then Some(0) else if t == "1" then Some(1) else None
  }

  function ParseCells(ts: seq<string>): Option<seq<Cell>> {
    if ts == [] then Some([])
    else match (ParseCell(ts[0]), ParseCells(ts[1..]))
      case (Some(x), Some(xs)) => Some([x] + xs)
      case _ => None
  }

  /** How a reader of the property value (`xinput`) takes the text apart. */
  function Parse(s: string): Option<seq<Cell>> {
    ParseCells(Split(s))
  }

  /** A field without spaces followed by a space splits off as one field. */
  lemma {:induction false} SplitField(t: string, u: string)
    requires ' ' !in t
    ensures Split(t + " " + u) == [t] + Split(u)
    decreases |t|
  {
    if t == [] {
      assert t + " " + u == [' '] + u;
      assert (t + " " + u)[1..] == u;
    } else {
      assert (t + " " + u)[1..] == t[1..] + " " + u;
      assert ' ' !in t[1..];
      SplitField(t[1..], u);
      assert [t[0]] + t[1..] == t;
    }
  }

  /** A field without spaces is a single field. */
  lemma {:induction false} SplitPlain(t: string)
    requires ' ' !in t
    ensures Split(t) == [t]
    decreases |t|
  {
    if t != [] {
      assert ' ' !in t[1..];
      SplitPlain(t[1..]);
      assert [t[0]] + t[1..] == t;
    }
  }

  /** Parsing the formatted text gives back the matrix entries. */
  lemma {:induction false} ParseFormatFrom(m: seq<Cell>, i: nat)
    requires i < |m|
    ensures Parse(FormatFrom(m, i)) == Some(m[i..])
    decreases |m| - i
  {
    CellTextRoundTrip(m[i]);
    var t := CellText(m[i]);
    if i == |m| - 1 {
      SplitPlain(t);
      assert FormatFrom(m, i) == t;
      assert [t][1..] == [];
      assert ParseCells([t][1..]) == Some([]);
      assert ParseCells([t]) == Some([m[i]] + []);
      assert m[i..] == [m[i]] + [];
    } else {
      SplitField(t, FormatFrom(m, i + 1));
      ParseFormatFrom(m, i + 1);
      var ts := [t] + Split(FormatFrom(m, i + 1));
      assert ts[1..] == Split(FormatFrom(m, i + 1));
      assert m[i..] == [m[i]] + m[i + 1..];
    }
  }

  /** The whole text parses back to the matrix it was formatted from. */
  lemma ParseFormat(m: seq<Cell>)
    requires m != []
    ensures Parse(Format(m)) == Some(m)
  {
    ParseFormatFrom(m, 0);
  }

  /** The text of a 3x3 matrix: its nine entries, each followed by a space but the last. */
  lemma FormatNine(m: seq<Cell>)
    requires |m| == 9
    ensures Format(m) == CellText(m[0]) + " " + (CellText(m[1]) + " " + (CellText(m[2]) + " " + (CellText(m[3]) + " " + (CellText(m[4]) + " " + (CellText(m[5]) + " " + (CellText(m[6]) + " " + (CellText(m[7]) + " " + CellText(m[8]))))))))
  {
    assert FormatFrom(m, 0) == CellText(m[0]) + " " + FormatFrom(m, 1);
    assert FormatFrom(m, 1) == CellText(m[1]) + " " + FormatFrom(m, 2);
    assert FormatFrom(m, 2) == CellText(m[2]) + " " + FormatFrom(m, 3);
    assert FormatFrom(m, 3) == CellText(m[3]) + " " + FormatFrom(m, 4);
    assert FormatFrom(m, 4) == CellText(m[4]) + " " + FormatFrom(m, 5);
    assert FormatFrom(m, 5) == CellText(m[5]) + " " + FormatFrom(m, 6);
    assert FormatFrom(m, 6) == CellText(m[6]) + " " + FormatFrom(m, 7);
    assert FormatFrom(m, 7) == CellText(m[7]) + " " + FormatFrom(m, 8);
  }

  /** Each matrix text is the row-major formatting of its entries. */
  lemma NormalFormatted()
    ensures Format(NormalMatrix) == NormalCoords
  {
    assert CellText(NormalMatrix[0]) == "1";
    assert CellText(NormalMatrix[1]) == "0";
    assert CellText(NormalMatrix[2]) == "0";
    assert CellText(NormalMatrix[3]) == "0";
    assert CellText(NormalMatrix[4]) == "1";
    assert CellText(NormalMatrix[5]) == "0";
    assert CellText(NormalMatrix[6]) == "0";
    assert CellText(NormalMatrix[7]) == "0";
    assert CellText(NormalMatrix[8]) == "1";
    FormatNine(NormalMatrix);
  }

  lemma InvertFormatted()
    ensures Format(InvertMatrix) == InvertCoords
  {
    assert CellText(InvertMatrix[0]) == "-1";
    assert CellText(InvertMatrix[1]) == "0";
    assert CellText(InvertMatrix[2]) == "1";
    assert CellText(InvertMatrix[3]) == "0";
    assert CellText(InvertMatrix[4]) == "-1";
    assert CellText(InvertMatrix[5]) == "1";
    assert CellText(InvertMatrix[6]) == "0";
    assert CellText(InvertMatrix[7]) == "0";
    assert CellText(InvertMatrix[8]) == "1";
    FormatNine(InvertMatrix);
  }

  lemma LeftFormatted()
    ensures Format(LeftMatrix) == LeftCoords
  {
    assert CellText(LeftMatrix[0]) == "0";
    assert CellText(LeftMatrix[1]) == "-1";
    assert CellText(LeftMatrix[2]) == "1";
    assert CellText(LeftMatrix[3]) == "1";
    assert CellText(LeftMatrix[4]) == "0";
    assert CellText(LeftMatrix[5]) == "0";
    assert CellText(LeftMatrix[6]) == "0";
    assert CellText(LeftMatrix[7]) == "0";
    assert CellText(LeftMatrix[8]) == "1";
    FormatNine(LeftMatrix);
  }

  lemma RightFormatted()
    ensures Format(RightMatrix) == RightCoords
  {
    assert CellText(RightMatrix[0]) == "0";
    assert CellText(RightMatrix[1]) == "1";
    assert CellText(RightMatrix[2]) == "0";
    assert CellText(RightMatrix[3]) == "-1";
    assert CellText(RightMatrix[4]) == "0";
    assert CellText(RightMatrix[5]) == "1";
    assert CellText(RightMatrix[6]) == "0";
    assert CellText(RightMatrix[7]) == "0";
    assert CellText(RightMatrix[8]) == "1";
    FormatNine(RightMatrix);
  }

  /** Row-major product of two 3x3 matrices. */
  function Mul(a: seq<int>, b: seq<int>): (c: seq<int>)
    requires |a| == 9 && |b| == 9
    ensures |c| == 9
  {
    seq(9, k requires 0 <= k < 9 =>
      a[3 * (k / 3)] * b[k % 3] + a[3 * (k / 3) + 1] * b[3 + k % 3] + a[3 * (k / 3) + 2] * b[6 + k % 3])
  }

  /** The "normal" matrix is the identity, on either side of a product. */
  lemma NormalIsLeftIdentity(m: seq<int>)
    requires |m| == 9
    ensures Mul(NormalMatrix, m) == m
  {
  }

  lemma NormalIsRightIdentity(m: seq<int>)
    requires |m| == 9
    ensures Mul(m, NormalMatrix) == m
  {
  }
}
