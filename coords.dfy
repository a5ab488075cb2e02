/** The KGS-style vertex names used between the board and the engine: a
    column letter from A to T without I, then the row number counted from the
    bottom (19 at the top row, y = 0). */
module Coords {
  import opened Opt
  import opened Text

  /** The column alphabet; I is skipped. */
  const Letters: string := "ABCDEFGHJKLMNOPQRST"

  const Size: int := 19

  /** `{ x, y }` as `coordToXY` returns it; `y == None` is NaN. */
  datatype XY = XY(x: int, y: Option<int>)

  /** The alphabet is in strictly increasing character order, so no letter
      occurs twice. */
  lemma LettersIncreasing(i: int, j: int)
    requires 0 <= i < j < |Letters|
    ensures Letters[i] < Letters[j]
  {
  }

  /** I lies between H and J, and the alphabet goes straight from one to the
      other. */
  lemma LettersSkipI()
    ensures 'I' !in Letters
  {
    forall i | 0 <= i < |Letters| ensures Letters[i] != 'I' {
      if i < 7 {
        LettersIncreasing(i, 7);
      } else if i > 8 {
        LettersIncreasing(8, i);
      }
    }
  }

  /** Looking up the letter of column x finds column x. */
  lemma IndexOfLetter(x: int)
    requires 0 <= x < |Letters|
    ensures IndexOf(Letters, Letters[x]) == x
  {
    var r := IndexOf(Letters, Letters[x]);
    if r < x {
      LettersIncreasing(r, x);
    }
  }

  /** `coordToXY`: the column is the position of the first character in the
      alphabet (-1 when it is missing or not a column letter), the row is 19
      minus `parseInt` of the rest. */
  function CoordToXY(coord: string): (r: XY)
    ensures -1 <= r.x < |Letters|
    ensures r.x == -1 <==> coord == [] || coord[0] !in Letters
    ensures r.x >= 0 ==> Letters[r.x] == coord[0]
    ensures r.y == RowOf(if coord == [] then [] else coord[1..])
  {
    // `coord[0]` is undefined on the empty string, and "undefined" is not a
    // substring of the alphabet.
    var col := if coord == [] then -1 else IndexOf(Letters, coord[0]);
    var rest := if coord == [] then [] else coord[1..];
    XY(col, RowOf(rest))
  }

  /** `19 - parseInt(rest, 10)`, NaN staying NaN. */
  function RowOf(rest: string): (r: Option<int>)
    ensures r.None? <==> ParseInt(rest).None?
    ensures r.Some? ==> r.value + ParseInt(rest).value == Size
  {
    match ParseInt(rest)
    case None => None
    case Some(n) => Some(Size - n)
  }

  /** The row read from a written number k is 19 - k. */
  lemma RowOfNumeral(k: int)
    ensures RowOf(IntToString(k)) == Some(Size - k)
  {
    ParseIntToString(k);
  }

  /** `xyToCoord`: `${LETTERS[x]}${19 - y}`; an index outside the alphabet
      reads `undefined`. */
  function XyToCoord(x: int, y: int): string {
    var letter := if 0 <= x < |Letters| then [Letters[x]] else "undefined";
    letter + IntToString(Size - y)
  }

  /** Every column and every row survive a trip through the name. */
  lemma RoundTrip(x: int, y: int)
    requires 0 <= x < |Letters|
    ensures CoordToXY(XyToCoord(x, y)) == XY(x, Some(y))
  {
    var c := XyToCoord(x, y);
    assert c[0] == Letters[x];
    assert c[1..] == IntToString(Size - y);
    IndexOfLetter(x);
    RowOfNumeral(Size - y);
  }

  /** On the board the row number is 19 - y, between 1 and 19, and is read
      back by `parseInt`. */
  lemma RowNumber(x: int, y: int)
    requires 0 <= x < |Letters| && 0 <= y < Size
    ensures 1 <= Size - y <= Size
    ensures ParseInt(XyToCoord(x, y)[1..]) == Some(Size - y)
  {
    ParseIntToString(Size - y);
  }

  /** No name contains the letter I, whatever the arguments. */
  lemma NoLetterI(x: int, y: int)
    ensures 'I' !in XyToCoord(x, y)
  {
    var c := XyToCoord(x, y);
    var k := Size - y;
    var digits := if k < 0 then NatToString(-k) else NatToString(k);
    var head := if 0 <= x < |Letters| then [Letters[x]] else "undefined";
    assert c == head + (if k < 0 then "-" else "") + digits;
    forall i | 0 <= i < |head| ensures head[i] != 'I' {
      if 0 <= x < |Letters| {
        assert head[i] == Letters[x];
      }
    }
    forall i | 0 <= i < |digits| ensures digits[i] != 'I' {
      assert IsDigit(digits[i]);
    }
  }

  /** A well-formed name (a column letter, then a row number from 1 to 19)
      survives a trip through the coordinates. */
  lemma NameRoundTrip(i: int, n: nat)
    requires 0 <= i < |Letters| && 1 <= n <= Size
    ensures var c := [Letters[i]] + NatToString(n);
            CoordToXY(c).y.Some? && XyToCoord(CoordToXY(c).x, CoordToXY(c).y.value) == c
  {
    var c := [Letters[i]] + NatToString(n);
    assert c[1..] == NatToString(n) == IntToString(n);
    IndexOfLetter(i);
    ParseIntToString(n);
  }

  /** The example of the documentation: D4 is column 3, row 15. */
  lemma ExampleD4()
    ensures XyToCoord(3, 15) == "D4"
    ensures CoordToXY("D4") == XY(3, Some(15))
  {
    assert XyToCoord(3, 15) == [Letters[3]] + IntToString(4);
    RoundTrip(3, 15);
  }

  /** The unhappy paths: an empty name, a letter outside the alphabet, a
      missing row. */
  lemma ExampleInvalid()
    ensures CoordToXY("") == XY(-1, None)
    ensures CoordToXY("I5").x == -1
    ensures CoordToXY("D").y == None
  {
    LettersSkipI();
    assert "I5"[0] == 'I';
  }
}
