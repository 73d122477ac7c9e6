/** The timer face: a value split into a fixed number of decimal digit
    cells, leading zeros blanked, each cell placed at a fixed stride. */
module Face {
  import opened Decimal
  import opened Segments

  /** One digit slot of the face: where the digit image goes and which
      segments it lights. */
  datatype Cell = Cell(x: int, y: int, segments: Pattern)

  /** The whole face: a backboard of the given size and colour and its cells,
      drawn in the segment colours of the theme. */
  datatype TimerImage = TimerImage(width: int, height: int, background: Colour, themeIndex: int, cells: seq<Cell>)

  /** Horizontal distance from one cell to the next. */
  const DigitStride := 7 * DigitWidth / 16

  /** Number of cells left blank in front of the value's significant digits. */
  function LeadingBlanks(numDigits: nat, num: int): int
  {
    numDigits - (Log10(num) + 1)
  }

  /** One segment table per cell, as the timer keeps it. */
  predicate WellFormedTable(digitSequence: seq<seq<Pattern>>, numDigits: nat)
  {
    |digitSequence| >= numDigits && forall i :: 0 <= i < numDigits ==> |digitSequence[i]| >= 10
  }

  /** Every cell uses the standard digit table. */
  predicate StandardTable(digitSequence: seq<seq<Pattern>>, numDigits: nat)
  {
    |digitSequence| >= numDigits && forall i :: 0 <= i < numDigits ==> digitSequence[i] == DigitTable
  }

  /** The face of num on numDigits cells: cell i sits at width/16 + 28 i;
      it is blank when it lies in front of num's significant digits, and
      otherwise shows the i-th decimal digit of num. */
  function FaceOf(width: int, height: int, numDigits: nat, colour: Colour, themeIndex: int,
                  num: int, digitSequence: seq<seq<Pattern>>): TimerImage
    requires WellFormedTable(digitSequence, numDigits)
  {
    var ds := DecimalDigits(num, numDigits);
    TimerImage(width, height, colour, themeIndex,
      seq(numDigits, i requires 0 <= i < numDigits =>
        Cell(width / 16 + i * DigitStride, height / 9,
             if i < LeadingBlanks(numDigits, num) then DefaultOffDigit else digitSequence[i][ds[i]])))
  }

  /** The source's drawTimer: split num into digits by descending powers of
      ten, then place one cell per digit, blanking leading zeros. */
  method DrawTimer(width: int, height: int, numDigits: nat, colour: Colour, themeIndex: int,
                   num: int, digitSequence: seq<seq<Pattern>>) returns (timer: TimerImage)
    requires num < Pow10(numDigits)
    requires WellFormedTable(digitSequence, numDigits)
    ensures timer == FaceOf(width, height, numDigits, colour, themeIndex, num, digitSequence)
  {
    var drawX := width / 16;
    var drawY := height / 9;
    var significant := FindGreatestPowerOfTen(num);
    var greatestPowerOfTen := significant + 1;
    var digitsDisplayed := SplitDigits(num, numDigits);
    greatestPowerOfTen := numDigits - greatestPowerOfTen;
    var cells := PlaceCells(drawX, drawY, numDigits, greatestPowerOfTen, digitsDisplayed, digitSequence);
    DrawnCellsFace(width, height, numDigits, colour, themeIndex, num, digitSequence);
    timer := TimerImage(width, height, colour, themeIndex, cells);
  }

  /** The cells the second loop of drawTimer places: cell i at x0 + 28 i,
      blank when it lies before position lead, holds digit 0 and is not the
      only cell, otherwise its table's pattern for its digit. */
  function DrawnCells(x0: int, y: int, numDigits: nat, lead: int, ds: seq<int>,
                      digitSequence: seq<seq<Pattern>>): seq<Cell>
    requires WellFormedTable(digitSequence, numDigits)
    requires |ds| == numDigits && forall i :: 0 <= i < numDigits ==> 0 <= ds[i] < 10
  {
    seq(numDigits, i requires 0 <= i < numDigits =>
      Cell(x0 + i * DigitStride, y,
           if i < lead && ds[i] == 0 && numDigits > 1 then DefaultOffDigit else digitSequence[i][ds[i]]))
  }

  /** For the digits of num and its number of leading blanks, the code's
      three-part blanking test picks exactly the cells in front of the
      significant digits, so the drawn cells are those of the face. */
  lemma DrawnCellsFace(width: int, height: int, numDigits: nat, colour: Colour, themeIndex: int,
                       num: int, digitSequence: seq<seq<Pattern>>)
    requires WellFormedTable(digitSequence, numDigits)
    ensures DrawnCells(width / 16, height / 9, numDigits, LeadingBlanks(numDigits, num),
                       DecimalDigits(num, numDigits), digitSequence)
            == FaceOf(width, height, numDigits, colour, themeIndex, num, digitSequence).cells
  {
    var lead := LeadingBlanks(numDigits, num);
    var drawn := DrawnCells(width / 16, height / 9, numDigits, lead, DecimalDigits(num, numDigits), digitSequence);
    var face := FaceOf(width, height, numDigits, colour, themeIndex, num, digitSequence);
    forall i | 0 <= i < numDigits
      ensures drawn[i] == face.cells[i]
    {
      if i < lead {
        LeadingDigitsZero(num, numDigits, i);
      }
    }
  }

  /** The second loop of drawTimer: one cell per digit, left to right. */
  method PlaceCells(drawX: int, drawY: int, numDigits: nat, greatestPowerOfTen: int,
                    digitsDisplayed: array<int>, digitSequence: seq<seq<Pattern>>) returns (cells: seq<Cell>)
    requires WellFormedTable(digitSequence, numDigits)
    requires digitsDisplayed.Length == numDigits
    requires forall i :: 0 <= i < numDigits ==> 0 <= digitsDisplayed[i] < 10
    ensures cells == DrawnCells(drawX, drawY, numDigits, greatestPowerOfTen, digitsDisplayed[..], digitSequence)
  {
    var x := drawX;
    cells := [];
    var i := 0;
    while i < numDigits
      invariant 0 <= i <= numDigits
      invariant x == drawX + i * DigitStride
      invariant cells == DrawnCells(drawX, drawY, numDigits, greatestPowerOfTen, digitsDisplayed[..], digitSequence)[..i]
    {
      if i < greatestPowerOfTen && digitsDisplayed[i] == 0 && numDigits > 1 {
        cells := cells + [Cell(x, drawY, DefaultOffDigit)];
      } else {
        cells := cells + [Cell(x, drawY, digitSequence[i][digitsDisplayed[i]])];
      }
      x := x + (7 * DigitWidth / 16);
      i := i + 1;
    }
  }

  /** The first loop of drawTimer: the numDigits decimal digits of num,
      most significant first, taken off by descending powers of ten. */
  method SplitDigits(num: int, numDigits: nat) returns (digitsDisplayed: array<int>)
    requires num < Pow10(numDigits)
    ensures fresh(digitsDisplayed)
    ensures digitsDisplayed[..] == DecimalDigits(num, numDigits)
  {
    var numDigitsDisplayed := numDigits - 1;
    var loopingNum := num;
    digitsDisplayed := new int[numDigits];
    ghost var shown := DecimalDigits(num, numDigits);
    if num >= 0 {
      SmallDiv(num, Pow10(numDigits));
    }
    var j := 0;
    while j < numDigits
      invariant 0 <= j <= numDigits
      invariant numDigitsDisplayed == numDigits - 1 - j
      invariant num >= 0 ==> loopingNum == num % Pow10(numDigits - j)
      invariant digitsDisplayed[..j] == shown[..j]
    {
      var p := Pow10(numDigitsDisplayed);
      SplitStep(num, numDigits, j, loopingNum);
      if num < p {
        digitsDisplayed[j] := 0;
      } else {
        var digitNum := Quot(loopingNum, p);
        digitsDisplayed[j] := digitNum;
        loopingNum := loopingNum - digitNum * p;
      }
      assert digitsDisplayed[..j + 1] == shown[..j] + [shown[j]];
      numDigitsDisplayed := numDigitsDisplayed - 1;
      j := j + 1;
    }
    assert digitsDisplayed[..] == shown[..numDigits];
  }

  /** One step of the digit split: with loopingNum the remainder of num
      modulo 10^(n-j), the quotient by p = 10^(n-1-j) is digit j of num and
      taking it away leaves the remainder modulo p. */
  lemma SplitStep(num: int, n: nat, j: nat, loopingNum: int)
    requires j < n && (num >= 0 ==> loopingNum == num % Pow10(n - j))
    ensures var p := Pow10(n - 1 - j);
      (num < p ==> DecimalDigits(num, n)[j] == 0 && (num >= 0 ==> loopingNum == num % p)) &&
      (num >= p ==> Quot(loopingNum, p) == DecimalDigits(num, n)[j] &&
                    loopingNum - Quot(loopingNum, p) * p == num % p)
  {
    var p := Pow10(n - 1 - j);
    assert Pow10(n - j) == 10 * p;
    if 0 <= num < p {
      SmallDiv(num, p);
      SmallDiv(num, 10 * p);
    } else if num >= p {
      ModSplit(num, p);
    }
  }

  /** Cells are laid out left to right at a 28-pixel stride; on a backboard
      32 pixels wide per digit and 36 high, every digit image (24 by 28)
      lies inside the backboard and clear of its neighbours. */
  lemma {:induction false} FaceLayout(numDigits: nat, colour: Colour, themeIndex: int, num: int,
                                      digitSequence: seq<seq<Pattern>>)
    requires WellFormedTable(digitSequence, numDigits)
    ensures var face := FaceOf(32 * numDigits, DigitHeight, numDigits, colour, themeIndex, num, digitSequence);
      |face.cells| == numDigits &&
      (forall i :: 0 <= i < numDigits ==>
         face.cells[i].x == 2 * numDigits + 28 * i && face.cells[i].y == 4 &&
         0 <= face.cells[i].x && face.cells[i].x + 24 <= face.width &&
         face.cells[i].y + 28 <= face.height) &&
      (forall i :: 0 <= i < numDigits - 1 ==> face.cells[i].x + 24 <= face.cells[i + 1].x)
  {
  }

  /** Leading-zero suppression: for an in-range value and the standard
      table, cell i is blank exactly when it lies in front of the value's
      significant digits, and every other cell shows its decimal digit.
      So the blank cells form a prefix and the rightmost cell is never blank. */
  lemma BlankCells(width: int, height: int, numDigits: nat, colour: Colour, themeIndex: int,
                   num: int, digitSequence: seq<seq<Pattern>>, i: nat)
    requires num < Pow10(numDigits) && i < numDigits
    requires StandardTable(digitSequence, numDigits)
    ensures var c := FaceOf(width, height, numDigits, colour, themeIndex, num, digitSequence).cells[i];
      (c.segments == DefaultOffDigit <==> i < LeadingBlanks(numDigits, num)) &&
      (i >= LeadingBlanks(numDigits, num) ==> c.segments == DigitTable[DecimalDigits(num, numDigits)[i]])
    ensures i == numDigits - 1 ==>
      FaceOf(width, height, numDigits, colour, themeIndex, num, digitSequence).cells[i].segments != DefaultOffDigit
  {
  }

  /** No visible leading zero: the leftmost cell that is not blank shows a
      non-zero digit unless the value is 0, which shows as blanks and one "0". */
  lemma FirstShownDigit(width: int, height: int, numDigits: nat, colour: Colour, themeIndex: int,
                        num: int, digitSequence: seq<seq<Pattern>>)
    requires 1 <= numDigits && 0 <= num < Pow10(numDigits)
    requires StandardTable(digitSequence, numDigits)
    ensures 0 <= LeadingBlanks(numDigits, num) < numDigits
    ensures var c := FaceOf(width, height, numDigits, colour, themeIndex, num, digitSequence)
                       .cells[LeadingBlanks(numDigits, num)];
      num == 0 <==> c.segments == DigitTable[0]
    ensures num == 0 ==>
      forall i :: 0 <= i < numDigits ==>
        FaceOf(width, height, numDigits, colour, themeIndex, num, digitSequence).cells[i].segments
          == if i < numDigits - 1 then DefaultOffDigit else DigitTable[0]
  {
    var face := FaceOf(width, height, numDigits, colour, themeIndex, num, digitSequence);
    var lead := LeadingBlanks(numDigits, num);
    var ds := DecimalDigits(num, numDigits);
    if num >= 1 {
      TopDigitNonZero(num, numDigits);
      var d := ds[lead];
      assert face.cells[lead].segments == DigitTable[d];
      var k := DifferingSegment(0, d);
      assert DigitTable[d] != DigitTable[0];
    } else {
      assert lead == numDigits - 1;
      assert ds[numDigits - 1] == 0;
    }
  }

  /** Reads a digit back off its segments: the table index of the pattern,
      0 for a blank cell. */
  function ReadDigit(segments: Pattern): (d: int)
    ensures 0 <= d < 10
  {
    IndexFrom(segments, 0)
  }

  function IndexFrom(segments: Pattern, k: nat): (d: int)
    ensures 0 <= d < 10
    decreases 10 - k
  {
    if k >= 10 then 0 else if DigitTable[k] == segments then k else IndexFrom(segments, k + 1)
  }

  lemma {:induction false} IndexFromTable(d: nat, k: nat)
    requires k <= d < 10
    ensures IndexFrom(DigitTable[d], k) == d
    decreases d - k
  {
    if k < d {
      TablesWellFormed();
      IndexFromTable(d, k + 1);
    }
  }

  lemma {:induction false} IndexFromBlank(k: nat)
    ensures IndexFrom(DefaultOffDigit, k) == 0
    decreases 10 - k
  {
    if k < 10 {
      TablesWellFormed();
      IndexFromBlank(k + 1);
    }
  }

  /** The digits a reader sees on the face, blanks read as 0. */
  function ReadFace(cells: seq<Cell>): (ds: seq<int>)
    ensures |ds| == |cells|
    ensures forall i :: 0 <= i < |cells| ==> 0 <= ds[i] <= 9
  {
    seq(|cells|, i requires 0 <= i < |cells| => ReadDigit(cells[i].segments))
  }

  /** Round trip: reading the face of an in-range value digit by digit and
      recombining the digits gives the value back. */
  lemma FaceShowsValue(width: int, height: int, numDigits: nat, colour: Colour, themeIndex: int,
                       num: int, digitSequence: seq<seq<Pattern>>)
    requires 0 <= num < Pow10(numDigits)
    requires StandardTable(digitSequence, numDigits)
    ensures Value(ReadFace(FaceOf(width, height, numDigits, colour, themeIndex, num, digitSequence).cells)) == num
  {
    var face := FaceOf(width, height, numDigits, colour, themeIndex, num, digitSequence);
    var ds := DecimalDigits(num, numDigits);
    forall i | 0 <= i < numDigits
      ensures ReadFace(face.cells)[i] == ds[i]
    {
      if i < LeadingBlanks(numDigits, num) {
        IndexFromBlank(0);
        LeadingDigitsZero(num, numDigits, i);
      } else {
        IndexFromTable(ds[i], 0);
      }
    }
    assert ReadFace(face.cells) == ds;
    DigitsRecombine(num, numDigits);
  }

  /** Two faces on four cells: 7 shows as three blanks and a "7", 0 as three blanks and a "0". */
  lemma SuppressionExamples(colour: Colour, themeIndex: int)
    ensures var t := [DigitTable, DigitTable, DigitTable, DigitTable];
      var seven := FaceOf(128, 36, 4, colour, themeIndex, 7, t).cells;
      var zero := FaceOf(128, 36, 4, colour, themeIndex, 0, t).cells;
      |seven| == 4 && |zero| == 4 &&
      seven[0].segments == seven[1].segments == seven[2].segments == DefaultOffDigit &&
      seven[3].segments == DigitTable[7] &&
      zero[0].segments == zero[1].segments == zero[2].segments == DefaultOffDigit &&
      zero[3].segments == DigitTable[0]
  {
    var t := [DigitTable, DigitTable, DigitTable, DigitTable];
    assert Pow10(4) == 10000;
    assert StandardTable(t, 4);
    assert LeadingBlanks(4, 7) == 3;
    BlankCells(128, 36, 4, colour, themeIndex, 7, t, 0);
    BlankCells(128, 36, 4, colour, themeIndex, 7, t, 1);
    BlankCells(128, 36, 4, colour, themeIndex, 7, t, 2);
    BlankCells(128, 36, 4, colour, themeIndex, 7, t, 3);
    assert DecimalDigits(7, 4)[3] == 7;
    FirstShownDigit(128, 36, 4, colour, themeIndex, 0, t);
  }
}
