/** The seven-segment encoding table, the colour themes, and the drawing of
    one digit as a list of filled rectangles. */
module Segments {

  /** On/off state of the seven segments, in the order top, upper right,
      lower right, bottom, lower left, upper left, middle. */
  type Pattern = seq<bool>

  datatype Colour = Rgb(r: int, g: int, b: int)

  /** A filled rectangle on a canvas: origin (x, y), size w by h. */
  datatype Rect = Rect(x: int, y: int, w: int, h: int)
  datatype Fill = Fill(rect: Rect, colour: Colour)

  /** A canvas of the given size and the rectangles painted on it, in order. */
  datatype Image = Image(width: int, height: int, fills: seq<Fill>)

  /** Every segment off: the pattern of a suppressed leading zero. */
  const DefaultOffDigit: Pattern := [false, false, false, false, false, false, false]

  /** Segment patterns of the digits 0 to 9. */
  const DigitTable: seq<Pattern> := [
    [true, true, true, true, true, true, false],     // 0
    [false, true, true, false, false, false, false], // 1
    [true, true, false, true, true, false, true],    // 2
    [true, true, true, true, false, false, true],    // 3
    [false, true, true, false, false, true, true],   // 4
    [true, false, true, true, false, true, true],    // 5
    [true, false, true, true, true, true, true],     // 6
    [true, true, true, false, false, false, false],  // 7
    [true, true, true, true, true, true, true],      // 8
    [true, true, true, true, false, true, true]      // 9
  ]

  /** Width and height of one digit slot on the face. */
  const DigitWidth := 64
  const DigitHeight := 36

  /** Greenfoot's named colours, with their RGB values. */
  const Red := Rgb(255, 0, 0)
  const Gray := Rgb(128, 128, 128)
  const Black := Rgb(0, 0, 0)
  const Green := Rgb(0, 255, 0)

  /** The five themes (standard, ocean, playful, regal, striking), each
      [background, on-segment colour, off-segment colour]. */
  const TimerColours: seq<seq<Colour>> := [
    [Rgb(102, 102, 102), Red, Gray],
    [Rgb(19, 79, 92), Rgb(243, 243, 243), Rgb(42, 109, 120)],
    [Rgb(103, 78, 167), Rgb(222, 7, 230), Rgb(131, 102, 173)],
    [Rgb(51, 42, 18), Rgb(199, 152, 56), Rgb(105, 100, 86)],
    [Black, Green, Rgb(38, 4, 2)]
  ]

  /** The alarm sound file of each theme. */
  const Alarms: seq<string> := [
    "StandardAlarm.wav", "OceanSound.wav", "Temptation.wav", "LonelyNoMore.wav", "ElectricFeel.wav"
  ]

  predicate ValidTheme(themeIndex: int)
  {
    0 <= themeIndex < 5
  }

  function PickColour(value: bool, onColour: Colour, offColour: Colour): (c: Colour)
  {
    if value then onColour else offColour
  }

  /** Every digit has a seven-segment pattern of its own, none of them blank,
      and every theme tells lit segments from unlit ones by colour. */
  lemma TablesWellFormed()
    ensures |DigitTable| == 10 && |DefaultOffDigit| == 7
    ensures forall d :: 0 <= d < 10 ==> |DigitTable[d]| == 7 && DigitTable[d] != DefaultOffDigit
    ensures forall d, e :: 0 <= d < e < 10 ==> DigitTable[d] != DigitTable[e]
    ensures |TimerColours| == 5 && |Alarms| == 5
    ensures forall t :: 0 <= t < 5 ==> |TimerColours[t]| == 3 && TimerColours[t][1] != TimerColours[t][2]
  {
  }

  /** A segment in which digits d and e differ. */
  function DifferingSegment(d: nat, e: nat): (k: nat)
    requires d < e < 10
    ensures k < 7 && DigitTable[d][k] != DigitTable[e][k]
  {
    if DigitTable[d][0] != DigitTable[e][0] then 0
    else if DigitTable[d][1] != DigitTable[e][1] then 1
    else if DigitTable[d][2] != DigitTable[e][2] then 2
    else if DigitTable[d][3] != DigitTable[e][3] then 3
    else if DigitTable[d][4] != DigitTable[e][4] then 4
    else if DigitTable[d][5] != DigitTable[e][5] then 5
    else 6
  }

  /** The source's drawDigit: a canvas of 3w/4 by 7h/9 holding the seven
      segment rectangles, each in the on or the off colour of the theme. */
  function DrawDigit(width: int, height: int, onSegment: Pattern, themeIndex: int): (img: Image)
    requires |onSegment| == 7 && ValidTheme(themeIndex)
  {
    var wideW, wideH := width / 2, height / 9;
    var longW, longH := width / 8, 2 * height / 9;
    var on, off := TimerColours[themeIndex][1], TimerColours[themeIndex][2];
    Image(3 * width / 4, 7 * height / 9, [
      Fill(Rect(width / 8, 0, wideW, wideH), PickColour(onSegment[0], on, off)),
      Fill(Rect(3 * width / 4 - width / 8, height / 9 + 1, longW, longH), PickColour(onSegment[1], on, off)),
      Fill(Rect(3 * width / 4 - width / 8, 4 * height / 9 + 1, longW, longH), PickColour(onSegment[2], on, off)),
      Fill(Rect(width / 8, 2 * height / 3, wideW, wideH), PickColour(onSegment[3], on, off)),
      Fill(Rect(0, 4 * height / 9 + 1, longW, longH), PickColour(onSegment[4], on, off)),
      Fill(Rect(0, height / 9 + 1, longW, longH), PickColour(onSegment[5], on, off)),
      Fill(Rect(width / 8, 1 * height / 3 + 1, wideW, wideH), PickColour(onSegment[6], on, off))
    ])
  }

  predicate Inside(r: Rect, width: int, height: int)
  {
    0 <= r.x && r.x + r.w <= width && 0 <= r.y && r.y + r.h <= height
  }

  predicate Disjoint(a: Rect, b: Rect)
  {
    a.x + a.w <= b.x || b.x + b.w <= a.x || a.y + a.h <= b.y || b.y + b.h <= a.y
  }

  /** A digit as the face draws it (half a slot wide, a slot high): seven
      non-overlapping segments on a 24 by 28 canvas, none left out, segment k
      in the theme's on colour exactly when the pattern lights it. */
  lemma DigitImage(onSegment: Pattern, themeIndex: int)
    requires |onSegment| == 7 && ValidTheme(themeIndex)
    ensures var img := DrawDigit(DigitWidth / 2, DigitHeight, onSegment, themeIndex);
      img.width == 24 && img.height == 28 && |img.fills| == 7 &&
      (forall k :: 0 <= k < 7 ==> Inside(img.fills[k].rect, img.width, img.height)) &&
      (forall k, l :: 0 <= k < l < 7 ==> Disjoint(img.fills[k].rect, img.fills[l].rect)) &&
      (forall k :: 0 <= k < 7 ==> (img.fills[k].colour == TimerColours[themeIndex][1] <==> onSegment[k])) &&
      (forall k :: 0 <= k < 7 ==> (img.fills[k].colour == TimerColours[themeIndex][2] <==> !onSegment[k]))
  {
  }
}
