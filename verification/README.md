# DigitalTimer — a verified model of a seven-segment countdown widget

`DigitalTimer` is a Greenfoot actor that counts a number of seconds down to 0.
It shows the count on up to five seven-segment digits and loops an alarm sound
when the count reaches 0. The user can start and stop it, reset it to its
starting value, and add or take away seconds. Resets and adjustments are
debounced for one second. This project models the whole class in Dafny:

- `decimal.dfy` (module `Decimal`): powers of ten and Java's truncating `/`.
  It also holds `findGreatestPowerOfTen` as a loop proved against a recursive
  `Log10`, and the split of a value into digits with the proof that the digits
  recombine to the value.
- `segments.dfy` (module `Segments`): the segment table (`digit`,
  `defaultOffDigit`), the five colour themes and alarm files, and `pickColour`.
  It also holds `drawDigit`, modelled as a canvas plus seven filled rectangles
  computed with the source's integer arithmetic.
- `face.dfy` (module `Face`): `drawTimer`, modelled as a method that runs
  the source's two loops, each as a method of its own. `SplitDigits` fills a
  fresh `int` array with the digits. `PlaceCells` builds one cell per digit
  with the source's three-part blanking test. `DrawTimer` is proved equal to
  the specification `FaceOf`. Lemmas
  state what the face means: leading-zero suppression, layout, and a read-back
  round trip.
- `timer.dfy` (module `Timer`): the class `DigitalTimer` with the source's
  fields, both constructors, `act`, `start`, `stop`, `update()`,
  `update(int)`, `getNumCyclesLeft` and `turnOffAlarm`. It also holds the
  adjustment arithmetic and a finding about 32-bit overflow.

Environment inputs become explicit:

- The clock (`System.currentTimeMillis()`) is a `now` parameter. The three
  clock reads in `act` are taken to happen at the same instant.
- Sound playback becomes a ghost log, `alarmCommands`, of `SetVolume`,
  `PlayLoop` and `StopPlaying` requests naming the theme's sound file.
- A face is the value `TimerImage`: backboard size and colour, the theme,
  and one `Cell` per digit giving the cell's position and segment pattern.
  `DrawDigit` gives the rectangles that make up each cell.

The decrement test `elapsedSeconds >= 0.99 && elapsedSeconds <= 1.01`, with
`elapsedSeconds = ms / 1000.0`, is modelled as `990 <= ms <= 1010` (`InTickWindow`).
For integer milliseconds the two tests agree. The double closest to 990/1000 is
the literal `0.99`, and the double closest to 1010/1000 is the literal `1.01`.
989 and 1011 fall outside.

The model follows the code where the widget's prose describes something else:

- The count is decremented with no `numCycles > 0` guard (DigitalTimer.java:171-175).
  It goes negative once 0 has been shown for a second. The face then shows 0,
  and `getNumCyclesLeft` reports 0. So "0 <= count <= cap at all times" does
  not hold. `Valid()` keeps only `count <= cap`.
- A negative starting value is accepted. It gives one cell and a cap of 9.
  `update()` restores that negative value.
- `act` draws the face before it decrements (DigitalTimer.java:161-175).
  So the face trails the count by one frame, and the alarm is requested on the
  frame that shows 0. `CountdownScenario` walks through this.
- `alarmPlayed` is only ever set to false. The alarm condition
  `numCycles == 0 || alarmPlayed` therefore reduces to `numCycles == 0`
  (`AlarmRequested`). `Valid()` records `!alarmPlayed`.
- `update(int)` keeps its `+1`: adjusting by 0 adds one second.

## Model

| member | source | states |
|---|---|---|
| `Decimal.FindGreatestPowerOfTen` | DigitalTimer.java:388-403 | the loop stops, and it returns floor(log10 num): 10^g <= num < 10^(g+1) for num >= 1, and 0 for every num below 10, negatives included |
| `Decimal.Quot` | DigitalTimer.java:398 | Java's truncating int division: agrees with Euclidean division on non-negative values and is never positive for negative ones |
| `Decimal.Pow10` | DigitalTimer.java:316-322 | the integer power of ten used for `(int)Math.pow(10, k)` is at least 1 |
| `Decimal.QuotAtLeastTen` | DigitalTimer.java:398 | the loop guard `num / 10^k >= 10` holds exactly for k below Log10(num) |
| `Decimal.Log10Bounds` | DigitalTimer.java:388-393 | Log10(n) is the exponent of the greatest power of ten not above n |
| `Decimal.Log10Unique` | DigitalTimer.java:388-393 | only one exponent g has 10^g <= n < 10^(g+1) |
| `Decimal.Pow10Monotone` | DigitalTimer.java:316 | powers of ten grow with the exponent |
| `Decimal.ValueOfDigits` | DigitalTimer.java:309-325 | the n digits of v, weighted by descending powers of ten, sum to v mod 10^n |
| `Decimal.DigitsRecombine` | DigitalTimer.java:309-325 | for 0 <= num < 10^n every digit is in 0..9 and the sum of digit[j]*10^(n-1-j) is num |
| `Decimal.LeadingDigitsZero` | DigitalTimer.java:316-317 | every position above the most significant digit holds 0 |
| `Decimal.TopDigitNonZero` | DigitalTimer.java:327 | a positive value fits in n digits only when Log10 < n, and its most significant digit is non-zero |
| `Face.DrawTimer` | DigitalTimer.java:299-344 | the two loops build exactly FaceOf: each cell is placed at width/16 + 28i, is blank before the significant digits, and otherwise shows that cell's table entry for its decimal digit |
| `Face.SplitDigits` | DigitalTimer.java:311-324 | the first loop fills a fresh array with exactly the numDigits decimal digits of num, most significant first (all 0 for a negative num) |
| `Face.SplitStep` | DigitalTimer.java:316-323 | one split step: with the running remainder num mod 10^(n-j), dividing by p = 10^(n-1-j) gives digit j of num and subtracting leaves num mod p; a num below p gives digit 0 |
| `Face.PlaceCells` | DigitalTimer.java:333-342 | the second loop places cell i at drawX + 28i, blank exactly when i is before greatestPowerOfTen, its digit is 0 and there is more than one cell, otherwise its table's pattern for its digit |
| `Face.DrawnCellsFace` | DigitalTimer.java:327-342 | for the digits of num, the code's three-part blanking test picks exactly the cells in front of the significant digits, so the placed cells are the cells of FaceOf |
| `Face.BlankCells` | DigitalTimer.java:327-342 | with the standard table, a cell is blank exactly when i < numDigits - (Log10(num)+1), the source's three-part test; other cells show their digit, and the rightmost cell is never blank |
| `Face.FirstShownDigit` | DigitalTimer.java:333-340 | the first cell that is not blank shows "0" exactly when the value is 0; value 0 shows numDigits-1 blanks and then one "0" |
| `Face.FaceLayout` | DigitalTimer.java:129-130 | on a 32*numDigits by 36 backboard, cell i is at (2*numDigits + 28i, 4), and every 24x28 digit image lies inside the board, clear of its neighbours |
| `Face.FaceShowsValue` | DigitalTimer.java:309-342 | reading each cell's digit back off its segments (a blank reads 0) and recombining gives the value back |
| `Face.SuppressionExamples` | DigitalTimer.java:333-334 | on four cells, 7 shows three blanks and a "7", and 0 shows three blanks and a "0" |
| `Face.IndexFromTable` | DigitalTimer.java:50-60 | searching the digit table for digit d's pattern finds d |
| `Face.IndexFromBlank` | DigitalTimer.java:49 | the all-off pattern matches no digit of the table |
| `Segments.TablesWellFormed` | DigitalTimer.java:49-81 | ten distinct seven-segment patterns, none of them blank; five themes whose on and off colours differ; five alarm files |
| `Segments.DigitImage` | DigitalTimer.java:352-386 | a digit drawn as the face draws it is a 24x28 canvas with seven non-overlapping segments inside it; segment k has the on colour exactly when lit and the off colour exactly when unlit, so no segment is left out |
| `Timer.InitializeDigits` | DigitalTimer.java:258-265 | a fresh array with one copy of the digit table per cell |
| `Timer.DigitsForRequest` | DigitalTimer.java:118-128 | a request up to 99999 needs 1 to 5 cells, and the requested value fits in them |
| `Timer.Adjusted` | DigitalTimer.java:238-245 | the new count is the sum plus one, clamped into [0, maxNum]: maxNum above it, 0 below it |
| `Timer.AdjustedMonotone` | DigitalTimer.java:238-245 | adding more seconds never gives a smaller count, and adding 0 to a count below the cap adds one |
| `Timer.AddInt32` | DigitalTimer.java:238 | Java int addition stays in 32 bits, is congruent to the exact sum, and equals it when it fits |
| `Timer.AdjustedAsWritten` | DigitalTimer.java:238-245 | the adjustment as computed in 32-bit ints still lands in [0, maxNum] |
| `Timer.AdjustedAsWrittenAgrees` | DigitalTimer.java:238-245 | without overflow, the 32-bit computation equals Adjusted |
| `Timer.AdjustOverflowFinding` | DigitalTimer.java:238 | adding Integer.MAX_VALUE to a count of 0 with cap 60 gives 0 in the source and 60 in Adjusted |
| `Timer.DigitalTimer.constructor` | DigitalTimer.java:116-143 | above 99999: 5 digits and a count of 99999; otherwise Log10(num)+1 digits and count num; cap 10^digits - 1, width 32*digits, original == count, not started, not debounced, face of the count drawn, the theme's volume set |
| `Timer.DigitalTimer.Default` | DigitalTimer.java:102-106 | 2 digits, a count and original of 60, the cap overridden to 60, theme 0, volume 80 |
| `Timer.DigitalTimer.Act` | DigitalTimer.java:151-186 | if started: draws the old count (0 when not positive); requests the alarm loop exactly when the old count is 0; when 990 <= now - initiatedTime <= 1010, decrements by exactly one with no positivity guard and sets initiatedTime to now. Not started: count and face unchanged. The debounce ends only when more than 1000 ms have passed since the last update |
| `Timer.DigitalTimer.Start` | DigitalTimer.java:192-196 | sets startTimer and initiatedTime = now, and changes nothing else |
| `Timer.DigitalTimer.Stop` | DigitalTimer.java:201-204 | clears startTimer, and changes nothing else |
| `Timer.DigitalTimer.Update` | DigitalTimer.java:209-223 | not debounced: stops the alarm, restores the original count, draws it, and stops counting. Debounced: count, face, startTimer and sound untouched. In both cases: debounced from now on, with elapsedTimeAfterUpdate = now and alarmPlayed cleared |
| `Timer.DigitalTimer.UpdateBy` | DigitalTimer.java:233-253 | not debounced: stops the alarm and sets the count to Adjusted (in [0, maxNum]), drawing it; startTimer is untouched. Debounced: count, face and sound untouched. In both cases: debounced from now on, with alarmPlayed cleared |
| `Timer.DigitalTimer.GetNumCyclesLeft` | DigitalTimer.java:271-277 | never negative; 0 exactly when the count has run out; otherwise one more than the count |
| `Timer.DigitalTimer.TurnOffAlarm` | DigitalTimer.java:283-287 | stops the alarm sound and clears alarmPlayed, and changes nothing else |
| `Timer.DigitalTimer.AlarmRequested` | DigitalTimer.java:166-168 | act's alarm condition (count is 0, or alarmPlayed is set) holds exactly when the count is 0 |

## Left out

- Pixels: Greenfoot's `GreenfootImage`, `setImage`, `fillRect` and `drawImage`, and the `Actor` base class, are not part of this model. A face is the value `TimerImage`, and a digit is the rectangle list `DrawDigit`.
- Sound playback, `GreenfootSound` and `setVolume` are not modelled. The requests go into the ghost log `alarmCommands`.
- `System.currentTimeMillis()` is replaced by the parameter `now`.
- `elapsedTime` and `elapsedSeconds` are fields in the source but only temporaries of `act`. They are locals here, and the double comparison is the integer window described above.
- `onSegmentColour` and `offSegmentColour` are declared but never assigned. They are not modelled.
- Greenfoot's named colours are taken with their usual RGB values: RED (255,0,0), GRAY (128,128,128), BLACK (0,0,0), GREEN (0,255,0).
- Timer.DigitalTimer.constructor: the theme index and the volume are unchecked in the source. Here they are preconditions: theme in 0..4, volume in 0..100.
- Timer.DigitalTimer.Act: `numCycles` is unbounded here. Java's decrement would wrap at Integer.MIN_VALUE after about 68 years of ticks.
- Timer.DigitalTimer.UpdateBy: computes the sum in unbounded integers (see Findings). The source's 32-bit arithmetic is `AdjustedAsWritten`.

## Findings

| source | as written | input that shows it | evidently intended | confidence | as-written member | corrected member |
|---|---|---|---|---|---|---|
| DigitalTimer.java:238 | the adjusted count, the old count plus the added seconds plus one, is computed in 32-bit int arithmetic | `update(Integer.MAX_VALUE)` on a timer at 0 that is not debounced: the sum wraps to Integer.MIN_VALUE, so the count becomes 0 | any sum above the cap sets the count to the cap, as the method's documentation says | high, not executed | `Timer.AdjustOverflowFinding` | `Timer.Adjusted` |
