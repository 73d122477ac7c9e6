/** The countdown widget: a value counted down once per wall-clock second
    while started, adjusted or reset by the user with a one-second debounce,
    and an alarm requested to loop when the count reaches 0. */
module Timer {
  import opened Decimal
  import opened Segments
  import opened Face

  /** What the timer asks of its alarm sound, in the order it asks. */
  datatype SoundCommand = SetVolume(sound: string, level: int) | PlayLoop(sound: string) | StopPlaying(sound: string)

  /** Largest value the timer accepts, and the most cells it has. */
  const MaxCycles := 99999
  const MaxDigits := 5

  /** Elapsed milliseconds whose value in seconds lies in [0.99, 1.01]. */
  predicate InTickWindow(elapsed: int)
  {
    990 <= elapsed <= 1010
  }

  /** Milliseconds a reset or adjustment blocks the next one. */
  const DebounceMillis := 1000

  /** The new count after adding numAddedCycles: one more than the plain sum,
      clamped into [0, maxNum]. */
  function Adjusted(numCycles: int, numAddedCycles: int, maxNum: int): (r: int)
    requires maxNum >= 0
    ensures 0 <= r <= maxNum
    ensures numCycles + numAddedCycles + 1 > maxNum ==> r == maxNum
    ensures numCycles + numAddedCycles + 1 < 0 ==> r == 0
    ensures 0 <= numCycles + numAddedCycles + 1 <= maxNum ==> r == numCycles + numAddedCycles + 1
  {
    var changedCycles := numCycles + numAddedCycles + 1;
    if changedCycles > maxNum then maxNum
    else if changedCycles < 0 then 0
    else changedCycles
  }

  /** Adding more never gives a smaller count, and adding 0 to a count below
      the cap moves it up by one. */
  lemma AdjustedMonotone(numCycles: int, d1: int, d2: int, maxNum: int)
    requires maxNum >= 0 && d1 <= d2
    ensures Adjusted(numCycles, d1, maxNum) <= Adjusted(numCycles, d2, maxNum)
    ensures 0 <= numCycles < maxNum ==> Adjusted(numCycles, 0, maxNum) == numCycles + 1
  {
  }

  /** Java int addition: the exact sum wrapped into 32 bits. */
  function AddInt32(a: int, b: int): (r: int)
    ensures -0x8000_0000 <= r < 0x8000_0000
    ensures (r - (a + b)) % 0x1_0000_0000 == 0
    ensures -0x8000_0000 <= a + b < 0x8000_0000 ==> r == a + b
  {
    (a + b + 0x8000_0000) % 0x1_0000_0000 - 0x8000_0000
  }

  /** The adjustment as the source computes it, in 32-bit int arithmetic. */
  function AdjustedAsWritten(numCycles: int, numAddedCycles: int, maxNum: int): (r: int)
    requires maxNum >= 0
    ensures 0 <= r <= maxNum
  {
    var changedCycles := AddInt32(AddInt32(numCycles, numAddedCycles), 1);
    if changedCycles > maxNum then maxNum
    else if changedCycles < 0 then 0
    else changedCycles
  }

  /** Where the sum fits in an int, the source's adjustment is Adjusted. */
  lemma AdjustedAsWrittenAgrees(numCycles: int, numAddedCycles: int, maxNum: int)
    requires maxNum >= 0
    requires -0x8000_0000 <= numCycles + numAddedCycles < 0x7FFF_FFFF
    ensures AdjustedAsWritten(numCycles, numAddedCycles, maxNum) == Adjusted(numCycles, numAddedCycles, maxNum)
  {
  }

  /** Adding Integer.MAX_VALUE seconds to a count of 0 wraps the sum to
      Integer.MIN_VALUE, so the source sets the count to 0 instead of the cap. */
  lemma AdjustOverflowFinding()
    ensures AdjustedAsWritten(0, 0x7FFF_FFFF, 60) == 0
    ensures Adjusted(0, 0x7FFF_FFFF, 60) == 60
  {
  }

  /** The source's initializeDigits: one copy of the digit table per cell. */
  method InitializeDigits(numDigits: nat) returns (digits: array<seq<Pattern>>)
    ensures fresh(digits) && digits.Length == numDigits
    ensures StandardTable(digits[..], numDigits)
  {
    digits := new seq<Pattern>[numDigits];
    for i := 0 to numDigits
      invariant forall k :: 0 <= k < i ==> digits[k] == DigitTable
    {
      digits[i] := DigitTable;
    }
  }

  /** Cells needed for a requested value: its significant digits, at most five. */
  lemma DigitsForRequest(num: int)
    requires num <= MaxCycles
    ensures 1 <= Log10(num) + 1 <= MaxDigits
    ensures num < Pow10(Log10(num) + 1)
  {
    if num >= 1 {
      Log10Bounds(num);
      assert Pow10(5) == 100000;
      TopDigitNonZero(num, 5);
    }
  }

  class DigitalTimer {
    var width: int
    var height: int
    var numDigits: int
    var numCycles: int
    var numCyclesOriginal: int
    var maxNum: int
    var backgroundColour: Colour
    var volume: int
    var digits: array<seq<Pattern>>
    var themeIndex: int
    var alarm: string
    var alarmPlayed: bool
    var currentTime: TimerImage
    var startTimer: bool
    var initiatedTime: int
    var elapsedTimeAfterUpdate: int
    var isUpdated: bool
    /** Every request made of the alarm sound so far. */
    ghost var alarmCommands: seq<SoundCommand>

    /** The timer's invariant: the face size follows the cell count, the
        theme is one of the five, the count never exceeds the cap and the cap
        fits on the face, and nothing ever sets alarmPlayed. */
    ghost predicate Valid()
      reads this, digits
    {
      1 <= numDigits <= MaxDigits && width == 32 * numDigits && height == DigitHeight &&
      ValidTheme(themeIndex) && backgroundColour == TimerColours[themeIndex][0] && alarm == Alarms[themeIndex] &&
      0 <= maxNum < Pow10(numDigits) && numCycles <= maxNum && numCyclesOriginal <= maxNum &&
      digits.Length == numDigits && StandardTable(digits[..], numDigits) &&
      !alarmPlayed
    }

    /** The face this timer draws for a value. */
    ghost function FaceFor(value: int): TimerImage
      reads this, digits
      requires Valid()
    {
      FaceOf(width, height, numDigits, backgroundColour, themeIndex, value, digits[..])
    }

    constructor (num: int, theme: int, volume: int)
      requires ValidTheme(theme) && 0 <= volume <= 100
      ensures Valid() && fresh(digits)
      ensures num > MaxCycles ==> numDigits == MaxDigits && numCycles == MaxCycles
      ensures num <= MaxCycles ==> numDigits == Log10(num) + 1 && numCycles == num
      ensures maxNum == Pow10(numDigits) - 1 && width == 32 * numDigits && numCyclesOriginal == numCycles
      ensures themeIndex == theme && this.volume == volume
      ensures !startTimer && !isUpdated
      ensures currentTime == FaceFor(numCycles)
      ensures alarmCommands == [SetVolume(Alarms[theme], volume)]
    {
      var nd: nat, nc: int;
      if num > MaxCycles {
        nd, nc := MaxDigits, MaxCycles;
        assert Pow10(5) == 100000;
      } else {
        var g := FindGreatestPowerOfTen(num);
        DigitsForRequest(num);
        nd, nc := g + 1, num;
      }
      numDigits := nd;
      numCycles := nc;
      maxNum := Pow10(nd) - 1;
      width := 32 * nd;
      height := DigitHeight;
      numCyclesOriginal := nc;
      themeIndex := theme;
      startTimer := false;
      isUpdated := false;
      backgroundColour := TimerColours[theme][0];
      this.volume := volume;
      alarm := Alarms[theme];
      alarmPlayed := false;
      alarmCommands := [SetVolume(Alarms[theme], volume)];
      initiatedTime := 0;            // Java's default for a long field
      elapsedTimeAfterUpdate := 0;
      var ds := InitializeDigits(nd);
      digits := ds;
      var face := DrawTimer(32 * nd, DigitHeight, nd, TimerColours[theme][0], theme, nc, ds[..]);
      currentTime := face;
    }

    /** The no-argument constructor: 60 seconds, standard theme, volume 80,
        with the cap lowered from 99 to 60. */
    static method Default() returns (t: DigitalTimer)
      ensures fresh(t) && fresh(t.digits) && t.Valid()
      ensures t.numDigits == 2 && t.numCycles == 60 && t.numCyclesOriginal == 60 && t.maxNum == 60
      ensures t.themeIndex == 0 && t.volume == 80 && !t.startTimer && !t.isUpdated
      ensures t.currentTime == t.FaceFor(60)
    {
      t := new DigitalTimer(60, 0, 80);
      t.maxNum := 60;
    }

    /** One frame: while started, draw the current count (0 once it has run
        out), request the alarm loop at 0, and count down one when about a
        second has passed since the last step; then end the debounce once
        more than a second has passed since the last reset or adjustment. */
    method Act(now: int)
      requires Valid()
      modifies this`currentTime, this`alarmCommands, this`numCycles, this`initiatedTime, this`isUpdated
      ensures Valid()
      ensures old(startTimer) ==> currentTime == FaceFor(if old(numCycles) > 0 then old(numCycles) else 0)
      ensures !old(startTimer) ==> currentTime == old(currentTime)
      ensures alarmCommands == old(alarmCommands) + if old(startTimer) && old(numCycles) == 0 then [PlayLoop(alarm)] else []
      ensures if old(startTimer) && InTickWindow(now - old(initiatedTime))
              then numCycles == old(numCycles) - 1 && initiatedTime == now
              else numCycles == old(numCycles) && initiatedTime == old(initiatedTime)
      ensures isUpdated == (old(isUpdated) && now - elapsedTimeAfterUpdate <= DebounceMillis)
    {
      var elapsedTime := now - initiatedTime;
      if startTimer {
        if numCycles > 0 {
          currentTime := DrawTimer(width, height, numDigits, backgroundColour, themeIndex, numCycles, digits[..]);
        } else {
          currentTime := DrawTimer(width, height, numDigits, backgroundColour, themeIndex, 0, digits[..]);
        }
        if numCycles == 0 || alarmPlayed {
          alarmCommands := alarmCommands + [PlayLoop(alarm)];
        }
        if InTickWindow(elapsedTime) {
          numCycles := numCycles - 1;
          initiatedTime := now;
        }
      }
      if isUpdated {
        if now - elapsedTimeAfterUpdate > DebounceMillis {
          isUpdated := false;
        }
      }
    }

    /** Starts counting, measuring the first second from now. */
    method Start(now: int)
      requires Valid()
      modifies this`startTimer, this`initiatedTime
      ensures Valid() && startTimer && initiatedTime == now
    {
      startTimer := true;
      initiatedTime := now;
    }

    /** Pauses counting; the face keeps the last value drawn. */
    method Stop()
      requires Valid()
      modifies this`startTimer
      ensures Valid() && !startTimer
    {
      startTimer := false;
    }

    /** The source's update(): unless debounced, stop the alarm, restore the
        original count, redraw it and stop counting; in every case open a new
        debounce window at now and clear alarmPlayed. */
    method Update(now: int)
      requires Valid()
      modifies this`alarmCommands, this`numCycles, this`currentTime, this`startTimer,
               this`elapsedTimeAfterUpdate, this`isUpdated, this`alarmPlayed
      ensures Valid()
      ensures isUpdated && elapsedTimeAfterUpdate == now && !alarmPlayed
      ensures old(isUpdated) ==>
        numCycles == old(numCycles) && currentTime == old(currentTime) &&
        startTimer == old(startTimer) && alarmCommands == old(alarmCommands)
      ensures !old(isUpdated) ==>
        numCycles == numCyclesOriginal && currentTime == FaceFor(numCyclesOriginal) &&
        !startTimer && alarmCommands == old(alarmCommands) + [StopPlaying(alarm)]
    {
      if !isUpdated {
        alarmCommands := alarmCommands + [StopPlaying(alarm)];
        numCycles := numCyclesOriginal;
        currentTime := DrawTimer(width, height, numDigits, backgroundColour, themeIndex, numCycles, digits[..]);
        startTimer := false;
      }
      elapsedTimeAfterUpdate := now;
      isUpdated := true;
      alarmPlayed := false;
    }

    /** The source's update(int): unless debounced, stop the alarm and set the
        count to the clamped adjustment, redrawing it; in every case open a
        new debounce window at now and clear alarmPlayed. Counting goes on. */
    method UpdateBy(numAddedCycles: int, now: int)
      requires Valid()
      modifies this`alarmCommands, this`numCycles, this`currentTime,
               this`elapsedTimeAfterUpdate, this`isUpdated, this`alarmPlayed
      ensures Valid()
      ensures isUpdated && elapsedTimeAfterUpdate == now && !alarmPlayed
      ensures old(isUpdated) ==>
        numCycles == old(numCycles) && currentTime == old(currentTime) && alarmCommands == old(alarmCommands)
      ensures !old(isUpdated) ==>
        numCycles == Adjusted(old(numCycles), numAddedCycles, maxNum) && 0 <= numCycles <= maxNum &&
        currentTime == FaceFor(numCycles) && alarmCommands == old(alarmCommands) + [StopPlaying(alarm)]
    {
      if !isUpdated {
        alarmCommands := alarmCommands + [StopPlaying(alarm)];
        var changedCycles := numCycles + numAddedCycles + 1;
        if changedCycles > maxNum {
          numCycles := maxNum;
        } else if changedCycles < 0 {
          numCycles := 0;
        } else {
          numCycles := changedCycles;
        }
        currentTime := DrawTimer(width, height, numDigits, backgroundColour, themeIndex, numCycles, digits[..]);
      }
      elapsedTimeAfterUpdate := now;
      isUpdated := true;
      alarmPlayed := false;
    }

    /** The value the source reports as seconds left: one ahead of the count
        while it is positive, 0 once it has run out; never negative. */
    function GetNumCyclesLeft(): (left: int)
      reads this
      ensures left >= 0
      ensures left == 0 <==> numCycles <= 0
      ensures left > 0 ==> left == numCycles + 1
    {
      if numCycles > 0 then numCycles + 1 else 0
    }

    /** Stops the alarm sound and clears alarmPlayed. */
    method TurnOffAlarm()
      requires Valid()
      modifies this`alarmCommands, this`alarmPlayed
      ensures Valid() && alarmCommands == old(alarmCommands) + [StopPlaying(alarm)] && !alarmPlayed
    {
      alarmCommands := alarmCommands + [StopPlaying(alarm)];
      alarmPlayed := false;
    }

    /** The condition under which a frame requests the alarm loop; since
        alarmPlayed stays false, it holds exactly when the count is 0. */
    function AlarmRequested(): (r: bool)
      reads this, digits
      requires Valid()
      ensures r <==> numCycles == 0
    {
      numCycles == 0 || alarmPlayed
    }
  }

  /** Counting down from 2 with frames a second apart: the face trails the
      count by one frame, and the alarm is requested on the frame that shows 0. */
  method CountdownScenario()
  {
    var t := new DigitalTimer(2, 0, 50);
    t.Start(0);
    t.Act(1000);
    assert t.numCycles == 1 && t.currentTime == t.FaceFor(2);
    t.Act(2000);
    assert t.numCycles == 0 && t.GetNumCyclesLeft() == 0;
    var before := t.alarmCommands;
    t.Act(3000);
    assert t.currentTime == t.FaceFor(0) && t.numCycles == -1;
    assert t.alarmCommands == before + [PlayLoop("StandardAlarm.wav")];
  }

  /** A frame that comes too late skips the step, and stopping before a
      step leaves the count alone. */
  method MissedWindowScenario()
  {
    var t := new DigitalTimer(10, 4, 100);
    t.Start(0);
    t.Act(1020);
    assert t.numCycles == 10;
    t.Start(5000);
    t.Stop();
    t.Act(6000);
    assert t.numCycles == 10;
  }

  /** Adjustments and resets within a second of each other apply once. */
  method DebounceScenario()
  {
    var t := new DigitalTimer(30, 1, 80);
    assert Log10(30) == 1 && Pow10(2) == 100;
    t.UpdateBy(5, 0);
    assert t.numCycles == 36;
    t.UpdateBy(5, 400);
    t.Update(450);
    assert t.numCycles == 36;
  }

  /** The debounce window closes on the first frame more than a second after
      the last adjustment, not before. */
  method WindowCloseScenario()
  {
    var t := new DigitalTimer(30, 1, 80);
    t.UpdateBy(5, 0);
    t.Act(1000);
    assert t.isUpdated;
    t.Act(1001);
    assert !t.isUpdated;
  }

  /** An adjustment past the cap stops at the cap, and a later reset brings
      back the count the timer was made with. */
  method CapAndResetScenario()
  {
    var t := new DigitalTimer(30, 1, 80);
    assert Log10(30) == 1 && Pow10(2) == 100;
    t.UpdateBy(1000, 0);
    assert t.numCycles == 99;
    t.Act(1100);
    t.Update(1200);
    assert t.numCycles == 30;
  }
}
