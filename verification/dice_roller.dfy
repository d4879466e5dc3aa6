/**
 The roll sequencer of the dice roller. One roll is started by the roll
 button and then advanced by ten firings of a 100 ms interval timer. Each
 firing sets a fresh preview of the dice; the tenth overwrites its own preview,
 within the same callback, by the final, cryptographically drawn dice and ends
 the roll. React batches the two updates of that callback, so nine previews
 are visible.

 The random sources are inputs: a firing receives the preview faces it shows
 and the 32-bit words the final draw reads. Each firing of the timer is one
 call of `Tick`.
 */
module DiceRoller {
  import opened DiceMath

  datatype Option<T> = None | Some(value: T)

  /** Firings of the interval timer in one roll. */
  const TICKS_PER_ROLL: nat := 10

  class Roller {
    // Component state.
    var numDice: nat
    var maxNumber: int
    var currentRoll: seq<int>
    var lastRoll: Option<seq<int>>
    var isRolling: bool

    // State of the interval callback created by the latest roll: its tick
    // counter and the dice count and maximum it captured when it was created.
    var count: nat
    var rollDice: nat
    var rollMax: int

    /**
     The object invariant. A running roll has fired fewer than ten times and
     its captured settings are the component's (both controls are disabled
     while rolling); once a roll has fired, the dice shown are as many as it
     captured; a finished roll has fired exactly ten times and shows `rollDice`
     dice, every die in range.
     */
    ghost predicate Valid()
      reads this
    {
      rollMax != 0 &&
      count <= TICKS_PER_ROLL &&
      (isRolling ==> count < TICKS_PER_ROLL && rollDice == numDice && rollMax == maxNumber) &&
      (isRolling && count > 0 ==> |currentRoll| == rollDice) &&
      (!isRolling ==> count == 0 || count == TICKS_PER_ROLL) &&
      (!isRolling && count == TICKS_PER_ROLL ==>
         |currentRoll| == rollDice && InRange(currentRoll, rollMax))
    }

    /** The initial state: three six-sided dice showing 3, 3, 3 and no last roll. */
    constructor ()
      ensures Valid()
      ensures numDice == 3 && maxNumber == 6
      ensures currentRoll == [3, 3, 3] && lastRoll == None && !isRolling
    {
      numDice, maxNumber := 3, 6;
      currentRoll := [3, 3, 3];
      lastRoll := None;
      isRolling := false;
      count, rollDice, rollMax := 0, 3, 6;
    }

    /** The dice-count selector; it is disabled while a roll runs. */
    method SetNumDice(n: nat)
      requires Valid() && !isRolling
      modifies this`numDice
      ensures Valid() && numDice == n
    {
      numDice := n;
    }

    /**
     The maximum-number field; it is disabled while a roll runs. Any integer
     is stored, 0 included (an emptied field reads as 0).
     */
    method SetMaxNumber(m: int)
      requires Valid() && !isRolling
      modifies this`maxNumber
      ensures Valid() && maxNumber == m
    {
      maxNumber := m;
    }

    /**
     The roll button (`rollDice`). It is disabled while a roll runs. Starting a
     roll keeps the dice on display as the last roll, raises the rolling flag,
     and creates a timer callback with a fresh counter that captures the
     current settings. The dice shown and the settings are not changed.
     */
    method StartRoll()
      requires Valid() && !isRolling
      requires maxNumber != 0
      modifies this`isRolling, this`lastRoll, this`count, this`rollDice, this`rollMax
      ensures Valid() && isRolling
      ensures lastRoll == Some(old(currentRoll))
      ensures count == 0 && rollDice == numDice && rollMax == maxNumber
      ensures currentRoll == old(currentRoll)
      ensures numDice == old(numDice) && maxNumber == old(maxNumber)
    {
      isRolling := true;
      lastRoll := Some(currentRoll);
      count := 0;
      rollDice, rollMax := numDice, maxNumber;
    }

    /**
     One firing of the roll's interval timer. It shows `preview` (one face
     per captured die) and counts the firing; on the tenth firing it replaces
     the preview by the final draw read from `draws`, one word per die, and
     ends the roll. Nine firings leave the roll running. The last roll and the
     settings are never changed.
     */
    method Tick(preview: seq<int>, draws: seq<Uint32>)
      requires Valid() && isRolling
      requires |preview| == rollDice
      requires count == TICKS_PER_ROLL - 1 ==> |draws| == rollDice
      modifies this`currentRoll, this`count, this`isRolling
      ensures Valid()
      ensures count == old(count) + 1
      ensures isRolling <==> count < TICKS_PER_ROLL
      ensures isRolling ==> currentRoll == preview
      ensures !isRolling ==> currentRoll == FinalRoll(draws, rollMax)
      ensures |currentRoll| == rollDice == numDice
      ensures !isRolling ==> InRange(currentRoll, maxNumber)
    {
      currentRoll := preview;
      count := count + 1;
      if count >= TICKS_PER_ROLL {
        currentRoll := FinalRoll(draws, rollMax);
        isRolling := false;
      }
    }

    /**
     A whole roll: the button press followed by the timer firing until the
     callback clears it. The timer fires exactly ten times; afterwards the
     dice shown are the final draw, every die in `[1, |maxNumber|]`, their
     total lies between the number of dice and that number times
     `|maxNumber|`, and the last roll is the dice shown before the press.
     */
    method RollToCompletion(previews: seq<seq<int>>, draws: seq<Uint32>) returns (ticks: nat)
      requires Valid() && !isRolling
      requires maxNumber != 0
      requires |previews| == TICKS_PER_ROLL
      requires forall k :: 0 <= k < |previews| ==> |previews[k]| == numDice
      requires |draws| == numDice
      modifies this
      ensures Valid() && !isRolling
      ensures ticks == TICKS_PER_ROLL && count == TICKS_PER_ROLL
      ensures rollDice == numDice && rollMax == maxNumber
      ensures lastRoll == Some(old(currentRoll))
      ensures currentRoll == FinalRoll(draws, maxNumber)
      ensures |currentRoll| == numDice && InRange(currentRoll, maxNumber)
      ensures numDice <= Total(currentRoll) <= numDice * Abs(maxNumber)
      ensures numDice == old(numDice) && maxNumber == old(maxNumber)
    {
      StartRoll();
      ticks := 0;
      while isRolling
        invariant Valid()
        invariant ticks == count
        invariant rollDice == numDice == old(numDice)
        invariant rollMax == maxNumber == old(maxNumber)
        invariant lastRoll == Some(old(currentRoll))
        invariant !isRolling ==> count == TICKS_PER_ROLL && currentRoll == FinalRoll(draws, maxNumber)
        decreases TICKS_PER_ROLL - count
      {
        Tick(previews[ticks], draws);
        ticks := ticks + 1;
      }
      FinalTotalBounds(draws, maxNumber);
    }
  }

  /**
   The opening scenario: three six-sided dice showing 3, 3, 3. After one
   roll the last roll is 3, 3, 3 and three faces in `[1, 6]` are shown.
   */
  method FirstRoll(previews: seq<seq<int>>, draws: seq<Uint32>)
    requires |previews| == TICKS_PER_ROLL
    requires forall k :: 0 <= k < |previews| ==> |previews[k]| == 3
    requires |draws| == 3
  {
    var r := new Roller();
    var ticks := r.RollToCompletion(previews, draws);
    assert ticks == 10 && !r.isRolling;
    assert r.lastRoll == Some([3, 3, 3]);
    assert |r.currentRoll| == 3 && forall i :: 0 <= i < 3 ==> 1 <= r.currentRoll[i] <= 6;
    assert 3 <= Total(r.currentRoll) <= 18;
  }
}
