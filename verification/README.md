# Dice roller: a verified model of the roll sequencer

The dice roller is a single React component, `DiceRoller`. The user picks a
number of dice (1 to 4) and a maximum face, and presses the roll button. A
100 ms interval timer then fires ten times, and each firing sets a random
preview of the dice. The tenth firing overwrites its own preview, inside the
same callback, with a final draw from `crypto.getRandomValues` and ends the
roll. React batches the two updates of that callback, so the user sees nine
previews and then the final draw. The component also shows the
total of the current roll, the previous ("last") roll with its total, and a
colour theme rotated by a hue slider.

The model has two modules.

- `DiceMath` (`dice_math.dfy`) holds the pure arithmetic. `JsRem` is
  JavaScript's truncating `%`. `FinalFace` maps a 32-bit word to a face by
  `(x % maxNumber) + 1`. `FinalRoll` is the whole final draw. `Total` is the
  `reduce` that gives the displayed total. `HueComponent` is the hue
  arithmetic of `getColor`.
- `DiceRoller` (`dice_roller.dfy`) holds the state machine as the class
  `Roller`. Its fields are the component state (`numDice`, `maxNumber`,
  `currentRoll`, `lastRoll`, `isRolling`) and the state of the interval
  callback: its counter `count` and the dice count and maximum it captured
  (`rollDice`, `rollMax`). `StartRoll` is the button's `rollDice`, and each
  call of `Tick` is one firing of the timer. `RollToCompletion` drives one
  roll: a button press, then firings until the callback clears the rolling
  flag. `FirstRoll` is a client that replays the opening scenario: three dice
  showing 3, 3, 3 and a six-sided maximum.

The random sources are inputs. `Tick` receives the preview faces it shows
and the 32-bit words its final draw reads. With randomness abstracted this
way, the model is deterministic, and `Valid()` can state the invariant of
the roller. A running roll has fired fewer than ten times. Its captured
settings equal the component's. Once it has fired, the dice shown are as
many as it captured. A finished roll has fired exactly ten times, and every
die it shows is in range.

Where the code and a plain-language reading of the widget differ, the model
follows the code:
- Pressing the button during a roll is not ignored by the roller itself. The
  button is disabled while rolling, so `StartRoll` requires `!isRolling`.
- The setters do not reject out-of-range values; `SetMaxNumber` stores any
  integer, 0 included. Only starting a roll with a zero maximum is excluded
  (`StartRoll` requires `maxNumber != 0`), as explained under "Left out".
- The "last roll" is the dice on display when the button was pressed. It is
  not updated when the roll ends.

## Model

| member | source | states |
|---|---|---|
| `DiceMath.JsRem` | src/DiceRoller.tsx:30 | JavaScript `%`: the remainder has the dividend's sign and a magnitude below the divisor's, and with the truncated quotient it recomposes the dividend |
| `DiceMath.FinalFace` | src/DiceRoller.tsx:28-30 | for every 32-bit word `x` and non-zero `maxNumber`, the face lies in `[1, abs(maxNumber)]` and is one more than the remainder of `x` by `maxNumber` |
| `DiceMath.FinalRoll` | src/DiceRoller.tsx:27-31 | the final draw has one die per random word, every die in `[1, abs(maxNumber)]`, each being one more than its word's remainder |
| `DiceMath.FinalFaceOnto` | src/DiceRoller.tsx:30 | when `abs(maxNumber) <= 2^32`, every face in `[1, abs(maxNumber)]` is produced by some 32-bit word (the word `face - 1`), so no face is unreachable |
| `DiceMath.FinalFaceBeyondWords` | src/DiceRoller.tsx:30 | when a typed `abs(maxNumber)` exceeds 2^32 (the field's `max` does not stop it), the face is the word plus one, so faces above 2^32 never appear |
| `DiceMath.TotalConcat` | src/DiceRoller.tsx:121 | the displayed total (`reduce` with `+` from 0, also used for the last roll's total at line 153) of two rolls side by side is the sum of their totals |
| `DiceMath.TotalBounds` | src/DiceRoller.tsx:121 | the displayed total (`reduce` with `+` from 0) of a roll whose dice lie in `[lo, hi]` lies in `[n*lo, n*hi]` for `n` dice |
| `DiceMath.FinalTotalBounds` | src/DiceRoller.tsx:27-31 | the total of a final draw of `n` dice lies in `[n, n*abs(maxNumber)]` |
| `DiceMath.HueComponent` | src/DiceRoller.tsx:39-41 | `(baseHue + hue) % 360` lies strictly between -360 and 360, lies in `[0, 360)` when the sum is not negative, and is the sum's remainder by 360 |
| `DiceMath.HueFullTurn` | src/DiceRoller.tsx:166-171 | the slider's ends 0 and 360 give the same hue: adding 360 to a non-negative sum does not change the hue component |
| `DiceRoller.Roller.constructor` | src/DiceRoller.tsx:4-8 | initial state: 3 dice, maximum 6, showing 3, 3, 3, no last roll, not rolling |
| `DiceRoller.Roller.SetNumDice` | src/DiceRoller.tsx:67-72 | the selector sets the dice count only while no roll runs, and changes nothing else |
| `DiceRoller.Roller.SetMaxNumber` | src/DiceRoller.tsx:83-91 | the number field sets the maximum to any integer (0 from an emptied field included) only while no roll runs, and changes nothing else |
| `DiceRoller.Roller.StartRoll` | src/DiceRoller.tsx:11-16 | starting a roll (only when not rolling, and with a non-zero maximum) sets the last roll to the dice shown just before, raises the rolling flag, and resets the counter. The callback captures the current settings; the dice shown and the settings are unchanged |
| `DiceRoller.Roller.Tick` | src/DiceRoller.tsx:17-35 | a firing raises the counter by exactly one and shows exactly `numDice` dice. Firings 1-9 show the preview and leave the roll running. Firing 10 shows the final draw with every die in range and clears the rolling flag. The last roll and the settings never change |
| `DiceRoller.Roller.RollToCompletion` | src/DiceRoller.tsx:11-35 | a roll ends after exactly ten firings (the counter stands at 10 and the captured settings equal the component's). It then shows the final draw: `numDice` dice in `[1, abs(maxNumber)]` with a total in `[numDice, numDice*abs(maxNumber)]`. The last roll still equals the dice shown before the press, and the settings are unchanged |

## Left out

- Markup, styling, colour-string formatting, links and images (src/DiceRoller.tsx:43-205). Only the hue arithmetic of `getColor` is modelled.
- React's state setters and re-rendering, and the timing of `setInterval`/`clearInterval`. Each firing is one explicit `Tick` call, and clearing the interval is the end of the firings (`Tick` requires a running roll).
- The preview faces `Math.floor(Math.random() * maxNumber) + 1` use floating point. They are integer inputs to `Tick`, and no range is assumed for them.
- `crypto.getRandomValues` is a foreign call. Its 32-bit words are inputs to `Tick`. Its failure path is not modelled: a throw there, after `clearInterval`, would leave the widget rolling for good, which a one-word `Uint32Array` in a browser does not cause.
- Uniformity of the draws and modulo bias, which are statistical properties. The model keeps the source's `%` mapping as written, bias included.
- DiceRoller.Roller.StartRoll: requires a non-zero maximum. A roll started while the field is empty (`Number("")` is 0) or holds 0 gives `NaN` final faces, which integer dice cannot represent; such a roll is not modelled (`RollToCompletion` requires the same). Setting 0 is modelled. The maximum is an integer: a typed fraction, which would give non-integer faces, is not modelled. Negative maxima are modelled: JavaScript's `%` gives faces in `[1, abs(maxNumber)]`.
- Totals are exact integer sums. For final draws this matches JavaScript: faces are at most 2^32 and there are at most four dice, so totals stay below 2^35, far below 2^53.
- Typed maxima with `abs(maxNumber)` above about 2^51: the preview faces `Math.floor(Math.random() * maxNumber) + 1` and the total shown during a roll are then rounded floating-point values, while `Total` adds exactly. Preview totals are not modelled for such maxima.
- The length of `currentRoll` equals `numDice` only from a roll's first firing on. Between rolls, changing the selector leaves the old dice on display.
- src/main.tsx (DOM lookup, missing-root error, render call) is not part of this model.
