/**
 The arithmetic of the dice roller: the mapping of a 32-bit random word to a
 die face, the displayed total of a roll, and the hue rotation of the colour
 theme. Numbers in the roller are JavaScript numbers. Final faces are at most
 2^32 and a roll has at most four dice, so final draws and their totals are
 integers well below 2^53 and exact; they are modelled as `int`, and
 JavaScript's `%` (which truncates toward zero) is written out as `JsRem`.
 */
module DiceMath {

  /** The values a `Uint32Array` element can hold. */
  const UINT32_MODULUS: int := 0x1_0000_0000
  type Uint32 = x: int | 0 <= x < UINT32_MODULUS

  /** The hue circle of CSS `hsl()` colours. */
  const HUE_CIRCLE: int := 360

  function Abs(x: int): nat {
    if x < 0 then -x else x
  }

  /** JavaScript's integer quotient, truncated toward zero. */
  function JsQuot(a: int, b: int): int
    requires b != 0
  {
    var q := if a >= 0 then a / Abs(b) else -((-a) / Abs(b));
    if b > 0 then q else -q
  }

  /**
   JavaScript's remainder operator on integers: the remainder of division
   truncated toward zero, so it has the sign of the dividend and a magnitude
   below that of the divisor, and it completes the truncated quotient to the
   dividend. (Dafny's own `%` is Euclidean and never negative.)
   */
  function JsRem(a: int, b: int): (r: int)
    requires b != 0
    ensures Abs(r) < Abs(b)
    ensures a >= 0 ==> r >= 0
    ensures a <= 0 ==> r <= 0
    ensures a == JsQuot(a, b) * b + r
  {
    if a >= 0 then a % Abs(b) else -((-a) % Abs(b))
  }

  /**
   The face shown for one die of the final draw: `(x % maxNumber) + 1` where
   `x` is the word written by `crypto.getRandomValues`. The face always lies in
   `[1, |maxNumber|]` and is one more than `x` modulo `maxNumber`.
   */
  function FinalFace(x: Uint32, maxNumber: int): (r: int)
    requires maxNumber != 0
    ensures 1 <= r <= Abs(maxNumber)
    ensures x == JsQuot(x, maxNumber) * maxNumber + (r - 1)
  {
    JsRem(x, maxNumber) + 1
  }

  /** Every die of `roll` shows a face in `[1, |maxNumber|]`. */
  predicate InRange(roll: seq<int>, maxNumber: int) {
    forall i :: 0 <= i < |roll| ==> 1 <= roll[i] <= Abs(maxNumber)
  }

  /**
   The final draw of a roll: one die per random word, in order. The source
   draws one word per die, so there are as many dice as words.
   */
  function FinalRoll(draws: seq<Uint32>, maxNumber: int): (roll: seq<int>)
    requires maxNumber != 0
    ensures |roll| == |draws|
    ensures InRange(roll, maxNumber)
    ensures forall i :: 0 <= i < |draws| ==>
              draws[i] == JsQuot(draws[i], maxNumber) * maxNumber + (roll[i] - 1)
  {
    seq(|draws|, i requires 0 <= i < |draws| => FinalFace(draws[i], maxNumber))
  }

  /**
   The displayed total: the left fold `roll.reduce((a, b) => a + b, 0)`.
   */
  function Total(roll: seq<int>): int {
    if roll == [] then 0 else Total(roll[..|roll| - 1]) + roll[|roll| - 1]
  }

  /**
   The hue of a themed colour: `(baseHue + hue) % 360` with JavaScript's `%`.
   It is a hue on the circle whenever the sum is not negative, which holds for
   the base hues the widget uses and every slider position.
   */
  function HueComponent(baseHue: int, hue: int): (r: int)
    ensures -HUE_CIRCLE < r < HUE_CIRCLE
    ensures baseHue + hue >= 0 ==> 0 <= r < HUE_CIRCLE
    ensures baseHue + hue == JsQuot(baseHue + hue, HUE_CIRCLE) * HUE_CIRCLE + r
  {
    JsRem(baseHue + hue, HUE_CIRCLE)
  }

  /** Every face in `[1, |maxNumber|]` is the image of some 32-bit word. */
  lemma FinalFaceOnto(maxNumber: int, face: int)
    requires maxNumber != 0 && Abs(maxNumber) <= UINT32_MODULUS
    requires 1 <= face <= Abs(maxNumber)
    ensures FinalFace(face - 1, maxNumber) == face
  {
  }

  /**
   A maximum beyond the 32-bit range is never reached: every word is below
   it, so the face is the word plus one and no face exceeds 2^32.
   */
  lemma FinalFaceBeyondWords(x: Uint32, maxNumber: int)
    requires Abs(maxNumber) > UINT32_MODULUS
    ensures FinalFace(x, maxNumber) == x + 1 <= UINT32_MODULUS
  {
  }

  /**
   The total is additive: the dice of `a` followed by those of `b` total the
   sum of their two totals. With `Total([]) == 0` and `Total([v]) == v` this
   says the fold adds up every die exactly once, whatever the grouping.
   */
  lemma {:induction false} TotalConcat(a: seq<int>, b: seq<int>)
    ensures Total(a + b) == Total(a) + Total(b)
    decreases |b|
  {
    if b == [] {
      assert a + b == a;
    } else {
      var front := b[..|b| - 1];
      assert (a + b)[..|a + b| - 1] == a + front;
      TotalConcat(a, front);
    }
  }

  /**
   A roll whose every die lies in `[lo, hi]` totals between `|roll| * lo` and
   `|roll| * hi`.
   */
  lemma {:induction false} TotalBounds(roll: seq<int>, lo: int, hi: int)
    requires forall i :: 0 <= i < |roll| ==> lo <= roll[i] <= hi
    ensures |roll| * lo <= Total(roll) <= |roll| * hi
  {
    if roll != [] {
      var n := |roll| - 1;
      TotalBounds(roll[..n], lo, hi);
      assert |roll| * lo == n * lo + lo;
      assert |roll| * hi == n * hi + hi;
    }
  }

  /**
   The displayed total of `n` dice with faces in `[1, m]` lies in `[n, n * m]`;
   in particular that of every final draw.
   */
  lemma FinalTotalBounds(draws: seq<Uint32>, maxNumber: int)
    requires maxNumber != 0
    ensures |draws| <= Total(FinalRoll(draws, maxNumber)) <= |draws| * Abs(maxNumber)
  {
    var roll := FinalRoll(draws, maxNumber);
    TotalBounds(roll, 1, Abs(maxNumber));
  }

  /**
   The two ends of the colour slider, 0 and 360, give the same colour: the hue
   is unchanged by a full turn.
   */
  lemma HueFullTurn(baseHue: int, hue: int)
    requires baseHue + hue >= 0
    ensures HueComponent(baseHue, hue + HUE_CIRCLE) == HueComponent(baseHue, hue)
  {
  }
}
