/** Dollar amounts and their conversion to cents. Prices are exact reals:
    the IEEE-754 rounding of the JavaScript source is not modelled. */
module Money {

  /** `Math.round(dollars * 100)`. JavaScript's `Math.round` rounds halves
      towards positive infinity, which is `Floor(x + 1/2)`. The result is the
      unique integer within half a cent of the amount, halves rounding up. */
  function Cents(dollars: real): (c: int)
    ensures c as real - 0.5 <= dollars * 100.0 < c as real + 0.5
  {
    (dollars * 100.0 + 0.5).Floor
  }

  /** Rounding is determined by the half-cent window: any integer within it
      is the result of `Cents`. */
  lemma CentsUnique(dollars: real, c: int)
    requires c as real - 0.5 <= dollars * 100.0 < c as real + 0.5
    ensures Cents(dollars) == c
  {
  }

  /** An amount that is already a whole number of cents converts exactly. */
  lemma CentsOfWholeCents(cents: int)
    ensures Cents(cents as real / 100.0) == cents
  {
    CentsUnique(cents as real / 100.0, cents);
  }

  /** A price of 19.99 becomes 1999 cents: rounding, not truncation. */
  lemma CentsExample()
    ensures Cents(19.99) == 1999
    ensures Cents(0.125) == 13
    ensures Cents(1.0) == 100
  {
    CentsUnique(19.99, 1999);
    CentsUnique(0.125, 13);
    CentsUnique(1.0, 100);
  }

  /** Rounding is monotone: a larger price never gets fewer cents. */
  lemma CentsMonotone(a: real, b: real)
    requires a <= b
    ensures Cents(a) <= Cents(b)
  {
  }
}
