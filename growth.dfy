/** How many times a window must double before it holds a given number of
    characters. This bounds the retries of an all-or-nothing write: once the
    cursor has committed its pending output, every further failed attempt
    asks for a window twice as large. */
module Growth {

  function Pow2(k: nat): (p: nat)
    ensures p >= 1
  {
    if k == 0 then 1 else 2 * Pow2(k - 1)
  }

  /** Doubling the window is one more doubling of the original. */
  lemma DoubleFactor(len: nat, k: nat)
    ensures len * Pow2(k + 1) == (2 * len) * Pow2(k)
  {
  }

  /** How many times a window of `len` characters must double to hold
      `need` characters. */
  function Doublings(len: nat, need: nat): nat
    requires len >= 1
    decreases if len >= need then 0 else need - len
  {
    if len >= need then 0 else 1 + Doublings(2 * len, need)
  }

  /** `Doublings(len, need)` is the least `k` with `len * 2^k >= need`:
      enough doublings, and one fewer would not do. */
  lemma {:induction false} DoublingsLeast(len: nat, need: nat)
    requires len >= 1
    ensures len * Pow2(Doublings(len, need)) >= need
    ensures Doublings(len, need) > 0 ==> len * Pow2(Doublings(len, need) - 1) < need
    decreases if len >= need then 0 else need - len
  {
    if len < need {
      var k := Doublings(2 * len, need);
      DoublingsLeast(2 * len, need);
      DoubleFactor(len, k);
      if k > 0 {
        DoubleFactor(len, k - 1);
      }
    }
  }

  /** A larger window never needs more doublings. */
  lemma {:induction false} DoublingsAntitone(a: nat, b: nat, need: nat)
    requires 1 <= a <= b
    ensures Doublings(b, need) <= Doublings(a, need)
    decreases if a >= need then 0 else need - a
  {
    if b < need {
      DoublingsAntitone(2 * a, 2 * b, need);
    }
  }

  /** A window that is too small needs exactly one doubling fewer once it
      has doubled. */
  lemma DoublingsStep(len: nat, need: nat)
    requires 1 <= len < need
    ensures Doublings(2 * len, need) == Doublings(len, need) - 1
  {
  }
}
