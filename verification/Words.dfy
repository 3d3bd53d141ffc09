/** Machine words as the sets of their one bits, bit 0 being worth 1, for registers that are
  * packed from fields. */
module Words {
  type Bits = set<nat>

  const WIDTH := 64
  const INT_WIDTH := 32

  predicate Sliced(w: Bits, low: nat, size: nat, b: nat) {
    b < size && b + low in w
  }

  /** (w >> low) & mask, for a mask of `size` ones. */
  function Slice(w: Bits, low: nat, size: nat): Bits {
    set b: nat | b < WIDTH && Sliced(w, low, size, b)
  }

  /** w << n, in an unsigned int. */
  function ShiftLeft(w: Bits, n: nat): Bits {
    set b | b in w && b + n < INT_WIDTH :: b + n
  }

  lemma ShiftedBit(w: Bits, n: nat, b: nat)
    ensures b in ShiftLeft(w, n) <==> b < INT_WIDTH && b >= n && b - n in w
  {
    if b < INT_WIDTH && b >= n && b - n in w {
      assert (b - n) + n == b;
    }
  }
}
