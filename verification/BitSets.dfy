/** A register read as a set of the numbers 0 to 31. */
module BitSets {
  import opened Bits

  function Bit(n: bv32): bv32
    requires n < 32
  {
    1 << n
  }

  predicate Has(s: bv32, n: bv32)
    requires n < 32
  {
    Part(s, Bit(n)) != 0
  }

  lemma BitNotZero(n: bv32) requires n < 32 ensures Bit(n) != 0 {}

  lemma BitOrNothing(s: bv32, n: bv32) requires n < 32 ensures Part(s, Bit(n)) == 0 || Part(s, Bit(n)) == Bit(n) {}

  lemma BitsApart(n: bv32, k: bv32)
    requires n < 32 && k < 32 && n != k
    ensures Part(Bit(n), Bit(k)) == 0
  {
  }

  lemma PartOfSelf(x: bv32) ensures Part(x, x) == x {}

  lemma ZeroPart(mask: bv32) ensures Part(0, mask) == 0 {}

  lemma HasZero(n: bv32)
    requires n < 32
    ensures !Has(0, n)
  {
    hide Bit, Part;
    ZeroPart(Bit(n));
  }

  lemma HasBit(n: bv32, k: bv32)
    requires n < 32 && k < 32
    ensures Has(Bit(n), k) == (n == k)
  {
    hide Bit, Part;
    if n == k {
      PartOfSelf(Bit(n));
      BitNotZero(n);
    } else {
      BitsApart(n, k);
    }
  }

  lemma HasOr(a: bv32, b: bv32, n: bv32)
    requires n < 32
    ensures Has(Or(a, b), n) == (Has(a, n) || Has(b, n))
  {
    hide Bit, Part, Or;
    PartOfOr(a, b, Bit(n));
    BitNotZero(n);
    BitOrNothing(a, n);
    BitOrNothing(b, n);
    OrZero(Part(a, Bit(n)));
    ZeroOr(Part(b, Bit(n)));
    OrSelf(Bit(n));
  }

  lemma HasWithout(a: bv32, b: bv32, n: bv32)
    requires n < 32
    ensures Has(Without(a, b), n) == (Has(a, n) && !Has(b, n))
  {
    hide Bit, Part, Without;
    PartOfWithout(a, b, Bit(n));
    BitNotZero(n);
    BitOrNothing(a, n);
    BitOrNothing(b, n);
    WithoutZero(Part(a, Bit(n)));
    ZeroWithout(Part(b, Bit(n)));
    WithoutSelf(Bit(n));
  }

  /** `r &= ~bit` or `r |= bit`: switches that number and no other. */
  function Switch(r: bv32, n: bv32, on: bool): bv32
    requires n < 32
  {
    if on then Or(r, Bit(n)) else Without(r, Bit(n))
  }

  lemma SwitchOnly(r: bv32, n: bv32, on: bool, k: bv32)
    requires n < 32 && k < 32
    ensures Has(Switch(r, n, on), k) == if k == n then on else Has(r, k)
  {
    hide Has, Bit, Or, Without;
    HasOr(r, Bit(n), k);
    HasWithout(r, Bit(n), k);
    HasBit(n, k);
  }

  // ----- Which bit it is, without Bit and Has -----

  /** Bit n, counted from the right, is one. */
  predicate InMask(s: bv32, n: bv32)
    requires n < 32
  {
    (s >> n) & 1 == 1
  }

  lemma HasIsInMask(s: bv32, n: bv32)
    requires n < 32
    ensures Has(s, n) == InMask(s, n)
  {
  }
}
