/** The read-modify-write step all drivers are built of, and what it does to a masked part of a register.

    Proofs about registers hide these definitions and use the lemmas below, so that the solver never
    reasons about single bits and about histories of calls at the same time. */
module Bits {

  /** `r &= ~mask; r |= value`. */
  function Replace(r: bv32, mask: bv32, value: bv32): bv32 { (r & !mask) | value }

  /** The part of r that mask selects. */
  function Part(r: bv32, mask: bv32): bv32 { r & mask }

  predicate Within(value: bv32, mask: bv32) { value & mask == value }

  predicate Disjoint(a: bv32, b: bv32) { a & b == 0 }

  lemma ReplaceOwn(r: bv32, mask: bv32, value: bv32)
    requires Within(value, mask)
    ensures Part(Replace(r, mask, value), mask) == value
  {
  }

  lemma ReplaceOther(r: bv32, mask: bv32, value: bv32, other: bv32)
    requires Within(value, mask) && Disjoint(mask, other)
    ensures Part(Replace(r, mask, value), other) == Part(r, other)
  {
  }

  lemma PartOfPart(r: bv32, mask: bv32, inner: bv32)
    requires Within(inner, mask)
    ensures Part(Part(r, mask), inner) == Part(r, inner)
  {
  }

  function Or(a: bv32, b: bv32): bv32 { a | b }

  function Without(a: bv32, b: bv32): bv32 { a & !b }

  lemma PartOfOr(a: bv32, b: bv32, mask: bv32) ensures Part(Or(a, b), mask) == Or(Part(a, mask), Part(b, mask)) {}

  lemma PartOfWithout(a: bv32, b: bv32, mask: bv32)
    ensures Part(Without(a, b), mask) == Without(Part(a, mask), Part(b, mask))
  {
  }

  lemma OrZero(a: bv32) ensures Or(a, 0) == a {}

  lemma ZeroOr(a: bv32) ensures Or(0, a) == a {}

  lemma OrSelf(a: bv32) ensures Or(a, a) == a {}

  lemma WithoutZero(a: bv32) ensures Without(a, 0) == a {}

  lemma ZeroWithout(a: bv32) ensures Without(0, a) == 0 {}

  lemma WithoutSelf(a: bv32) ensures Without(a, a) == 0 {}

  lemma OrDisjoint(r: bv32, bits: bv32, mask: bv32)
    requires Disjoint(bits, mask)
    ensures Part(Or(r, bits), mask) == Part(r, mask)
  {
  }

  lemma WithoutDisjoint(r: bv32, bits: bv32, mask: bv32)
    requires Disjoint(bits, mask)
    ensures Part(Without(r, bits), mask) == Part(r, mask)
  {
  }

  lemma PartOfOwn(r: bv32, bits: bv32) ensures Part(Or(r, bits), bits) == bits {}

  lemma PartOfRemoved(r: bv32, bits: bv32) ensures Part(Without(r, bits), bits) == 0 {}
}
