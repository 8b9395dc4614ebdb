/** Registers that hold eight 4-bit fields. */
module Nibbles {

  function Nibble(r: bv32, i: bv32): bv32
    requires i < 8
  {
    (r >> (i << 2)) & 0x0F
  }

  /** `tmpreg &= ~(0x0F << pos); tmpreg |= v << pos`, with pos four times the field's place. */
  function SetNibble(r: bv32, i: bv32, v: bv32): bv32
    requires i < 8
  {
    (r & !((0x0F as bv32) << (i << 2))) | (v << (i << 2))
  }

  lemma SetNibbleOnly(r: bv32, i: bv32, v: bv32, j: bv32)
    requires i < 8 && j < 8 && v < 16
    ensures Nibble(SetNibble(r, i, v), j) == if i == j then v else Nibble(r, j)
  {
  }

  /** A register is its eight fields. */
  lemma NibblesDetermine(r: bv32, s: bv32)
    requires forall i: bv32 | i < 8 :: Nibble(r, i) == Nibble(s, i)
    ensures r == s
  {
    assert Nibble(r, 0) == Nibble(s, 0);
    assert Nibble(r, 1) == Nibble(s, 1);
    assert Nibble(r, 2) == Nibble(s, 2);
    assert Nibble(r, 3) == Nibble(s, 3);
    assert Nibble(r, 4) == Nibble(s, 4);
    assert Nibble(r, 5) == Nibble(s, 5);
    assert Nibble(r, 6) == Nibble(s, 6);
    assert Nibble(r, 7) == Nibble(s, 7);
  }

  lemma SetNibbleAll(r: bv32, i: bv32, v: bv32)
    requires i < 8 && v < 16
    ensures forall j: bv32 | j < 8 :: Nibble(SetNibble(r, i, v), j) == if i == j then v else Nibble(r, j)
  {
    hide Nibble, SetNibble;
    forall j: bv32 | j < 8 { SetNibbleOnly(r, i, v, j); }
  }

  // ----- Which bits they are, without Nibble -----

  /** The four bits from bit 4i on, counted from the right. */
  function FourBitsAt(r: bv32, i: bv32): bv32
    requires i < 8
  {
    (r >> (4 * i)) & 0xF
  }

  lemma NibbleIsFourBits(r: bv32, i: bv32)
    requires i < 8
    ensures Nibble(r, i) == FourBitsAt(r, i)
  {
  }
}
