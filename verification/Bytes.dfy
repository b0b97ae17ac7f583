/** Eight-bit values as eight switches, most significant first, so that masks, shifts and
    single wire levels are read off directly. */
module Bytes {

  datatype Byte = Byte(b7: bool, b6: bool, b5: bool, b4: bool, b3: bool, b2: bool, b1: bool, b0: bool)

  function Weight(b: bool, w: nat): nat {
    if b then w else 0
  }

  function Nibble(b3: bool, b2: bool, b1: bool, b0: bool): (n: nat)
    ensures n < 16
  {
    Weight(b3, 8) + Weight(b2, 4) + Weight(b1, 2) + Weight(b0, 1)
  }

  function ToNat(b: Byte): (n: nat)
    ensures n < 256
  {
    16 * Nibble(b.b7, b.b6, b.b5, b.b4) + Nibble(b.b3, b.b2, b.b1, b.b0)
  }

  function OfNat(n: nat): Byte
    requires n < 256
  {
    var h, l := n / 16, n % 16;
    Byte(h >= 8, h % 8 >= 4, h % 4 >= 2, h % 2 == 1, l >= 8, l % 8 >= 4, l % 4 >= 2, l % 2 == 1)
  }

  lemma NatRoundTrip(n: nat)
    requires n < 256
    ensures ToNat(OfNat(n)) == n
  {
    NibbleRoundTrip(n / 16);
    NibbleRoundTrip(n % 16);
  }

  lemma NibbleRoundTrip(n: nat)
    requires n < 16
    ensures Nibble(n >= 8, n % 8 >= 4, n % 4 >= 2, n % 2 == 1) == n
  {}

  lemma SameNatSameByte(a: Byte, b: Byte)
    ensures ToNat(a) == ToNat(b) ==> a == b
  {
    SameNibble(a.b7, a.b6, a.b5, a.b4, b.b7, b.b6, b.b5, b.b4);
    SameNibble(a.b3, a.b2, a.b1, a.b0, b.b3, b.b2, b.b1, b.b0);
  }

  lemma SameNibble(a3: bool, a2: bool, a1: bool, a0: bool, b3: bool, b2: bool, b1: bool, b0: bool)
    ensures Nibble(a3, a2, a1, a0) == Nibble(b3, b2, b1, b0) ==> a3 == b3 && a2 == b2 && a1 == b1 && a0 == b0
  {}

  function And(a: Byte, m: Byte): Byte {
    Byte(a.b7 && m.b7, a.b6 && m.b6, a.b5 && m.b5, a.b4 && m.b4,
         a.b3 && m.b3, a.b2 && m.b2, a.b1 && m.b1, a.b0 && m.b0)
  }

  /** (a & ~mask) | (v & mask) */
  function Masked(a: Byte, mask: Byte, v: Byte): Byte {
    Byte(if mask.b7 then v.b7 else a.b7, if mask.b6 then v.b6 else a.b6,
         if mask.b5 then v.b5 else a.b5, if mask.b4 then v.b4 else a.b4,
         if mask.b3 then v.b3 else a.b3, if mask.b2 then v.b2 else a.b2,
         if mask.b1 then v.b1 else a.b1, if mask.b0 then v.b0 else a.b0)
  }

  /** Bit k in the order of the wire, most significant first. */
  predicate BitAt(b: Byte, k: nat)
    requires k < 8
  {
    if k == 0 then b.b7 else if k == 1 then b.b6 else if k == 2 then b.b5 else if k == 3 then b.b4
    else if k == 4 then b.b3 else if k == 5 then b.b2 else if k == 6 then b.b1 else b.b0
  }

  /** (b << 1) | v, cut to eight bits. */
  function ShiftIn(b: Byte, v: bool): Byte {
    Byte(b.b6, b.b5, b.b4, b.b3, b.b2, b.b1, b.b0, v)
  }

  const ZERO := Byte(false, false, false, false, false, false, false, false)
  const ONES := Byte(true, true, true, true, true, true, true, true)

  /** The shift register after the first j bits of b have come in. */
  function Assembled(b: Byte, j: nat): Byte
    requires j <= 8
  {
    if j == 0 then ZERO
    else if j == 1 then Byte(false, false, false, false, false, false, false, b.b7)
    else if j == 2 then Byte(false, false, false, false, false, false, b.b7, b.b6)
    else if j == 3 then Byte(false, false, false, false, false, b.b7, b.b6, b.b5)
    else if j == 4 then Byte(false, false, false, false, b.b7, b.b6, b.b5, b.b4)
    else if j == 5 then Byte(false, false, false, b.b7, b.b6, b.b5, b.b4, b.b3)
    else if j == 6 then Byte(false, false, b.b7, b.b6, b.b5, b.b4, b.b3, b.b2)
    else if j == 7 then Byte(false, b.b7, b.b6, b.b5, b.b4, b.b3, b.b2, b.b1)
    else b
  }

  lemma BitComesIn(b: Byte, j: nat)
    requires j < 8
    ensures ShiftIn(Assembled(b, j), BitAt(b, j)) == Assembled(b, j + 1)
  {
    if j == 0 {} else if j == 1 {} else if j == 2 {} else if j == 3 {}
    else if j == 4 {} else if j == 5 {} else if j == 6 {} else { assert j == 7; }
  }

  /** b after i shifts to the left. */
  function Shifted(b: Byte, i: nat): Byte {
    if i == 0 then b else ShiftIn(Shifted(b, i - 1), false)
  }

  lemma {:induction false} ShiftBrings(b: Byte, i: nat, k: nat)
    requires i + k < 8
    ensures BitAt(Shifted(b, i), k) == BitAt(b, i + k)
  {
    if i > 0 { ShiftBrings(b, i - 1, k + 1); }
  }

  // ---------- the switches in numbers ----------

  /** The bits of the wire are the binary digits, most significant first. */
  lemma BitsAreDigits(b: Byte, k: nat)
    requires k < 8
    ensures BitAt(b, k) <==> ToNat(b) / [128, 64, 32, 16, 8, 4, 2, 1][k] % 2 == 1
  {
    HighDigits(b);
    LowDigits(b);
  }

  lemma NibbleDigits(b3: bool, b2: bool, b1: bool, b0: bool)
    ensures var n := Nibble(b3, b2, b1, b0);
            n / 8 == Weight(b3, 1) && n / 4 % 2 == Weight(b2, 1) && n / 2 % 2 == Weight(b1, 1) && n % 2 == Weight(b0, 1)
  {}

  lemma HighDigits(b: Byte)
    ensures b.b7 <==> ToNat(b) / 128 % 2 == 1
    ensures b.b6 <==> ToNat(b) / 64 % 2 == 1
    ensures b.b5 <==> ToNat(b) / 32 % 2 == 1
    ensures b.b4 <==> ToNat(b) / 16 % 2 == 1
  {
    NibbleDigits(b.b7, b.b6, b.b5, b.b4);
    Halves(b);
  }

  lemma LowDigits(b: Byte)
    ensures b.b3 <==> ToNat(b) / 8 % 2 == 1
    ensures b.b2 <==> ToNat(b) / 4 % 2 == 1
    ensures b.b1 <==> ToNat(b) / 2 % 2 == 1
    ensures b.b0 <==> ToNat(b) % 2 == 1
  {
    NibbleDigits(b.b3, b.b2, b.b1, b.b0);
    DigitsOfSum(Nibble(b.b7, b.b6, b.b5, b.b4), Nibble(b.b3, b.b2, b.b1, b.b0));
  }

  lemma DigitsOfSum(h: nat, l: nat)
    requires l < 16
    ensures var n := 16 * h + l;
            n / 8 % 2 == l / 8 && n / 4 % 2 == l / 4 % 2 && n / 2 % 2 == l / 2 % 2 && n % 2 == l % 2
  {
    var n := 16 * h + l;
    assert n / 8 == 2 * h + l / 8 && n / 4 == 2 * (2 * h) + l / 4 && n / 2 == 2 * (4 * h) + l / 2;
    EvenAdds(h, l / 8);
    EvenAdds(2 * h, l / 4);
    EvenAdds(4 * h, l / 2);
    EvenAdds(8 * h, l);
  }

  lemma EvenAdds(h: nat, l: nat)
    ensures (2 * h + l) % 2 == l % 2
  {}

  lemma Halves(b: Byte)
    ensures ToNat(b) / 16 == Nibble(b.b7, b.b6, b.b5, b.b4)
  {}

  /** Every bit of a mask decides for itself. */
  lemma BitsApart(a: Byte, m: Byte, v: Byte, k: nat)
    requires k < 8
    ensures BitAt(And(a, m), k) == (BitAt(a, k) && BitAt(m, k))
    ensures BitAt(Masked(a, m, v), k) == if BitAt(m, k) then BitAt(v, k) else BitAt(a, k)
  {
    AndApart(a, m, And(a, m), k);
    MaskedApart(a, m, v, Masked(a, m, v), k);
  }

  lemma AndApart(a: Byte, m: Byte, r: Byte, k: nat)
    requires k < 8 && r == And(a, m)
    ensures BitAt(r, k) == (BitAt(a, k) && BitAt(m, k))
  {}

  lemma MaskedApart(a: Byte, m: Byte, v: Byte, r: Byte, k: nat)
    requires k < 8 && r == Masked(a, m, v)
    ensures BitAt(r, k) == if BitAt(m, k) then BitAt(v, k) else BitAt(a, k)
  {}

  /** (b << 1) | v, cut to eight bits, is a doubling that loses the top bit. */
  lemma ShiftDoubles(b: Byte, v: bool)
    ensures ToNat(ShiftIn(b, v)) == 2 * ToNat(b) + Weight(v, 1) - Weight(b.b7, 256)
  {
    Doubled(b, v, ShiftIn(b, v));
  }

  lemma Doubled(b: Byte, v: bool, r: Byte)
    requires r == ShiftIn(b, v)
    ensures ToNat(r) == 2 * ToNat(b) + Weight(v, 1) - Weight(b.b7, 256)
  {
    NibbleDoubles(b.b7, b.b6, b.b5, b.b4, b.b3);
    NibbleDoubles(b.b3, b.b2, b.b1, b.b0, v);
  }

  lemma NibbleDoubles(b3: bool, b2: bool, b1: bool, b0: bool, v: bool)
    ensures 2 * Nibble(b3, b2, b1, b0) + Weight(v, 1) == 16 * Weight(b3, 1) + Nibble(b2, b1, b0, v)
  {}
}
