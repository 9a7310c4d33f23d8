/** Facts about exclusive or on bytes. */
module XorFacts {
  import opened KnxTypes

  lemma ThereAndBack(v: bv8)
    ensures (v as int) as bv8 == v
  {
  }

  lemma XorAssociates(a: byte, b: byte, c: byte)
    ensures XorByte(XorByte(a, b), c) == XorByte(a, XorByte(b, c))
  {
    ThereAndBack((a as bv8) ^ (b as bv8));
    ThereAndBack((b as bv8) ^ (c as bv8));
  }

  lemma XorCommutes(a: byte, b: byte)
    ensures XorByte(a, b) == XorByte(b, a)
  {
  }

  lemma Complement(v: bv8)
    ensures 255 - v as int == (0xFF ^ v) as int
  {
  }

  lemma ComplementIsXor(x: byte, y: byte)
    ensures 255 - XorByte(x, y) == XorByte(255, XorByte(x, y))
  {
    Complement((x as bv8) ^ (y as bv8));
    ThereAndBack((x as bv8) ^ (y as bv8));
  }

  lemma XorComplement(x: byte, y: byte, z: byte)
    ensures 255 - XorByte(XorByte(x, y), z) == XorByte(255 - XorByte(x, y), z)
  {
    ComplementIsXor(x, y);
    ComplementIsXor(XorByte(x, y), z);
    XorAssociates(255, XorByte(x, y), z);
    hide XorByte;
  }

  lemma OneMore(v: bv8)
    requires v as int < 255
    ensures (v + 1) as int == v as int + 1
  {
  }

  /** Every byte is the value of eight bits. */
  lemma {:induction false} BitsOf(a: byte) returns (v: bv8)
    ensures v as int == a
  {
    if a == 0 {
      v := 0;
    } else {
      var w := BitsOf(a - 1);
      OneMore(w);
      v := w + 1;
    }
  }

  lemma SameBits(v: bv8, w: bv8)
    ensures v as int == w as int <==> v == w
  {
    ThereAndBack(v);
    ThereAndBack(w);
  }

  lemma OnesBits(v: bv8, w: bv8)
    ensures v ^ w == 0xFF <==> 0xFF ^ v == w
  {
  }

  lemma Bits(a: byte) returns (v: bv8)
    ensures v as int == a && a as bv8 == v
  {
    v := BitsOf(a);
    ThereAndBack(v);
  }

  lemma XorOfBits(a: byte, b: byte, v: bv8, w: bv8)
    requires a as bv8 == v && b as bv8 == w
    ensures XorByte(a, b) == (v ^ w) as int
  {
  }

  /** Exclusive or gives all ones exactly with the complement. */
  lemma AllOnes(a: byte, b: byte)
    ensures XorByte(a, b) == 0xFF <==> b == 255 - a
  {
    hide XorByte;
    var v := Bits(a);
    var w := Bits(b);
    XorOfBits(a, b, v, w);
    OnesOfBits(v, w);
  }

  lemma OnesOfBits(v: bv8, w: bv8)
    ensures (v ^ w) as int == 0xFF <==> w as int == 255 - v as int
  {
    OnesBits(v, w);
    SameBits(v ^ w, 0xFF);
    SameBits(0xFF ^ v, w);
    Complement(v);
  }

  lemma ClearBits(v: bv8)
    requires v & 0x20 == 0x20
    ensures (v ^ 0x20) as int == v as int - 32
  {
  }

  /** Exclusive or with 0x20 clears that bit if it is set. */
  lemma ClearBit(v: bv8)
    requires v & 0x20 == 0x20
    ensures XorByte(v as int, 32) == v as int - 32
  {
    ThereAndBack(v);
    ThereAndBack(0x20);
    ClearBits(v);
  }
}
