module ByteCodes {
  /** A byte survives the passage from int to bv8 and back. */
  lemma ByteRoundTrip(x: int)
    requires 0 <= x < 256
    ensures (x as bv8) as int == x
  {}
}

/**
 Bytes as elements of GF(2^8), and the substitution table (FIPS 197, sections 4.2, 5.1.1 and 5.3.2).

 A byte is a bv8. The Go code keeps bytes in ints; the one place where an int can
 leave 0..255 for a moment, the doubling in mixColumns, is computed here in sixteen bits,
 so that the conversion back to bv8 is a proof that the entry fits.
 */
module AesField {

  /** Doubling as mixColumns writes it: shift left, and take 0x011b away when bit 7 was set. */
  function Double(x: bv8): bv8
  {
    if x & 0x80 != 0 then (((x as bv16) << 1) ^ 0x011b) as bv8 else x << 1
  }

  /** Section 4.2.1: multiplication by {02}, within the byte. */
  function Xtime(x: bv8): bv8
  {
    if x & 0x80 != 0 then (x << 1) ^ 0x1b else x << 1
  }

  lemma DoubleIsXtime(x: bv8)
    ensures Double(x) == Xtime(x)
  {}

  /** Section 4.1: addition in the field. */
  function Add(x: bv8, y: bv8): bv8
  {
    x ^ y
  }

  function Scaled(c: bv8, mask: bv8, x: bv8): bv8
  {
    if c & mask != 0 then x else 0
  }

  /** Section 4.2.1: {c} times {x}, the sum of the powers of {02} in c, each by repeated xtime. */
  function GfMul(c: bv8, x: bv8): bv8
  {
    var x1 := Xtime(x);
    var x2 := Xtime(x1);
    var x3 := Xtime(x2);
    var x4 := Xtime(x3);
    var x5 := Xtime(x4);
    var x6 := Xtime(x5);
    var x7 := Xtime(x6);
    Scaled(c, 0x01, x) ^ Scaled(c, 0x02, x1) ^ Scaled(c, 0x04, x2) ^ Scaled(c, 0x08, x3) ^
    Scaled(c, 0x10, x4) ^ Scaled(c, 0x20, x5) ^ Scaled(c, 0x40, x6) ^ Scaled(c, 0x80, x7)
  }

  lemma ShiftAdds(x: bv8, y: bv8)
    ensures (x ^ y) << 1 == (x << 1) ^ (y << 1)
  {}

  lemma TopBitAdds(x: bv8, y: bv8)
    ensures (x ^ y) & 0x80 == (x & 0x80) ^ (y & 0x80)
  {}

  lemma TopBit(x: bv8)
    ensures x & 0x80 == 0 || x & 0x80 == 0x80
  {}

  lemma XtimeAdds(x: bv8, y: bv8)
    ensures Xtime(x ^ y) == Xtime(x) ^ Xtime(y)
  {
    ShiftAdds(x, y);
    TopBitAdds(x, y);
    TopBit(x);
    TopBit(y);
  }

  lemma MulSmall(x: bv8)
    ensures GfMul(0x01, x) == x
    ensures GfMul(0x02, x) == Xtime(x)
    ensures GfMul(0x03, x) == Add(Xtime(x), x)
  {}

  lemma Mul9(x: bv8)
    ensures GfMul(0x09, x) == Add(Xtime(Xtime(Xtime(x))), x)
  {}

  lemma MulB(x: bv8)
    ensures GfMul(0x0b, x) == Add(Add(Xtime(Xtime(Xtime(x))), Xtime(x)), x)
  {}

  lemma MulD(x: bv8)
    ensures GfMul(0x0d, x) == Add(Add(Xtime(Xtime(Xtime(x))), Xtime(Xtime(x))), x)
  {}

  lemma MulE(x: bv8)
    ensures GfMul(0x0e, x) == Add(Add(Xtime(Xtime(Xtime(x))), Xtime(Xtime(x))), Xtime(x))
  {}

  /** Sixteen table entries packed in one number, the first in the top byte. */
  function EntryOf(row: bv128, x: bv8): bv8
  {
    ((row >> (8 * (15 - (x & 0x0f)))) & 0xff) as bv8
  }

  /** The sBox list, sixteen entries a row. */
  function SubByte(x: bv8): bv8
  {
    var row: bv128 :=
      if x < 0x80 then
        if x < 0x40 then
          if x < 0x20 then
            if x < 0x10 then
              0x637c777bf26b6fc53001672bfed7ab76
            else
              0xca82c97dfa5947f0add4a2af9ca472c0
          else
            if x < 0x30 then
              0xb7fd9326363ff7cc34a5e5f171d83115
            else
              0x04c723c31896059a071280e2eb27b275
        else
          if x < 0x60 then
            if x < 0x50 then
              0x09832c1a1b6e5aa0523bd6b329e32f84
            else
              0x53d100ed20fcb15b6acbbe394a4c58cf
          else
            if x < 0x70 then
              0xd0efaafb434d338545f9027f503c9fa8
            else
              0x51a3408f929d38f5bcb6da2110fff3d2
      else
        if x < 0xc0 then
          if x < 0xa0 then
            if x < 0x90 then
              0xcd0c13ec5f974417c4a77e3d645d1973
            else
              0x60814fdc222a908846eeb814de5e0bdb
          else
            if x < 0xb0 then
              0xe0323a0a4906245cc2d3ac629195e479
            else
              0xe7c8376d8dd54ea96c56f4ea657aae08
        else
          if x < 0xe0 then
            if x < 0xd0 then
              0xba78252e1ca6b4c6e8dd741f4bbd8b8a
            else
              0x703eb5664803f60e613557b986c11d9e
          else
            if x < 0xf0 then
              0xe1f8981169d98e949b1e87e9ce5528df
            else
              0x8ca1890dbfe6426841992d0fb054bb16;
    EntryOf(row, x)
  }

  /** Figure 14 of FIPS 197: the inverse table, which the Go code does not hold. */
  function InvSubByte(x: bv8): bv8
  {
    var row: bv128 :=
      if x < 0x80 then
        if x < 0x40 then
          if x < 0x20 then
            if x < 0x10 then
              0x52096ad53036a538bf40a39e81f3d7fb
            else
              0x7ce339829b2fff87348e4344c4dee9cb
          else
            if x < 0x30 then
              0x547b9432a6c2233dee4c950b42fac34e
            else
              0x082ea16628d924b2765ba2496d8bd125
        else
          if x < 0x60 then
            if x < 0x50 then
              0x72f8f66486689816d4a45ccc5d65b692
            else
              0x6c704850fdedb9da5e154657a78d9d84
          else
            if x < 0x70 then
              0x90d8ab008cbcd30af7e45805b8b34506
            else
              0xd02c1e8fca3f0f02c1afbd0301138a6b
      else
        if x < 0xc0 then
          if x < 0xa0 then
            if x < 0x90 then
              0x3a9111414f67dcea97f2cfcef0b4e673
            else
              0x96ac7422e7ad3585e2f937e81c75df6e
          else
            if x < 0xb0 then
              0x47f11a711d29c5896fb7620eaa18be1b
            else
              0xfc563e4bc6d279209adbc0fe78cd5af4
        else
          if x < 0xe0 then
            if x < 0xd0 then
              0x1fdda8338807c731b11210592780ec5f
            else
              0x60517fa919b54a0d2de57a9f93c99cef
          else
            if x < 0xf0 then
              0xa0e03b4dae2af5b0c8ebbb3c83539961
            else
              0x172b047eba77d626e169146355210c7d;
    EntryOf(row, x)
  }

  lemma SubByteInverse(x: bv8)
    ensures InvSubByte(SubByte(x)) == x
  {}

  /** The inverse of the affine map of section 5.1.1. */
  function UndoAffine(x: bv8): bv8
  {
    ((x << 1) | (x >> 7)) ^ ((x << 3) | (x >> 5)) ^ ((x << 6) | (x >> 2)) ^ 0x05
  }

  function Affine(x: bv8): bv8
  {
    x ^ ((x << 1) | (x >> 7)) ^ ((x << 2) | (x >> 6)) ^ ((x << 3) | (x >> 5)) ^ ((x << 4) | (x >> 4)) ^ 0x63
  }

  lemma AffineUndone(x: bv8)
    ensures Affine(UndoAffine(x)) == x
  {}

  ghost predicate IsFieldEntry(x: bv8)
  {
    var y := UndoAffine(SubByte(x));
    if x == 0 then y == 0 else GfMul(x, y) == 1
  }

  lemma FieldQuarter0(x: bv8)
    requires x & 0xc0 == 0x00
    ensures IsFieldEntry(x)
  {}

  lemma FieldQuarter1(x: bv8)
    requires x & 0xc0 == 0x40
    ensures IsFieldEntry(x)
  {}

  lemma FieldQuarter2(x: bv8)
    requires x & 0xc0 == 0x80
    ensures IsFieldEntry(x)
  {}

  lemma FieldQuarter3(x: bv8)
    requires x & 0xc0 == 0xc0
    ensures IsFieldEntry(x)
  {}

  /**
   The table is the S-box of section 5.1.1: each entry is the affine image of the
   multiplicative inverse of its index, with 0 for the inverse of 0.
   */
  lemma SubByteIsInverseThenAffine(x: bv8)
    ensures exists y :: SubByte(x) == Affine(y) && (if x == 0 then y == 0 else GfMul(x, y) == 1)
  {
    var y := UndoAffine(SubByte(x));
    AffineUndone(SubByte(x));
    assert IsFieldEntry(x) by {
      if x & 0xc0 == 0x00 {
        FieldQuarter0(x);
      } else if x & 0xc0 == 0x40 {
        FieldQuarter1(x);
      } else if x & 0xc0 == 0x80 {
        FieldQuarter2(x);
      } else {
        FieldQuarter3(x);
      }
    }
    assert SubByte(x) == Affine(y);
  }
}
