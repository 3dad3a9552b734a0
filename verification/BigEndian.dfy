/**
  Big-endian numbers of two and of four bytes.
 */
module BigEndian {
  import opened Bits

  predicate Odd(x: nat) {
    x % 2 == 1
  }

  /** The low byte of a number, put together from its binary digits. */
  function ToByte(x: nat): bv8 {
    var x1 := x / 2;
    var x2 := x1 / 2;
    var x3 := x2 / 2;
    var x4 := x3 / 2;
    var x5 := x4 / 2;
    var x6 := x5 / 2;
    PackByte([Odd(x), Odd(x1), Odd(x2), Odd(x3), Odd(x4), Odd(x5), Odd(x6), Odd(x6 / 2)])
  }

  lemma Halve(x: nat)
    ensures x == 2 * (x / 2) + One(Odd(x))
  {
  }

  lemma PackedBit(bits: seq<bool>, i: nat)
    requires |bits| == 8 && i < 8
    ensures BitNum(PackByte(bits), i) == One(bits[i])
  {
    hide GetBit, PackByte;
  }

  /** Eight halvings of a number below 256, each with the bit it leaves. */
  lemma BinaryValue(x: nat, x1: nat, x2: nat, x3: nat, x4: nat, x5: nat, x6: nat, x7: nat)
    requires x < 256 && x1 == x / 2 && x2 == x1 / 2 && x3 == x2 / 2 && x4 == x3 / 2 && x5 == x4 / 2 && x6 == x5 / 2
    requires x7 == x6 / 2
    ensures x == 128 * One(Odd(x7)) + 64 * One(Odd(x6)) + 32 * One(Odd(x5)) + 16 * One(Odd(x4))
                 + 8 * One(Odd(x3)) + 4 * One(Odd(x2)) + 2 * One(Odd(x1)) + One(Odd(x))
  {
    hide Odd, One;
    Halve(x);
    Halve(x1);
    Halve(x2);
    Halve(x3);
    Halve(x4);
    Halve(x5);
    Halve(x6);
    Halve(x7);
    assert x7 / 2 == 0;
  }

  lemma PackedValue(bits: seq<bool>, sum: nat)
    requires |bits| == 8
    requires sum == 128 * One(bits[7]) + 64 * One(bits[6]) + 32 * One(bits[5]) + 16 * One(bits[4])
                    + 8 * One(bits[3]) + 4 * One(bits[2]) + 2 * One(bits[1]) + One(bits[0])
    ensures BitSum(PackByte(bits)) == sum
  {
    hide BitNum, One, PackByte;
    PackedBit(bits, 0);
    PackedBit(bits, 1);
    PackedBit(bits, 2);
    PackedBit(bits, 3);
    PackedBit(bits, 4);
    PackedBit(bits, 5);
    PackedBit(bits, 6);
    PackedBit(bits, 7);
  }

  lemma ByteRoundTrip(x: nat)
    requires x < 256
    ensures BitSum(ToByte(x)) == x
  {
    hide BitSum, Odd, One, PackByte;
    var x1 := x / 2;
    var x2 := x1 / 2;
    var x3 := x2 / 2;
    var x4 := x3 / 2;
    var x5 := x4 / 2;
    var x6 := x5 / 2;
    BinaryValue(x, x1, x2, x3, x4, x5, x6, x6 / 2);
    var bits := [Odd(x), Odd(x1), Odd(x2), Odd(x3), Odd(x4), Odd(x5), Odd(x6), Odd(x6 / 2)];
    assert ToByte(x) == PackByte(bits);
    hide ToByte;
    PackedValue(bits, x);
  }

  lemma ByteCovers(b: bv8)
    ensures BitSum(b) < 256 && ToByte(BitSum(b)) == b
  {
    hide ToByte, GetBit;
    ByteRoundTrip(BitSum(b));
    SameSum(ToByte(BitSum(b)), b);
  }

  lemma SameSum(a: bv8, b: bv8)
    requires BitSum(a) == BitSum(b)
    ensures a == b
  {
    hide GetBit, BitSum;
    ByteValue(a);
    ByteValue(b);
    assert (a as nat) as bv8 == a && (b as nat) as bv8 == b;
  }

  function Be16(n: nat): (h: Bytes)
    ensures |h| == 2
  {
    [ToByte(n / 256 % 256), ToByte(n % 256)]
  }

  function Be16Value(h: Bytes): nat
    requires |h| == 2
  {
    BitSum(h[0]) * 256 + BitSum(h[1])
  }

  lemma Be16RoundTrip(n: nat)
    requires n < 0x1_0000
    ensures Be16Value(Be16(n)) == n
  {
    hide BitSum, ToByte;
    assert n / 256 % 256 == n / 256;
    ByteRoundTrip(n / 256);
    ByteRoundTrip(n % 256);
  }

  lemma Be16Covers(h: Bytes)
    requires |h| == 2
    ensures Be16Value(h) < 0x1_0000 && Be16(Be16Value(h)) == h
  {
    hide BitSum, ToByte;
    ByteCovers(h[0]);
    ByteCovers(h[1]);
    Be16Of(BitSum(h[0]), BitSum(h[1]));
    hide Be16;
    assert h == [h[0], h[1]];
  }

  lemma Be16Of(a: nat, b: nat)
    requires a < 256 && b < 256
    ensures Be16(a * 256 + b) == [ToByte(a), ToByte(b)] && a * 256 + b < 0x1_0000
  {
    hide BitSum, ToByte;
    TwoDigits(a, b);
  }

  lemma TwoDigits(a: nat, b: nat)
    requires a < 256 && b < 256
    ensures (a * 256 + b) / 256 % 256 == a && (a * 256 + b) % 256 == b
  {
  }

  function Be32(n: nat): (h: Bytes)
    ensures |h| == 4
  {
    [ToByte(n / 0x100_0000 % 256), ToByte(n / 0x1_0000 % 256), ToByte(n / 0x100 % 256), ToByte(n % 256)]
  }

  function Be32Value(h: Bytes): nat
    requires |h| == 4
  {
    BitSum(h[0]) * 0x100_0000 + BitSum(h[1]) * 0x1_0000 + BitSum(h[2]) * 0x100 + BitSum(h[3])
  }

  lemma Be32RoundTrip(n: nat)
    ensures Be32Value(Be32(n)) == n % 0x1_0000_0000
  {
    hide Be32;
    Digits(n);
    Be32Bytes(n);
  }

  lemma Be32Bound(h: Bytes)
    requires |h| == 4
    ensures Be32Value(h) < 0x1_0000_0000
  {
    hide BitSum, ToByte;
    ByteCovers(h[0]);
    ByteCovers(h[1]);
    ByteCovers(h[2]);
    ByteCovers(h[3]);
  }

  /** Every header is the header of its value. */
  lemma Be32Covers(h: Bytes)
    requires |h| == 4
    ensures Be32(Be32Value(h)) == h
  {
    hide BitSum, ToByte;
    ByteCovers(h[0]);
    ByteCovers(h[1]);
    ByteCovers(h[2]);
    ByteCovers(h[3]);
    FourDigits(BitSum(h[0]), BitSum(h[1]), BitSum(h[2]), BitSum(h[3]));
  }

  lemma FourDigits(a: nat, b: nat, c: nat, d: nat)
    requires a < 256 && b < 256 && c < 256 && d < 256
    ensures var n := a * 0x100_0000 + b * 0x1_0000 + c * 0x100 + d;
            n / 0x100_0000 % 256 == a && n / 0x1_0000 % 256 == b && n / 0x100 % 256 == c && n % 256 == d
  {
    var n2 := a * 256 + b;
    var n3 := n2 * 256 + c;
    var n4 := n3 * 256 + d;
    LastDigit(n3, d);
    LastDigit(n2, c);
    LastDigit(a, b);
    DivTwice(n4);
    DivThrice(n4);
  }

  lemma LastDigit(front: nat, d: nat)
    requires d < 256
    ensures (front * 256 + d) / 256 == front && (front * 256 + d) % 256 == d
  {
  }

  lemma Be32Bytes(n: nat)
    ensures BitSum(Be32(n)[0]) == n / 0x100_0000 % 256
    ensures BitSum(Be32(n)[1]) == n / 0x1_0000 % 256
    ensures BitSum(Be32(n)[2]) == n / 0x100 % 256
    ensures BitSum(Be32(n)[3]) == n % 256
  {
    hide BitSum, ToByte;
    ByteRoundTrip(n / 0x100_0000 % 256);
    ByteRoundTrip(n / 0x1_0000 % 256);
    ByteRoundTrip(n / 0x100 % 256);
    ByteRoundTrip(n % 256);
  }

  lemma Digits(n: nat)
    ensures n / 0x100_0000 % 256 * 0x100_0000 + n / 0x1_0000 % 256 * 0x1_0000 + n / 0x100 % 256 * 0x100 + n % 256
         == n % 0x1_0000_0000
  {
    var n1, n2, n3 := n / 0x100, n / 0x1_0000, n / 0x100_0000;
    assert n1 / 256 == n2 && n2 / 256 == n3 by {
      DivTwice(n);
      DivThrice(n);
    }
    assert n == 256 * n1 + n % 256 && n1 == 256 * n2 + n1 % 256 && n2 == 256 * n3 + n2 % 256;
    assert n3 == 256 * (n3 / 256) + n3 % 256;
  }

  lemma DivTwice(n: nat)
    ensures n / 256 / 256 == n / 0x1_0000
  {
  }

  lemma DivThrice(n: nat)
    ensures n / 0x1_0000 / 256 == n / 0x100_0000
  {
  }
}
