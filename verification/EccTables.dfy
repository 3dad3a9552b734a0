/**
  The two 256-entry lookup tables of the repetition code, as the 16 rows of 16 they are written in,
  and the proof that they tabulate the weight of a byte and its majority bit.
 */
module EccTables {
  import opened Bits

  /** Row `high` of hw_table: the entries of the bytes `16 * high .. 16 * high + 15`. */
  function HwRow(high: nat): seq<nat>
    requires high < 16
  {
    match high
    case 0 => [0, 1, 1, 2, 1, 2, 2, 3, 1, 2, 2, 3, 2, 3, 3, 4]
    case 1 => [1, 2, 2, 3, 2, 3, 3, 4, 2, 3, 3, 4, 3, 4, 4, 5]
    case 2 => [1, 2, 2, 3, 2, 3, 3, 4, 2, 3, 3, 4, 3, 4, 4, 5]
    case 3 => [2, 3, 3, 4, 3, 4, 4, 5, 3, 4, 4, 5, 4, 5, 5, 6]
    case 4 => [1, 2, 2, 3, 2, 3, 3, 4, 2, 3, 3, 4, 3, 4, 4, 5]
    case 5 => [2, 3, 3, 4, 3, 4, 4, 5, 3, 4, 4, 5, 4, 5, 5, 6]
    case 6 => [2, 3, 3, 4, 3, 4, 4, 5, 3, 4, 4, 5, 4, 5, 5, 6]
    case 7 => [3, 4, 4, 5, 4, 5, 5, 6, 4, 5, 5, 6, 5, 6, 6, 7]
    case 8 => [1, 2, 2, 3, 2, 3, 3, 4, 2, 3, 3, 4, 3, 4, 4, 5]
    case 9 => [2, 3, 3, 4, 3, 4, 4, 5, 3, 4, 4, 5, 4, 5, 5, 6]
    case 10 => [2, 3, 3, 4, 3, 4, 4, 5, 3, 4, 4, 5, 4, 5, 5, 6]
    case 11 => [3, 4, 4, 5, 4, 5, 5, 6, 4, 5, 5, 6, 5, 6, 6, 7]
    case 12 => [2, 3, 3, 4, 3, 4, 4, 5, 3, 4, 4, 5, 4, 5, 5, 6]
    case 13 => [3, 4, 4, 5, 4, 5, 5, 6, 4, 5, 5, 6, 5, 6, 6, 7]
    case 14 => [3, 4, 4, 5, 4, 5, 5, 6, 4, 5, 5, 6, 5, 6, 6, 7]
    case _ => [4, 5, 5, 6, 5, 6, 6, 7, 5, 6, 6, 7, 6, 7, 7, 8]
  }

  /** Row `high` of majority_table. */
  function MajorityRow(high: nat): seq<nat>
    requires high < 16
  {
    match high
    case 0 => [0, 0, 0, 0, 0, 0, 0, 0, 0, 0, 0, 0, 0, 0, 0, 0]
    case 1 => [0, 0, 0, 0, 0, 0, 0, 0, 0, 0, 0, 0, 0, 0, 0, 1]
    case 2 => [0, 0, 0, 0, 0, 0, 0, 0, 0, 0, 0, 0, 0, 0, 0, 1]
    case 3 => [0, 0, 0, 0, 0, 0, 0, 1, 0, 0, 0, 1, 0, 1, 1, 1]
    case 4 => [0, 0, 0, 0, 0, 0, 0, 0, 0, 0, 0, 0, 0, 0, 0, 1]
    case 5 => [0, 0, 0, 0, 0, 0, 0, 1, 0, 0, 0, 1, 0, 1, 1, 1]
    case 6 => [0, 0, 0, 0, 0, 0, 0, 1, 0, 0, 0, 1, 0, 1, 1, 1]
    case 7 => [0, 0, 0, 1, 0, 1, 1, 1, 0, 1, 1, 1, 1, 1, 1, 1]
    case 8 => [0, 0, 0, 0, 0, 0, 0, 0, 0, 0, 0, 0, 0, 0, 0, 1]
    case 9 => [0, 0, 0, 0, 0, 0, 0, 1, 0, 0, 0, 1, 0, 1, 1, 1]
    case 10 => [0, 0, 0, 0, 0, 0, 0, 1, 0, 0, 0, 1, 0, 1, 1, 1]
    case 11 => [0, 0, 0, 1, 0, 1, 1, 1, 0, 1, 1, 1, 1, 1, 1, 1]
    case 12 => [0, 0, 0, 0, 0, 0, 0, 1, 0, 0, 0, 1, 0, 1, 1, 1]
    case 13 => [0, 0, 0, 1, 0, 1, 1, 1, 0, 1, 1, 1, 1, 1, 1, 1]
    case 14 => [0, 0, 0, 1, 0, 1, 1, 1, 0, 1, 1, 1, 1, 1, 1, 1]
    case _ => [0, 1, 1, 1, 1, 1, 1, 1, 1, 1, 1, 1, 1, 1, 1, 1]
  }

  function HwEntry(n: nat): nat
    requires n < 256
  {
    HwRowIs(n / 16);
    HwRow(n / 16)[n % 16]
  }

  function MajorityEntry(n: nat): nat
    requires n < 256
  {
    MajorityRowIs(n / 16);
    MajorityRow(n / 16)[n % 16]
  }

  function HwTable(b: bv8): nat {
    HwEntry(b as nat)
  }

  function MajorityTable(b: bv8): nat {
    MajorityEntry(b as nat)
  }

  /** Weight of a 4-bit number. */
  function Nibble(x: nat): nat
    requires x < 16
  {
    match x
    case 0 => 0
    case 1 | 2 | 4 | 8 => 1
    case 3 | 5 | 6 | 9 | 10 | 12 => 2
    case 7 | 11 | 13 | 14 => 3
    case _ => 4
  }

  lemma NibbleBits(b3: bool, b2: bool, b1: bool, b0: bool)
    ensures Nibble(8 * One(b3) + 4 * One(b2) + 2 * One(b1) + One(b0)) == One(b3) + One(b2) + One(b1) + One(b0)
  {
  }

  /** The weight of a byte whose high half weighs `k`, for every low half. */
  function WeightsFrom(k: nat): seq<nat> {
    [k, k + 1, k + 1, k + 2, k + 1, k + 2, k + 2, k + 3, k + 1, k + 2, k + 2, k + 3, k + 2, k + 3, k + 3, k + 4]
  }

  lemma WeightsFromAt(k: nat, low: nat)
    requires low < 16
    ensures |WeightsFrom(k)| == 16 && WeightsFrom(k)[low] == k + Nibble(low)
  {
  }

  function MajoritiesFrom(k: nat): seq<nat> {
    [One(k > 4), One(k > 3), One(k > 3), One(k > 2), One(k > 3), One(k > 2), One(k > 2), One(k > 1),
     One(k > 3), One(k > 2), One(k > 2), One(k > 1), One(k > 2), One(k > 1), One(k > 1), One(k > 0)]
  }

  lemma MajoritiesFromAt(k: nat, low: nat)
    requires low < 16
    ensures |MajoritiesFrom(k)| == 16 && MajoritiesFrom(k)[low] == One(k + Nibble(low) > 4)
  {
  }

  lemma HwRowIs(high: nat)
    requires high < 16
    ensures HwRow(high) == WeightsFrom(Nibble(high))
  {
    match high
    case 0 =>
    case 1 =>
    case 2 =>
    case 3 =>
    case 4 =>
    case 5 =>
    case 6 =>
    case 7 =>
    case 8 =>
    case 9 =>
    case 10 =>
    case 11 =>
    case 12 =>
    case 13 =>
    case 14 =>
    case _ =>
  }

  lemma MajorityRowIs(high: nat)
    requires high < 16
    ensures MajorityRow(high) == MajoritiesFrom(Nibble(high))
  {
    match high
    case 0 =>
    case 1 =>
    case 2 =>
    case 3 =>
    case 4 =>
    case 5 =>
    case 6 =>
    case 7 =>
    case 8 =>
    case 9 =>
    case 10 =>
    case 11 =>
    case 12 =>
    case 13 =>
    case 14 =>
    case _ =>
  }

  lemma HalvesOf(n: nat, b7: bool, b6: bool, b5: bool, b4: bool, b3: bool, b2: bool, b1: bool, b0: bool)
    requires n == 128 * One(b7) + 64 * One(b6) + 32 * One(b5) + 16 * One(b4) +
                  8 * One(b3) + 4 * One(b2) + 2 * One(b1) + One(b0)
    ensures n < 256
    ensures Nibble(n / 16) + Nibble(n % 16) ==
            One(b7) + One(b6) + One(b5) + One(b4) + One(b3) + One(b2) + One(b1) + One(b0)
  {
    assert n / 16 == 8 * One(b7) + 4 * One(b6) + 2 * One(b5) + One(b4);
    NibbleBits(b7, b6, b5, b4);
    NibbleBits(b3, b2, b1, b0);
  }

  lemma HalvesWeigh(b: bv8, n: nat)
    requires n == BitSum(b)
    ensures n < 256
    ensures Nibble(n / 16) + Nibble(n % 16) == Pop(b)
  {
    HalvesOf(n, GetBit(b, 7), GetBit(b, 6), GetBit(b, 5), GetBit(b, 4),
             GetBit(b, 3), GetBit(b, 2), GetBit(b, 1), GetBit(b, 0));
  }

  lemma EntriesAre(n: nat)
    requires n < 256
    ensures HwEntry(n) == Nibble(n / 16) + Nibble(n % 16)
    ensures MajorityEntry(n) == One(Nibble(n / 16) + Nibble(n % 16) > 4)
  {
    HwRowIs(n / 16);
    MajorityRowIs(n / 16);
    WeightsFromAt(Nibble(n / 16), n % 16);
    MajoritiesFromAt(Nibble(n / 16), n % 16);
  }

  /** hw_table is the weight of a byte; majority_table is 1 from five set bits on, so a tie decodes to 0. */
  lemma TablesTabulate(b: bv8)
    ensures HwTable(b) == Pop(b)
    ensures MajorityTable(b) == One(Pop(b) > 4)
  {
    ByteValue(b);
    HalvesWeigh(b, b as nat);
    EntriesAre(b as nat);
  }
}
