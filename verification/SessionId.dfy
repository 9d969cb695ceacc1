/**
 Session ids: a 16-bit slot index above a 48-bit counter in one int64_t. The
 rest of the project works with the arithmetic reading of the helpers; here it
 is proved to be what the shifts and masks of the source compute.
 */
module SessionId {
  import opened Arithmetic

  const TWO16: int := 0x1_0000
  const TWO48: int := 0x1_0000_0000_0000
  const TWO63: int := 0x8000_0000_0000_0000
  const TWO64: int := 0x1_0000_0000_0000_0000

  /** An int64_t value. */
  type Int64 = x: int | -TWO63 <= x < TWO63

  /** The int64_t with these 64 bits. */
  function Signed(u: int): Int64
    requires 0 <= u < TWO64
  {
    if u >= TWO63 then u - TWO64 else u
  }

  /** The 64 bits of an int64_t. */
  function Unsigned(x: Int64): (u: int)
    ensures 0 <= u < TWO64
  {
    if x < 0 then x + TWO64 else x
  }

  // ---------------------------------------------------------------- the helpers, read as arithmetic

  function MakeSessionId(index: nat, uniqueId: Int64): Int64
    requires index < TWO16
  {
    Signed(index * TWO48 + uniqueId % TWO48)
  }

  function ExtractIndex(id: Int64): (i: nat)
    ensures i < TWO16
  {
    (id / TWO48) % TWO16
  }

  function ExtractUniqueId(id: Int64): (u: nat)
    ensures u < TWO48
  {
    id % TWO48
  }

  /** Make and extract round-trip for every 16-bit index, also those that set the sign bit, and every counter. */
  lemma MakeExtractRoundTrip(index: nat, uniqueId: Int64)
    requires index < TWO16
    ensures ExtractIndex(MakeSessionId(index, uniqueId)) == index
    ensures ExtractUniqueId(MakeSessionId(index, uniqueId)) == uniqueId % TWO48
  {
    var u := uniqueId % TWO48;
    var id := MakeSessionId(index, uniqueId);
    if index < 0x8000 {
      assert id == index * TWO48 + u;
    } else {
      assert id == (index - TWO16) * TWO48 + u;
    }
  }

  /** Extract and make round-trip: index and counter determine the id. */
  lemma ExtractMakeRoundTrip(id: Int64)
    ensures MakeSessionId(ExtractIndex(id), ExtractUniqueId(id)) == id
  {
    var q := id / TWO48;
    assert id == q * TWO48 + id % TWO48;
    assert -0x8000 <= q < 0x8000;
    assert ExtractIndex(id) == if q < 0 then q + TWO16 else q;
  }

  lemma SameParts(a: Int64, b: Int64)
    requires ExtractIndex(a) == ExtractIndex(b) && ExtractUniqueId(a) == ExtractUniqueId(b)
    ensures a == b
  {
    ExtractMakeRoundTrip(a);
    ExtractMakeRoundTrip(b);
  }

  // ---------------------------------------------------------------- the helpers as the source writes them

  const UNIQUE_MASK: nat := 0x0000_FFFF_FFFF_FFFF

  /** Bitwise and. */
  function And(a: nat, b: nat): nat {
    if a == 0 || b == 0 then 0 else (if a % 2 == 1 && b % 2 == 1 then 1 else 0) + 2 * And(a / 2, b / 2)
  }

  /** Bitwise or. */
  function Or(a: nat, b: nat): nat
    decreases a + b
  {
    if a == 0 then b else if b == 0 then a
    else (if a % 2 == 1 || b % 2 == 1 then 1 else 0) + 2 * Or(a / 2, b / 2)
  }

  /** (static_cast<int64_t>(index) << 48) | (uniqueId & SESSION_UNIQUE_MASK), on 64-bit patterns. */
  function MakeInBits(index: nat, uniqueId: Int64): nat
    requires index < TWO16
  {
    Or((index * TWO48) % TWO64, And(Unsigned(uniqueId), UNIQUE_MASK))
  }

  /** (sessionId >> 48) & 0xFFFF; the shift of a signed operand rounds down. */
  function IndexInBits(id: Int64): nat {
    And(Unsigned(id / TWO48), 0xFFFF)
  }

  /** sessionId & SESSION_UNIQUE_MASK */
  function UniqueInBits(id: Int64): nat {
    And(Unsigned(id), UNIQUE_MASK)
  }

  function Pow2(k: nat): (p: nat)
    ensures p >= 1
  {
    if k == 0 then 1 else 2 * Pow2(k - 1)
  }

  lemma {:induction false} Pow2Sum(j: nat, k: nat)
    ensures Pow2(j + k) == Pow2(j) * Pow2(k)
  {
    if j > 0 {
      Pow2Sum(j - 1, k);
      assert Pow2(j + k) == 2 * (Pow2(j - 1) * Pow2(k)) == (2 * Pow2(j - 1)) * Pow2(k);
    }
  }

  lemma Powers()
    ensures Pow2(16) == TWO16 && Pow2(48) == TWO48
  {
    assert Pow2(1) == 2 * Pow2(0);
    Pow2Sum(1, 1);
    Pow2Sum(2, 2);
    Pow2Sum(4, 4);
    Pow2Sum(8, 8);
    Pow2Sum(16, 16);
    Pow2Sum(16, 32);
  }

  lemma RemainderByHalves(a: nat, m: nat)
    requires m >= 1
    ensures a % (2 * m) == a % 2 + 2 * ((a / 2) % m)
  {
    var h := a / 2;
    var q, r := h / m, h % m;
    assert h == q * m + r;
    assert a == q * (2 * m) + (a % 2 + 2 * r);
    RemainderIsUnique(a, 2 * m, q, a % 2 + 2 * r);
  }

  /** Masking with k ones keeps the remainder modulo 2^k. */
  lemma {:induction false} MaskIsRemainder(a: nat, k: nat)
    ensures And(a, Pow2(k) - 1) == a % Pow2(k)
    decreases k
  {
    if k > 0 {
      var m := Pow2(k - 1);
      MaskIsRemainder(a / 2, k - 1);
      RemainderByHalves(a, m);
      assert (2 * m - 1) % 2 == 1 && (2 * m - 1) / 2 == m - 1;
    }
  }

  /** An or of bits that do not overlap is a sum. */
  lemma {:induction false} JoinIsSum(high: nat, low: nat, k: nat)
    requires low < Pow2(k)
    ensures Or(high * Pow2(k), low) == high * Pow2(k) + low
    decreases k
  {
    if k > 0 {
      var m := Pow2(k - 1);
      assert high * Pow2(k) == 2 * (high * m);
      JoinIsSum(high, low / 2, k - 1);
    }
  }

  lemma UnsignedRemainders(x: Int64)
    ensures Unsigned(x) % TWO48 == x % TWO48 && Unsigned(x) % TWO16 == x % TWO16
  {
    var lift := if x < 0 then 1 else 0;
    RemainderIsUnique(Unsigned(x), TWO48, x / TWO48 + lift * TWO16, x % TWO48);
    RemainderIsUnique(Unsigned(x), TWO16, x / TWO16 + lift * TWO48, x % TWO16);
  }

  /** MakeSessionId computes what its shift, mask and or compute. */
  lemma MakeIsBits(index: nat, uniqueId: Int64)
    requires index < TWO16
    ensures MakeInBits(index, uniqueId) < TWO64
    ensures MakeSessionId(index, uniqueId) == Signed(MakeInBits(index, uniqueId))
  {
    Powers();
    var low := uniqueId % TWO48;
    assert And(Unsigned(uniqueId), UNIQUE_MASK) == low by {
      UnsignedRemainders(uniqueId);
      MaskIsRemainder(Unsigned(uniqueId), 48);
    }
    RemainderIsUnique(index * TWO48, TWO64, 0, index * TWO48);
    JoinIsSum(index, low, 48);
  }

  /** The two extractors compute what their shift and masks compute. */
  lemma ExtractIsBits(id: Int64)
    ensures ExtractIndex(id) == IndexInBits(id)
    ensures ExtractUniqueId(id) == UniqueInBits(id)
  {
    UnsignedRemainders(id);
    UnsignedRemainders(id / TWO48);
    Powers();
    MaskIsRemainder(Unsigned(id), 48);
    MaskIsRemainder(Unsigned(id / TWO48), 16);
  }
}
