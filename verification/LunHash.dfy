/** The hash that turns the id of a storage object into a LUN: two running values of 64 bits. */
module LunHash {
  import opened Words
  import opened WordNumbers

  const TWO_TO_THE_64: nat := 0x1_0000_0000_0000_0000

  type Lun = x: int | 0 <= x < TWO_TO_THE_64

  type ObjectId = string

  // ---------- Reserved ids ----------

  /** Byte 1 of the id is 0xc1. */
  predicate IsWLun(lun: Lun) {
    lun / 0x100 % 0x100 == 0xc1
  }

  /** The mask test on the 64 bits of an id is the test on its byte 1. */
  lemma WLunMask(lun: bv64)
    ensures lun & 0xff00 == 0xc100 <==> lun / 0x100 % 0x100 == 0xc1
  {
    assert lun / 0x100 == lun >> 8;
    assert (lun >> 8) % 0x100 == (lun >> 8) & 0xff;
  }

  function LowBits(n: nat, j: nat): nat {
    if j == 0 then 0 else n % 2 + 2 * LowBits(n / 2, j - 1)
  }

  predicate SameBits(n: nat, v: nat, j: nat) {
    forall k | 0 <= k < j :: BitAt(n, k) == BitAt(v, k)
  }

  lemma SameBitsOneMore(n: nat, v: nat, j: nat)
    requires j > 0
    ensures SameBits(n, v, j) <==> n % 2 == v % 2 && SameBits(n / 2, v / 2, j - 1)
  {
    if SameBits(n, v, j) {
      assert BitAt(n, 0) == BitAt(v, 0);
      forall k | 0 <= k < j - 1 ensures BitAt(n / 2, k) == BitAt(v / 2, k) {
        assert BitAt(n, k + 1) == BitAt(v, k + 1);
      }
    } else {
      var k :| 0 <= k < j && BitAt(n, k) != BitAt(v, k);
      assert k > 0 ==> BitAt(n / 2, k - 1) != BitAt(v / 2, k - 1);
    }
  }

  lemma {:induction false} BitsDecide(n: nat, v: nat, j: nat)
    ensures LowBits(n, j) == LowBits(v, j) <==> SameBits(n, v, j)
  {
    if j > 0 {
      BitsDecide(n / 2, v / 2, j - 1);
      SameBitsOneMore(n, v, j);
    }
  }

  lemma FourLowBits(n: nat, j: nat)
    requires j >= 4
    ensures LowBits(n, j) == n % 16 + 16 * LowBits(n / 16, j - 4)
  {
    assert n / 2 / 2 == n / 4 && n / 4 / 2 == n / 8 && n / 8 / 2 == n / 16;
    assert LowBits(n / 4, j - 2) == n / 4 % 2 + 2 * (n / 8 % 2) + 4 * LowBits(n / 16, j - 4);
    assert n % 16 == n % 2 + 2 * (n / 2 % 2) + 4 * (n / 4 % 2) + 8 * (n / 8 % 2);
  }

  lemma FourHigher(n: nat, k: nat)
    ensures BitAt(n, k + 4) == BitAt(n / 16, k)
  {
    assert n / 2 / 2 == n / 4 && n / 4 / 2 == n / 8 && n / 8 / 2 == n / 16;
    assert BitAt(n / 8, k + 1) == BitAt(n / 16, k);
    assert BitAt(n / 4, k + 2) == BitAt(n / 8, k + 1);
    assert BitAt(n / 2, k + 3) == BitAt(n / 4, k + 2);
  }

  lemma EightHigher(n: nat, k: nat)
    requires k >= 8
    ensures BitAt(n, k) == BitAt(n / 0x100, k - 8)
  {
    FourHigher(n, k - 4);
    FourHigher(n / 16, k - 8);
    assert n / 16 / 16 == n / 0x100;
  }

  lemma ByteOf(n: nat, j: nat)
    requires j == 8
    ensures LowBits(n, j) == n % 0x100
  {
    FourLowBits(n, j);
    FourLowBits(n / 16, j - 4);
    assert LowBits(n / 16 / 16, j - 8) == 0;
    assert n % 0x100 == n % 16 + 16 * (n / 16 % 16);
  }

  predicate SameByte1(n: nat, v: nat) {
    forall k | 8 <= k < 16 :: BitAt(n, k) == BitAt(v, k)
  }

  lemma BitsOfByte1(n: nat, v: nat)
    ensures SameByte1(n, v) <==> SameBits(n / 0x100, v / 0x100, 8)
  {
    if SameByte1(n, v) {
      forall k | 0 <= k < 8 ensures BitAt(n / 0x100, k) == BitAt(v / 0x100, k) {
        EightHigher(n, k + 8);
        EightHigher(v, k + 8);
      }
    } else {
      var k :| 8 <= k < 16 && BitAt(n, k) != BitAt(v, k);
      EightHigher(n, k);
      EightHigher(v, k);
      assert BitAt(n / 0x100, k - 8) != BitAt(v / 0x100, k - 8);
    }
  }

  lemma Byte1(n: nat, v: nat, j: nat)
    requires j == 8
    ensures n % 0x100 == v % 0x100 <==> SameBits(n, v, j)
  {
    ByteOf(n, j);
    ByteOf(v, j);
    BitsDecide(n, v, j);
  }

  /** The id agrees with 0xc100 on the bits of the mask 0xff00. */
  lemma WLunBits(lun: Lun, value: nat)
    requires value == 0xc100
    ensures IsWLun(lun) <==> SameByte1(lun, value)
  {
    BitsOfByte1(lun, value);
    Byte1(lun / 0x100, value / 0x100, 8);
  }

  predicate Reserved(lun: Lun) {
    lun == TWO_TO_THE_64 - 1 || IsWLun(lun)
  }

  // ---------- The hash ----------

  lemma Power64(k: nat)
    requires k == 64
    ensures PowerOf2(k) == TWO_TO_THE_64
  {
    var four, eight, sixteen, half := 4, 8, 16, 32;
    Squared(2, 4, four);
    Squared(four, 16, eight);
    Squared(eight, 256, sixteen);
    Squared(sixteen, 65536, half);
    Squared(half, 4294967296, k);
  }

  lemma {:induction false} LowBitsAll(n: nat, j: nat)
    requires n < PowerOf2(j)
    ensures LowBits(n, j) == n
  {
    if j > 0 {
      LowBitsAll(n / 2, j - 1);
    }
  }

  lemma {:induction false} AllOnes(j: nat, k: nat)
    requires k < j
    ensures BitAt(PowerOf2(j) - 1, k)
  {
    assert PowerOf2(j) - 1 == 2 * (PowerOf2(j - 1) - 1) + 1;
    if k > 0 {
      AllOnes(j - 1, k - 1);
    }
  }

  predicate AllSet(n: nat, width: nat) {
    forall k | 0 <= k < width :: BitAt(n, k)
  }

  lemma LastOfWidth(n: nat, width: nat)
    requires n < PowerOf2(width)
    ensures n == PowerOf2(width) - 1 <==> AllSet(n, width)
  {
    var last := PowerOf2(width) - 1;
    LowBitsAll(n, width);
    LowBitsAll(last, width);
    BitsDecide(n, last, width);
    assert AllSet(last, width) by {
      forall k | 0 <= k < width ensures BitAt(last, k) {
        AllOnes(width, k);
      }
    }
    SetTogether(n, last, width);
  }

  lemma SetTogether(n: nat, v: nat, width: nat)
    requires AllSet(v, width)
    ensures SameBits(n, v, width) <==> AllSet(n, width)
  {
    if SameBits(n, v, width) {
      forall k | 0 <= k < width ensures BitAt(n, k) {
        assert BitAt(n, k) == BitAt(v, k);
      }
    }
  }

  /** The reserved ids: those with all 64 bits set, and those that agree with 0xc100 on byte 1. */
  lemma ReservedBits(lun: Lun, width: nat, value: nat)
    requires width == 64 && value == 0xc100
    ensures Reserved(lun) <==> AllSet(lun, width) || SameByte1(lun, value)
  {
    Power64(width);
    WLunBits(lun, value);
    LastOfWidth(lun, width);
  }

  lemma XorFits64(a: Lun, b: Lun)
    ensures Xor(a, b) < TWO_TO_THE_64
  {
    var k := 64;
    Power64(k);
    XorFits(a, b, k);
  }

  /** `BigInt.asUintN(64, x)` */
  function AsUint64(x: nat): Lun {
    x % TWO_TO_THE_64
  }

  function Mix(hash: Lun, c: char): Lun {
    XorFits64(AsUint64(hash * 33), c as int);
    Xor(AsUint64(hash * 33), c as int)
  }

  /** Both running hashes after the characters of `s`, last one first. */
  function Mixed(s: string): (Lun, Lun) {
    if s == "" then (5381, 52711)
    else
      var (h1, h2) := Mixed(s[1..]);
      (Mix(h1, s[0]), Mix(h2, s[0]))
  }

  function HashOf(s: string): Lun {
    var (h1, h2) := Mixed(s);
    AsUint64(h1 * 4096 + h2)
  }

  lemma MixedOneMore(s: string, i: nat)
    requires i < |s|
    ensures Mixed(s[i..]) == (Mix(Mixed(s[i + 1..]).0, s[i]), Mix(Mixed(s[i + 1..]).1, s[i]))
  {
    assert s[i..][1..] == s[i + 1..];
  }

  // ---------- The same on words of 64 bits ----------

  /** Shifted by five places and added, and then the character. */
  function Stirred(w: Word, c: char): Word {
    ExclusiveOr(Sum(Shifted(w, 5), w, false), WordOf(c as int, 64))
  }

  /** A running value after the characters of `s`, the last one first. */
  function Running(seed: nat, s: string): Word {
    if s == "" then WordOf(seed, 64) else Stirred(Running(seed, s[1..]), s[0])
  }

  function WordHash(s: string): Word {
    Sum(Shifted(Running(5381, s), 12), Running(52711, s), false)
  }

  lemma {:induction false} RestIsRemainder(n: nat, m: nat)
    requires m == TWO_TO_THE_64
    ensures Rest(n, m) == AsUint64(n)
    decreases n
  {
    if n >= m {
      RestIsRemainder(n - m, m);
    }
  }

  lemma Word64(n: Lun, width: nat)
    requires width == 64
    ensures Number(WordOf(n, width)) == n && Range(WordOf(n, width)) == TWO_TO_THE_64
  {
    Power64(width);
    NumberOfWord(n, width);
    RangeOfWord(n, width);
  }

  lemma Times32(n: nat, places: nat)
    requires places == 5
    ensures Times(n, places) == 32 * n
  {
    TimesPower(n, places);
    assert PowerOf2(2) == 4;
    assert PowerOf2(4) == 16;
  }

  lemma Times4096(n: nat, places: nat)
    requires places == 12
    ensures Times(n, places) == 4096 * n
  {
    TimesPower(n, places);
    var six := 6;
    assert PowerOf2(six) == 64;
    Squared(six, 64, places);
  }

  lemma Multiplied(w: Word, places: nat)
    requires Range(w) == TWO_TO_THE_64 && places == 5
    ensures Number(Sum(Shifted(w, places), w, false)) == AsUint64(Number(w) * 33)
    ensures Range(Sum(Shifted(w, places), w, false)) == TWO_TO_THE_64
  {
    ShiftedSum(w, w, places);
    Times32(Number(w), places);
    RestIsRemainder(Times(Number(w), places) + Number(w), Range(w));
  }

  lemma Combined(a: Word, b: Word, places: nat)
    requires Range(a) == Range(b) == TWO_TO_THE_64 && places == 12
    ensures Number(Sum(Shifted(a, places), b, false)) == AsUint64(Number(a) * 4096 + Number(b))
    ensures Range(Sum(Shifted(a, places), b, false)) == TWO_TO_THE_64
  {
    ShiftedSum(a, b, places);
    Times4096(Number(a), places);
    RestIsRemainder(Times(Number(a), places) + Number(b), Range(a));
  }

  lemma NumberOfStirred(w: Word, c: char)
    requires Range(w) == TWO_TO_THE_64
    ensures Number(w) < TWO_TO_THE_64 && Number(Stirred(w, c)) == Mix(Number(w), c)
    ensures Range(Stirred(w, c)) == TWO_TO_THE_64
  {
    var sum, code := Sum(Shifted(w, 5), w, false), WordOf(c as int, 64);
    NumberIsSmall(w);
    Multiplied(w, 5);
    Word64(c as int, 64);
    NumberOfXor(sum, code);
    RangeOfXor(sum, code);
  }

  lemma {:induction false} NumberOfRunning(seed: Lun, s: string)
    ensures Range(Running(seed, s)) == TWO_TO_THE_64
    ensures seed == 5381 ==> Number(Running(seed, s)) == Mixed(s).0
    ensures seed == 52711 ==> Number(Running(seed, s)) == Mixed(s).1
  {
    if s == "" {
      Word64(seed, 64);
    } else {
      NumberOfRunning(seed, s[1..]);
      NumberOfStirred(Running(seed, s[1..]), s[0]);
    }
  }

  /** The arithmetic of the hash, with its products and remainders, is that of shifts and sums of words. */
  lemma HashIsWordHash(s: string)
    ensures Number(WordHash(s)) == HashOf(s) && WordHash(s) == WordOf(HashOf(s), 64)
  {
    NumberOfRunning(5381, s);
    NumberOfRunning(52711, s);
    Combined(Running(5381, s), Running(52711, s), 12);
    HashIsWord(s, 64);
  }

  lemma HashIsWord(s: string, width: nat)
    requires width == 64 && Range(WordHash(s)) == TWO_TO_THE_64
    ensures WordOf(Number(WordHash(s)), width) == WordHash(s)
  {
    Power64(width);
    WordOfNumber(WordHash(s), width);
  }

  method TcmuIdToLun(s: string) returns (lun: Lun)
    ensures lun == HashOf(s)
    ensures WordOf(lun, 64) == WordHash(s) && lun == Number(WordHash(s))
  {
    var i := |s|;
    var hash1: Lun, hash2: Lun := 5381, 52711;
    while i > 0
      invariant 0 <= i <= |s|
      invariant (hash1, hash2) == Mixed(s[i..])
    {
      i := i - 1;
      MixedOneMore(s, i);
      hash1 := Mix(hash1, s[i]);
      hash2 := Mix(hash2, s[i]);
    }
    assert s[0..] == s;
    lun := AsUint64(hash1 * 4096 + hash2);
    HashIsWordHash(s);
  }

  /** LUN ids are hashed in decimal. */
  function Decimal(n: nat): string {
    if n < 10 then [('0' as int + n) as char] else Decimal(n / 10) + [('0' as int + n % 10) as char]
  }

  function NextLun(lun: Lun): Lun {
    HashOf(Decimal(lun))
  }

  lemma XorWith3(n: nat)
    requires n >= 4
    ensures Xor(n, 3) == n + (if n % 2 == 0 then 1 else -1) + (if n / 2 % 2 == 0 then 2 else -2)
  {
    XorWithZero(n / 2 / 2);
    assert Xor(n / 2, 1) == (if n / 2 % 2 == 0 then 1 else 0) + 2 * (n / 2 / 2);
  }

  lemma XorWith12(n: nat)
    requires n >= 16
    ensures Xor(n, 12) == n + (if n / 4 % 2 == 0 then 4 else -4) + (if n / 8 % 2 == 0 then 8 else -8)
  {
    XorWith3(n / 4);
    assert n / 4 == n / 2 / 2 && n / 8 == n / 4 / 2;
    assert Xor(n / 2, 6) == n / 2 % 2 + 2 * Xor(n / 4, 3);
    assert Xor(n, 12) == n % 2 + 2 * Xor(n / 2, 6);
  }

  /** The exclusive or with 48, the code of the digit 0, changes two bits. */
  lemma XorWith48(n: nat)
    requires n >= 64
    ensures Xor(n, 48) == n + (if n / 16 % 2 == 0 then 16 else -16) + (if n / 32 % 2 == 0 then 32 else -32)
  {
    XorWith12(n / 4);
    assert n / 4 == n / 2 / 2 && n / 16 == n / 4 / 4 && n / 32 == n / 4 / 8;
    assert Xor(n / 2, 24) == n / 2 % 2 + 2 * Xor(n / 4, 12);
    assert Xor(n, 48) == n % 2 + 2 * Xor(n / 2, 24);
  }

  lemma MixIsXor(hash: Lun, product: nat, c: char)
    requires product == hash * 33 && product < TWO_TO_THE_64
    ensures Mix(hash, c) == Xor(product, c as int)
  {
    assert AsUint64(product) == product;
  }

  lemma MixWithZero(hash: Lun, product: nat)
    requires product == hash * 33 && 64 <= product < TWO_TO_THE_64
    ensures Mix(hash, '0') == product + (if product / 16 % 2 == 0 then 16 else -16) + (if product / 32 % 2 == 0 then 32 else -32)
  {
    MixIsXor(hash, product, '0');
    XorWith48(product);
  }

  lemma MixedZero()
    ensures Mixed("0") == (177557, 1739511)
  {
    MixWithZero(5381, 177573);
    MixWithZero(52711, 1739463);
    assert "0"[1..] == "" && "0"[0] == '0';
  }

  /** Two values of the hash. */
  lemma SampleHashes()
    ensures HashOf("") == 22093287 && HashOf("0") == 729012983
  {
    MixedZero();
  }

  function ReadDecimal(s: string): int {
    if s == "" then 0 else 10 * ReadDecimal(s[..|s| - 1]) + (s[|s| - 1] as int - '0' as int)
  }

  /** The decimal form reads back as the number, in digits and without leading zeros. */
  lemma {:induction false} DecimalReadsBack(n: nat)
    ensures ReadDecimal(Decimal(n)) == n
    ensures forall i | 0 <= i < |Decimal(n)| :: '0' <= Decimal(n)[i] <= '9'
    ensures |Decimal(n)| > 0 && (Decimal(n)[0] == '0' ==> n == 0)
  {
    if n >= 10 {
      DecimalReadsBack(n / 10);
    }
  }
}
