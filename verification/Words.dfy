/** Natural numbers and words of bits. */
module Words {
  // ---------- Numbers ----------

  /** Bit by bit, on numbers of any size. */
  function Xor(a: nat, b: nat): nat {
    if a == 0 then b
    else (if a % 2 == b % 2 then 0 else 1) + 2 * Xor(a / 2, b / 2)
  }

  /** Bit `k` of a number. */
  function BitAt(n: nat, k: nat): bool {
    if k == 0 then n % 2 == 1 else BitAt(n / 2, k - 1)
  }

  /** A bit is set exactly when it is set in one of the two. */
  lemma {:induction false} XorBits(a: nat, b: nat, k: nat)
    ensures BitAt(Xor(a, b), k) <==> BitAt(a, k) != BitAt(b, k)
  {
    if a == 0 {
      NoBits(k);
    } else {
      var rest := Xor(a / 2, b / 2);
      assert Xor(a, b) / 2 == rest && (Xor(a, b) % 2 == 1 <==> a % 2 != b % 2);
      if k > 0 {
        XorBits(a / 2, b / 2, k - 1);
      }
    }
  }

  lemma {:induction false} NoBits(k: nat)
    ensures !BitAt(0, k)
  {
    if k > 0 {
      NoBits(k - 1);
    }
  }

  function PowerOf2(k: nat): (p: nat)
    ensures p > 0
  {
    if k == 0 then 1 else 2 * PowerOf2(k - 1)
  }

  /** No bit is set that is set in neither. */
  lemma {:induction false} XorFits(a: nat, b: nat, k: nat)
    requires a < PowerOf2(k) && b < PowerOf2(k)
    ensures Xor(a, b) < PowerOf2(k)
  {
    if a != 0 {
      XorFits(a / 2, b / 2, k - 1);
    }
  }

  lemma {:induction false} PowersAdd(a: nat, b: nat)
    ensures PowerOf2(a + b) == PowerOf2(a) * PowerOf2(b)
  {
    if a > 0 {
      PowersAdd(a - 1, b);
      assert PowerOf2(a + b) == 2 * (PowerOf2(a - 1) * PowerOf2(b)) == (2 * PowerOf2(a - 1)) * PowerOf2(b);
    }
  }

  lemma Squared(k: nat, p: nat, twice: nat)
    requires PowerOf2(k) == p && twice == 2 * k
    ensures PowerOf2(twice) == p * p
  {
    PowersAdd(k, k);
  }

  lemma {:induction false} XorWithZero(a: nat)
    ensures Xor(a, 0) == a
  {
    if a > 0 {
      XorWithZero(a / 2);
    }
  }

  // ---------- Words ----------

  /** The bits of a word, the lowest first. */
  datatype Word = End | Bit(low: bool, rest: Word)

  function One(b: bool): nat {
    if b then 1 else 0
  }

  function Number(w: Word): nat {
    match w
    case End => 0
    case Bit(low, rest) => One(low) + 2 * Number(rest)
  }

  /** How many words of that many bits there are. */
  function Range(w: Word): nat {
    match w
    case End => 1
    case Bit(_, rest) => 2 * Range(rest)
  }

  /** The low bits of a number. */
  function WordOf(n: nat, width: nat): Word {
    if width == 0 then End else Bit(n % 2 == 1, WordOf(n / 2, width - 1))
  }

  function ExclusiveOr(a: Word, b: Word): Word {
    if a.End? || b.End? then End else Bit(a.low != b.low, ExclusiveOr(a.rest, b.rest))
  }

  /** At least two of three. */
  predicate Carry(p: bool, q: bool, c: bool) {
    (p && q) || (p && c) || (q && c)
  }

  /** The carry out of the highest bit is dropped. */
  function Sum(a: Word, b: Word, c: bool): Word {
    if a.End? || b.End? then End else Bit((a.low != b.low) != c, Sum(a.rest, b.rest, Carry(a.low, b.low, c)))
  }

  /** Shifted by one place; the highest bit is dropped. */
  function Up(w: Word, low: bool): Word {
    match w
    case End => End
    case Bit(next, rest) => Bit(low, Up(rest, next))
  }

  function Shifted(w: Word, places: nat): Word {
    if places == 0 then w else Up(Shifted(w, places - 1), false)
  }
}
