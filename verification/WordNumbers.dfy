/** What the operations on words do to the numbers they denote. */
module WordNumbers {
  import opened Words

  lemma {:induction false} NumberIsSmall(w: Word)
    ensures Number(w) < Range(w)
  {
    if w.Bit? {
      NumberIsSmall(w.rest);
    }
  }

  lemma {:induction false} RangeOfSum(a: Word, b: Word, c: bool)
    requires Range(a) == Range(b)
    ensures Range(Sum(a, b, c)) == Range(a)
  {
    if a.Bit? && b.Bit? {
      RangeOfSum(a.rest, b.rest, Carry(a.low, b.low, c));
    }
  }

  lemma {:induction false} RangeOfXor(a: Word, b: Word)
    requires Range(a) == Range(b)
    ensures Range(ExclusiveOr(a, b)) == Range(a)
  {
    if a.Bit? && b.Bit? {
      RangeOfXor(a.rest, b.rest);
    }
  }

  lemma {:induction false} RangeOfUp(w: Word, low: bool)
    ensures Range(Up(w, low)) == Range(w)
  {
    if w.Bit? {
      RangeOfUp(w.rest, w.low);
    }
  }

  lemma {:induction false} RangeOfShifted(w: Word, places: nat)
    ensures Range(Shifted(w, places)) == Range(w)
  {
    if places > 0 {
      RangeOfShifted(w, places - 1);
      RangeOfUp(Shifted(w, places - 1), false);
    }
  }

  lemma {:induction false} RangeOfWord(n: nat, width: nat)
    ensures Range(WordOf(n, width)) == PowerOf2(width)
  {
    if width > 0 {
      RangeOfWord(n / 2, width - 1);
    }
  }

  lemma {:induction false} NumberOfWord(n: nat, width: nat)
    requires n < PowerOf2(width)
    ensures Number(WordOf(n, width)) == n
  {
    if width > 0 {
      NumberOfWord(n / 2, width - 1);
    }
  }

  lemma {:induction false} RangeIsPositive(w: Word)
    ensures Range(w) > 0
  {
    if w.Bit? {
      RangeIsPositive(w.rest);
    }
  }

  lemma {:induction false} WordOfNumber(w: Word, width: nat)
    requires Range(w) == PowerOf2(width)
    ensures WordOf(Number(w), width) == w
  {
    if w.Bit? {
      RangeIsPositive(w.rest);
      assert width > 0;
      WordOfNumber(w.rest, width - 1);
      assert Number(w) / 2 == Number(w.rest) && (Number(w) % 2 == 1 <==> w.low);
    }
  }

  lemma XorOneMore(p: bool, x: nat, q: bool, y: nat)
    ensures Xor(One(p) + 2 * x, One(q) + 2 * y) == One(p != q) + 2 * Xor(x, y)
  {
    if p || x > 0 {
      assert (One(p) + 2 * x) / 2 == x && (One(q) + 2 * y) / 2 == y;
    }
  }

  lemma {:induction false} NumberOfXor(a: Word, b: Word)
    requires Range(a) == Range(b)
    ensures Number(ExclusiveOr(a, b)) == Xor(Number(a), Number(b))
  {
    if a.Bit? && b.Bit? {
      NumberOfXor(a.rest, b.rest);
      XorOneMore(a.low, Number(a.rest), b.low, Number(b.rest));
    } else {
      RangeIsPositive(a);
      RangeIsPositive(b);
    }
  }

  // ---------- Remainders ----------

  /** The remainder, by repeated subtraction. */
  function Rest(n: nat, m: nat): nat {
    if m == 0 || n < m then n else Rest(n - m, m)
  }

  lemma {:induction false} DoubleRest(bit: nat, n: nat, m: nat)
    requires m > 0 && bit < 2
    ensures Rest(bit + 2 * n, 2 * m) == bit + 2 * Rest(n, m)
    decreases n
  {
    if n >= m {
      DoubleRest(bit, n - m, m);
      assert bit + 2 * n - 2 * m == bit + 2 * (n - m);
    }
  }

  lemma {:induction false} SumOfRests(n: nat, k: nat, m: nat)
    requires m > 0
    ensures Rest(Rest(n, m) + k, m) == Rest(n + k, m)
    decreases n
  {
    if n >= m {
      SumOfRests(n - m, k, m);
      assert n + k - m == n - m + k;
    }
  }

  lemma TwiceTheRest(n: nat, m: nat)
    requires m > 0
    ensures Rest(2 * Rest(n, m), m) == Rest(2 * n, m)
  {
    SumOfRests(n, Rest(n, m), m);
    SumOfRests(n, n, m);
    assert Rest(n, m) + Rest(n, m) == 2 * Rest(n, m) && n + n == 2 * n;
  }

  lemma {:induction false} NumberOfSum(a: Word, b: Word, c: bool)
    requires Range(a) == Range(b)
    ensures Number(Sum(a, b, c)) == Rest(Number(a) + Number(b) + One(c), Range(a))
  {
    if a.Bit? && b.Bit? {
      var d := Carry(a.low, b.low, c);
      NumberOfSum(a.rest, b.rest, d);
      RangeIsPositive(a.rest);
      var n := Number(a.rest) + Number(b.rest) + One(d);
      DoubleRest(One((a.low != b.low) != c), n, Range(a.rest));
      assert Number(a) + Number(b) + One(c) == One((a.low != b.low) != c) + 2 * n;
    } else {
      RangeIsPositive(a);
      RangeIsPositive(b);
    }
  }

  lemma {:induction false} NumberOfUp(w: Word, low: bool)
    ensures Number(Up(w, low)) == Rest(2 * Number(w) + One(low), Range(w))
  {
    if w.Bit? {
      NumberOfUp(w.rest, w.low);
      RangeIsPositive(w.rest);
      DoubleRest(One(low), 2 * Number(w.rest) + One(w.low), Range(w.rest));
    }
  }

  function Times(n: nat, places: nat): nat {
    if places == 0 then n else 2 * Times(n, places - 1)
  }

  lemma {:induction false} TimesPower(n: nat, places: nat)
    ensures Times(n, places) == PowerOf2(places) * n
  {
    if places > 0 {
      TimesPower(n, places - 1);
      assert 2 * (PowerOf2(places - 1) * n) == 2 * PowerOf2(places - 1) * n;
    }
  }

  lemma {:induction false} NumberOfShifted(w: Word, places: nat)
    ensures Number(Shifted(w, places)) == Rest(Times(Number(w), places), Range(w))
  {
    NumberIsSmall(w);
    if places > 0 {
      NumberOfShifted(w, places - 1);
      RangeOfShifted(w, places - 1);
      NumberOfUp(Shifted(w, places - 1), false);
      TwiceTheRest(Times(Number(w), places - 1), Range(w));
    }
  }

  lemma SumWithRest(x: Word, b: Word, n: nat, m: nat)
    requires Range(x) == Range(b) == m && Number(x) == Rest(n, m)
    ensures Number(Sum(x, b, false)) == Rest(n + Number(b), m)
  {
    RangeIsPositive(x);
    NumberOfSum(x, b, false);
    SumOfRests(n, Number(b), m);
  }

  lemma ShiftedSum(a: Word, b: Word, places: nat)
    requires Range(a) == Range(b)
    ensures Number(Sum(Shifted(a, places), b, false)) == Rest(Times(Number(a), places) + Number(b), Range(a))
    ensures Range(Sum(Shifted(a, places), b, false)) == Range(a)
  {
    NumberOfShifted(a, places);
    RangeOfShifted(a, places);
    RangeOfSum(Shifted(a, places), b, false);
    SumWithRest(Shifted(a, places), b, Times(Number(a), places), Range(a));
  }
}
