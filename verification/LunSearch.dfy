/** The search for a LUN in `expose`: the hash of an id is iterated until a free LUN
    turns up, with a tortoise and a hare watching for a cycle. */
module LunSearch {
  import opened Wrappers
  import opened Words
  import opened LunHash

  // ---------- The orbit of a start under any hash ----------

  function Orbit(h: Lun -> Lun, x: Lun, n: nat): Lun {
    if n == 0 then x else h(Orbit(h, x, n - 1))
  }

  /** `n` ids in a row, all different. */
  ghost predicate AllDifferent(h: Lun -> Lun, x: Lun, n: nat) {
    forall i, j | 0 <= i < j < n :: Orbit(h, x, i) != Orbit(h, x, j)
  }

  /** Where tortoise and hare meet: the tortoise has made `m` steps, the hare 2m+1. */
  ghost predicate Meet(h: Lun -> Lun, x: Lun, m: nat) {
    m > 0 && Orbit(h, x, m) == Orbit(h, x, 2 * m + 1)
  }

  /** The orbit is a tail of `tail` ids that leads into a cycle of `cycle` ids. */
  ghost predicate Rho(h: Lun -> Lun, x: Lun, tail: nat, cycle: nat) {
    && cycle > 0
    && Orbit(h, x, tail) == Orbit(h, x, tail + cycle)
    && AllDifferent(h, x, tail + cycle)
  }

  lemma {:induction false} SameFromThere(h: Lun -> Lun, x: Lun, i: nat, j: nat, k: nat)
    requires Orbit(h, x, i) == Orbit(h, x, j)
    ensures Orbit(h, x, i + k) == Orbit(h, x, j + k)
  {
    if k > 0 {
      SameFromThere(h, x, i, j, k - 1);
    }
  }

  lemma {:induction false} Periodic(h: Lun -> Lun, x: Lun, i: nat, p: nat, n: nat, c: nat)
    requires Orbit(h, x, i) == Orbit(h, x, i + p) && i <= n
    ensures n + c * p >= 0 && Orbit(h, x, n) == Orbit(h, x, n + c * p)
  {
    if c > 0 {
      Periodic(h, x, i, p, n, c - 1);
      var m: nat := n + (c - 1) * p;
      assert m + p == n + c * p;
      SameFromThere(h, x, i, i + p, m - i);
    }
  }

  /** A repetition makes tortoise and hare meet, no later than one step before its second occurrence. */
  lemma RepetitionMeets(h: Lun -> Lun, x: Lun, i: nat, j: nat) returns (m: nat)
    requires i < j && Orbit(h, x, i) == Orbit(h, x, j)
    ensures Meet(h, x, m) && i <= m && (m < j || (j == 1 && m == 1))
  {
    var p := j - i;
    var c := i / p + 1;
    m := c * p - 1;
    assert i <= m < i + p by {
      assert i == p * (i / p) + i % p;
      assert c * p == p * (i / p) + p;
    }
    if m == 0 {
      assert i == 0 && p == 1;
      Periodic(h, x, 0, 1, 1, 2);
      m := 1;
    } else {
      Periodic(h, x, i, p, m, c);
    }
  }

  /** The first meeting of tortoise and hare. */
  ghost predicate FirstMeet(h: Lun -> Lun, x: Lun, m: nat) {
    Meet(h, x, m) && forall k | 0 < k < m :: !Meet(h, x, k)
  }

  /** How many ids are tried when tortoise and hare meet first after `m` steps: the meeting
      point too, unless it was the id tried just before. */
  function Tries(h: Lun -> Lun, x: Lun, m: nat): nat
    requires m > 0
  {
    if Orbit(h, x, m - 1) == Orbit(h, x, m) then m else m + 1
  }

  // ---------- The search ----------

  datatype Outcome =
    | Linked(lun: Lun)
    | CycleDetected

  /** `visited` lists the ids considered, in order; attempt `k` finds the owners `owners(k)`, whatever
      other processes did meanwhile. A LUN is claimed when it is free or already ours. */
  predicate Claims(owners: map<Lun, ObjectId>, lun: Lun, me: ObjectId) {
    !Reserved(lun) && (lun in owners ==> owners[lun] == me)
  }

  /** The first ids of an orbit. */
  function Prefix(h: Lun -> Lun, x: Lun, n: nat): seq<Lun> {
    seq(n, i requires 0 <= i < n => Orbit(h, x, i))
  }

  /** At most `n` different numbers lie below `n`. */
  lemma {:induction false} Pigeonhole(s: seq<Lun>, n: nat)
    requires forall i | 0 <= i < |s| :: s[i] < n
    requires forall i, j | 0 <= i < j < |s| :: s[i] != s[j]
    ensures |s| <= n
    decreases n
  {
    var first := if |s| > 0 then s[0] else 0;
    if n == 0 {
      assert first < 0 || |s| == 0;
    } else if exists k :: 0 <= k < |s| && s[k] == n - 1 {
      var k :| 0 <= k < |s| && s[k] == n - 1;
      Pigeonhole(s[..k] + s[k + 1..], n - 1);
    } else {
      Pigeonhole(s, n - 1);
    }
  }

  lemma OrbitIsFinite(h: Lun -> Lun, x: Lun, n: nat)
    requires AllDifferent(h, x, n)
    ensures n <= TWO_TO_THE_64
  {
    Pigeonhole(Prefix(h, x, n), TWO_TO_THE_64);
  }

  /** While tortoise and hare have not met, no id came up twice. */
  lemma NoMeetNoRepetition(h: Lun -> Lun, x: Lun, k: nat)
    requires k > 0
    requires forall m | 0 < m < k :: !Meet(h, x, m)
    requires Meet(h, x, k) ==> Orbit(h, x, k - 1) != Orbit(h, x, k)
    ensures AllDifferent(h, x, k + 1)
  {
    forall i, j | 0 <= i < j < k + 1 ensures Orbit(h, x, i) != Orbit(h, x, j) {
      if Orbit(h, x, i) == Orbit(h, x, j) {
        var m := RepetitionMeets(h, x, i, j);
      }
    }
  }

  /** The variables of the search after `k` attempts that found no LUN. */
  ghost predicate Cursor(h: Lun -> Lun, x: Lun, k: nat, lunId: Lun, hare: Option<Lun>, loopDetected: bool, lastChance: bool) {
    && lunId == Orbit(h, x, k)
    && hare == (if k == 0 then None else Some(Orbit(h, x, 2 * k + 1)))
    && (!loopDetected ==> !lastChance && forall m | 0 < m <= k :: !Meet(h, x, m))
    && (loopDetected && lastChance ==> FirstMeet(h, x, k) && Orbit(h, x, k - 1) != Orbit(h, x, k))
    && (loopDetected && !lastChance ==> exists m :: FirstMeet(h, x, m) && k == Tries(h, x, m))
  }

  lemma CursorIsFresh(h: Lun -> Lun, x: Lun, k: nat, lunId: Lun, hare: Option<Lun>, loopDetected: bool, lastChance: bool)
    requires Cursor(h, x, k, lunId, hare, loopDetected, lastChance) && (loopDetected ==> lastChance)
    ensures k < TWO_TO_THE_64 && AllDifferent(h, x, k + 1)
    ensures Prefix(h, x, k + 1) == Prefix(h, x, k) + [lunId]
    ensures forall m | FirstMeet(h, x, m) :: k + 1 <= Tries(h, x, m)
  {
    if k > 0 {
      NoMeetNoRepetition(h, x, k);
    }
    OrbitIsFinite(h, x, k + 1);
  }

  lemma CursorAdvances(h: Lun -> Lun, x: Lun, k: nat, lunId: Lun, hare: Option<Lun>, loopDetected: bool, lastChance: bool)
    requires Cursor(h, x, k, lunId, hare, loopDetected, lastChance) && (loopDetected ==> lastChance)
    ensures var hare' := h(h(if hare == None then h(lunId) else hare.value));
            var lunId' := h(lunId);
            var met := !loopDetected && lunId' == hare';
            Cursor(h, x, k + 1, lunId', Some(hare'), loopDetected || met, met && lunId != lunId')
  {
    assert Orbit(h, x, 2 * k + 3) == h(h(Orbit(h, x, 2 * k + 1)));
    assert 2 * (k + 1) + 1 == 2 * k + 3;
    if loopDetected {
      assert FirstMeet(h, x, k) && k + 1 == Tries(h, x, k);
    } else if h(lunId) == Orbit(h, x, 2 * k + 3) {
      assert FirstMeet(h, x, k + 1);
      if lunId == h(lunId) {
        assert k + 1 == Tries(h, x, k + 1);
      }
    }
  }

  /** The first `n` attempts find no LUN to claim. */
  ghost predicate AllLost(h: Lun -> Lun, x: Lun, owners: nat -> map<Lun, ObjectId>, n: nat, me: ObjectId) {
    forall i | 0 <= i < n :: !Claims(owners(i), Orbit(h, x, i), me)
  }

  /** What the search comes to: it walks the orbit and claims the first LUN it can, but gives up, and
      gives up only, when all attempts up to the first meeting of tortoise and hare are lost. */
  ghost predicate Searched(h: Lun -> Lun, x: Lun, me: ObjectId, owners: nat -> map<Lun, ObjectId>, outcome: Outcome, visited: seq<Lun>) {
    && |visited| > 0 && visited == Prefix(h, x, |visited|) && AllDifferent(h, x, |visited|)
    && (outcome.Linked? ==>
          && AllLost(h, x, owners, |visited| - 1, me)
          && outcome.lun == visited[|visited| - 1] && Claims(owners(|visited| - 1), outcome.lun, me)
          && forall m | FirstMeet(h, x, m) :: |visited| <= Tries(h, x, m))
    && (outcome.CycleDetected? ==>
          AllLost(h, x, owners, |visited|, me) && exists m :: FirstMeet(h, x, m) && |visited| == Tries(h, x, m))
  }

  lemma OneFirstMeet(h: Lun -> Lun, x: Lun, m: nat, n: nat)
    requires FirstMeet(h, x, m) && FirstMeet(h, x, n)
    ensures m == n
  {
    assert m < n ==> !Meet(h, x, m);
    assert n < m ==> !Meet(h, x, n);
  }

  /** The cycle error is raised exactly when the first `Tries` attempts are all lost. */
  lemma GivesUpExactlyWhen(h: Lun -> Lun, x: Lun, me: ObjectId, owners: nat -> map<Lun, ObjectId>, outcome: Outcome,
                           visited: seq<Lun>, m: nat)
    requires Searched(h, x, me, owners, outcome, visited) && FirstMeet(h, x, m)
    ensures outcome.CycleDetected? <==> AllLost(h, x, owners, Tries(h, x, m), me)
    ensures outcome.CycleDetected? ==> visited == Prefix(h, x, Tries(h, x, m))
  {
    if outcome.CycleDetected? {
      var n :| FirstMeet(h, x, n) && |visited| == Tries(h, x, n);
      OneFirstMeet(h, x, m, n);
    } else {
      assert visited[|visited| - 1] == Orbit(h, x, |visited| - 1);
    }
  }

  /** All attempts so far were lost. */
  ghost predicate Walked(h: Lun -> Lun, x: Lun, me: ObjectId, owners: nat -> map<Lun, ObjectId>, visited: seq<Lun>) {
    && visited == Prefix(h, x, |visited|) && AllDifferent(h, x, |visited|)
    && AllLost(h, x, owners, |visited|, me)
  }

  lemma WalkedOn(h: Lun -> Lun, x: Lun, me: ObjectId, owners: nat -> map<Lun, ObjectId>, visited: seq<Lun>, lunId: Lun)
    requires Walked(h, x, me, owners, visited) && lunId == Orbit(h, x, |visited|)
    requires AllDifferent(h, x, |visited| + 1) && Prefix(h, x, |visited| + 1) == Prefix(h, x, |visited|) + [lunId]
    requires forall m | FirstMeet(h, x, m) :: |visited| + 1 <= Tries(h, x, m)
    ensures if Claims(owners(|visited|), lunId, me) then Searched(h, x, me, owners, Linked(lunId), visited + [lunId])
            else Walked(h, x, me, owners, visited + [lunId])
  {
  }

  /** What one more attempt comes to. */
  lemma OneAttempt(h: Lun -> Lun, x: Lun, me: ObjectId, owners: nat -> map<Lun, ObjectId>, visited: seq<Lun>,
                   lunId: Lun, hare: Option<Lun>, loopDetected: bool, lastChance: bool)
    requires Walked(h, x, me, owners, visited)
    requires Cursor(h, x, |visited|, lunId, hare, loopDetected, lastChance) && (loopDetected ==> lastChance)
    ensures |visited| < TWO_TO_THE_64
    ensures if Claims(owners(|visited|), lunId, me) then Searched(h, x, me, owners, Linked(lunId), visited + [lunId])
            else Walked(h, x, me, owners, visited + [lunId])
  {
    CursorIsFresh(h, x, |visited|, lunId, hare, loopDetected, lastChance);
    WalkedOn(h, x, me, owners, visited, lunId);
  }

  lemma GivenUp(h: Lun -> Lun, x: Lun, me: ObjectId, owners: nat -> map<Lun, ObjectId>, visited: seq<Lun>, lunId: Lun, hare: Option<Lun>)
    requires Walked(h, x, me, owners, visited) && Cursor(h, x, |visited|, lunId, hare, true, false)
    ensures Searched(h, x, me, owners, CycleDetected, visited)
  {
  }

  /** One attempt; reserved LUNs are passed over. */
  method TryLun(owner: map<Lun, ObjectId>, lun: Lun, me: ObjectId) returns (done: bool)
    ensures done == Claims(owner, lun, me)
  {
    done := false;
    if !Reserved(lun) {
      done := Claims(owner, lun, me);
    }
  }

  /** The search of `expose`. The loop that retries an attempt while the LUN vanishes
      under it is part of the attempt. */
  method FindLun(h: Lun -> Lun, start: Lun, me: ObjectId, owners: nat -> map<Lun, ObjectId>)
    returns (outcome: Outcome, visited: seq<Lun>)
    ensures Searched(h, start, me, owners, outcome, visited)
  {
    var lunId := start;
    var lastChance, loopDetected := false, false;
    var hare: Option<Lun> := None;
    visited := [];
    while true
      invariant Walked(h, start, me, owners, visited)
      invariant Cursor(h, start, |visited|, lunId, hare, loopDetected, lastChance)
      decreases TWO_TO_THE_64 - |visited|
    {
      if loopDetected && !lastChance {
        GivenUp(h, start, me, owners, visited, lunId, hare);
        return CycleDetected, visited;
      }
      OneAttempt(h, start, me, owners, visited, lunId, hare, loopDetected, lastChance);
      CursorAdvances(h, start, |visited|, lunId, hare, loopDetected, lastChance);
      var done := TryLun(owners(|visited|), lunId, me);
      visited := visited + [lunId];
      if done {
        return Linked(lunId), visited;
      }
      lunId, hare, loopDetected, lastChance := Advance(h, lunId, hare, loopDetected);
    }
  }

  lemma NextIsHashed(start: Lun, i: nat)
    requires i > 0
    ensures WordOf(Orbit(NextLun, start, i), 64) == WordHash(Decimal(Orbit(NextLun, start, i - 1)))
  {
    HashIsWordHash(Decimal(Orbit(NextLun, start, i - 1)));
  }

  /** The search for an object: the hash of its id, computed on words, and then hashes of hashes in decimal. */
  method FindLunFor(id: ObjectId, owners: nat -> map<Lun, ObjectId>) returns (outcome: Outcome, visited: seq<Lun>)
    ensures Searched(NextLun, HashOf(id), id, owners, outcome, visited)
    ensures WordOf(visited[0], 64) == WordHash(id)
    ensures forall i | 0 < i < |visited| :: WordOf(visited[i], 64) == WordHash(Decimal(visited[i - 1]))
  {
    var start := TcmuIdToLun(id);
    outcome, visited := FindLun(NextLun, start, id, owners);
    assert visited[0] == start by {
      assert visited[0] == Orbit(NextLun, start, 0);
    }
    forall i | 0 < i < |visited| ensures WordOf(visited[i], 64) == WordHash(Decimal(visited[i - 1])) {
      assert visited[i] == Orbit(NextLun, start, i) && visited[i - 1] == Orbit(NextLun, start, i - 1);
      NextIsHashed(start, i);
    }
  }

  /** Tortoise and hare move on. */
  method Advance(h: Lun -> Lun, prevLunId: Lun, hare: Option<Lun>, loopDetected: bool)
    returns (lunId: Lun, hare': Option<Lun>, loopDetected': bool, lastChance: bool)
    ensures lunId == h(prevLunId) && hare' == Some(h(h(if hare == None then h(prevLunId) else hare.value)))
    ensures var met := !loopDetected && Some(lunId) == hare';
            loopDetected' == (loopDetected || met) && lastChance == (met && prevLunId != lunId)
  {
    hare' := if hare == None then Some(h(prevLunId)) else hare;
    lunId := h(prevLunId);
    hare' := Some(h(h(hare'.value)));
    loopDetected', lastChance := loopDetected, false;
    if !loopDetected && lunId == hare'.value && prevLunId != lunId {
      loopDetected' := true;
      lastChance := true;
    } else if !loopDetected && lunId == hare'.value {
      loopDetected' := true;
      lastChance := false;
    }
  }

  // ---------- How much of the orbit is tried before giving up ----------

  /** Every orbit is a tail leading into a cycle. */
  lemma {:induction false} RhoExists(h: Lun -> Lun, x: Lun, n: nat) returns (tail: nat, cycle: nat)
    requires AllDifferent(h, x, n)
    ensures Rho(h, x, tail, cycle)
    decreases TWO_TO_THE_64 - n
  {
    OrbitIsFinite(h, x, n);
    if exists i :: 0 <= i < n && Orbit(h, x, i) == Orbit(h, x, n) {
      tail :| 0 <= tail < n && Orbit(h, x, tail) == Orbit(h, x, n);
      cycle := n - tail;
    } else {
      assert AllDifferent(h, x, n + 1);
      OrbitIsFinite(h, x, n + 1);
      tail, cycle := RhoExists(h, x, n + 1);
    }
  }

  /** The first place where the `n`-th id occurs. */
  function Home(tail: nat, cycle: nat, n: nat): (r: nat)
    requires cycle > 0
    ensures r < tail + cycle
  {
    if n < tail then n else tail + (n - tail) % cycle
  }

  lemma QuotientAndRest(a: nat, c: nat)
    requires c > 0
    ensures (a / c) * c + a % c == a && a / c >= 0
  {
  }

  lemma HomeIsTheSame(h: Lun -> Lun, x: Lun, tail: nat, cycle: nat, n: nat)
    requires Rho(h, x, tail, cycle)
    ensures Orbit(h, x, n) == Orbit(h, x, Home(tail, cycle, n))
  {
    if n >= tail {
      var c := (n - tail) / cycle;
      QuotientAndRest(n - tail, cycle);
      Periodic(h, x, tail, cycle, tail + (n - tail) % cycle, c);
    }
  }

  lemma HomesOf(tail: nat, cycle: nat, m: nat)
    requires cycle > 0
    ensures Home(tail, cycle, m) == Home(tail, cycle, 2 * m + 1) <==> m >= tail && (m + 1) % cycle == 0
  {
    if m >= tail {
      var a, b := m - tail, m + 1;
      assert 2 * m + 1 - tail == a + b;
      var r := b % cycle;
      assert b == cycle * (b / cycle) + r;
      assert a == cycle * (a / cycle) + a % cycle;
      if r == 0 {
        ModShift(a, b / cycle, cycle);
      } else if (a + b) % cycle == a % cycle {
        var q := (a + b) / cycle - a / cycle;
        assert a + b == cycle * ((a + b) / cycle) + a % cycle;
        assert b == cycle * q;
        ModShift(0, q, cycle);
        assert false;
      }
    } else if 2 * m + 1 >= tail {
      assert Home(tail, cycle, 2 * m + 1) >= tail;
    }
  }

  lemma {:induction false} ModShift(a: nat, q: int, cycle: nat)
    requires cycle > 0 && a + cycle * q >= 0
    ensures (a + cycle * q) % cycle == a % cycle
  {
    var x := a + cycle * q;
    assert x == cycle * (a / cycle + q) + a % cycle by {
      assert a == cycle * (a / cycle) + a % cycle;
      assert cycle * (a / cycle + q) == cycle * (a / cycle) + cycle * q;
    }
    DivisionIsUnique(x, a / cycle + q, a % cycle, cycle);
  }

  lemma {:induction false} MulAtLeast(d: nat, k: nat)
    requires k > 0
    ensures d * k >= d
  {
    if k > 1 {
      MulAtLeast(d, k - 1);
      assert d * k == d * (k - 1) + d;
    }
  }

  lemma DivisionIsUnique(x: int, q: int, r: int, d: nat)
    requires d > 0 && 0 <= r < d && x == d * q + r
    ensures x % d == r
  {
    var k := q - x / d;
    assert d * q == d * (x / d) + d * k;
    if k > 0 {
      MulAtLeast(d, k);
    } else if k < 0 {
      assert d * k == -(d * -k);
      MulAtLeast(d, -k);
    }
  }

  lemma MeetUnderRho(h: Lun -> Lun, x: Lun, tail: nat, cycle: nat, m: nat)
    requires Rho(h, x, tail, cycle)
    ensures Meet(h, x, m) <==> m > 0 && m >= tail && (m + 1) % cycle == 0
  {
    HomeIsTheSame(h, x, tail, cycle, m);
    HomeIsTheSame(h, x, tail, cycle, 2 * m + 1);
    HomesOf(tail, cycle, m);
    var a, b := Home(tail, cycle, m), Home(tail, cycle, 2 * m + 1);
    if a < b {
      assert Orbit(h, x, a) != Orbit(h, x, b);
    } else if b < a {
      assert Orbit(h, x, b) != Orbit(h, x, a);
    }
  }

  /** Tortoise and hare first meet where the first multiple of the cycle behind the tail is. */
  lemma FirstMeetUnderRho(h: Lun -> Lun, x: Lun, tail: nat, cycle: nat, m: nat)
    requires Rho(h, x, tail, cycle) && FirstMeet(h, x, m) && (tail != 0 || cycle != 1)
    ensures m == tail + cycle - tail % cycle - 1
  {
    MeetUnderRho(h, x, tail, cycle, m);
    var k: nat := tail + cycle - tail % cycle - 1;
    assert tail == cycle * (tail / cycle) + tail % cycle;
    assert k + 1 == 0 + cycle * (tail / cycle + 1);
    ModShift(0, tail / cycle + 1, cycle);
    MeetUnderRho(h, x, tail, cycle, k);
    assert m <= k;
    if m < k {
      // No multiple of the cycle lies strictly between.
      var q := (m + 1) / cycle;
      assert m + 1 == cycle * q;
      assert cycle * (tail / cycle) < cycle * q < cycle * (tail / cycle + 1);
      NothingBetween(cycle, tail / cycle, q);
      assert false;
    }
  }

  /** The cycle error comes after exactly this many tries. */
  lemma GivesUpAfter(h: Lun -> Lun, x: Lun, tail: nat, cycle: nat, m: nat)
    requires Rho(h, x, tail, cycle) && FirstMeet(h, x, m)
    ensures Tries(h, x, m) == tail + cycle - tail % cycle
  {
    if tail == 0 && cycle == 1 {
      MeetUnderRho(h, x, tail, cycle, 1);
      assert m == 1 && Orbit(h, x, 0) == Orbit(h, x, 1);
    } else {
      FirstMeetUnderRho(h, x, tail, cycle, m);
      assert m < tail + cycle;
      assert Orbit(h, x, m - 1) != Orbit(h, x, m);
    }
  }

  lemma NothingBetween(cycle: nat, a: int, q: int)
    ensures !(cycle * a < cycle * q < cycle * (a + 1))
  {
    assert cycle * (a + 1) == cycle * a + cycle;
    if q > a {
      var k := q - a;
      assert cycle * q == cycle * a + cycle * k;
      MulAtLeast(cycle, k);
    } else if q < a {
      var k := a - q;
      assert cycle * a == cycle * q + cycle * k;
      MulAtLeast(cycle, k);
    }
  }

  /** When the search gives up, it has tried the whole orbit exactly if the length of the
      cycle divides the length of the tail; in particular if the start lies on the cycle. */
  lemma WholeOrbitIsTried(h: Lun -> Lun, x: Lun, tail: nat, cycle: nat, m: nat)
    requires Rho(h, x, tail, cycle) && FirstMeet(h, x, m)
    ensures (forall n: nat :: Orbit(h, x, n) in Prefix(h, x, Tries(h, x, m))) <==> tail % cycle == 0
  {
    GivesUpAfter(h, x, tail, cycle, m);
    var tried := Prefix(h, x, Tries(h, x, m));
    if tail % cycle == 0 {
      forall n: nat ensures Orbit(h, x, n) in tried {
        HomeIsTheSame(h, x, tail, cycle, n);
        assert tried[Home(tail, cycle, n)] == Orbit(h, x, Home(tail, cycle, n));
      }
    } else {
      var last := tail + cycle - 1;
      assert forall i | 0 <= i < |tried| :: tried[i] == Orbit(h, x, i) && i < last;
      assert Orbit(h, x, last) !in tried;
    }
  }

  /** With owners that do not change, a search can give up although a LUN on its orbit is
      free exactly if it has not tried the whole orbit and some LUN it has not tried is not reserved. */
  lemma CanMissAFreeLun(h: Lun -> Lun, x: Lun, me: ObjectId, other: ObjectId, m: nat)
    requires FirstMeet(h, x, m) && other != me
    ensures (exists owners: map<Lun, ObjectId>, n: nat ::
               AllLost(h, x, (_: nat) => owners, Tries(h, x, m), me) && Claims(owners, Orbit(h, x, n), me))
            <==> exists n: nat :: !Reserved(Orbit(h, x, n)) && Orbit(h, x, n) !in Prefix(h, x, Tries(h, x, m))
  {
    var tried := Prefix(h, x, Tries(h, x, m));
    if owners: map<Lun, ObjectId>, n: nat :|
        AllLost(h, x, (_: nat) => owners, Tries(h, x, m), me) && Claims(owners, Orbit(h, x, n), me) {
      forall i | 0 <= i < |tried| ensures tried[i] != Orbit(h, x, n) {
        assert tried[i] == Orbit(h, x, i);
      }
    }
    if n: nat :| !Reserved(Orbit(h, x, n)) && Orbit(h, x, n) !in tried {
      var owners := map lun | lun in tried :: other;
      forall i | 0 <= i < Tries(h, x, m) ensures !Claims(owners, Orbit(h, x, i), me) {
        assert tried[i] == Orbit(h, x, i);
      }
      assert AllLost(h, x, (_: nat) => owners, Tries(h, x, m), me) && Claims(owners, Orbit(h, x, n), me);
    }
  }

  // ---------- A search that gives up too early ----------

  /** A hash with a tail of one id and a cycle of two. */
  function SampleHash(x: Lun): Lun {
    if x == 0 then 1 else if x == 1 then 2 else 1
  }

  /** From 0 this hash leads to 1, 2, 1, 2, ... */
  lemma SampleOrbit()
    ensures Rho(SampleHash, 0, 1, 2) && FirstMeet(SampleHash, 0, 1)
    ensures Prefix(SampleHash, 0, Tries(SampleHash, 0, 1)) == [0, 1]
    ensures Orbit(SampleHash, 0, 2) == 2 && !Reserved(2)
  {
    assert Orbit(SampleHash, 0, 0) == 0;
    assert Orbit(SampleHash, 0, 1) == 1;
    assert Orbit(SampleHash, 0, 2) == 2;
    assert Orbit(SampleHash, 0, 3) == 1;
  }

  /** With 0 and 1 owned by another object and everything else free, the search tries 0 and 1 and gives
      up, although the LUN 2 lies next on its orbit and could be claimed. */
  method FreeLunIsMissed() returns (outcome: Outcome, visited: seq<Lun>)
    ensures var owners: map<Lun, ObjectId> := map[0 := "other", 1 := "other"];
            && Searched(SampleHash, 0, "me", (_: nat) => owners, outcome, visited)
            && outcome == CycleDetected && visited == [0, 1]
            && Orbit(SampleHash, 0, 2) == 2 && Claims(owners, 2, "me")
  {
    var owners: map<Lun, ObjectId> := map[0 := "other", 1 := "other"];
    outcome, visited := FindLun(SampleHash, 0, "me", (_: nat) => owners);
    SampleOrbit();
    assert forall i | 0 <= i < 2 :: Prefix(SampleHash, 0, 2)[i] == Orbit(SampleHash, 0, i);
    GivesUpExactlyWhen(SampleHash, 0, "me", (_: nat) => owners, outcome, visited, 1);
  }
}
