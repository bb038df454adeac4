/** `withFileLock`: callers of one process share a mutex per path, kept in a map with the number of
    callers and deleted with the last of them. What runs between two `await`s is one step. */
module FileLocks {
  import opened Wrappers

  type Path = string
  type Caller = nat
  type MutexId = nat

  datatype Entry = Entry(mutex: MutexId, numLocks: nat)

  datatype Phase =
    | Waiting(path: Path, mutex: MutexId)      // for the mutex
    | LockingFile(path: Path, mutex: MutexId)  // holds the mutex
    | InBody(path: Path, mutex: MutexId)       // holds the mutex and the lock file
    | Leaving(path: Path, mutex: MutexId)      // gave both back

  /** `nextMutex` makes mutex objects distinct. */
  datatype State = State(
    entries: map<Path, Entry>,
    holders: map<MutexId, Caller>,
    callers: map<Caller, Phase>,
    nextMutex: MutexId)

  datatype Step =
    | Enter(c: Caller, path: Path)
    | TakeMutex(c: Caller)
    | LockFile(c: Caller, ok: bool)
    | EndBody(c: Caller)
    | Leave(c: Caller)

  predicate Enabled(s: State, st: Step) {
    if st.Enter? then st.c !in s.callers
    else
      st.c in s.callers &&
      match st
      case TakeMutex(c) => s.callers[c].Waiting? && s.callers[c].mutex !in s.holders
      case LockFile(c, _) => s.callers[c].LockingFile?
      case EndBody(c) => s.callers[c].InBody?
      case Leave(c) => s.callers[c].Leaving? && s.callers[c].path in s.entries
      case _ => true
  }

  function Put(s: State, c: Caller, phase: Phase): State {
    s.(callers := s.callers[c := phase])
  }

  function Apply(s: State, st: Step): State
    requires Enabled(s, st)
  {
    match st
    case Enter(c, path) =>
      if path in s.entries then
        var e := s.entries[path];
        Put(s, c, Waiting(path, e.mutex)).(entries := s.entries[path := e.(numLocks := e.numLocks + 1)])
      else
        Put(s, c, Waiting(path, s.nextMutex))
        .(entries := s.entries[path := Entry(s.nextMutex, 1)], nextMutex := s.nextMutex + 1)
    case TakeMutex(c) =>
      var p := s.callers[c];
      Put(s, c, LockingFile(p.path, p.mutex)).(holders := s.holders[p.mutex := c])
    case LockFile(c, ok) =>
      var p := s.callers[c];
      if ok then Put(s, c, InBody(p.path, p.mutex))
      else Put(s, c, Leaving(p.path, p.mutex)).(holders := s.holders - {p.mutex})
    case EndBody(c) =>
      var p := s.callers[c];
      Put(s, c, Leaving(p.path, p.mutex)).(holders := s.holders - {p.mutex})
    case Leave(c) =>
      var path := s.callers[c].path;
      var e := s.entries[path];
      var left := if e.numLocks == 0 then 0 else e.numLocks - 1;
      s.(callers := s.callers - {c},
         entries := if left == 0 then s.entries - {path} else s.entries[path := e.(numLocks := left)])
  }

  // ---------- The invariant ----------

  function InFlight(s: State, path: Path): set<Caller> {
    set c | c in s.callers && s.callers[c].path == path
  }

  predicate Holds(p: Phase) {
    p.LockingFile? || p.InBody?
  }

  /** An entry is there exactly when callers are in flight, and counts them. */
  ghost predicate Counted(s: State) {
    forall path :: if path in s.entries then s.entries[path].numLocks == |InFlight(s, path)| > 0 else InFlight(s, path) == {}
  }

  /** Callers of one path share one mutex; a mutex belongs to one path. */
  ghost predicate Shared(s: State) {
    && (forall c | c in s.callers ::
          s.callers[c].path in s.entries && s.entries[s.callers[c].path].mutex == s.callers[c].mutex)
    && (forall path | path in s.entries :: s.entries[path].mutex < s.nextMutex)
    && (forall p, q | p in s.entries && q in s.entries && s.entries[p].mutex == s.entries[q].mutex :: p == q)
  }

  /** The holder of a mutex is exactly the caller that is past taking it. */
  ghost predicate Held(s: State) {
    && (forall c | c in s.callers && Holds(s.callers[c]) ::
          s.callers[c].mutex in s.holders && s.holders[s.callers[c].mutex] == c)
    && (forall m | m in s.holders ::
          s.holders[m] in s.callers && Holds(s.callers[s.holders[m]]) && s.callers[s.holders[m]].mutex == m)
  }

  ghost predicate Inv(s: State) {
    Counted(s) && Shared(s) && Held(s)
  }

  lemma EnterCounts(s: State, st: Step)
    requires Counted(s) && st.Enter? && Enabled(s, st)
    ensures Counted(Apply(s, st))
  {
    var s' := Apply(s, st);
    assert InFlight(s', st.path) == InFlight(s, st.path) + {st.c};
    forall path | path != st.path ensures InFlight(s', path) == InFlight(s, path) {
    }
  }

  lemma EnterShares(s: State, st: Step)
    requires Shared(s) && st.Enter? && Enabled(s, st)
    ensures Shared(Apply(s, st))
  {
  }

  lemma EnterKeeps(s: State, st: Step)
    requires Inv(s) && st.Enter? && Enabled(s, st)
    ensures Inv(Apply(s, st))
  {
    EnterCounts(s, st);
    EnterShares(s, st);
    assert Held(Apply(s, st));
  }

  lemma SamePaths(s: State, s': State)
    requires Counted(s) && s'.entries == s.entries && s'.callers.Keys == s.callers.Keys
    requires forall c | c in s.callers :: s'.callers[c].path == s.callers[c].path
    ensures Counted(s')
  {
    forall path ensures InFlight(s', path) == InFlight(s, path) {
    }
  }

  lemma SameMutexes(s: State, s': State)
    requires Shared(s) && s'.entries == s.entries && s'.nextMutex == s.nextMutex && s'.callers.Keys == s.callers.Keys
    requires forall c | c in s.callers :: s'.callers[c].path == s.callers[c].path && s'.callers[c].mutex == s.callers[c].mutex
    ensures Shared(s')
  {
  }

  lemma TakeMutexHolds(s: State, st: Step)
    requires Held(s) && st.TakeMutex? && Enabled(s, st)
    ensures Held(Apply(s, st))
  {
  }

  lemma TakeMutexKeeps(s: State, st: Step)
    requires Inv(s) && st.TakeMutex? && Enabled(s, st)
    ensures Inv(Apply(s, st))
  {
    SamePaths(s, Apply(s, st));
    SameMutexes(s, Apply(s, st));
    TakeMutexHolds(s, st);
  }

  lemma LockFileHolds(s: State, st: Step)
    requires Shared(s) && Held(s) && st.LockFile? && Enabled(s, st)
    ensures Held(Apply(s, st))
  {
  }

  lemma LockFileKeeps(s: State, st: Step)
    requires Inv(s) && st.LockFile? && Enabled(s, st)
    ensures Inv(Apply(s, st))
  {
    SamePaths(s, Apply(s, st));
    SameMutexes(s, Apply(s, st));
    LockFileHolds(s, st);
  }

  lemma EndBodyHolds(s: State, st: Step)
    requires Held(s) && st.EndBody? && Enabled(s, st)
    ensures Held(Apply(s, st))
  {
  }

  lemma EndBodyKeeps(s: State, st: Step)
    requires Inv(s) && st.EndBody? && Enabled(s, st)
    ensures Inv(Apply(s, st))
  {
    SamePaths(s, Apply(s, st));
    SameMutexes(s, Apply(s, st));
    EndBodyHolds(s, st);
  }

  lemma LeaveCounts(s: State, st: Step)
    requires Counted(s) && st.Leave? && Enabled(s, st)
    ensures Counted(Apply(s, st))
  {
    var s' := Apply(s, st);
    var path := s.callers[st.c].path;
    assert InFlight(s', path) == InFlight(s, path) - {st.c};
    forall other | other != path ensures InFlight(s', other) == InFlight(s, other) {
    }
  }

  lemma LeaveShares(s: State, st: Step)
    requires Counted(s) && Shared(s) && st.Leave? && Enabled(s, st)
    ensures Shared(Apply(s, st))
  {
    LeaveCounts(s, st);
    var s' := Apply(s, st);
    forall c | c in s'.callers ensures s'.callers[c].path in s'.entries {
      assert c in InFlight(s', s'.callers[c].path);
    }
  }

  lemma LeaveKeeps(s: State, st: Step)
    requires Inv(s) && st.Leave? && Enabled(s, st)
    ensures Inv(Apply(s, st))
  {
    LeaveCounts(s, st);
    LeaveShares(s, st);
    assert Held(Apply(s, st));
  }

  // ---------- Every run ----------

  ghost predicate Run(states: seq<State>, steps: seq<Step>) {
    && |states| == |steps| + 1 && states[0] == State(map[], map[], map[], 0)
    && forall i | 0 <= i < |steps| :: Enabled(states[i], steps[i]) && states[i + 1] == Apply(states[i], steps[i])
  }

  lemma {:induction false} RunKeeps(states: seq<State>, steps: seq<Step>, i: nat)
    requires Run(states, steps) && i < |states|
    ensures Inv(states[i])
  {
    if i > 0 {
      RunKeeps(states, steps, i - 1);
      var s, st := states[i - 1], steps[i - 1];
      assert Enabled(s, st);
      match st
      case Enter(_, _) => EnterKeeps(s, st);
      case TakeMutex(_) => TakeMutexKeeps(s, st);
      case LockFile(_, _) => LockFileKeeps(s, st);
      case EndBody(_) => EndBodyKeeps(s, st);
      case Leave(_) => LeaveKeeps(s, st);
    }
  }

  /** At most one caller per path is inside its body, however often the entry of the path
      was deleted and made again in between. */
  lemma OneBodyPerPath(states: seq<State>, steps: seq<Step>, i: nat, c: Caller, d: Caller)
    requires Run(states, steps) && i < |states|
    requires c in states[i].callers && d in states[i].callers
    requires states[i].callers[c].InBody? && states[i].callers[d].InBody?
    requires states[i].callers[c].path == states[i].callers[d].path
    ensures c == d
  {
    RunKeeps(states, steps, i);
  }

  /** The map holds an entry exactly for the paths in use, with their number of callers,
      so a caller that leaves always finds its entry. */
  lemma EntriesCountCallers(states: seq<State>, steps: seq<Step>, i: nat, path: Path)
    requires Run(states, steps) && i < |states|
    ensures path in states[i].entries <==> exists c :: c in states[i].callers && states[i].callers[c].path == path
    ensures path in states[i].entries ==> states[i].entries[path].numLocks == |InFlight(states[i], path)|
    ensures forall c | c in states[i].callers && states[i].callers[c].Leaving? :: Enabled(states[i], Leave(c))
  {
    RunKeeps(states, steps, i);
    if path in states[i].entries {
      var c :| c in InFlight(states[i], path);
    } else {
      assert forall c | c in states[i].callers :: states[i].callers[c].path != path;
    }
  }

  /** A caller waits only for a caller of the same path that has not left its body. */
  lemma WaitsForItsPathOnly(states: seq<State>, steps: seq<Step>, i: nat, c: Caller)
    requires Run(states, steps) && i < |states|
    requires c in states[i].callers && states[i].callers[c].Waiting? && !Enabled(states[i], TakeMutex(c))
    ensures exists d :: d in states[i].callers && Holds(states[i].callers[d])
                        && states[i].callers[d].path == states[i].callers[c].path
  {
    RunKeeps(states, steps, i);
    var s := states[i];
    var d := s.holders[s.callers[c].mutex];
    assert d in s.callers && Holds(s.callers[d]) && s.callers[d].path == s.callers[c].path;
  }

  /** A caller that waits while the mutex is free can take it, lock the file, run its body and leave; when it has left its
      body, or the file could not be locked, the mutex is free for the next caller of the path. */
  lemma CallerGetsThrough(states: seq<State>, steps: seq<Step>, i: nat, c: Caller)
    requires Run(states, steps) && i < |states|
    requires c in states[i].callers && states[i].callers[c].Waiting? && states[i].callers[c].mutex !in states[i].holders
    ensures var (s, path, mutex) := (states[i], states[i].callers[c].path, states[i].callers[c].mutex);
            && Enabled(s, TakeMutex(c))
            && var taken := Apply(s, TakeMutex(c));
            && Enabled(taken, LockFile(c, true)) && Enabled(taken, LockFile(c, false))
            && var (running, failed) := (Apply(taken, LockFile(c, true)), Apply(taken, LockFile(c, false)));
            && running.callers == s.callers[c := InBody(path, mutex)] && Enabled(running, EndBody(c))
            && var ended := Apply(running, EndBody(c));
            && ended.callers == failed.callers == s.callers[c := Leaving(path, mutex)] && ended.holders == failed.holders == s.holders
            && Enabled(ended, Leave(c)) && Apply(ended, Leave(c)).callers == s.callers - {c}
            && forall d | d in s.callers && d != c && s.callers[d].Waiting? && s.callers[d].path == path :: Enabled(ended, TakeMutex(d))
  {
    RunKeeps(states, steps, i);
    var s := states[i];
    var mutex := s.callers[c].mutex;
    assert s.holders[mutex := c] - {mutex} == s.holders;
    assert s.callers[c := Leaving(s.callers[c].path, mutex)] - {c} == s.callers - {c};
  }

  // ---------- withManyFileLocks ----------

  /** The composed function: the given one, or one run under a lock. */
  datatype Thunk = Given | Locked(path: Path, inner: Thunk)

  datatype Event = Acquired(path: Path) | Ran | Released(path: Path)

  function Trace(t: Thunk): seq<Event> {
    match t
    case Given => [Ran]
    case Locked(path, inner) => [Acquired(path)] + Trace(inner) + [Released(path)]
  }

  function Nested(paths: seq<Path>): Thunk {
    if paths == [] then Given else Locked(paths[|paths| - 1], Nested(paths[..|paths| - 1]))
  }

  predicate Repeats(paths: seq<Path>) {
    exists i, j :: 0 <= i < j < |paths| && paths[i] == paths[j]
  }

  /** Nothing is run, so nothing acquired, when a path repeats. */
  method Compose(paths: seq<Path>) returns (r: Result<Thunk, Path>)
    ensures r.Failure? <==> Repeats(paths)
    ensures r.Failure? ==> exists i, j :: 0 <= i < j < |paths| && paths[i] == paths[j] == r.error && !Repeats(paths[..j])
    ensures r.Success? ==> r.value == Nested(paths)
  {
    var seenPaths: set<Path> := {};
    var fnComposite := Given;
    for k := 0 to |paths|
      invariant seenPaths == set p | p in paths[..k]
      invariant !Repeats(paths[..k])
      invariant fnComposite == Nested(paths[..k])
    {
      if paths[k] in seenPaths {
        var i :| 0 <= i < k && paths[i] == paths[k];
        return Failure(paths[k]);
      }
      assert paths[..k + 1][..k] == paths[..k];
      seenPaths := seenPaths + {paths[k]};
      fnComposite := Locked(paths[k], fnComposite);
    }
    assert paths[..|paths|] == paths;
    return Success(fnComposite);
  }

  function Reversed(paths: seq<Path>): seq<Path> {
    if paths == [] then [] else [paths[|paths| - 1]] + Reversed(paths[..|paths| - 1])
  }

  function Acquisitions(paths: seq<Path>): seq<Event> {
    seq(|paths|, i requires 0 <= i < |paths| => Acquired(paths[i]))
  }

  function Releases(paths: seq<Path>): seq<Event> {
    seq(|paths|, i requires 0 <= i < |paths| => Released(paths[i]))
  }

  /** The locks are taken from the last path to the first, and given back last in, first out. */
  lemma {:induction false} LastInFirstOut(paths: seq<Path>)
    ensures Trace(Nested(paths)) == Acquisitions(Reversed(paths)) + [Ran] + Releases(paths)
  {
    if paths == [] {
      assert Acquisitions(Reversed(paths)) + [Ran] + Releases(paths) == [Ran];
    } else {
      var last, rest := paths[|paths| - 1], paths[..|paths| - 1];
      LastInFirstOut(rest);
      assert paths == rest + [last];
      assert Acquisitions(Reversed(paths)) == [Acquired(last)] + Acquisitions(Reversed(rest));
      assert Releases(paths) == Releases(rest) + [Released(last)];
    }
  }

  /** The locks held after a trace; acquiring a held lock would wait for itself. */
  ghost predicate Runs(held: set<Path>, trace: seq<Event>, after: set<Path>)
    decreases |trace|
  {
    if trace == [] then after == held
    else match trace[0]
      case Acquired(p) => p !in held && Runs(held + {p}, trace[1..], after)
      case Ran => Runs(held, trace[1..], after)
      case Released(p) => p in held && Runs(held - {p}, trace[1..], after)
  }

  lemma {:induction false} RunsInSequence(held: set<Path>, a: seq<Event>, between: set<Path>, b: seq<Event>, after: set<Path>)
    requires Runs(held, a, between) && Runs(between, b, after)
    ensures Runs(held, a + b, after)
    decreases |a|
  {
    if a == [] {
      assert a + b == b;
    } else {
      assert (a + b)[1..] == a[1..] + b;
      match a[0]
      case Acquired(p) => RunsInSequence(held + {p}, a[1..], between, b, after);
      case Ran => RunsInSequence(held, a[1..], between, b, after);
      case Released(p) => RunsInSequence(held - {p}, a[1..], between, b, after);
    }
  }

  /** A composed function never waits for a lock it holds, and gives all of them back. */
  lemma {:induction false} NeverWaitsForItself(paths: seq<Path>, held: set<Path>)
    requires !Repeats(paths) && forall p | p in paths :: p !in held
    ensures Runs(held, Trace(Nested(paths)), held)
  {
    if paths == [] {
      assert Runs(held, [], held);
    } else {
      var last, rest := paths[|paths| - 1], paths[..|paths| - 1];
      assert last !in rest;
      NeverWaitsForItself(rest, held + {last});
      var inner := Trace(Nested(rest));
      assert Runs(held, [], held) && held + {last} - {last} == held;
      assert Runs(held + {last}, [Released(last)], held);
      RunsInSequence(held + {last}, inner, held + {last}, [Released(last)], held);
      var t := [Acquired(last)] + inner + [Released(last)];
      assert t[1..] == inner + [Released(last)];
    }
  }

  lemma {:induction false} RunsOfAPrefix(held: set<Path>, a: seq<Event>, b: seq<Event>, after: set<Path>) returns (between: set<Path>)
    requires Runs(held, a + b, after)
    ensures Runs(held, a, between)
    decreases |a|
  {
    between := held;
    if a != [] {
      assert (a + b)[1..] == a[1..] + b && (a + b)[0] == a[0];
      match a[0]
      case Acquired(p) => between := RunsOfAPrefix(held + {p}, a[1..], b, after);
      case Ran => between := RunsOfAPrefix(held, a[1..], b, after);
      case Released(p) => between := RunsOfAPrefix(held - {p}, a[1..], b, after);
    }
  }

  /** Why repeated paths are refused: the composed function would wait for itself for ever. */
  lemma {:induction false} RepeatedPathsDeadlock(paths: seq<Path>, held: set<Path>, after: set<Path>)
    requires Repeats(paths) || exists p :: p in paths && p in held
    ensures !Runs(held, Trace(Nested(paths)), after)
  {
    var last, rest := paths[|paths| - 1], paths[..|paths| - 1];
    assert paths == rest + [last];
    var trace := Trace(Nested(paths));
    if last !in held && Runs(held, trace, after) {
      assert trace[1..] == Trace(Nested(rest)) + [Released(last)];
      var between := RunsOfAPrefix(held + {last}, Trace(Nested(rest)), [Released(last)], after);
      RepeatedPathsDeadlock(rest, held + {last}, between);
    }
  }
}
