/** `idempotentConfigWrite`: a one-shot consensus object. A writer links a temporary
    file to the path; when the path is taken it reads it, later and separately, and
    compares. Nothing removes the path. */
module ConfigConsensus {
  import opened Wrappers

  type Pid = nat

  datatype Writer<T> =
    | Linking(proposal: T)
    | Comparing(proposal: T)
    | Returned(proposal: T, won: bool)

  datatype State<T> = State(path: Option<T>, writers: map<Pid, Writer<T>>)

  datatype Step<T> = Begin(p: Pid, proposal: T) | Link(p: Pid) | Read(p: Pid) | Crash(p: Pid)

  predicate Enabled<T(==)>(s: State<T>, st: Step<T>) {
    match st
    case Begin(p, _) => p !in s.writers
    case Link(p) => p in s.writers && s.writers[p].Linking?
    case Read(p) => p in s.writers && s.writers[p].Comparing? && s.path.Some?
    case Crash(p) => p in s.writers && !s.writers[p].Returned?
  }

  function Apply<T(==)>(s: State<T>, st: Step<T>): State<T>
    requires Enabled(s, st)
  {
    match st
    case Begin(p, x) => s.(writers := s.writers[p := Linking(x)])
    case Link(p) =>
      var x := s.writers[p].proposal;
      if s.path == None then State(Some(x), s.writers[p := Returned(x, true)])
      else s.(writers := s.writers[p := Comparing(x)])
    case Read(p) =>
      var x := s.writers[p].proposal;
      s.(writers := s.writers[p := Returned(x, s.path.value == x)])
    case Crash(p) => s.(writers := s.writers - {p})
  }

  ghost predicate Run<T>(states: seq<State<T>>, steps: seq<Step<T>>) {
    && |states| == |steps| + 1
    && states[0] == State(None, map[])
    && (forall i | 0 <= i < |steps| :: Enabled(states[i], steps[i]) && states[i + 1] == Apply(states[i], steps[i]))
  }

  /** Who won agrees with the path, and a writer only ever compares a path that is there. */
  ghost predicate Inv<T>(s: State<T>) {
    forall p | p in s.writers ::
      match s.writers[p]
      case Linking(_) => true
      case Comparing(_) => s.path.Some?
      case Returned(x, won) => s.path.Some? && (won <==> s.path.value == x)
  }

  lemma {:induction false} RunKeeps<T>(states: seq<State<T>>, steps: seq<Step<T>>, i: nat)
    requires Run(states, steps) && i < |states|
    ensures Inv(states[i])
  {
    if i > 0 {
      RunKeeps(states, steps, i - 1);
      assert Enabled(states[i - 1], steps[i - 1]);
    }
  }

  lemma {:induction false} PathIsStable<T>(states: seq<State<T>>, steps: seq<Step<T>>, i: nat, j: nat)
    requires Run(states, steps) && i <= j < |states|
    requires states[i].path.Some?
    ensures states[j].path == states[i].path
    decreases j
  {
    if i < j {
      PathIsStable(states, steps, i, j - 1);
      assert Enabled(states[j - 1], steps[j - 1]);
    }
  }

  /** The content of the path was proposed by a writer that began before. */
  lemma {:induction false} PathWasProposed<T>(states: seq<State<T>>, steps: seq<Step<T>>, i: nat)
    requires Run(states, steps) && i < |states|
    ensures states[i].path.Some? ==>
              exists k :: 0 <= k < i && steps[k].Begin? && steps[k].proposal == states[i].path.value
    ensures forall p | p in states[i].writers ::
              exists k :: 0 <= k < i && steps[k].Begin? && steps[k].proposal == states[i].writers[p].proposal
  {
    if i > 0 {
      PathWasProposed(states, steps, i - 1);
      assert Enabled(states[i - 1], steps[i - 1]);
      var s, st := states[i - 1], steps[i - 1];
      forall p | p in states[i].writers
        ensures exists k :: 0 <= k < i && steps[k].Begin? && steps[k].proposal == states[i].writers[p].proposal
      {
        if p !in s.writers {
          assert st.Begin? && steps[i - 1].proposal == states[i].writers[p].proposal;
        }
      }
    }
  }

  /** Agreement: all writers that return true, at whatever time, proposed the same
      content, and the path holds that content from the first of them on. */
  lemma WinnersAgree<T>(states: seq<State<T>>, steps: seq<Step<T>>, i: nat, j: nat, p: Pid, q: Pid)
    requires Run(states, steps) && i <= j < |states|
    requires p in states[i].writers && states[i].writers[p].Returned? && states[i].writers[p].won
    requires q in states[j].writers && states[j].writers[q].Returned?
    ensures states[j].path == Some(states[i].writers[p].proposal)
    ensures states[j].writers[q].won <==> states[j].writers[q].proposal == states[i].writers[p].proposal
  {
    RunKeeps(states, steps, i);
    RunKeeps(states, steps, j);
    PathIsStable(states, steps, i, j);
  }

  /** Validity: a writer returns false only when another writer's different content is
      on the path, and then for good. */
  lemma LosersLostToAnother<T>(states: seq<State<T>>, steps: seq<Step<T>>, i: nat, j: nat, p: Pid)
    requires Run(states, steps) && i <= j < |states|
    requires p in states[i].writers && states[i].writers[p].Returned? && !states[i].writers[p].won
    ensures states[j].path.Some? && states[j].path.value != states[i].writers[p].proposal
    ensures exists k :: 0 <= k < i && steps[k].Begin? && steps[k].proposal == states[j].path.value
  {
    RunKeeps(states, steps, i);
    PathIsStable(states, steps, i, j);
    PathWasProposed(states, steps, i);
  }

  /** Nobody waits for anybody: at any point of a run a new writer can begin, and after two or three steps of its own it has
      returned, with true exactly if the path was free, and then holds its content, or held its content already. Whether
      it returns or crashes before it linked, all other writers stay as they are. */
  lemma WriterReturns<T>(states: seq<State<T>>, steps: seq<Step<T>>, i: nat, p: Pid, x: T)
    requires Run(states, steps) && i < |states| && p !in states[i].writers
    ensures var s := states[i];
            && Enabled(s, Begin(p, x))
            && var begun := Apply(s, Begin(p, x));
            && Enabled(begun, Crash(p)) && Apply(begun, Crash(p)) == s
            && Enabled(begun, Link(p))
            && var linked := Apply(begun, Link(p));
            if s.path == None then linked == State(Some(x), s.writers[p := Returned(x, true)])
            else
              && Enabled(linked, Read(p))
              && Apply(linked, Read(p)) == State(s.path, s.writers[p := Returned(x, s.path.value == x)])
  {
    var s := states[i];
    var begun := Apply(s, Begin(p, x));
    assert s.writers[p := Linking(x)] - {p} == s.writers;
    var linked := Apply(begun, Link(p));
    assert s.writers[p := Linking(x)][p := Returned(x, true)] == s.writers[p := Returned(x, true)];
    if s.path.Some? {
      assert s.writers[p := Linking(x)][p := Comparing(x)] == s.writers[p := Comparing(x)];
      assert s.writers[p := Comparing(x)][p := Returned(x, s.path.value == x)] == s.writers[p := Returned(x, s.path.value == x)];
    }
  }
}
