/** The blocks of four addresses handed out to virtual machines. The ids in use are kept in a
    storage file that is read, changed and written back under a file lock. */
module IpAllocator {
  import opened Wrappers

  type Id = int

  const MINIMUM_IP_ID: Id := 2
  const MAXIMUM_IP_ID: Id := 16383

  datatype AllocationError = InvalidStorage | NoFreeAddress

  /** What the schema of the storage file demands, on reading and on writing. */
  predicate Conforms(busy: seq<Id>) {
    && (forall i | 0 <= i < |busy| :: MINIMUM_IP_ID <= busy[i] <= MAXIMUM_IP_ID)
    && (forall i, j | 0 <= i < j < |busy| :: busy[i] != busy[j])
  }

  function IdsIn(busy: seq<Id>): set<Id> {
    set id | id in busy
  }

  ghost predicate AllTaken(taken: set<Id>) {
    forall id | MINIMUM_IP_ID <= id <= MAXIMUM_IP_ID :: id in taken
  }

  /** The least id that is not taken. */
  ghost predicate LeastFree(taken: set<Id>, id: Id) {
    && MINIMUM_IP_ID <= id <= MAXIMUM_IP_ID && id !in taken
    && forall k | MINIMUM_IP_ID <= k < id :: k in taken
  }

  // ---------- Sorting ----------

  function Insert(x: Id, s: seq<Id>): seq<Id> {
    if s == [] then [x] else if x <= s[0] then [x] + s else [s[0]] + Insert(x, s[1..])
  }

  function Sort(s: seq<Id>): seq<Id> {
    if s == [] then [] else Insert(s[0], Sort(s[1..]))
  }

  ghost predicate Increasing(s: seq<Id>) {
    forall i, j | 0 <= i < j < |s| :: s[i] < s[j]
  }

  lemma {:induction false} InsertKeepsOrder(x: Id, s: seq<Id>)
    requires Increasing(s) && x !in s
    ensures Increasing(Insert(x, s))
    ensures |Insert(x, s)| == |s| + 1 && forall y :: y in Insert(x, s) <==> y == x || y in s
  {
    if s != [] && x > s[0] {
      assert s == [s[0]] + s[1..];
      InsertKeepsOrder(x, s[1..]);
    }
  }

  lemma {:induction false} SortIsIncreasing(s: seq<Id>)
    requires forall i, j | 0 <= i < j < |s| :: s[i] != s[j]
    ensures Increasing(Sort(s)) && |Sort(s)| == |s| && forall y :: y in Sort(s) <==> y in s
  {
    if s != [] {
      SortIsIncreasing(s[1..]);
      assert s == [s[0]] + s[1..];
      InsertKeepsOrder(s[0], Sort(s[1..]));
    }
  }

  /** The scan of the sorted ids, up to the first gap. */
  method NextFreeId(busy: seq<Id>) returns (nextFreeIpId: Id)
    requires Increasing(busy) && forall id | id in busy :: MINIMUM_IP_ID <= id
    ensures MINIMUM_IP_ID <= nextFreeIpId && nextFreeIpId !in busy
    ensures forall k | MINIMUM_IP_ID <= k < nextFreeIpId :: k in busy
  {
    nextFreeIpId := MINIMUM_IP_ID;
    var i := 0;
    while i < |busy| && busy[i] == nextFreeIpId
      invariant 0 <= i <= |busy| && nextFreeIpId == MINIMUM_IP_ID + i
      invariant forall k | 0 <= k < i :: busy[k] == MINIMUM_IP_ID + k
    {
      nextFreeIpId := nextFreeIpId + 1;
      i := i + 1;
    }
    forall k | MINIMUM_IP_ID <= k < nextFreeIpId ensures k in busy {
      assert busy[k - MINIMUM_IP_ID] == k;
    }
    if i < |busy| {
      assert busy[i] in busy && (i > 0 ==> busy[i - 1] < busy[i]);
    }
  }

  /** A free id added to the sorted list of a valid storage gives a valid storage. */
  lemma OneMore(was: seq<Id>, busy: seq<Id>, id: Id)
    requires Conforms(was) && Increasing(busy) && (forall k :: k in busy <==> k in was)
    requires MINIMUM_IP_ID <= id <= MAXIMUM_IP_ID && id !in busy
    ensures Conforms(busy + [id]) && IdsIn(busy + [id]) == IdsIn(was) + {id}
  {
    forall k | 0 <= k < |busy| ensures MINIMUM_IP_ID <= busy[k] <= MAXIMUM_IP_ID && busy[k] != id {
      assert busy[k] in busy && busy[k] in was;
    }
    forall k ensures k in IdsIn(busy + [id]) <==> k in IdsIn(was) + {id} {
    }
  }

  // ---------- The storage ----------

  class IpStorage {
    var busyIpBlockIds: seq<Id>

    constructor ()
      ensures busyIpBlockIds == []
    {
      busyIpBlockIds := [];
    }

    /** The least free id, or an error exactly when there is none; nothing changes on an error. */
    method AllocateIpBlock() returns (r: Result<Id, AllocationError>)
      modifies this
      ensures !Conforms(old(busyIpBlockIds)) ==> r == Failure(InvalidStorage)
      ensures Conforms(old(busyIpBlockIds)) ==>
                && (r.Success? ==> LeastFree(IdsIn(old(busyIpBlockIds)), r.value))
                && (r.Failure? ==> r.error == NoFreeAddress && AllTaken(IdsIn(old(busyIpBlockIds))))
      ensures r.Failure? ==> busyIpBlockIds == old(busyIpBlockIds)
      ensures r.Success? ==>
                && Conforms(busyIpBlockIds) && |busyIpBlockIds| == |old(busyIpBlockIds)| + 1
                && IdsIn(busyIpBlockIds) == IdsIn(old(busyIpBlockIds)) + {r.value}
    {
      if !Conforms(busyIpBlockIds) {
        return Failure(InvalidStorage);
      }
      SortIsIncreasing(busyIpBlockIds);
      var busy := Sort(busyIpBlockIds);
      var nextFreeIpId := NextFreeId(busy);
      if nextFreeIpId > MAXIMUM_IP_ID {
        return Failure(NoFreeAddress);
      }
      OneMore(busyIpBlockIds, busy, nextFreeIpId);
      busyIpBlockIds := busy + [nextFreeIpId];
      return Success(nextFreeIpId);
    }

    method FreeIpBlock(id: Id) returns (r: Result<(), AllocationError>)
      modifies this
      ensures r.Success? <==> Conforms(old(busyIpBlockIds))
      ensures r.Failure? ==> busyIpBlockIds == old(busyIpBlockIds)
      ensures r.Success? ==>
                && Conforms(busyIpBlockIds)
                && IdsIn(busyIpBlockIds) == IdsIn(old(busyIpBlockIds)) - {id}
    {
      if !Conforms(busyIpBlockIds) {
        return Failure(InvalidStorage);
      }
      Filtered(busyIpBlockIds, id);
      busyIpBlockIds := Without(busyIpBlockIds, id);
      return Success(());
    }
  }

  function Without(s: seq<Id>, id: Id): seq<Id> {
    if s == [] then []
    else if s[0] == id then Without(s[1..], id)
    else [s[0]] + Without(s[1..], id)
  }

  lemma {:induction false} Filtered(s: seq<Id>, id: Id)
    requires Conforms(s)
    ensures Conforms(Without(s, id)) && forall y :: y in Without(s, id) <==> y in s && y != id
  {
    if s != [] {
      assert s == [s[0]] + s[1..];
      Filtered(s[1..], id);
      var rest := Without(s[1..], id);
      forall i | 0 <= i < |rest| ensures rest[i] != s[0] {
        assert rest[i] in s[1..];
      }
    }
  }

  // ---------- Every sequence of allocations and frees ----------

  type Owner = nat

  datatype Op = Allocate(owner: Owner) | Free(owner: Owner)

  /** `live` gives the block of every owner that has not freed it. */
  datatype State = State(taken: set<Id>, live: map<Owner, Id>)

  ghost predicate Follows(s: State, op: Op, s': State) {
    match op
    case Allocate(o) =>
      && o !in s.live
      && if AllTaken(s.taken) then s' == s
         else exists id :: LeastFree(s.taken, id) && s' == State(s.taken + {id}, s.live[o := id])
    case Free(o) => o in s.live && s' == State(s.taken - {s.live[o]}, s.live - {o})
  }

  ghost predicate Run(states: seq<State>, ops: seq<Op>) {
    && |states| == |ops| + 1 && states[0] == State({}, map[])
    && forall i | 0 <= i < |ops| :: Follows(states[i], ops[i], states[i + 1])
  }

  ghost predicate Disjoint(live: map<Owner, Id>) {
    forall o, p | o in live && p in live && o != p :: live[o] != live[p]
  }

  /** Exactly the blocks of live owners are taken. */
  ghost predicate Matched(s: State) {
    && (forall o | o in s.live :: s.live[o] in s.taken)
    && forall id | id in s.taken :: exists o :: o in s.live && s.live[o] == id
  }

  ghost predicate Inv(s: State) {
    && Disjoint(s.live) && Matched(s) && |s.taken| == |s.live|
    && forall id | id in s.taken :: MINIMUM_IP_ID <= id <= MAXIMUM_IP_ID
  }

  lemma AllocationMatches(s: State, o: Owner, id: Id)
    requires Matched(s) && o !in s.live
    ensures Matched(State(s.taken + {id}, s.live[o := id]))
  {
    var live := s.live[o := id];
    forall k | k in s.taken + {id} ensures exists q :: q in live && live[q] == k {
      if k == id {
        assert live[o] == k;
      } else {
        var q :| q in s.live && s.live[q] == k;
        assert live[q] == k;
      }
    }
  }

  lemma AllocationKeeps(s: State, o: Owner, id: Id)
    requires Inv(s) && o !in s.live && id !in s.taken && MINIMUM_IP_ID <= id <= MAXIMUM_IP_ID
    ensures Inv(State(s.taken + {id}, s.live[o := id]))
  {
    AllocationMatches(s, o, id);
    AllocationIsNew(s, o, id);
    var s' := State(s.taken + {id}, s.live[o := id]);
    assert Disjoint(s'.live) && Matched(s');
    assert |s'.taken| == |s.taken| + 1 && |s'.live| == |s.live| + 1;
  }

  lemma AllocationIsNew(s: State, o: Owner, id: Id)
    requires Disjoint(s.live) && (forall p | p in s.live :: s.live[p] in s.taken) && o !in s.live && id !in s.taken
    ensures Disjoint(s.live[o := id]) && |s.live[o := id]| == |s.live| + 1
  {
    assert s.live[o := id].Keys == s.live.Keys + {o};
  }

  lemma FreeKeeps(s: State, o: Owner)
    requires Inv(s) && o in s.live
    ensures Inv(State(s.taken - {s.live[o]}, s.live - {o}))
  {
    var s' := State(s.taken - {s.live[o]}, s.live - {o});
    forall k | k in s'.taken ensures exists q :: q in s'.live && s'.live[q] == k {
      var q :| q in s.live && s.live[q] == k;
      assert q in s'.live;
    }
    assert s'.live.Keys == s.live.Keys - {o} && |s'.live| == |s'.live.Keys| && |s.live| == |s.live.Keys|;
  }

  lemma {:induction false} RunKeeps(states: seq<State>, ops: seq<Op>, i: nat)
    requires Run(states, ops) && i < |states|
    ensures Inv(states[i])
  {
    if i > 0 {
      RunKeeps(states, ops, i - 1);
      var s, op, s' := states[i - 1], ops[i - 1], states[i];
      assert Follows(s, op, s');
      match op
      case Free(o) => FreeKeeps(s, o);
      case Allocate(o) =>
        if !AllTaken(s.taken) {
          var id :| LeastFree(s.taken, id) && s' == State(s.taken + {id}, s.live[o := id]);
          AllocationKeeps(s, o, id);
        }
    }
  }

  lemma {:induction false} Fullness(taken: set<Id>, lo: int, hi: int)
    requires lo <= hi && forall id | id in taken :: lo <= id < hi
    ensures |taken| <= hi - lo
    ensures |taken| == hi - lo <==> forall id | lo <= id < hi :: id in taken
    decreases hi - lo
  {
    if lo == hi {
      forall id ensures id !in taken {
      }
      assert taken == {};
    } else {
      var fewer := taken - {hi - 1};
      Fullness(fewer, lo, hi - 1);
      if hi - 1 in taken {
        assert taken == fewer + {hi - 1};
      } else {
        assert taken == fewer;
      }
      assert (forall id | lo <= id < hi :: id in taken) <==> hi - 1 in taken && forall id | lo <= id < hi - 1 :: id in fewer;
    }
  }

  /** No two live owners ever share a block, and an allocation fails exactly when every one
      of the 16382 blocks has a live owner: none leaks and none is handed out twice. */
  lemma LiveOwnersAreDisjoint(states: seq<State>, ops: seq<Op>, i: nat)
    requires Run(states, ops) && i < |states|
    ensures Disjoint(states[i].live)
    ensures AllTaken(states[i].taken) <==> |states[i].live| == 16382
  {
    RunKeeps(states, ops, i);
    Fullness(states[i].taken, MINIMUM_IP_ID, MAXIMUM_IP_ID + 1);
  }
}
