/** Following the branches of a remote repository: which remotes changed, and what a
    synchronisation writes to the tables. */
module GitRemotes {
  import opened Wrappers

  type Name = string
  type Hash = string

  datatype Remote = Remote(name: Name, hash: Hash)

  datatype UpdateState = New | Updated | Deleted

  datatype RemoteUpdate = RemoteUpdate(remoteInfo: Remote, state: UpdateState)

  /** As the constructor of a map does it: the last remote of a name wins. */
  function MapOf(remotes: seq<Remote>): map<Name, Hash> {
    if remotes == [] then map[]
    else
      var last := remotes[|remotes| - 1];
      MapOf(remotes[..|remotes| - 1])[last.name := last.hash]
  }

  function NamesOf(remotes: seq<Remote>): set<Name> {
    set r | r in remotes :: r.name
  }

  predicate Distinct(remotes: seq<Remote>) {
    forall i, j | 0 <= i < j < |remotes| :: remotes[i].name != remotes[j].name
  }

  // ---------- Which remotes changed ----------

  function Changed(known: map<Name, Hash>, remotes: seq<Remote>): seq<RemoteUpdate> {
    if remotes == [] then []
    else
      var last := remotes[|remotes| - 1];
      Changed(known, remotes[..|remotes| - 1])
      + if last.name in known && known[last.name] == last.hash then []
        else [RemoteUpdate(last, if last.name in known then Updated else New)]
  }

  function Gone(remotes: seq<Remote>, accessed: set<Name>): seq<RemoteUpdate> {
    if remotes == [] then []
    else
      var last := remotes[|remotes| - 1];
      Gone(remotes[..|remotes| - 1], accessed) + if last.name in accessed then [] else [RemoteUpdate(last, Deleted)]
  }

  /** The definitions, at the next element of a loop. */
  lemma OneMore(known: map<Name, Hash>, remotes: seq<Remote>, accessed: set<Name>, i: nat)
    requires i < |remotes|
    ensures MapOf(remotes[..i + 1]) == MapOf(remotes[..i])[remotes[i].name := remotes[i].hash]
    ensures NamesOf(remotes[..i + 1]) == NamesOf(remotes[..i]) + {remotes[i].name}
    ensures Changed(known, remotes[..i + 1]) ==
            Changed(known, remotes[..i])
            + if remotes[i].name in known && known[remotes[i].name] == remotes[i].hash then []
              else [RemoteUpdate(remotes[i], if remotes[i].name in known then Updated else New)]
    ensures Gone(remotes[..i + 1], accessed) ==
            Gone(remotes[..i], accessed) + if remotes[i].name in accessed then [] else [RemoteUpdate(remotes[i], Deleted)]
  {
    assert remotes[..i + 1] == remotes[..i] + [remotes[i]] && remotes[..i + 1][..i] == remotes[..i];
  }

  method FindRemoteUpdates(oldRemotes: seq<Remote>, newRemotes: seq<Remote>) returns (updatedRemotes: seq<RemoteUpdate>)
    ensures updatedRemotes == Changed(MapOf(oldRemotes), newRemotes) + Gone(oldRemotes, NamesOf(newRemotes))
  {
    var oldRemotesMap := map[];
    for i := 0 to |oldRemotes|
      invariant oldRemotesMap == MapOf(oldRemotes[..i])
    {
      OneMore(map[], oldRemotes, {}, i);
      oldRemotesMap := oldRemotesMap[oldRemotes[i].name := oldRemotes[i].hash];
    }
    assert oldRemotes[..|oldRemotes|] == oldRemotes && newRemotes[..|newRemotes|] == newRemotes;

    updatedRemotes := [];
    var accessedRemotes := {};
    for i := 0 to |newRemotes|
      invariant updatedRemotes == Changed(oldRemotesMap, newRemotes[..i])
      invariant accessedRemotes == NamesOf(newRemotes[..i])
    {
      var remote := newRemotes[i];
      OneMore(oldRemotesMap, newRemotes, {}, i);
      accessedRemotes := accessedRemotes + {remote.name};
      if !(remote.name in oldRemotesMap && oldRemotesMap[remote.name] == remote.hash) {
        updatedRemotes := updatedRemotes + [RemoteUpdate(remote, if remote.name in oldRemotesMap then Updated else New)];
      }
    }
    for i := 0 to |oldRemotes|
      invariant updatedRemotes == Changed(oldRemotesMap, newRemotes) + Gone(oldRemotes[..i], accessedRemotes)
    {
      var remote := oldRemotes[i];
      OneMore(map[], oldRemotes, accessedRemotes, i);
      if remote.name !in accessedRemotes {
        updatedRemotes := updatedRemotes + [RemoteUpdate(remote, Deleted)];
      }
    }
  }

  /** What an update means: nothing is updated or deleted that is not there, and nothing is new that is. */
  function ApplyUpdate(m: map<Name, Hash>, u: RemoteUpdate): Option<map<Name, Hash>> {
    var Remote(name, hash) := u.remoteInfo;
    match u.state
    case New => if name in m then None else Some(m[name := hash])
    case Updated => if name in m && m[name] != hash then Some(m[name := hash]) else None
    case Deleted => if name in m && m[name] == hash then Some(m - {name}) else None
  }

  function Replay(m: map<Name, Hash>, updates: seq<RemoteUpdate>): Option<map<Name, Hash>> {
    if updates == [] then Some(m)
    else
      match Replay(m, updates[..|updates| - 1])
      case None => None
      case Some(n) => ApplyUpdate(n, updates[|updates| - 1])
  }

  lemma {:induction false} KeysOfMap(remotes: seq<Remote>)
    ensures MapOf(remotes).Keys == NamesOf(remotes)
  {
    if remotes != [] {
      var rest, last := remotes[..|remotes| - 1], remotes[|remotes| - 1];
      KeysOfMap(rest);
      assert remotes == rest + [last];
    }
  }

  lemma LastIsNew(remotes: seq<Remote>)
    requires Distinct(remotes) && remotes != []
    ensures remotes[|remotes| - 1].name !in MapOf(remotes[..|remotes| - 1])
    ensures Distinct(remotes[..|remotes| - 1])
  {
    KeysOfMap(remotes[..|remotes| - 1]);
  }

  lemma ReplayOne(m: map<Name, Hash>, updates: seq<RemoteUpdate>, n: map<Name, Hash>, u: RemoteUpdate)
    requires Replay(m, updates) == Some(n)
    ensures Replay(m, updates + [u]) == ApplyUpdate(n, u)
  {
    assert (updates + [u])[..|updates|] == updates;
  }

  lemma {:induction false} ReplayChanged(known: map<Name, Hash>, remotes: seq<Remote>)
    requires Distinct(remotes)
    ensures Replay(known, Changed(known, remotes)) == Some(known + MapOf(remotes))
  {
    if remotes == [] {
      assert known + MapOf(remotes) == known;
    } else {
      var rest, last := remotes[..|remotes| - 1], remotes[|remotes| - 1];
      LastIsNew(remotes);
      ReplayChanged(known, rest);
      var n := known + MapOf(rest);
      assert known + MapOf(remotes) == n[last.name := last.hash];
      if last.name in known && known[last.name] == last.hash {
        assert n[last.name := last.hash] == n;
        assert Changed(known, remotes) == Changed(known, rest);
      } else {
        ReplayOne(known, Changed(known, rest), n, RemoteUpdate(last, if last.name in known then Updated else New));
      }
    }
  }

  /** What is left of a map when some of the remotes were deleted from it. */
  function Kept(n: map<Name, Hash>, remotes: seq<Remote>, accessed: set<Name>): map<Name, Hash> {
    n - (MapOf(remotes).Keys - accessed)
  }

  lemma {:induction false} ReplayGone(m: map<Name, Hash>, updates: seq<RemoteUpdate>, n: map<Name, Hash>,
                                      remotes: seq<Remote>, accessed: set<Name>)
    requires Distinct(remotes) && Replay(m, updates) == Some(n)
    requires forall name | name in MapOf(remotes) && name !in accessed :: name in n && n[name] == MapOf(remotes)[name]
    ensures Replay(m, updates + Gone(remotes, accessed)) == Some(Kept(n, remotes, accessed))
  {
    if remotes == [] {
      assert updates + Gone(remotes, accessed) == updates && Kept(n, remotes, accessed) == n;
    } else {
      var rest, last := remotes[..|remotes| - 1], remotes[|remotes| - 1];
      LastIsNew(remotes);
      ReplayGone(m, updates, n, rest, accessed);
      var before := updates + Gone(rest, accessed);
      if last.name in accessed {
        assert Kept(n, remotes, accessed) == Kept(n, rest, accessed);
        assert updates + Gone(remotes, accessed) == before;
      } else {
        var u := RemoteUpdate(last, Deleted);
        assert updates + Gone(remotes, accessed) == before + [u];
        ReplayOne(m, before, Kept(n, rest, accessed), u);
        assert Kept(n, rest, accessed) - {last.name} == Kept(n, remotes, accessed);
      }
    }
  }

  /** Applying the updates to the old map gives the new map. */
  lemma UpdatesGiveTheNewMap(oldRemotes: seq<Remote>, newRemotes: seq<Remote>)
    requires Distinct(oldRemotes) && Distinct(newRemotes)
    ensures Replay(MapOf(oldRemotes), Changed(MapOf(oldRemotes), newRemotes) + Gone(oldRemotes, NamesOf(newRemotes)))
            == Some(MapOf(newRemotes))
  {
    var m, n := MapOf(oldRemotes), MapOf(newRemotes);
    KeysOfMap(newRemotes);
    ReplayChanged(m, newRemotes);
    ReplayGone(m, Changed(m, newRemotes), m + n, oldRemotes, NamesOf(newRemotes));
    assert Kept(m + n, oldRemotes, NamesOf(newRemotes)) == n;
  }

  function UpdatesOf(updates: seq<RemoteUpdate>, name: Name): nat {
    if updates == [] then 0
    else
      UpdatesOf(updates[..|updates| - 1], name) + if updates[|updates| - 1].remoteInfo.name == name then 1 else 0
  }

  lemma {:induction false} UpdatesOfBoth(a: seq<RemoteUpdate>, b: seq<RemoteUpdate>, name: Name)
    ensures UpdatesOf(a + b, name) == UpdatesOf(a, name) + UpdatesOf(b, name)
  {
    if b == [] {
      assert a + b == a;
    } else {
      assert (a + b)[..|a + b| - 1] == a + b[..|b| - 1];
      UpdatesOfBoth(a, b[..|b| - 1], name);
    }
  }

  predicate Same(m: map<Name, Hash>, n: map<Name, Hash>, name: Name) {
    if name in m && name in n then m[name] == n[name] else name !in m && name !in n
  }

  lemma {:induction false} ChangedOnce(known: map<Name, Hash>, remotes: seq<Remote>, name: Name)
    requires Distinct(remotes)
    ensures UpdatesOf(Changed(known, remotes), name)
            == if name in MapOf(remotes) && !Same(known, MapOf(remotes), name) then 1 else 0
  {
    if remotes != [] {
      var rest, last := remotes[..|remotes| - 1], remotes[|remotes| - 1];
      LastIsNew(remotes);
      ChangedOnce(known, rest, name);
      if !(last.name in known && known[last.name] == last.hash) {
        var u := RemoteUpdate(last, if last.name in known then Updated else New);
        assert (Changed(known, rest) + [u])[..|Changed(known, rest)|] == Changed(known, rest);
      } else {
        assert Changed(known, remotes) == Changed(known, rest);
      }
    }
  }

  lemma {:induction false} GoneOnce(remotes: seq<Remote>, accessed: set<Name>, name: Name)
    requires Distinct(remotes)
    ensures UpdatesOf(Gone(remotes, accessed), name) == if name in MapOf(remotes) && name !in accessed then 1 else 0
  {
    if remotes != [] {
      var rest, last := remotes[..|remotes| - 1], remotes[|remotes| - 1];
      LastIsNew(remotes);
      GoneOnce(rest, accessed, name);
      if last.name !in accessed {
        assert (Gone(rest, accessed) + [RemoteUpdate(last, Deleted)])[..|Gone(rest, accessed)|] == Gone(rest, accessed);
      } else {
        assert Gone(remotes, accessed) == Gone(rest, accessed);
      }
    }
  }

  /** There is exactly one update for every name on which the two lists differ, and none for the others. */
  lemma OneUpdatePerDifference(oldRemotes: seq<Remote>, newRemotes: seq<Remote>, name: Name)
    requires Distinct(oldRemotes) && Distinct(newRemotes)
    ensures UpdatesOf(Changed(MapOf(oldRemotes), newRemotes) + Gone(oldRemotes, NamesOf(newRemotes)), name)
            == if Same(MapOf(oldRemotes), MapOf(newRemotes), name) then 0 else 1
  {
    KeysOfMap(newRemotes);
    UpdatesOfBoth(Changed(MapOf(oldRemotes), newRemotes), Gone(oldRemotes, NamesOf(newRemotes)), name);
    ChangedOnce(MapOf(oldRemotes), newRemotes, name);
    GoneOnce(oldRemotes, NamesOf(newRemotes), name);
  }
}
