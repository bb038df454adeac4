/** What `updateBranches` writes: git objects by hash, the current object of every
    branch of every repository, and the links between the two that are never taken back. */
module GitBranches {
  import opened GitRemotes

  type RepoId = nat

  /** A row of GitObjectToBranch; hash and branch name are unique keys. */
  datatype Link = Link(hash: Hash, repo: RepoId, name: Name)

  datatype Tables = Tables(objects: set<Hash>, branches: map<(RepoId, Name), Hash>, links: seq<Link>)

  function LinkRows(links: seq<Link>): set<Link> {
    set l | l in links
  }

  predicate NoRepeats(links: seq<Link>) {
    forall i, j | 0 <= i < j < |links| :: links[i] != links[j]
  }

  /** The branches of one repository. */
  function BranchesOf(t: Tables, repo: RepoId): map<Name, Hash> {
    map key | key in t.branches && key.0 == repo :: key.1 := t.branches[key]
  }

  function Elements(remotes: seq<Remote>): set<Remote> {
    set r | r in remotes
  }

  function HashesOf(remotes: set<Remote>): set<Hash> {
    set r | r in remotes :: r.hash
  }

  function LinksFor(repo: RepoId, remotes: set<Remote>): set<Link> {
    set r | r in remotes :: Link(r.hash, repo, r.name)
  }

  predicate Lists(repo: RepoId, remotes: seq<Remote>, key: (RepoId, Name)) {
    key.0 == repo && exists r :: r in remotes && r.name == key.1
  }

  /** The remotes whose branch is new or points elsewhere. */
  function Moved(t: Tables, repo: RepoId, remotes: seq<Remote>): set<Remote> {
    set r | r in remotes && !((repo, r.name) in t.branches && t.branches[(repo, r.name)] == r.hash)
  }

  /** Every branch has its object, and a link to it; links are not repeated. */
  ghost predicate Sound(t: Tables) {
    && (forall key | key in t.branches ::
          t.branches[key] in t.objects && Link(t.branches[key], key.0, key.1) in t.links)
    && NoRepeats(t.links)
  }

  /** What a synchronisation leaves behind: listed remotes have their hash, other branches are
      as they were, also those of other repositories, and links are only added. */
  ghost predicate Synchronised(t: Tables, repo: RepoId, remotes: seq<Remote>, t': Tables) {
    && (forall r | r in remotes :: (repo, r.name) in t'.branches && t'.branches[(repo, r.name)] == r.hash)
    && (forall key: (RepoId, Name) | !Lists(repo, remotes, key) ::
          (key in t'.branches <==> key in t.branches) && (key in t.branches ==> t'.branches[key] == t.branches[key]))
    && t'.objects == t.objects + HashesOf(Moved(t, repo, remotes))
    && t.links <= t'.links
    && LinkRows(t'.links) == LinkRows(t.links) + LinksFor(repo, Moved(t, repo, remotes))
    && (NoRepeats(t.links) ==> NoRepeats(t'.links))
  }

  // ---------- The updates by state ----------

  function WithState(updates: seq<RemoteUpdate>, state: UpdateState): seq<Remote> {
    if updates == [] then []
    else
      var last := updates[|updates| - 1];
      WithState(updates[..|updates| - 1], state) + if last.state == state then [last.remoteInfo] else []
  }

  lemma {:induction false} WithStateIn(updates: seq<RemoteUpdate>, state: UpdateState, r: Remote)
    ensures r in WithState(updates, state) <==> RemoteUpdate(r, state) in updates
  {
    if updates != [] {
      var last := updates[|updates| - 1];
      WithStateIn(updates[..|updates| - 1], state, r);
      assert updates == updates[..|updates| - 1] + [last];
    }
  }

  lemma {:induction false} ChangedIn(known: map<Name, Hash>, remotes: seq<Remote>, u: RemoteUpdate)
    ensures u in Changed(known, remotes) <==>
              && u.remoteInfo in remotes
              && u.state == (if u.remoteInfo.name in known then Updated else New)
              && !(u.remoteInfo.name in known && known[u.remoteInfo.name] == u.remoteInfo.hash)
  {
    if remotes != [] {
      ChangedIn(known, remotes[..|remotes| - 1], u);
      assert remotes == remotes[..|remotes| - 1] + [remotes[|remotes| - 1]];
    }
  }

  lemma {:induction false} GoneIn(remotes: seq<Remote>, accessed: set<Name>, u: RemoteUpdate)
    requires u in Gone(remotes, accessed)
    ensures u.state == Deleted
  {
    var before := Gone(remotes[..|remotes| - 1], accessed);
    if u in before {
      GoneIn(remotes[..|remotes| - 1], accessed, u);
    }
  }

  /** New and updated branches together are those that moved. */
  lemma MovedByState(t: Tables, repo: RepoId, current: seq<Remote>, remotes: seq<Remote>, r: Remote)
    requires MapOf(current) == BranchesOf(t, repo)
    ensures var updates := Changed(MapOf(current), remotes) + Gone(current, NamesOf(remotes));
            && (r in WithState(updates, New) <==> r in remotes && (repo, r.name) !in t.branches)
            && (r in WithState(updates, New) + WithState(updates, Updated) <==> r in Moved(t, repo, remotes))
  {
    var known := MapOf(current);
    assert r.name in known <==> (repo, r.name) in t.branches;
    forall state: UpdateState | state != Deleted
      ensures r in WithState(Changed(known, remotes) + Gone(current, NamesOf(remotes)), state)
              <==> RemoteUpdate(r, state) in Changed(known, remotes)
    {
      var gone := Gone(current, NamesOf(remotes));
      WithStateIn(Changed(known, remotes) + gone, state, r);
      if RemoteUpdate(r, state) in gone {
        GoneIn(current, NamesOf(remotes), RemoteUpdate(r, state));
      }
    }
    ChangedIn(known, remotes, RemoteUpdate(r, New));
    ChangedIn(known, remotes, RemoteUpdate(r, Updated));
  }

  /** Setting the branches that moved is enough. */
  lemma OthersAreKept(t: Tables, repo: RepoId, remotes: seq<Remote>, all: seq<Remote>, t': Tables)
    requires Elements(all) == Moved(t, repo, remotes)
    requires forall r | r in all :: (repo, r.name) in t'.branches && t'.branches[(repo, r.name)] == r.hash
    requires forall key: (RepoId, Name) | !Lists(repo, all, key) ::
               (key in t'.branches <==> key in t.branches) && (key in t.branches ==> t'.branches[key] == t.branches[key])
    requires Distinct(remotes)
    ensures forall r | r in remotes :: (repo, r.name) in t'.branches && t'.branches[(repo, r.name)] == r.hash
    ensures forall key: (RepoId, Name) | !Lists(repo, remotes, key) ::
              (key in t'.branches <==> key in t.branches) && (key in t.branches ==> t'.branches[key] == t.branches[key])
  {
    forall r | r in remotes ensures (repo, r.name) in t'.branches && t'.branches[(repo, r.name)] == r.hash {
      if r in Moved(t, repo, remotes) {
        assert r in Elements(all);
      } else {
        forall q | q in all ensures q.name != r.name {
          assert q in Elements(all) && q in remotes && q != r;
        }
        assert !Lists(repo, all, (repo, r.name));
      }
    }
    forall key: (RepoId, Name) | !Lists(repo, remotes, key) ensures !Lists(repo, all, key) {
      forall r | r in all ensures r in remotes {
        assert r in Elements(all);
      }
    }
  }

  // ---------- The database ----------

  class GitDatabase {
    var objects: set<Hash>
    var branches: map<(RepoId, Name), Hash>
    var links: seq<Link>

    ghost function Value(): Tables
      reads this
    {
      Tables(objects, branches, links)
    }

    /** The branches of a repository with the hashes of their objects, in some order. */
    method CurrentRemotes(repo: RepoId) returns (current: seq<Remote>)
      ensures MapOf(current) == BranchesOf(Value(), repo)
    {
      current := [];
      var left := set key | key in branches && key.0 == repo;
      while left != {}
        invariant left <= branches.Keys && forall key | key in left :: key.0 == repo
        invariant MapOf(current) == map key | key in branches && key.0 == repo && key !in left :: key.1 := branches[key]
        decreases left
      {
        var key :| key in left;
        current := current + [Remote(key.1, branches[key])];
        assert current[..|current| - 1] + [Remote(key.1, branches[key])] == current;
        left := left - {key};
      }
    }

    method UpsertObjects(remotes: seq<Remote>)
      modifies this`objects
      ensures objects == old(objects) + HashesOf(Elements(remotes))
    {
      for i := 0 to |remotes|
        invariant objects == old(objects) + HashesOf(Elements(remotes[..i]))
      {
        assert Elements(remotes[..i + 1]) == Elements(remotes[..i]) + {remotes[i]};
        objects := objects + {remotes[i].hash};
      }
      assert remotes[..|remotes|] == remotes;
    }

    method SetBranches(repo: RepoId, remotes: seq<Remote>)
      requires forall r, q | r in remotes && q in remotes && r.name == q.name :: r == q
      modifies this`branches
      ensures forall r | r in remotes :: (repo, r.name) in branches && branches[(repo, r.name)] == r.hash
      ensures forall key: (RepoId, Name) | !Lists(repo, remotes, key) ::
                (key in branches <==> key in old(branches)) && (key in branches ==> branches[key] == old(branches)[key])
    {
      for i := 0 to |remotes|
        invariant forall r | r in remotes[..i] :: (repo, r.name) in branches && branches[(repo, r.name)] == r.hash
        invariant forall key: (RepoId, Name) | !Lists(repo, remotes[..i], key) ::
                    (key in branches <==> key in old(branches)) && (key in branches ==> branches[key] == old(branches)[key])
      {
        assert remotes[..i + 1] == remotes[..i] + [remotes[i]];
        branches := branches[(repo, remotes[i].name) := remotes[i].hash];
      }
      assert remotes[..|remotes|] == remotes;
    }

    /** A link is added unless there is one already. */
    method AddLinks(repo: RepoId, remotes: seq<Remote>)
      modifies this`links
      ensures old(links) <= links && (NoRepeats(old(links)) ==> NoRepeats(links))
      ensures LinkRows(links) == LinkRows(old(links)) + LinksFor(repo, Elements(remotes))
    {
      for i := 0 to |remotes|
        invariant old(links) <= links && (NoRepeats(old(links)) ==> NoRepeats(links))
        invariant LinkRows(links) == LinkRows(old(links)) + LinksFor(repo, Elements(remotes[..i]))
      {
        assert Elements(remotes[..i + 1]) == Elements(remotes[..i]) + {remotes[i]};
        var link := Link(remotes[i].hash, repo, remotes[i].name);
        ghost var rows := LinkRows(links);
        if link !in links {
          links := links + [link];
        }
        assert LinkRows(links) == rows + {link};
        assert LinksFor(repo, Elements(remotes[..i + 1])) == LinksFor(repo, Elements(remotes[..i])) + {link};
      }
      assert remotes[..|remotes|] == remotes;
    }

    method Select(updates: seq<RemoteUpdate>, state: UpdateState) returns (selected: seq<Remote>)
      ensures selected == WithState(updates, state)
    {
      selected := [];
      for i := 0 to |updates|
        invariant selected == WithState(updates[..i], state)
      {
        assert updates[..i + 1][..i] == updates[..i];
        if updates[i].state == state {
          selected := selected + [updates[i].remoteInfo];
        }
      }
      assert updates[..|updates|] == updates;
    }

    /** The branches to create and to update. */
    method Plan(repo: RepoId, newRemotes: seq<Remote>) returns (newBranches: seq<Remote>, updatedBranches: seq<Remote>)
      ensures forall r :: r in newBranches <==> r in newRemotes && (repo, r.name) !in branches
      ensures Elements(newBranches + updatedBranches) == Moved(Value(), repo, newRemotes)
    {
      var current := CurrentRemotes(repo);
      var updates := FindRemoteUpdates(current, newRemotes);
      newBranches := Select(updates, New);
      updatedBranches := Select(updates, Updated);
      forall r
        ensures r in newBranches <==> r in newRemotes && (repo, r.name) !in branches
        ensures r in Elements(newBranches + updatedBranches) <==> r in Moved(Value(), repo, newRemotes)
      {
        MovedByState(Value(), repo, current, newRemotes, r);
      }
    }

    /** `touched` tells whether the time of the last update of the repository is set. */
    method UpdateBranches(repo: RepoId, newRemotes: seq<Remote>) returns (newBranches: seq<Remote>, touched: bool)
      requires Distinct(newRemotes)
      modifies this
      ensures Synchronised(old(Value()), repo, newRemotes, Value())
      ensures forall r :: r in newBranches <==> r in newRemotes && (repo, r.name) !in old(branches)
      ensures touched <==> Moved(old(Value()), repo, newRemotes) != {}
    {
      ghost var before := Value();
      var updatedBranches;
      newBranches, updatedBranches := Plan(repo, newRemotes);
      var allBranches := newBranches + updatedBranches;
      forall r | r in allBranches ensures r in newRemotes {
        assert r in Elements(allBranches);
      }
      UpsertObjects(allBranches);
      SetBranches(repo, allBranches);
      AddLinks(repo, allBranches);
      OthersAreKept(before, repo, newRemotes, allBranches, Value());
      touched := |newBranches| + |updatedBranches| > 0;
      assert touched ==> allBranches[0] in Elements(allBranches);
    }
  }

  // ---------- What synchronising keeps ----------

  lemma ObjectsAndLinks(t: Tables, repo: RepoId, remotes: seq<Remote>, t': Tables)
    requires Synchronised(t, repo, remotes, t') && Sound(t)
    ensures forall r | r in remotes :: r.hash in t'.objects && Link(r.hash, repo, r.name) in t'.links
  {
    forall r | r in remotes ensures r.hash in t'.objects && Link(r.hash, repo, r.name) in t'.links {
      if r in Moved(t, repo, remotes) {
        assert Link(r.hash, repo, r.name) in LinkRows(t'.links);
      } else {
        assert Link(t.branches[(repo, r.name)], repo, r.name) in t.links;
      }
    }
  }

  /** Every branch always has a link to its current object. */
  lemma SynchronisingKeepsSound(t: Tables, repo: RepoId, remotes: seq<Remote>, t': Tables)
    requires Synchronised(t, repo, remotes, t') && Sound(t)
    ensures Sound(t')
  {
    ObjectsAndLinks(t, repo, remotes, t');
    forall key | key in t'.branches
      ensures t'.branches[key] in t'.objects && Link(t'.branches[key], key.0, key.1) in t'.links
    {
      if Lists(repo, remotes, key) {
        var r :| r in remotes && r.name == key.1;
        assert t'.branches[(repo, r.name)] == r.hash && key == (repo, r.name);
      } else {
        assert t'.branches[key] == t.branches[key];
      }
    }
  }

  lemma AddedAreNew(links: seq<Link>, links': seq<Link>)
    requires links <= links' && NoRepeats(links')
    ensures forall i | |links| <= i < |links'| :: links'[i] !in LinkRows(links)
  {
    assert forall j | 0 <= j < |links| :: links'[j] == links[j];
  }

  lemma LongerMeansMore(links: seq<Link>, links': seq<Link>)
    requires links <= links' && NoRepeats(links') && links' != links
    ensures LinkRows(links') != LinkRows(links)
  {
    AddedAreNew(links, links');
    assert links'[|links|] in LinkRows(links');
  }

  lemma SameBranches(t: Tables, repo: RepoId, remotes: seq<Remote>, t': Tables, t'': Tables)
    requires Synchronised(t, repo, remotes, t') && Synchronised(t', repo, remotes, t'')
    ensures t''.branches == t'.branches
  {
    forall key: (RepoId, Name)
      ensures key in t''.branches <==> key in t'.branches
      ensures key in t'.branches ==> t''.branches[key] == t'.branches[key]
    {
      if Lists(repo, remotes, key) {
        var r :| r in remotes && r.name == key.1;
        assert key == (repo, r.name);
      }
    }
  }

  /** A second run with the same remotes changes nothing. */
  lemma SecondRunChangesNothing(t: Tables, repo: RepoId, remotes: seq<Remote>, t': Tables, t'': Tables)
    requires Sound(t) && Synchronised(t, repo, remotes, t') && Synchronised(t', repo, remotes, t'')
    ensures t'' == t' && Moved(t', repo, remotes) == {}
  {
    assert Moved(t', repo, remotes) == {};
    SameBranches(t, repo, remotes, t', t'');
    SynchronisingKeepsSound(t, repo, remotes, t');
    if t''.links != t'.links {
      LongerMeansMore(t'.links, t''.links);
    }
  }

  datatype Sync = Sync(repo: RepoId, remotes: seq<Remote>)

  ghost predicate Run(tables: seq<Tables>, syncs: seq<Sync>) {
    && |tables| == |syncs| + 1 && Sound(tables[0])
    && forall i | 0 <= i < |syncs| :: Synchronised(tables[i], syncs[i].repo, syncs[i].remotes, tables[i + 1])
  }

  /** The links remember every object that a branch ever pointed to, which is what
      prebuilds are ranked by. */
  lemma {:induction false} LinksRememberHistory(tables: seq<Tables>, syncs: seq<Sync>, i: nat, j: nat)
    requires Run(tables, syncs) && i <= j < |tables|
    ensures Sound(tables[j]) && tables[i].links <= tables[j].links
    ensures forall key | key in tables[i].branches ::
              key in tables[j].branches && Link(tables[i].branches[key], key.0, key.1) in tables[j].links
    decreases j
  {
    if j > 0 {
      var k := j - 1;
      LinksRememberHistory(tables, syncs, if i < j then i else k, k);
      SynchronisingKeepsSound(tables[k], syncs[k].repo, syncs[k].remotes, tables[j]);
      if i < j {
        BranchesStay(tables[k], syncs[k].repo, syncs[k].remotes, tables[j]);
      }
    }
  }

  lemma BranchesStay(t: Tables, repo: RepoId, remotes: seq<Remote>, t': Tables)
    requires Synchronised(t, repo, remotes, t')
    ensures t.branches.Keys <= t'.branches.Keys
  {
    forall key | key in t.branches ensures key in t'.branches {
      if Lists(repo, remotes, key) {
        var r :| r in remotes && r.name == key.1;
        assert key == (repo, r.name);
      }
    }
  }
}
