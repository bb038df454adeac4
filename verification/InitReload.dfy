/** Loading the same configuration a second time. */
module InitReload {
  import opened Wrappers
  import opened InitConfig

  // ---------- Users ----------

  /** The git identity that the last entry of a user gives it. */
  function LastGit(us: seq<UserConfig>, id: string, git: GitIdentity): GitIdentity {
    if us == [] then git
    else if us[|us| - 1].externalId == id then us[|us| - 1].git
    else LastGit(us[..|us| - 1], id, git)
  }

  predicate Mentions(us: seq<UserConfig>, id: string) {
    exists u :: u in us && u.externalId == id
  }

  lemma {:induction false} LastGitIsFixed(us: seq<UserConfig>, id: string, git: GitIdentity)
    ensures LastGit(us, id, LastGit(us, id, git)) == LastGit(us, id, git)
    ensures Mentions(us, id) ==> forall g :: LastGit(us, id, g) == LastGit(us, id, git)
  {
    if us != [] && us[|us| - 1].externalId != id {
      LastGitIsFixed(us[..|us| - 1], id, git);
      assert us == us[..|us| - 1] + [us[|us| - 1]];
    }
  }

  ghost predicate AllThere(users: map<string, User>, us: seq<UserConfig>) {
    forall u | u in us :: u.externalId in users && forall k | k in u.publicKeys :: k in users[u.externalId].keys
  }

  /** After a load every listed user is there with its keys and its last identity. */
  lemma {:induction false} UsersAreThere(users: map<string, User>, us: seq<UserConfig>)
    ensures AllThere(UsersAfter(users, us), us)
    ensures forall id | id in UsersAfter(users, us) && Mentions(us, id) ::
              forall g :: UsersAfter(users, us)[id].git == LastGit(us, id, g)
  {
    if us != [] {
      var rest, last := us[..|us| - 1], us[|us| - 1];
      var some := UsersAfter(users, rest);
      UsersAreThere(users, rest);
      assert us == rest + [last];
      AddMissingKeeps(if last.externalId in some then some[last.externalId].keys else last.publicKeys, last.publicKeys);
    }
  }

  /** A load of users that are there changes nothing but identities. */
  lemma {:induction false} SecondPass(users: map<string, User>, us: seq<UserConfig>)
    requires AllThere(users, us)
    ensures UsersAfter(users, us).Keys == users.Keys
    ensures forall id | id in users ::
              UsersAfter(users, us)[id] == User(LastGit(us, id, users[id].git), users[id].keys)
  {
    if us != [] {
      var rest, last := us[..|us| - 1], us[|us| - 1];
      assert us == rest + [last];
      SecondPass(users, rest);
      AddMissingKeeps(users[last.externalId].keys, last.publicKeys);
    }
  }

  lemma UsersTwice(users: map<string, User>, us: seq<UserConfig>)
    ensures UsersAfter(UsersAfter(users, us), us) == UsersAfter(users, us)
  {
    var once := UsersAfter(users, us);
    UsersAreThere(users, us);
    SecondPass(once, us);
    forall id | id in once ensures LastGit(us, id, once[id].git) == once[id].git {
      if Mentions(us, id) {
        assert once[id].git == LastGit(us, id, once[id].git);
      } else {
        NotMentioned(us, id, once[id].git);
      }
    }
  }

  lemma {:induction false} NotMentioned(us: seq<UserConfig>, id: string, git: GitIdentity)
    requires !Mentions(us, id)
    ensures LastGit(us, id, git) == git
  {
    if us != [] {
      assert us[|us| - 1] in us && forall u | u in us[..|us| - 1] :: u in us;
      NotMentioned(us[..|us| - 1], id, git);
    }
  }

  // ---------- Key pairs ----------

  /** Every listed public key has a row. */
  ghost predicate PublicKeysFound(keyPairs: seq<KeyPair>, repos: seq<RepoConfig>) {
    forall r | r in repos :: FindPair(keyPairs, r.publicKey).Some?
  }

  /** Noting the keys of repositories: their public keys and urls, and rows that are only added. */
  lemma {:induction false} KeysNoted(tools: Tools, keyPairs: seq<KeyPair>, repos: seq<RepoConfig>)
    requires KeysAfter(tools, keyPairs, repos).Success?
    ensures keyPairs <= KeysAfter(tools, keyPairs, repos).value.keyPairs
    ensures forall k | k in KeysAfter(tools, keyPairs, repos).value.ids :: exists r :: r in repos && r.publicKey == k
  {
    if repos != [] {
      var rest, last := repos[..|repos| - 1], repos[|repos| - 1];
      assert repos == rest + [last];
      KeysNoted(tools, keyPairs, rest);
      forall k | k in KeysAfter(tools, keyPairs, repos).value.ids ensures exists r :: r in repos && r.publicKey == k {
        if k == last.publicKey {
          assert last in repos;
        } else {
          var r :| r in rest && r.publicKey == k;
          assert r in repos;
        }
      }
    }
  }

  /** A public key without a row adds one. */
  lemma {:induction false} MissingKeysAreAdded(tools: Tools, keyPairs: seq<KeyPair>, repos: seq<RepoConfig>)
    requires KeysAfter(tools, keyPairs, repos).Success? && !PublicKeysFound(keyPairs, repos)
    ensures |KeysAfter(tools, keyPairs, repos).value.keyPairs| > |keyPairs|
  {
    var rest, last := repos[..|repos| - 1], repos[|repos| - 1];
    assert repos == rest + [last];
    KeysNoted(tools, keyPairs, rest);
    if !PublicKeysFound(keyPairs, rest) {
      MissingKeysAreAdded(tools, keyPairs, rest);
    } else {
      FoundKeysSucceed(tools, keyPairs, rest);
      assert FindPair(keyPairs, last.publicKey).None?;
    }
  }

  lemma {:induction false} FoundKeysSucceed(tools: Tools, keyPairs: seq<KeyPair>, repos: seq<RepoConfig>)
    requires PublicKeysFound(keyPairs, repos)
    ensures KeysAfter(tools, keyPairs, repos).Success? && KeysAfter(tools, keyPairs, repos).value.keyPairs == keyPairs
  {
    if repos != [] {
      FoundKeysSucceed(tools, keyPairs, repos[..|repos| - 1]);
      assert forall r | r in repos[..|repos| - 1] :: r in repos;
    }
  }

  // ---------- Projects ----------

  lemma {:induction false} ProjectsAreThere(tools: Tools, t: Tables, keys: Keys, ps: seq<ProjectConfig>)
    requires ProjectsAfter(tools, t, keys, ps).Success?
    ensures forall p | p in ps :: p.externalId in ProjectsAfter(tools, t, keys, ps).value.projects
  {
    if ps != [] {
      ProjectsAreThere(tools, t, keys, ps[..|ps| - 1]);
      assert ps == ps[..|ps| - 1] + [ps[|ps| - 1]];
    }
  }

  lemma {:induction false} KnownProjectsAreSkipped(tools: Tools, t: Tables, keys: Keys, ps: seq<ProjectConfig>)
    requires forall p | p in ps :: p.externalId in t.projects
    ensures ProjectsAfter(tools, t, keys, ps) == Success(t)
  {
    if ps != [] {
      assert forall p | p in ps[..|ps| - 1] :: p in ps;
      KnownProjectsAreSkipped(tools, t, keys, ps[..|ps| - 1]);
    }
  }

  // ---------- Both together ----------

  lemma AfterLoad(tools: Tools, t: Tables, config: Config, t': Tables)
    requires Loaded(tools, t, config) == Success(t')
    ensures t'.users == UsersAfter(t.users, config.users)
    ensures forall p | p in config.projects :: p.externalId in t'.projects
  {
    var keys := KeysAfter(tools, t.keyPairs, config.repos).value;
    var u := t.(users := UsersAfter(t.users, config.users), keyPairs := keys.keyPairs);
    ProjectsGrow(tools, u, keys, config.projects);
    ProjectsAreThere(tools, u, keys, config.projects);
  }

  /** Loading a configuration again changes nothing if and only if, after the first load, all
      its public keys have a key pair, which those have that are derived from their private key. */
  lemma SecondLoadChangesNothing(tools: Tools, t: Tables, config: Config, t': Tables)
    requires Loaded(tools, t, config) == Success(t')
    ensures Loaded(tools, t', config) == Success(t') <==> PublicKeysFound(t'.keyPairs, config.repos)
  {
    AfterLoad(tools, t, config, t');
    UsersTwice(t.users, config.users);
    if PublicKeysFound(t'.keyPairs, config.repos) {
      FoundKeysSucceed(tools, t'.keyPairs, config.repos);
      var keys := KeysAfter(tools, t'.keyPairs, config.repos).value;
      KnownProjectsAreSkipped(tools, t', keys, config.projects);
    } else if KeysAfter(tools, t'.keyPairs, config.repos).Success? {
      MissingKeysAreAdded(tools, t'.keyPairs, config.repos);
      var keys := KeysAfter(tools, t'.keyPairs, config.repos).value;
      KnownProjectsAreSkipped(tools, t'.(keyPairs := keys.keyPairs), keys, config.projects);
    }
  }

  /** A public key that is written differently from the one derived, for example with another
      comment, makes every load add another key pair. */
  lemma UnderivedKeysPileUp(tools: Tools, t: Tables, config: Config, t': Tables)
    requires Loaded(tools, t, config) == Success(t') && !PublicKeysFound(t.keyPairs, config.repos)
    ensures |t'.keyPairs| > |t.keyPairs|
  {
    MissingKeysAreAdded(tools, t.keyPairs, config.repos);
    var keys := KeysAfter(tools, t.keyPairs, config.repos).value;
    ProjectsGrow(tools, t.(users := UsersAfter(t.users, config.users), keyPairs := keys.keyPairs), keys, config.projects);
  }

  /** A key pair listed with a comment behind its public key: the first load stores it without, and does not
      find it in the second. */
  lemma CommentedKeyIsStoredTwice(tools: Tools, url: string, privateKey: string, publicKey: string)
    requires tools.derive(privateKey) == Some(publicKey)
    ensures var config := Config([RepoConfig(url, publicKey + " me", privateKey)], [], []);
            var pair := KeyPair(publicKey, Normalized(privateKey), true);
            && Loaded(tools, EMPTY, config) == Success(EMPTY.(keyPairs := [pair]))
            && Loaded(tools, EMPTY.(keyPairs := [pair]), config) == Success(EMPTY.(keyPairs := [pair, pair]))
  {
    var repo := RepoConfig(url, publicKey + " me", privateKey);
    var pair := KeyPair(publicKey, Normalized(privateKey), true);
    assert |publicKey + " me"| > |publicKey|;
    assert [repo][..0] == [] && [pair][..0] == [];
    assert FindPair([], repo.publicKey) == None && FindPair([pair], repo.publicKey) == None;
    assert [pair] + [pair] == [pair, pair] && [] + [pair] == [pair];
    assert KeysAfter(tools, [], [repo]) == KeyAfter(tools, Keys([], map[], map[]), repo);
    assert KeysAfter(tools, [pair], [repo]) == KeyAfter(tools, Keys([pair], map[], map[]), repo);
  }
}
