/** Loading the initial configuration into the database and dumping the database as
    such a configuration. */
module InitConfig {
  import opened Wrappers

  // ---------- Configuration and tables ----------

  datatype PublicKey = PublicKey(name: string, publicKey: string)

  datatype GitIdentity = GitIdentity(username: string, email: string)

  datatype Limits = Limits(prebuildRamMib: nat, prebuildVcpus: nat, workspaceRamMib: nat, workspaceVcpus: nat)

  datatype RepoConfig = RepoConfig(url: string, publicKey: string, privateKey: string)

  datatype UserConfig = UserConfig(externalId: string, git: GitIdentity, publicKeys: seq<PublicKey>)

  datatype ProjectConfig = ProjectConfig(externalId: string, repoUrl: string, data: ProjectData)

  /** What a project has besides its identity and its repository. */
  datatype ProjectData = ProjectData(
    name: string,
    rootDirectoryPath: string,
    env: map<string, string>,
    userEnv: map<string, map<string, string>>,
    limits: Limits)

  datatype Config = Config(repos: seq<RepoConfig>, users: seq<UserConfig>, projects: seq<ProjectConfig>)

  datatype User = User(git: GitIdentity, keys: seq<PublicKey>)

  datatype KeyPair = KeyPair(publicKey: string, privateKey: string, serverControlled: bool)

  datatype Project = Project(repoUrl: string, data: ProjectData)

  /** Users and projects by external id, repositories by url with the row of their key pair. */
  datatype Tables = Tables(
    users: map<string, User>,
    keyPairs: seq<KeyPair>,
    repos: map<string, nat>,
    projects: map<string, Project>)

  const EMPTY := Tables(map[], [], map[], map[])

  const DEFAULT_LIMITS := Limits(4096, 4, 8192, 8)

  /** Parsing of keys, the test for git urls and the order of strings. */
  datatype Tools = Tools(
    derive: string -> Option<string>,
    isGitUrl: string -> bool,
    before: (string, string) -> bool)

  datatype LoadError = BadPrivateKey | UnknownRepo | BadUrl | WrongKeyPair | RepoHasOtherKeyPair | UnknownUser

  // ---------- Users ----------

  function AddMissing(keys: seq<PublicKey>, more: seq<PublicKey>): seq<PublicKey> {
    if more == [] then keys
    else
      var some, last := AddMissing(keys, more[..|more| - 1]), more[|more| - 1];
      if last in some then some else some + [last]
  }

  /** A new user gets all keys as they are; the git identity is always overwritten. */
  function UserAfter(users: map<string, User>, u: UserConfig): User {
    User(u.git, AddMissing(if u.externalId in users then users[u.externalId].keys else u.publicKeys, u.publicKeys))
  }

  function UsersAfter(users: map<string, User>, us: seq<UserConfig>): map<string, User> {
    if us == [] then users
    else
      var some, last := UsersAfter(users, us[..|us| - 1]), us[|us| - 1];
      some[last.externalId := UserAfter(some, last)]
  }

  // ---------- Key pairs ----------

  predicate IsSpace(c: char) {
    c == ' ' || '\t' <= c <= '\r'
  }

  function TrimStart(s: string): string {
    if s != "" && IsSpace(s[0]) then TrimStart(s[1..]) else s
  }

  function TrimEnd(s: string): string {
    if s != "" && IsSpace(s[|s| - 1]) then TrimEnd(s[..|s| - 1]) else s
  }

  function Normalized(privateKey: string): string {
    TrimEnd(TrimStart(privateKey)) + "\n"
  }

  /** The first row with a public key. */
  function FindPair(keyPairs: seq<KeyPair>, publicKey: string): (r: Option<nat>)
    ensures r.Some? ==> r.value < |keyPairs| && keyPairs[r.value].publicKey == publicKey
    ensures r.None? ==> forall k | k in keyPairs :: k.publicKey != publicKey
  {
    if keyPairs == [] then None
    else
      match FindPair(keyPairs[..|keyPairs| - 1], publicKey)
      case Some(i) => Some(i)
      case None => if keyPairs[|keyPairs| - 1].publicKey == publicKey then Some(|keyPairs| - 1) else None
  }

  /** The key pair of every public key, and the public key of every url, as the loader notes them. */
  datatype Keys = Keys(keyPairs: seq<KeyPair>, ids: map<string, nat>, urls: map<string, string>)

  function KeyAfter(tools: Tools, keys: Keys, r: RepoConfig): Result<Keys, LoadError> {
    var urls := keys.urls[r.url := r.publicKey];
    if r.publicKey in keys.ids then Success(keys.(urls := urls))
    else
      match FindPair(keys.keyPairs, r.publicKey)
      case Some(i) => Success(Keys(keys.keyPairs, keys.ids[r.publicKey := i], urls))
      case None =>
        match tools.derive(r.privateKey)
        case None => Failure(BadPrivateKey)
        case Some(publicKey) =>
          Success(Keys(keys.keyPairs + [KeyPair(publicKey, Normalized(r.privateKey), true)],
                       keys.ids[r.publicKey := |keys.keyPairs|], urls))
  }

  function KeysAfter(tools: Tools, keyPairs: seq<KeyPair>, repos: seq<RepoConfig>): Result<Keys, LoadError> {
    if repos == [] then Success(Keys(keyPairs, map[], map[]))
    else
      match KeysAfter(tools, keyPairs, repos[..|repos| - 1])
      case Failure(e) => Failure(e)
      case Success(keys) => KeyAfter(tools, keys, repos[|repos| - 1])
  }

  // ---------- Projects ----------

  /** The repository of a url, created when there is none with that key pair. */
  function RepoAfter(tools: Tools, t: Tables, url: string, id: nat): Result<Tables, LoadError> {
    if url in t.repos && t.repos[url] == id then Success(t)
    else if !tools.isGitUrl(url) then Failure(BadUrl)
    else if id >= |t.keyPairs| || !t.keyPairs[id].serverControlled then Failure(WrongKeyPair)
    else if url in t.repos then Failure(RepoHasOtherKeyPair)
    else Success(t.(repos := t.repos[url := id]))
  }

  function ProjectAfter(tools: Tools, t: Tables, keys: Keys, p: ProjectConfig): Result<Tables, LoadError> {
    if p.externalId in t.projects then Success(t)
    else if p.repoUrl !in keys.urls || keys.urls[p.repoUrl] !in keys.ids then Failure(UnknownRepo)
    else
      match RepoAfter(tools, t, p.repoUrl, keys.ids[keys.urls[p.repoUrl]])
      case Failure(e) => Failure(e)
      case Success(u) =>
        if p.data.userEnv.Keys <= u.users.Keys
        then Success(u.(projects := u.projects[p.externalId := Project(p.repoUrl, p.data)]))
        else Failure(UnknownUser)
  }

  function ProjectsAfter(tools: Tools, t: Tables, keys: Keys, ps: seq<ProjectConfig>): Result<Tables, LoadError> {
    if ps == [] then Success(t)
    else
      match ProjectsAfter(tools, t, keys, ps[..|ps| - 1])
      case Failure(e) => Failure(e)
      case Success(u) => ProjectAfter(tools, u, keys, ps[|ps| - 1])
  }

  function Loaded(tools: Tools, t: Tables, config: Config): Result<Tables, LoadError> {
    match KeysAfter(tools, t.keyPairs, config.repos)
    case Failure(e) => Failure(e)
    case Success(keys) =>
      var u := t.(users := UsersAfter(t.users, config.users), keyPairs := keys.keyPairs);
      ProjectsAfter(tools, u, keys, config.projects)
  }

  // ---------- The database ----------

  /** Nothing is deleted: users keep their keys, and projects, repositories and key pairs are
      as they were. */
  ghost predicate Grown(t: Tables, t': Tables) {
    && (forall id | id in t.users :: id in t'.users && t.users[id].keys <= t'.users[id].keys)
    && t.keyPairs <= t'.keyPairs
    && (forall url | url in t.repos :: url in t'.repos && t'.repos[url] == t.repos[url])
    && (forall id | id in t.projects :: id in t'.projects && t'.projects[id] == t.projects[id])
  }

  class Database {
    var users: map<string, User>
    var keyPairs: seq<KeyPair>
    var repos: map<string, nat>
    var projects: map<string, Project>

    ghost function Value(): Tables
      reads this
    {
      Tables(users, keyPairs, repos, projects)
    }

    constructor ()
      ensures Value() == EMPTY
    {
      users, keyPairs, repos, projects := map[], [], map[], map[];
    }

    method AddKeys(id: string, publicKeys: seq<PublicKey>)
      requires id in users
      modifies this`users
      ensures users == old(users)[id := User(old(users[id].git), AddMissing(old(users[id].keys), publicKeys))]
    {
      for i := 0 to |publicKeys|
        invariant users == old(users)[id := User(old(users[id].git), AddMissing(old(users[id].keys), publicKeys[..i]))]
      {
        assert publicKeys[..i + 1][..i] == publicKeys[..i];
        var user := users[id];
        if publicKeys[i] !in user.keys {
          users := users[id := user.(keys := user.keys + [publicKeys[i]])];
        }
      }
      assert publicKeys[..|publicKeys|] == publicKeys;
    }

    method CreateUsers(us: seq<UserConfig>)
      modifies this`users
      ensures users == UsersAfter(old(users), us)
    {
      for i := 0 to |us|
        invariant users == UsersAfter(old(users), us[..i])
      {
        assert us[..i + 1][..i] == us[..i];
        ghost var some := users;
        var u := us[i];
        if u.externalId !in users {
          users := users[u.externalId := User(u.git, u.publicKeys)];
        }
        users := users[u.externalId := users[u.externalId].(git := u.git)];
        AddKeys(u.externalId, u.publicKeys);
        assert users == some[u.externalId := UserAfter(some, u)];
      }
      assert us[..|us|] == us;
    }

    /** On an error the key pairs created before it stay. */
    method CreateKeyPairs(tools: Tools, configs: seq<RepoConfig>) returns (r: Result<Keys, LoadError>)
      modifies this`keyPairs
      ensures r == KeysAfter(tools, old(keyPairs), configs)
      ensures old(keyPairs) <= keyPairs && (r.Success? ==> keyPairs == r.value.keyPairs)
    {
      var ids: map<string, nat>, urls: map<string, string> := map[], map[];
      for i := 0 to |configs|
        invariant KeysAfter(tools, old(keyPairs), configs[..i]) == Success(Keys(keyPairs, ids, urls))
        invariant old(keyPairs) <= keyPairs
      {
        assert configs[..i + 1][..i] == configs[..i];
        var repo := configs[i];
        urls := urls[repo.url := repo.publicKey];
        if repo.publicKey !in ids {
          var id := FindPair(keyPairs, repo.publicKey);
          if id == None {
            var publicKey := tools.derive(repo.privateKey);
            if publicKey == None {
              FailsAt(tools, old(keyPairs), configs, i + 1);
              return Failure(BadPrivateKey);
            }
            id := Some(|keyPairs|);
            keyPairs := keyPairs + [KeyPair(publicKey.value, Normalized(repo.privateKey), true)];
          }
          ids := ids[repo.publicKey := id.value];
        }
      }
      assert configs[..|configs|] == configs;
      r := Success(Keys(keyPairs, ids, urls));
    }

    /** One transaction: the project starts with the default limits and empty environments. */
    method AddProjectAndRepository(tools: Tools, id: string, url: string, name: string, root: string, keyPair: nat)
      returns (r: Result<(), LoadError>)
      requires id !in projects
      modifies this`repos, this`projects
      ensures match RepoAfter(tools, old(Value()), url, keyPair)
              case Failure(e) => r == Failure(e) && Value() == old(Value())
              case Success(t) =>
                && r == Success(())
                && Value() == t.(projects := t.projects[id := Project(url, ProjectData(name, root, map[], map[], DEFAULT_LIMITS))])
    {
      if !(url in repos && repos[url] == keyPair) {
        if !tools.isGitUrl(url) {
          return Failure(BadUrl);
        }
        if keyPair >= |keyPairs| || !keyPairs[keyPair].serverControlled {
          return Failure(WrongKeyPair);
        }
        if url in repos {
          return Failure(RepoHasOtherKeyPair);
        }
        repos := repos[url := keyPair];
      }
      projects := projects[id := Project(url, ProjectData(name, root, map[], map[], DEFAULT_LIMITS))];
      return Success(());
    }

    method SetData(id: string, data: ProjectData)
      requires id in projects
      modifies this`projects
      ensures projects == old(projects)[id := Project(old(projects)[id].repoUrl, data)]
    {
      projects := projects[id := projects[id].(data := data)];
    }

    /** The environments of users, in any order, up to the first unknown user. */
    method SetUserEnvironments(id: string, userEnv: map<string, map<string, string>>) returns (r: Result<(), LoadError>)
      requires id in projects && projects[id].data.userEnv == map[]
      modifies this`projects
      ensures r == if userEnv.Keys <= users.Keys then Success(()) else Failure(UnknownUser)
      ensures exists done: map<string, map<string, string>> :: done.Keys <= userEnv.Keys
                && projects == old(projects)[id := old(projects)[id].(data := old(projects)[id].data.(userEnv := done))]
                && (r.Success? ==> done == userEnv)
    {
      var left := userEnv.Keys;
      ghost var was := projects[id];
      while left != {}
        invariant left <= userEnv.Keys && userEnv.Keys - left <= users.Keys
        invariant projects == old(projects)[id := was.(data := was.data.(userEnv := map u | u in userEnv && u !in left :: userEnv[u]))]
        decreases left
      {
        var user :| user in left;
        if user !in users {
          return Failure(UnknownUser);
        }
        var data := projects[id].data;
        left := left - {user};
        SetData(id, data.(userEnv := data.userEnv[user := userEnv[user]]));
        assert data.userEnv[user := userEnv[user]] == map u | u in userEnv && u !in left :: userEnv[u];
      }
      assert (map u | u in userEnv && u !in left :: userEnv[u]) == userEnv;
      return Success(());
    }

    /** The limits and the environments of a project just created; only its own row changes. */
    method FillIn(id: string, data: ProjectData) returns (r: Result<(), LoadError>)
      requires id in projects
      requires projects[id].data == ProjectData(data.name, data.rootDirectoryPath, map[], map[], DEFAULT_LIMITS)
      modifies this`projects
      ensures r == if data.userEnv.Keys <= users.Keys then Success(()) else Failure(UnknownUser)
      ensures id in projects && projects == old(projects)[id := projects[id]]
      ensures r.Success? ==> projects[id] == Project(old(projects)[id].repoUrl, data)
    {
      SetData(id, projects[id].data.(limits := data.limits));
      r := SetUserEnvironments(id, data.userEnv);
      if r.Failure? {
        return;
      }
      SetData(id, projects[id].data.(env := data.env));
    }

    method CreateProject(tools: Tools, keys: Keys, p: ProjectConfig) returns (r: Result<(), LoadError>)
      modifies this`repos, this`projects
      ensures match ProjectAfter(tools, old(Value()), keys, p)
              case Failure(e) => r == Failure(e) && Grown(old(Value()), Value())
              case Success(t) => r == Success(()) && Value() == t
    {
      var id := p.externalId;
      if id in projects {
        return Success(());
      }
      if p.repoUrl !in keys.urls || keys.urls[p.repoUrl] !in keys.ids {
        return Failure(UnknownRepo);
      }
      r := AddProjectAndRepository(tools, id, p.repoUrl, p.data.name, p.data.rootDirectoryPath,
                                   keys.ids[keys.urls[p.repoUrl]]);
      if r.Success? {
        r := FillIn(id, p.data);
      }
    }

    method CreateProjects(tools: Tools, keys: Keys, configs: seq<ProjectConfig>) returns (r: Result<(), LoadError>)
      modifies this`repos, this`projects
      ensures match ProjectsAfter(tools, old(Value()), keys, configs)
              case Failure(e) => r == Failure(e) && Grown(old(Value()), Value())
              case Success(t) => r == Success(()) && Value() == t
    {
      for i := 0 to |configs|
        invariant ProjectsAfter(tools, old(Value()), keys, configs[..i]) == Success(Value())
      {
        assert configs[..i + 1][..i] == configs[..i];
        ProjectsGrow(tools, old(Value()), keys, configs[..i]);
        ghost var before := Value();
        r := CreateProject(tools, keys, configs[i]);
        if r.Failure? {
          ProjectsFailAt(tools, old(Value()), keys, configs, i + 1);
          return;
        }
      }
      assert configs[..|configs|] == configs;
      return Success(());
    }

    /** `loadConfig`: the specified tables, or an error and nothing deleted. */
    method Load(tools: Tools, config: Config) returns (r: Result<(), LoadError>)
      modifies this
      ensures match Loaded(tools, old(Value()), config)
              case Failure(e) => r == Failure(e)
              case Success(t) => r == Success(()) && Value() == t
      ensures Grown(old(Value()), Value())
    {
      CreateUsers(config.users);
      UsersGrow(old(users), config.users);
      var keys := CreateKeyPairs(tools, config.repos);
      if keys.Failure? {
        return Failure(keys.error);
      }
      ghost var before := Value();
      r := CreateProjects(tools, keys.value, config.projects);
      if r.Success? {
        ProjectsGrow(tools, before, keys.value, config.projects);
      }
    }
  }

  // ---------- Loading deletes nothing ----------

  lemma {:induction false} AddMissingKeeps(keys: seq<PublicKey>, more: seq<PublicKey>)
    ensures keys <= AddMissing(keys, more)
    ensures forall k | k in more :: k in AddMissing(keys, more)
    ensures (forall k | k in more :: k in keys) ==> AddMissing(keys, more) == keys
  {
    if more != [] {
      AddMissingKeeps(keys, more[..|more| - 1]);
      assert more == more[..|more| - 1] + [more[|more| - 1]];
    }
  }

  lemma {:induction false} UsersGrow(users: map<string, User>, us: seq<UserConfig>)
    ensures forall id | id in users :: id in UsersAfter(users, us) && users[id].keys <= UsersAfter(users, us)[id].keys
  {
    if us != [] {
      var rest, last := us[..|us| - 1], us[|us| - 1];
      UsersGrow(users, rest);
      var some := UsersAfter(users, rest);
      if last.externalId in some {
        AddMissingKeeps(some[last.externalId].keys, last.publicKeys);
      }
    }
  }

  lemma {:induction false} ProjectsGrow(tools: Tools, t: Tables, keys: Keys, ps: seq<ProjectConfig>)
    ensures ProjectsAfter(tools, t, keys, ps).Success? ==>
              Grown(t, ProjectsAfter(tools, t, keys, ps).value)
              && ProjectsAfter(tools, t, keys, ps).value.users == t.users
              && ProjectsAfter(tools, t, keys, ps).value.keyPairs == t.keyPairs
  {
    if ps != [] {
      ProjectsGrow(tools, t, keys, ps[..|ps| - 1]);
    }
  }

  /** An error ends the load. */
  lemma {:induction false} FailsAt(tools: Tools, keyPairs: seq<KeyPair>, repos: seq<RepoConfig>, i: nat)
    requires i <= |repos| && KeysAfter(tools, keyPairs, repos[..i]).Failure?
    ensures KeysAfter(tools, keyPairs, repos) == Failure(KeysAfter(tools, keyPairs, repos[..i]).error)
  {
    if i == |repos| {
      assert repos[..i] == repos;
    } else {
      assert repos[..|repos| - 1][..i] == repos[..i];
      FailsAt(tools, keyPairs, repos[..|repos| - 1], i);
    }
  }

  lemma {:induction false} ProjectsFailAt(tools: Tools, t: Tables, keys: Keys, ps: seq<ProjectConfig>, i: nat)
    requires i <= |ps| && ProjectsAfter(tools, t, keys, ps[..i]).Failure?
    ensures ProjectsAfter(tools, t, keys, ps) == Failure(ProjectsAfter(tools, t, keys, ps[..i]).error)
  {
    if i == |ps| {
      assert ps[..i] == ps;
    } else {
      assert ps[..|ps| - 1][..i] == ps[..i];
      ProjectsFailAt(tools, t, keys, ps[..|ps| - 1], i);
    }
  }
}
