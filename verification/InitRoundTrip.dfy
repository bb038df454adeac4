/** Dumping what was loaded: for a canonical configuration the dump gives it back. */
module InitRoundTrip {
  import opened Wrappers
  import opened InitConfig
  import InitReload

  // ---------- Sorting ----------

  /** Stable, by a string key, as `sort` with `localeCompare`. */
  function Insert<T>(before: (string, string) -> bool, key: T -> string, x: T, s: seq<T>): seq<T> {
    if s == [] then [x]
    else if before(key(s[0]), key(x)) then [s[0]] + Insert(before, key, x, s[1..])
    else [x] + s
  }

  function SortBy<T>(before: (string, string) -> bool, key: T -> string, s: seq<T>): seq<T> {
    if s == [] then [] else Insert(before, key, s[0], SortBy(before, key, s[1..]))
  }

  ghost predicate StrictlySorted<T>(before: (string, string) -> bool, key: T -> string, s: seq<T>) {
    forall i, j | 0 <= i < j < |s| :: before(key(s[i]), key(s[j]))
  }

  ghost predicate Asymmetric(before: (string, string) -> bool) {
    forall x, y :: before(x, y) ==> !before(y, x)
  }

  lemma {:induction false} InsertBack<T>(before: (string, string) -> bool, key: T -> string, x: T, p: seq<T>, q: seq<T>)
    requires Asymmetric(before) && StrictlySorted(before, key, p + [x] + q)
    ensures Insert(before, key, x, p + q) == p + [x] + q
  {
    var a := p + [x] + q;
    if p == [] {
      assert a == [x] + q && p + q == q;
      assert q != [] ==> before(key(a[0]), key(a[1]));
    } else {
      assert before(key(a[0]), key(a[|p|]));
      assert (p + q)[1..] == p[1..] + q && a[1..] == p[1..] + [x] + q;
      InsertBack(before, key, x, p[1..], q);
    }
  }

  lemma TakenApart<T>(a: seq<T>, x: T) returns (p: seq<T>, q: seq<T>)
    requires x in a
    ensures a == p + [x] + q
  {
    var i :| 0 <= i < |a| && a[i] == x;
    p, q := a[..i], a[i + 1..];
  }

  /** Rows in any order sort into the one strictly sorted list of the same rows. */
  lemma {:induction false} SortIsUnique<T>(before: (string, string) -> bool, key: T -> string, a: seq<T>, s: seq<T>)
    requires Asymmetric(before) && StrictlySorted(before, key, a) && multiset(s) == multiset(a)
    ensures SortBy(before, key, s) == a
    decreases |s|
  {
    if s == [] {
      assert |multiset(a)| == 0;
    } else {
      assert s[0] in multiset(s);
      var p, q := TakenApart(a, s[0]);
      OneLess(before, key, p, s[0], q);
      SameWithoutFirst(s, p, q);
      SortIsUnique(before, key, p + q, s[1..]);
      InsertBack(before, key, s[0], p, q);
    }
  }

  lemma OneLess<T>(before: (string, string) -> bool, key: T -> string, p: seq<T>, x: T, q: seq<T>)
    requires StrictlySorted(before, key, p + [x] + q)
    ensures StrictlySorted(before, key, p + q)
  {
    var a := p + [x] + q;
    forall i, j | 0 <= i < j < |p + q| ensures before(key((p + q)[i]), key((p + q)[j])) {
      var k, l := if i < |p| then i else i + 1, if j < |p| then j else j + 1;
      assert (p + q)[i] == a[k] && (p + q)[j] == a[l];
    }
  }

  lemma SameWithoutFirst<T>(s: seq<T>, p: seq<T>, q: seq<T>)
    requires s != [] && multiset(s) == multiset(p + [s[0]] + q)
    ensures multiset(s[1..]) == multiset(p + q)
  {
    assert s == [s[0]] + s[1..];
    var one := multiset([s[0]]);
    assert multiset(s) == one + multiset(s[1..]);
    assert multiset(p + [s[0]] + q) == multiset(p) + one + multiset(q) == multiset(p + q) + one;
    assert multiset(s[1..]) == multiset(s) - one;
    assert multiset(p + q) == multiset(p + [s[0]] + q) - one;
  }

  predicate NoRepeats<T(==)>(s: seq<T>) {
    forall i, j | 0 <= i < j < |s| :: s[i] != s[j]
  }

  lemma {:induction false} CountOne<T>(s: seq<T>, x: T)
    requires NoRepeats(s)
    ensures multiset(s)[x] == if x in s then 1 else 0
  {
    if s != [] {
      assert s == [s[0]] + s[1..];
      CountOne(s[1..], x);
    }
  }

  lemma SameElements<T>(a: seq<T>, b: seq<T>)
    requires NoRepeats(a) && NoRepeats(b) && forall x :: x in a <==> x in b
    ensures multiset(a) == multiset(b)
  {
    forall x ensures multiset(a)[x] == multiset(b)[x] {
      CountOne(a, x);
      CountOne(b, x);
    }
  }

  lemma SortedHasNoRepeats<T>(before: (string, string) -> bool, key: T -> string, s: seq<T>)
    requires Asymmetric(before) && StrictlySorted(before, key, s)
    ensures forall i, j | 0 <= i < j < |s| :: key(s[i]) != key(s[j])
  {
    forall i, j | 0 <= i < j < |s| ensures key(s[i]) != key(s[j]) {
      assert before(key(s[i]), key(s[j]));
    }
  }

  // ---------- The dump ----------

  function UserKey(): UserConfig -> string { (u: UserConfig) => u.externalId }

  function PublicKeyKey(): PublicKey -> string { (k: PublicKey) => k.publicKey }

  function ProjectKey(): ProjectConfig -> string { (p: ProjectConfig) => p.data.name }

  function RepoKey(): RepoConfig -> string { (r: RepoConfig) => r.url }

  /** Foreign keys. */
  ghost predicate Consistent(t: Tables) {
    && (forall url | url in t.repos :: t.repos[url] < |t.keyPairs|)
    && (forall id | id in t.projects :: t.projects[id].repoUrl in t.repos)
  }

  /** What the two queries return: the rows of users with their keys, and of projects, in any order. */
  ghost predicate IsListing(t: Tables, users: seq<UserConfig>, projects: seq<ProjectConfig>) {
    && (forall i, j | 0 <= i < j < |users| :: users[i].externalId != users[j].externalId)
    && (forall u | u in users ::
          u.externalId in t.users && u.git == t.users[u.externalId].git
          && multiset(u.publicKeys) == multiset(t.users[u.externalId].keys))
    && (forall id | id in t.users :: exists u :: u in users && u.externalId == id)
    && (forall i, j | 0 <= i < j < |projects| :: projects[i].externalId != projects[j].externalId)
    && (forall p | p in projects ::
          p.externalId in t.projects && t.projects[p.externalId] == Project(p.repoUrl, p.data))
    && (forall id | id in t.projects :: exists p :: p in projects && p.externalId == id)
  }

  function WithSortedKeys(tools: Tools, u: UserConfig): UserConfig {
    u.(publicKeys := SortBy(tools.before, PublicKeyKey(), u.publicKeys))
  }

  function AllWithSortedKeys(tools: Tools, users: seq<UserConfig>): (r: seq<UserConfig>)
    ensures |r| == |users| && forall i | 0 <= i < |users| :: r[i] == WithSortedKeys(tools, users[i])
  {
    if users == [] then [] else [WithSortedKeys(tools, users[0])] + AllWithSortedKeys(tools, users[1..])
  }

  function RepoRow(t: Tables, url: string): RepoConfig
    requires url in t.repos && t.repos[url] < |t.keyPairs|
  {
    var k := t.keyPairs[t.repos[url]];
    RepoConfig(url, k.publicKey, k.privateKey)
  }

  /** The repositories of the projects, each once, in order of first use. */
  function ReposOf(t: Tables, projects: seq<ProjectConfig>): (r: seq<RepoConfig>)
    requires Consistent(t) && forall p | p in projects :: p.repoUrl in t.repos
    ensures forall x :: x in r <==> exists p :: p in projects && x == RepoRow(t, p.repoUrl)
    ensures NoRepeats(r)
  {
    if projects == [] then []
    else
      var some, row := ReposOf(t, projects[..|projects| - 1]), RepoRow(t, projects[|projects| - 1].repoUrl);
      assert projects == projects[..|projects| - 1] + [projects[|projects| - 1]];
      if row in some then some else some + [row]
  }

  lemma {:induction false} SortByKeeps<T>(before: (string, string) -> bool, key: T -> string, s: seq<T>)
    ensures multiset(SortBy(before, key, s)) == multiset(s)
  {
    if s != [] {
      SortByKeeps(before, key, s[1..]);
      InsertKeeps(before, key, s[0], SortBy(before, key, s[1..]));
      assert s == [s[0]] + s[1..];
    }
  }

  lemma {:induction false} InsertKeeps<T>(before: (string, string) -> bool, key: T -> string, x: T, s: seq<T>)
    ensures multiset(Insert(before, key, x, s)) == multiset(s) + multiset{x}
  {
    if s != [] && before(key(s[0]), key(x)) {
      InsertKeeps(before, key, x, s[1..]);
      assert s == [s[0]] + s[1..];
    }
  }

  /** `getInitConfig`, on the rows that the queries returned. */
  ghost function Dump(tools: Tools, t: Tables, users: seq<UserConfig>, projects: seq<ProjectConfig>): Config
    requires Consistent(t) && IsListing(t, users, projects)
  {
    var sorted := SortBy(tools.before, ProjectKey(), projects);
    SortByKeeps(tools.before, ProjectKey(), projects);
    SameMembers(sorted, projects);
    Config(SortBy(tools.before, RepoKey(), ReposOf(t, sorted)),
           SortBy(tools.before, UserKey(), AllWithSortedKeys(tools, users)),
           sorted)
  }

  lemma SameMembers<T>(a: seq<T>, b: seq<T>)
    requires multiset(a) == multiset(b)
    ensures forall x :: x in a <==> x in b
  {
    forall x ensures x in a <==> x in b {
      assert x in multiset(a) <==> x in multiset(b);
    }
  }

  // ---------- Canonical configurations ----------

  ghost predicate CanonicalUsers(tools: Tools, us: seq<UserConfig>) {
    && StrictlySorted(tools.before, UserKey(), us)
    && forall u | u in us :: StrictlySorted(tools.before, PublicKeyKey(), u.publicKeys)
  }

  /** Public keys are derived, private keys normalised, and a public key has one private key. */
  ghost predicate CanonicalRepos(tools: Tools, rs: seq<RepoConfig>) {
    && StrictlySorted(tools.before, RepoKey(), rs)
    && (forall r | r in rs ::
          tools.isGitUrl(r.url) && tools.derive(r.privateKey) == Some(r.publicKey) && Normalized(r.privateKey) == r.privateKey)
    && forall r, q | r in rs && q in rs && r.publicKey == q.publicKey :: r.privateKey == q.privateKey
  }

  ghost predicate CanonicalProjects(tools: Tools, c: Config) {
    && StrictlySorted(tools.before, ProjectKey(), c.projects)
    && (forall i, j | 0 <= i < j < |c.projects| :: c.projects[i].externalId != c.projects[j].externalId)
    && (forall p | p in c.projects :: exists r :: r in c.repos && r.url == p.repoUrl)
    && (forall r | r in c.repos :: exists p :: p in c.projects && p.repoUrl == r.url)
    && (forall p, id | p in c.projects && id in p.data.userEnv :: exists u :: u in c.users && u.externalId == id)
  }

  ghost predicate Canonical(tools: Tools, c: Config) {
    CanonicalUsers(tools, c.users) && CanonicalRepos(tools, c.repos) && CanonicalProjects(tools, c)
  }

  // ---------- Users ----------

  lemma {:induction false} UsersFromEmpty(us: seq<UserConfig>)
    requires forall i, j | 0 <= i < j < |us| :: us[i].externalId != us[j].externalId
    ensures forall u | u in us :: u.externalId in UsersAfter(map[], us)
                                  && UsersAfter(map[], us)[u.externalId] == User(u.git, u.publicKeys)
    ensures forall id | id in UsersAfter(map[], us) :: exists u :: u in us && u.externalId == id
  {
    if us != [] {
      var rest, last := us[..|us| - 1], us[|us| - 1];
      UsersFromEmpty(rest);
      assert us == rest + [last];
      AddMissingKeeps(last.publicKeys, last.publicKeys);
      forall id | id in UsersAfter(map[], us) ensures exists u :: u in us && u.externalId == id {
        if id == last.externalId {
          assert last in us;
        } else {
          assert id in UsersAfter(map[], rest);
          var u :| u in rest && u.externalId == id;
          assert u in us;
        }
      }
    }
  }

  lemma DumpedUser(tools: Tools, u: UserConfig, row: UserConfig)
    requires Asymmetric(tools.before) && StrictlySorted(tools.before, PublicKeyKey(), u.publicKeys)
    requires row.externalId == u.externalId && row.git == u.git && multiset(row.publicKeys) == multiset(u.publicKeys)
    ensures WithSortedKeys(tools, row) == u
  {
    SortIsUnique(tools.before, PublicKeyKey(), u.publicKeys, row.publicKeys);
  }

  lemma SameUser(tools: Tools, us: seq<UserConfig>, u: UserConfig, v: UserConfig)
    requires Asymmetric(tools.before) && CanonicalUsers(tools, us) && u in us && v in us && u.externalId == v.externalId
    ensures u == v
  {
    SortedHasNoRepeats(tools.before, UserKey(), us);
    var j :| 0 <= j < |us| && us[j] == u;
    var k :| 0 <= k < |us| && us[k] == v;
    assert UserKey()(us[j]) == UserKey()(us[k]);
  }

  /** The row shows the user, with the keys in any order. */
  ghost predicate Shows(row: UserConfig, u: UserConfig) {
    row.externalId == u.externalId && row.git == u.git && multiset(row.publicKeys) == multiset(u.publicKeys)
  }

  lemma ShownUsersOnly(tools: Tools, us: seq<UserConfig>, rows: seq<UserConfig>, i: nat)
    requires Asymmetric(tools.before) && CanonicalUsers(tools, us) && i < |rows|
    requires forall row | row in rows :: exists u :: u in us && Shows(row, u)
    ensures AllWithSortedKeys(tools, rows)[i] in us
  {
    assert rows[i] in rows;
    var u :| u in us && Shows(rows[i], u);
    DumpedUser(tools, u, rows[i]);
  }

  lemma EveryUserIsShown(tools: Tools, us: seq<UserConfig>, rows: seq<UserConfig>, u: UserConfig)
    requires Asymmetric(tools.before) && CanonicalUsers(tools, us) && u in us
    requires forall row | row in rows :: exists v :: v in us && Shows(row, v)
    requires exists row :: row in rows && row.externalId == u.externalId
    ensures u in AllWithSortedKeys(tools, rows)
  {
    var row :| row in rows && row.externalId == u.externalId;
    var i :| 0 <= i < |rows| && rows[i] == row;
    ShownUsersOnly(tools, us, rows, i);
    SameUser(tools, us, AllWithSortedKeys(tools, rows)[i], u);
  }

  lemma UsersDoNotRepeat(tools: Tools, us: seq<UserConfig>)
    requires Asymmetric(tools.before) && CanonicalUsers(tools, us)
    ensures NoRepeats(us)
  {
    SortedHasNoRepeats(tools.before, UserKey(), us);
  }

  lemma DumpedUsers(tools: Tools, us: seq<UserConfig>, rows: seq<UserConfig>)
    requires Asymmetric(tools.before) && CanonicalUsers(tools, us)
    requires forall i, j | 0 <= i < j < |rows| :: rows[i].externalId != rows[j].externalId
    requires forall row | row in rows :: exists u :: u in us && Shows(row, u)
    requires forall u | u in us :: exists row :: row in rows && row.externalId == u.externalId
    ensures SortBy(tools.before, UserKey(), AllWithSortedKeys(tools, rows)) == us
  {
    var sorted := AllWithSortedKeys(tools, rows);
    assert NoRepeats(sorted);
    UsersDoNotRepeat(tools, us);
    forall i | 0 <= i < |sorted| ensures sorted[i] in us {
      ShownUsersOnly(tools, us, rows, i);
    }
    forall u | u in us ensures u in sorted {
      EveryUserIsShown(tools, us, rows, u);
    }
    SameElements(sorted, us);
    SortIsUnique(tools.before, UserKey(), us, sorted);
  }

  // ---------- Key pairs ----------

  /** The loader's notes lead from the url of every repository to its own key pair. */
  ghost predicate Noted(keys: Keys, rs: seq<RepoConfig>) {
    forall r | r in rs ::
      && r.url in keys.urls && keys.urls[r.url] == r.publicKey && r.publicKey in keys.ids
      && keys.ids[r.publicKey] < |keys.keyPairs|
      && keys.keyPairs[keys.ids[r.publicKey]] == KeyPair(r.publicKey, r.privateKey, true)
  }

  ghost predicate OnlyListed(keys: Keys, rs: seq<RepoConfig>) {
    && (forall k | k in keys.keyPairs :: exists r :: r in rs && k == KeyPair(r.publicKey, r.privateKey, true))
    && forall k | k in keys.keyPairs :: k.publicKey in keys.ids
  }

  /** Every noted id is that of a key pair with the public key. */
  ghost predicate IdsOk(keys: Keys) {
    forall k | k in keys.ids :: keys.ids[k] < |keys.keyPairs| && keys.keyPairs[keys.ids[k]].publicKey == k
  }

  /** A public key listed before is found with its private key. */
  lemma KnownKey(tools: Tools, keys: Keys, rest: seq<RepoConfig>, r: RepoConfig)
    requires CanonicalRepos(tools, rest + [r]) && OnlyListed(keys, rest) && IdsOk(keys) && r.publicKey in keys.ids
    ensures keys.keyPairs[keys.ids[r.publicKey]] == KeyPair(r.publicKey, r.privateKey, true)
  {
    var k := keys.keyPairs[keys.ids[r.publicKey]];
    assert k in keys.keyPairs;
    var q :| q in rest && k == KeyPair(q.publicKey, q.privateKey, true);
    assert r in rest + [r] && q in rest + [r];
  }

  /** What `KeyAfter` notes of a canonical repository. */
  function NextKeys(keys: Keys, r: RepoConfig): Keys {
    var urls := keys.urls[r.url := r.publicKey];
    if r.publicKey in keys.ids then keys.(urls := urls)
    else Keys(keys.keyPairs + [KeyPair(r.publicKey, r.privateKey, true)], keys.ids[r.publicKey := |keys.keyPairs|], urls)
  }

  lemma KeyIsNew(tools: Tools, keys: Keys, rest: seq<RepoConfig>, r: RepoConfig)
    requires CanonicalRepos(tools, rest + [r]) && OnlyListed(keys, rest)
    ensures KeyAfter(tools, keys, r) == Success(NextKeys(keys, r))
  {
    assert r in rest + [r];
    if r.publicKey !in keys.ids {
      assert FindPair(keys.keyPairs, r.publicKey) == None;
    }
  }

  lemma StillNoted(tools: Tools, keys: Keys, rest: seq<RepoConfig>, r: RepoConfig)
    requires CanonicalRepos(tools, rest + [r]) && (forall q | q in rest :: q.url != r.url)
    requires Noted(keys, rest) && OnlyListed(keys, rest) && IdsOk(keys)
    ensures Noted(NextKeys(keys, r), rest + [r])
  {
    if r.publicKey in keys.ids {
      KnownKey(tools, keys, rest, r);
    }
  }

  lemma StillOnlyListed(keys: Keys, rest: seq<RepoConfig>, r: RepoConfig)
    requires OnlyListed(keys, rest) && IdsOk(keys)
    ensures OnlyListed(NextKeys(keys, r), rest + [r]) && IdsOk(NextKeys(keys, r))
  {
    assert r in rest + [r] && forall q | q in rest :: q in rest + [r];
  }

  lemma OneKey(tools: Tools, keys: Keys, rest: seq<RepoConfig>, r: RepoConfig)
    requires CanonicalRepos(tools, rest + [r]) && (forall q | q in rest :: q.url != r.url)
    requires Noted(keys, rest) && OnlyListed(keys, rest) && IdsOk(keys)
    ensures var next := KeyAfter(tools, keys, r);
            && next.Success? && Noted(next.value, rest + [r]) && OnlyListed(next.value, rest + [r]) && IdsOk(next.value)
  {
    KeyIsNew(tools, keys, rest, r);
    StillNoted(tools, keys, rest, r);
    StillOnlyListed(keys, rest, r);
  }

  lemma CanonicalRest(tools: Tools, rest: seq<RepoConfig>, r: RepoConfig)
    requires CanonicalRepos(tools, rest + [r]) && Asymmetric(tools.before)
    ensures CanonicalRepos(tools, rest) && forall q | q in rest :: q.url != r.url
  {
    var rs := rest + [r];
    forall i, j | 0 <= i < j < |rest| ensures tools.before(RepoKey()(rest[i]), RepoKey()(rest[j])) {
      assert rs[i] == rest[i] && rs[j] == rest[j];
    }
    assert forall q | q in rest :: q in rs;
    forall i | 0 <= i < |rest| ensures rest[i].url != r.url {
      assert tools.before(RepoKey()(rs[i]), RepoKey()(rs[|rest|]));
    }
  }

  lemma {:induction false} KeysFromEmpty(tools: Tools, rs: seq<RepoConfig>)
    requires CanonicalRepos(tools, rs) && Asymmetric(tools.before)
    ensures var keys := KeysAfter(tools, [], rs);
            && keys.Success? && Noted(keys.value, rs) && OnlyListed(keys.value, rs) && IdsOk(keys.value)
  {
    if rs != [] {
      var rest, r := rs[..|rs| - 1], rs[|rs| - 1];
      assert rs == rest + [r];
      CanonicalRest(tools, rest, r);
      KeysFromEmpty(tools, rest);
      OneKey(tools, KeysAfter(tools, [], rest).value, rest, r);
    }
  }

  // ---------- Projects ----------

  /** What has been loaded of a canonical configuration after some of its projects. */
  ghost predicate PartlyLoaded(t: Tables, keys: Keys, ps: seq<ProjectConfig>) {
    && (forall p | p in ps :: p.externalId in t.projects && t.projects[p.externalId] == Project(p.repoUrl, p.data))
    && (forall id | id in t.projects :: exists p :: p in ps && p.externalId == id)
    && (forall p | p in ps :: p.repoUrl in t.repos)
    && (forall url | url in t.repos :: url in keys.urls && keys.urls[url] in keys.ids && t.repos[url] == keys.ids[keys.urls[url]])
  }

  /** A project whose repository and users are listed. */
  ghost predicate Loadable(tools: Tools, t: Tables, keys: Keys, p: ProjectConfig) {
    && p.repoUrl in keys.urls && keys.urls[p.repoUrl] in keys.ids
    && keys.ids[keys.urls[p.repoUrl]] < |t.keyPairs| && t.keyPairs[keys.ids[keys.urls[p.repoUrl]]].serverControlled
    && tools.isGitUrl(p.repoUrl) && p.data.userEnv.Keys <= t.users.Keys
  }

  lemma OnlyListedProjects(t: Tables, t': Tables, rest: seq<ProjectConfig>, p: ProjectConfig)
    requires forall id | id in t.projects :: exists q :: q in rest && q.externalId == id
    requires t'.projects.Keys == t.projects.Keys + {p.externalId}
    ensures forall id | id in t'.projects :: exists q :: q in rest + [p] && q.externalId == id
  {
    forall id | id in t'.projects ensures exists q :: q in rest + [p] && q.externalId == id {
      if id == p.externalId {
        assert p in rest + [p];
      } else {
        assert id in t.projects;
        var q :| q in rest && q.externalId == id;
        assert q in rest + [p];
      }
    }
  }

  function NextTables(t: Tables, p: ProjectConfig, keyPair: nat): Tables {
    t.(repos := t.repos[p.repoUrl := keyPair], projects := t.projects[p.externalId := Project(p.repoUrl, p.data)])
  }

  lemma ProjectIsNew(tools: Tools, t: Tables, keys: Keys, rest: seq<ProjectConfig>, p: ProjectConfig)
    requires PartlyLoaded(t, keys, rest) && Loadable(tools, t, keys, p) && forall q | q in rest :: q.externalId != p.externalId
    ensures ProjectAfter(tools, t, keys, p) == Success(NextTables(t, p, keys.ids[keys.urls[p.repoUrl]]))
  {
    assert p.externalId !in t.projects;
    if p.repoUrl in t.repos {
      assert t.repos[p.repoUrl := t.repos[p.repoUrl]] == t.repos;
    }
  }

  lemma OneProject(tools: Tools, t: Tables, keys: Keys, rest: seq<ProjectConfig>, p: ProjectConfig)
    requires PartlyLoaded(t, keys, rest) && Loadable(tools, t, keys, p) && forall q | q in rest :: q.externalId != p.externalId
    ensures var next := ProjectAfter(tools, t, keys, p);
            next.Success? && PartlyLoaded(next.value, keys, rest + [p])
  {
    ProjectIsNew(tools, t, keys, rest, p);
    OnlyListedProjects(t, NextTables(t, p, keys.ids[keys.urls[p.repoUrl]]), rest, p);
  }

  lemma {:induction false} ProjectsFromEmpty(tools: Tools, t: Tables, keys: Keys, ps: seq<ProjectConfig>)
    requires t.projects == map[] && t.repos == map[]
    requires forall p | p in ps :: Loadable(tools, t, keys, p)
    requires forall i, j | 0 <= i < j < |ps| :: ps[i].externalId != ps[j].externalId
    ensures ProjectsAfter(tools, t, keys, ps).Success?
    ensures PartlyLoaded(ProjectsAfter(tools, t, keys, ps).value, keys, ps)
  {
    if ps != [] {
      var rest, p := ps[..|ps| - 1], ps[|ps| - 1];
      assert ps == rest + [p];
      ProjectsFromEmpty(tools, t, keys, rest);
      ProjectsGrow(tools, t, keys, rest);
      assert p in ps;
      OneProject(tools, ProjectsAfter(tools, t, keys, rest).value, keys, rest, p);
    }
  }

  // ---------- The round trip ----------

  lemma DistinctUsers(tools: Tools, us: seq<UserConfig>)
    requires Asymmetric(tools.before) && CanonicalUsers(tools, us)
    ensures forall i, j | 0 <= i < j < |us| :: us[i].externalId != us[j].externalId
  {
    SortedHasNoRepeats(tools.before, UserKey(), us);
    forall i, j | 0 <= i < j < |us| ensures us[i].externalId != us[j].externalId {
      assert UserKey()(us[i]) != UserKey()(us[j]);
    }
  }

  /** The tables that a canonical configuration is loaded into. */
  lemma CanonicalLoads(tools: Tools, c: Config) returns (keys: Keys, t: Tables)
    requires Asymmetric(tools.before) && Canonical(tools, c)
    ensures Loaded(tools, EMPTY, c) == Success(t)
    ensures t.users == UsersAfter(map[], c.users) && t.keyPairs == keys.keyPairs
    ensures Noted(keys, c.repos) && PartlyLoaded(t, keys, c.projects) && Consistent(t)
  {
    DistinctUsers(tools, c.users);
    UsersFromEmpty(c.users);
    KeysFromEmpty(tools, c.repos);
    keys := KeysAfter(tools, [], c.repos).value;
    var u := Tables(UsersAfter(map[], c.users), keys.keyPairs, map[], map[]);
    forall p | p in c.projects ensures Loadable(tools, u, keys, p) {
      var r :| r in c.repos && r.url == p.repoUrl;
      forall id | id in p.data.userEnv ensures id in u.users {
        var user :| user in c.users && user.externalId == id;
      }
    }
    ProjectsFromEmpty(tools, u, keys, c.projects);
    ProjectsGrow(tools, u, keys, c.projects);
    t := ProjectsAfter(tools, u, keys, c.projects).value;
  }

  lemma DumpedProjects(tools: Tools, t: Tables, keys: Keys, ps: seq<ProjectConfig>, users: seq<UserConfig>, rows: seq<ProjectConfig>)
    requires Asymmetric(tools.before) && StrictlySorted(tools.before, ProjectKey(), ps)
    requires forall i, j | 0 <= i < j < |ps| :: ps[i].externalId != ps[j].externalId
    requires PartlyLoaded(t, keys, ps) && IsListing(t, users, rows)
    ensures SortBy(tools.before, ProjectKey(), rows) == ps
  {
    forall row | row in rows ensures row in ps {
      var p :| p in ps && p.externalId == row.externalId;
      assert p == row;
    }
    forall p | p in ps ensures p in rows {
      var row :| row in rows && row.externalId == p.externalId;
      assert p == row;
    }
    assert NoRepeats(rows) && NoRepeats(ps);
    SameElements(rows, ps);
    SortIsUnique(tools.before, ProjectKey(), ps, rows);
  }

  lemma DumpedRepo(t: Tables, keys: Keys, rs: seq<RepoConfig>, ps: seq<ProjectConfig>, r: RepoConfig)
    requires Noted(keys, rs) && PartlyLoaded(t, keys, ps) && t.keyPairs == keys.keyPairs && Consistent(t)
    requires r in rs && r.url in t.repos
    ensures RepoRow(t, r.url) == r
  {
  }

  lemma DumpedRepos(tools: Tools, t: Tables, keys: Keys, c: Config)
    requires Asymmetric(tools.before) && Canonical(tools, c)
    requires Noted(keys, c.repos) && PartlyLoaded(t, keys, c.projects) && t.keyPairs == keys.keyPairs && Consistent(t)
    ensures SortBy(tools.before, RepoKey(), ReposOf(t, c.projects)) == c.repos
  {
    var rows := ReposOf(t, c.projects);
    forall row | row in rows ensures row in c.repos {
      var p :| p in c.projects && row == RepoRow(t, p.repoUrl);
      var r :| r in c.repos && r.url == p.repoUrl;
      DumpedRepo(t, keys, c.repos, c.projects, r);
    }
    forall r | r in c.repos ensures r in rows {
      var p :| p in c.projects && p.repoUrl == r.url;
      DumpedRepo(t, keys, c.repos, c.projects, r);
    }
    SortedHasNoRepeats(tools.before, RepoKey(), c.repos);
    SameElements(rows, c.repos);
    SortIsUnique(tools.before, RepoKey(), c.repos, rows);
  }

  lemma Dumped(tools: Tools, c: Config, keys: Keys, t: Tables, users: seq<UserConfig>, projects: seq<ProjectConfig>)
    requires Asymmetric(tools.before) && Canonical(tools, c)
    requires t.users == UsersAfter(map[], c.users) && t.keyPairs == keys.keyPairs
    requires Noted(keys, c.repos) && PartlyLoaded(t, keys, c.projects) && Consistent(t)
    requires IsListing(t, users, projects)
    ensures Dump(tools, t, users, projects) == c
  {
    DistinctUsers(tools, c.users);
    UsersFromEmpty(c.users);
    DumpedProjects(tools, t, keys, c.projects, users, projects);
    DumpedRepos(tools, t, keys, c);
    forall row | row in users ensures exists u :: u in c.users && Shows(row, u) {
      var u :| u in c.users && u.externalId == row.externalId;
      assert Shows(row, u);
    }
    DumpedUsers(tools, c.users, users);
  }

  /** A canonical configuration loads into an empty database without an error, and dumping that database gives the
      configuration back, in whatever order the database returns its rows. */
  lemma LoadThenDump(tools: Tools, c: Config) returns (t: Tables)
    requires Asymmetric(tools.before) && Canonical(tools, c)
    ensures Loaded(tools, EMPTY, c) == Success(t) && Consistent(t)
    ensures forall users, projects | IsListing(t, users, projects) :: Dump(tools, t, users, projects) == c
  {
    var keys;
    keys, t := CanonicalLoads(tools, c);
    forall users, projects | IsListing(t, users, projects) ensures Dump(tools, t, users, projects) == c {
      Dumped(tools, c, keys, t, users, projects);
    }
  }

  /** It is loaded without an error, and loading it again changes nothing. */
  lemma CanonicalLoadsTwice(tools: Tools, c: Config)
    requires Asymmetric(tools.before) && Canonical(tools, c)
    ensures Loaded(tools, EMPTY, c).Success?
    ensures Loaded(tools, Loaded(tools, EMPTY, c).value, c) == Loaded(tools, EMPTY, c)
  {
    var keys, t := CanonicalLoads(tools, c);
    forall r | r in c.repos ensures FindPair(t.keyPairs, r.publicKey).Some? {
      assert t.keyPairs[keys.ids[r.publicKey]] in t.keyPairs;
    }
    InitReload.SecondLoadChangesNothing(tools, EMPTY, c, t);
  }
}
