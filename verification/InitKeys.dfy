/** Which key pair a repository of the configuration gets, in a database that may hold key pairs already. */
module InitKeys {
  import opened Wrappers
  import opened InitConfig

  /** The first repository listed with its public key. */
  predicate FirstWithKey(repos: seq<RepoConfig>, j: nat) {
    j < |repos| && forall m | 0 <= m < j :: repos[m].publicKey != repos[j].publicKey
  }

  /** The last repository listed with its url. */
  predicate LastWithUrl(repos: seq<RepoConfig>, j: nat) {
    j < |repos| && forall m | j < m < |repos| :: repos[m].url != repos[j].url
  }

  /** The row is the right one for a repository that is reached when the table is `before`: the first one with its public
      key, or, if there is none, a new one made of its private key. */
  ghost predicate RightRow(tools: Tools, before: seq<KeyPair>, r: RepoConfig, after: seq<KeyPair>, id: nat) {
    && id < |after| && before <= after
    && if exists k :: k in before && k.publicKey == r.publicKey
       then
         id < |before| && before[id].publicKey == r.publicKey && forall m | 0 <= m < id :: before[m].publicKey != r.publicKey
       else
         && id == |before| && tools.derive(r.privateKey).Some?
         && after[id] == KeyPair(tools.derive(r.privateKey).value, Normalized(r.privateKey), true)
  }

  lemma {:induction false} FindsTheFirst(keyPairs: seq<KeyPair>, publicKey: string)
    ensures FindPair(keyPairs, publicKey).Some? ==>
              forall m | 0 <= m < FindPair(keyPairs, publicKey).value :: keyPairs[m].publicKey != publicKey
    ensures FindPair(keyPairs, publicKey).Some? <==> exists k :: k in keyPairs && k.publicKey == publicKey
  {
    if keyPairs != [] {
      var rest, last := keyPairs[..|keyPairs| - 1], keyPairs[|keyPairs| - 1];
      assert keyPairs == rest + [last];
      FindsTheFirst(rest, publicKey);
      if FindPair(rest, publicKey).None? && last.publicKey == publicKey {
        assert last in keyPairs;
        forall m | 0 <= m < |rest| ensures keyPairs[m].publicKey != publicKey {
          assert keyPairs[m] == rest[m] && rest[m] in rest;
        }
      }
    }
  }

  /** The repository at the end of the list, when its public key is new. */
  lemma NewKeyIsNoted(tools: Tools, keys: Keys, r: RepoConfig)
    requires KeyAfter(tools, keys, r).Success? && r.publicKey !in keys.ids
    ensures var next := KeyAfter(tools, keys, r).value;
            r.publicKey in next.ids && RightRow(tools, keys.keyPairs, r, next.keyPairs, next.ids[r.publicKey])
  {
    FindsTheFirst(keys.keyPairs, r.publicKey);
  }

  lemma RightRowStays(tools: Tools, before: seq<KeyPair>, r: RepoConfig, after: seq<KeyPair>, later: seq<KeyPair>, id: nat)
    requires RightRow(tools, before, r, after, id) && after <= later
    ensures RightRow(tools, before, r, later, id)
  {
  }

  lemma KeyGrows(tools: Tools, keys: Keys, r: RepoConfig)
    requires KeyAfter(tools, keys, r).Success?
    ensures var next := KeyAfter(tools, keys, r).value;
            && keys.keyPairs <= next.keyPairs && next.ids.Keys == keys.ids.Keys + {r.publicKey}
            && (forall k | k in keys.ids :: next.ids[k] == keys.ids[k])
            && next.urls == keys.urls[r.url := r.publicKey]
  {
  }

  /** What came before the last repository. */
  lemma Unfolded(tools: Tools, keyPairs: seq<KeyPair>, rest: seq<RepoConfig>, last: RepoConfig)
    requires KeysAfter(tools, keyPairs, rest + [last]).Success?
    ensures KeysAfter(tools, keyPairs, rest).Success?
    ensures KeysAfter(tools, keyPairs, rest + [last]) == KeyAfter(tools, KeysAfter(tools, keyPairs, rest).value, last)
  {
    assert (rest + [last])[..|rest|] == rest;
  }

  predicate Lists(repos: seq<RepoConfig>, publicKey: string) {
    exists r :: r in repos && r.publicKey == publicKey
  }

  lemma ListsOneMore(rest: seq<RepoConfig>, last: RepoConfig, publicKey: string)
    ensures Lists(rest + [last], publicKey) <==> publicKey == last.publicKey || Lists(rest, publicKey)
  {
    assert last in rest + [last] && forall r | r in rest :: r in rest + [last];
  }

  /** The public keys that are noted are those that are listed. */
  lemma {:induction false} ListedKeysOnly(tools: Tools, keyPairs: seq<KeyPair>, repos: seq<RepoConfig>)
    requires KeysAfter(tools, keyPairs, repos).Success?
    ensures forall k :: k in KeysAfter(tools, keyPairs, repos).value.ids <==> Lists(repos, k)
  {
    if repos != [] {
      var rest, last := repos[..|repos| - 1], repos[|repos| - 1];
      assert repos == rest + [last];
      Unfolded(tools, keyPairs, rest, last);
      ListedKeysOnly(tools, keyPairs, rest);
      KeyGrows(tools, KeysAfter(tools, keyPairs, rest).value, last);
      forall k ensures Lists(repos, k) <==> k == last.publicKey || Lists(rest, k) {
        ListsOneMore(rest, last, k);
      }
    }
  }

  lemma FirstIsNew(repos: seq<RepoConfig>, j: nat)
    requires FirstWithKey(repos, j)
    ensures !Lists(repos[..j], repos[j].publicKey)
  {
  }

  /** Every public key is noted with the right row for the first repository that lists it. */
  lemma {:induction false} KeysAreNoted(tools: Tools, keyPairs: seq<KeyPair>, repos: seq<RepoConfig>, j: nat)
    requires KeysAfter(tools, keyPairs, repos).Success? && FirstWithKey(repos, j)
    ensures KeysAfter(tools, keyPairs, repos[..j]).Success?
    ensures var (before, keys) := (KeysAfter(tools, keyPairs, repos[..j]).value, KeysAfter(tools, keyPairs, repos).value);
            && repos[j].publicKey in keys.ids
            && RightRow(tools, before.keyPairs, repos[j], keys.keyPairs, keys.ids[repos[j].publicKey])
    decreases |repos|
  {
    var rest, last := repos[..|repos| - 1], repos[|repos| - 1];
    assert repos == rest + [last];
    Unfolded(tools, keyPairs, rest, last);
    var keys := KeysAfter(tools, keyPairs, rest).value;
    if j == |rest| {
      assert repos[..j] == rest;
      ListedKeysOnly(tools, keyPairs, rest);
      FirstIsNew(repos, j);
      assert last.publicKey !in keys.ids;
      NewKeyIsNoted(tools, keys, last);
    } else {
      assert FirstWithKey(rest, j) && rest[..j] == repos[..j] && rest[j] == repos[j];
      KeysAreNoted(tools, keyPairs, rest, j);
      KeyGrows(tools, keys, last);
      var before := KeysAfter(tools, keyPairs, repos[..j]).value;
      RightRowStays(tools, before.keyPairs, repos[j], keys.keyPairs, KeyAfter(tools, keys, last).value.keyPairs, keys.ids[repos[j].publicKey]);
    }
  }

  /** And every url with the public key listed last for it. */
  lemma {:induction false} UrlsAreNoted(tools: Tools, keyPairs: seq<KeyPair>, repos: seq<RepoConfig>, url: string) returns (j: nat)
    requires KeysAfter(tools, keyPairs, repos).Success? && url in KeysAfter(tools, keyPairs, repos).value.urls
    ensures LastWithUrl(repos, j) && repos[j].url == url && KeysAfter(tools, keyPairs, repos).value.urls[url] == repos[j].publicKey
  {
    assert repos != [];
    var rest, last := repos[..|repos| - 1], repos[|repos| - 1];
    assert repos == rest + [last];
    Unfolded(tools, keyPairs, rest, last);
    KeyGrows(tools, KeysAfter(tools, keyPairs, rest).value, last);
    if last.url == url {
      j := |rest|;
    } else {
      j := UrlsAreNoted(tools, keyPairs, rest, url);
    }
  }

  lemma {:induction false} FirstOf(repos: seq<RepoConfig>, publicKey: string) returns (j: nat)
    requires Lists(repos, publicKey)
    ensures FirstWithKey(repos, j) && repos[j].publicKey == publicKey
  {
    var rest, last := repos[..|repos| - 1], repos[|repos| - 1];
    assert repos == rest + [last];
    if Lists(rest, publicKey) {
      j := FirstOf(rest, publicKey);
    } else {
      j := |rest|;
      forall m | 0 <= m < |rest| ensures repos[m].publicKey != publicKey {
        assert rest[m] in rest;
      }
    }
  }

  // ---------- Repositories ----------

  /** The row that the configuration lists for a url: the right one for the first repository that lists the
      public key that is listed last for the url. */
  ghost predicate ListedRow(tools: Tools, keyPairs: seq<KeyPair>, repos: seq<RepoConfig>, url: string, after: seq<KeyPair>, id: nat) {
    exists last: nat, j: nat ::
      && LastWithUrl(repos, last) && repos[last].url == url
      && FirstWithKey(repos, j) && repos[j].publicKey == repos[last].publicKey
      && KeysAfter(tools, keyPairs, repos[..j]).Success?
      && RightRow(tools, KeysAfter(tools, keyPairs, repos[..j]).value.keyPairs, repos[j], after, id)
  }

  lemma NotedRowIsListed(tools: Tools, keyPairs: seq<KeyPair>, repos: seq<RepoConfig>, url: string)
    requires KeysAfter(tools, keyPairs, repos).Success?
    requires var keys := KeysAfter(tools, keyPairs, repos).value; url in keys.urls && keys.urls[url] in keys.ids
    ensures var keys := KeysAfter(tools, keyPairs, repos).value;
            ListedRow(tools, keyPairs, repos, url, keys.keyPairs, keys.ids[keys.urls[url]])
  {
    var last := UrlsAreNoted(tools, keyPairs, repos, url);
    var j := FirstOf(repos, repos[last].publicKey);
    KeysAreNoted(tools, keyPairs, repos, j);
  }

  /** Every project that is new has a repository with the noted key pair. */
  ghost predicate NewOnesOk(t: Tables, u: Tables, keys: Keys, ps: seq<ProjectConfig>) {
    && u.keyPairs == t.keyPairs
    && forall id | id in u.projects && id !in t.projects ::
         && AsListed(ps, id, u.projects[id])
         && var url := u.projects[id].repoUrl;
         && url in keys.urls && keys.urls[url] in keys.ids && url in u.repos && u.repos[url] == keys.ids[keys.urls[url]]
  }

  /** The project is as one of the list says. */
  predicate AsListed(ps: seq<ProjectConfig>, id: string, project: Project) {
    exists p :: p in ps && p.externalId == id && project == Project(p.repoUrl, p.data)
  }

  lemma AsListedOneMore(rest: seq<ProjectConfig>, p: ProjectConfig, id: string, project: Project)
    requires AsListed(rest, id, project) || (p.externalId == id && project == Project(p.repoUrl, p.data))
    ensures AsListed(rest + [p], id, project)
  {
    assert p in rest + [p] && forall q | q in rest :: q in rest + [p];
  }

  lemma OneNewProject(tools: Tools, t: Tables, u: Tables, keys: Keys, rest: seq<ProjectConfig>, p: ProjectConfig)
    requires NewOnesOk(t, u, keys, rest) && ProjectAfter(tools, u, keys, p).Success?
    ensures NewOnesOk(t, ProjectAfter(tools, u, keys, p).value, keys, rest + [p])
  {
    var next := ProjectAfter(tools, u, keys, p).value;
    forall id | id in next.projects && id !in t.projects ensures AsListed(rest + [p], id, next.projects[id]) {
      AsListedOneMore(rest, p, id, next.projects[id]);
    }
  }

  lemma {:induction false} NewProjects(tools: Tools, t: Tables, keys: Keys, ps: seq<ProjectConfig>)
    requires ProjectsAfter(tools, t, keys, ps).Success?
    ensures NewOnesOk(t, ProjectsAfter(tools, t, keys, ps).value, keys, ps)
  {
    if ps != [] {
      var rest, p := ps[..|ps| - 1], ps[|ps| - 1];
      assert ps == rest + [p];
      NewProjects(tools, t, keys, rest);
      OneNewProject(tools, t, ProjectsAfter(tools, t, keys, rest).value, keys, rest, p);
    }
  }

  /** Whatever the database held: every project that a load creates is one of the configuration, and its repository has
      the key pair that the configuration lists for it. */
  lemma NewProjectsGetTheirKey(tools: Tools, t: Tables, config: Config, t': Tables, id: string)
    requires Loaded(tools, t, config) == Success(t') && id in t'.projects && id !in t.projects
    ensures AsListed(config.projects, id, t'.projects[id])
    ensures var url := t'.projects[id].repoUrl;
            url in t'.repos && ListedRow(tools, t.keyPairs, config.repos, url, t'.keyPairs, t'.repos[url])
  {
    var keys := KeysAfter(tools, t.keyPairs, config.repos).value;
    var u := t.(users := UsersAfter(t.users, config.users), keyPairs := keys.keyPairs);
    NewProjects(tools, u, keys, config.projects);
    NotedRowIsListed(tools, t.keyPairs, config.repos, t'.projects[id].repoUrl);
  }

  // ---------- Private keys ----------

  lemma {:induction false} TrimsTheStart(s: string)
    ensures |TrimStart(s)| <= |s| && TrimStart(s) == s[|s| - |TrimStart(s)|..]
    ensures forall i | 0 <= i < |s| - |TrimStart(s)| :: IsSpace(s[i])
    ensures TrimStart(s) != "" ==> !IsSpace(TrimStart(s)[0])
  {
    if s != "" && IsSpace(s[0]) {
      TrimsTheStart(s[1..]);
      forall i | 0 <= i < |s| - |TrimStart(s)| ensures IsSpace(s[i]) {
        assert i > 0 ==> s[1..][i - 1] == s[i];
      }
    }
  }

  lemma {:induction false} TrimsTheEnd(s: string)
    ensures |TrimEnd(s)| <= |s| && TrimEnd(s) == s[..|TrimEnd(s)|]
    ensures forall i | |TrimEnd(s)| <= i < |s| :: IsSpace(s[i])
    ensures TrimEnd(s) != "" ==> !IsSpace(TrimEnd(s)[|TrimEnd(s)| - 1])
  {
    if s != "" && IsSpace(s[|s| - 1]) {
      TrimsTheEnd(s[..|s| - 1]);
    }
  }

  /** Blank, tab, line feed, vertical tab, form feed and carriage return. */
  lemma SpacesAre(c: char)
    ensures IsSpace(c) <==> c as int in {32, 9, 10, 11, 12, 13}
  {
  }

  /** A private key is stored without the white space around it, and with a line break behind it. */
  lemma StoredPrivateKey(privateKey: string) returns (from: nat, to: nat)
    ensures from <= to <= |privateKey| && Normalized(privateKey) == privateKey[from..to] + "\n"
    ensures forall i | 0 <= i < |privateKey| && !(from <= i < to) :: privateKey[i] as int in {32, 9, 10, 11, 12, 13}
    ensures from < to ==>
              privateKey[from] as int !in {32, 9, 10, 11, 12, 13} && privateKey[to - 1] as int !in {32, 9, 10, 11, 12, 13}
  {
    var t := TrimStart(privateKey);
    TrimsTheStart(privateKey);
    TrimsTheEnd(t);
    from := |privateKey| - |t|;
    to := from + |TrimEnd(t)|;
    assert forall i | to <= i < |privateKey| :: privateKey[i] == t[i - from];
    assert TrimEnd(t) == privateKey[from..to];
    forall i | 0 <= i < |privateKey| ensures IsSpace(privateKey[i]) <==> privateKey[i] as int in {32, 9, 10, 11, 12, 13} {
      SpacesAre(privateKey[i]);
    }
  }
}
