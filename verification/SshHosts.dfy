/** What ssh reads in the file: the first value of a setting in the lines of a host. */
module SshHosts {
  import opened Wrappers
  import opened MarkedText
  import opened SshConfig

  // ---------- Reading ----------

  function Lines(s: string): (ls: seq<string>)
    ensures ls != []
  {
    if s == "" then [""]
    else
      var ls := Lines(s[1..]);
      if s[0] == '\n' then [""] + ls else [[s[0]] + ls[0]] + ls[1..]
  }

  predicate StartsWith(s: string, p: string) {
    |p| <= |s| && s[..|p|] == p
  }

  /** `inside` tells whether the last host line was that of the host. */
  function Setting(lines: seq<string>, host: string, keyword: string, inside: bool): Option<string> {
    if lines == [] then None
    else if StartsWith(lines[0], "Host ") then Setting(lines[1..], host, keyword, lines[0] == "Host " + host)
    else if inside && StartsWith(lines[0], keyword) then Some(lines[0][|keyword|..])
    else Setting(lines[1..], host, keyword, inside)
  }

  function ReadSetting(file: string, name: string, keyword: string): Option<string> {
    Setting(Lines(file), name + ".hocus.dev", keyword, false)
  }

  // ---------- Lines ----------

  lemma {:induction false} OneLine(l: string)
    requires '\n' !in l
    ensures Lines(l) == [l]
  {
    if l != "" {
      OneLine(l[1..]);
      assert [l[0]] + l[1..] == l;
    }
  }

  lemma {:induction false} AppendedLine(a: string, l: string)
    requires '\n' !in l
    ensures Lines(a + ("\n" + l)) == Lines(a) + [l]
  {
    var s := a + ("\n" + l);
    if a == "" {
      assert s == "\n" + l && s[1..] == l;
      OneLine(l);
    } else {
      assert s[0] == a[0] && s[1..] == a[1..] + ("\n" + l);
      AppendedLine(a[1..], l);
    }
  }

  lemma Joined(a: string, b: string, c: string)
    ensures a + b + c == a + (b + c)
  {
  }

  lemma {:induction false} AppendedLines(a: string, ls: seq<string>)
    requires forall l | l in ls :: '\n' !in l
    ensures Lines(a + Broken(ls)) == Lines(a) + ls
  {
    if ls == [] {
      assert a + Broken(ls) == a;
    } else {
      var rest, l := ls[..|ls| - 1], ls[|ls| - 1];
      assert ls == rest + [l];
      AppendedLines(a, rest);
      AppendedLine(a + Broken(rest), l);
      Joined(a, Broken(rest), "\n" + l);
    }
  }

  lemma {:induction false} BrokenBoth(a: seq<string>, b: seq<string>)
    ensures Broken(a + b) == Broken(a) + Broken(b)
  {
    if b == [] {
      assert a + b == a;
    } else {
      var rest, l := b[..|b| - 1], b[|b| - 1];
      assert (a + b)[..|a + b| - 1] == a + rest && (a + b)[|a + b| - 1] == l;
      BrokenBoth(a, rest);
      Joined(Broken(a), Broken(rest), "\n" + l);
    }
  }

  // ---------- The lines of a block ----------

  /** The line of the mark, the lines of the host, and the line of the end mark. */
  function BlockLines(b: Block): seq<string> {
    ["#<" + b.name + ">"] + HostLines(b) + ["#</" + b.name + ">", ""]
  }

  lemma TextInLines(b: Block)
    ensures Text(SegmentOf(b)) == Broken(BlockLines(b))
  {
    var first, last := "#<" + b.name + ">", "#</" + b.name + ">";
    var hosts := HostLines(b);
    BrokenBoth([first], hosts);
    BrokenBoth([first] + hosts, [last, ""]);
    OneBroken(first);
    TwoBroken(last, "");
    assert Start(b.name) == "\n" + first;
    assert "\n" + End(b.name) == ("\n" + last) + ("\n" + "");
    Joined(Start(b.name), Broken(hosts), "\n" + End(b.name));
    Joined(Broken(hosts), "\n", End(b.name));
    Joined(Start(b.name), Body(b), End(b.name));
  }

  lemma OneBroken(l: string)
    ensures Broken([l]) == "\n" + l
  {
    assert Broken([l][..0]) == "";
  }

  lemma TwoBroken(k: string, l: string)
    ensures Broken([k, l]) == ("\n" + k) + ("\n" + l)
  {
    assert [k, l][..1] == [k];
    OneBroken(k);
  }

  predicate OneLiner(l: string) {
    '\n' !in l
  }

  lemma OneLinerBoth(a: string, b: string)
    requires OneLiner(a) && OneLiner(b)
    ensures OneLiner(a + b)
  {
  }

  lemma FixedLines()
    ensures forall l | l in OTHER_LINES :: OneLiner(l)
    ensures OneLiner(USER_LINE) && OneLiner("")
  {
  }

  lemma FixedParts()
    ensures OneLiner("Host ") && OneLiner(".hocus.dev") && OneLiner("    HostName ") && OneLiner("    ProxyJump ")
            && OneLiner("sshgateway@") && OneLiner(":8822") && OneLiner("#<") && OneLiner("#</") && OneLiner(">")
  {
  }

  lemma NoBreaks(b: Block)
    requires Acceptable(b)
    ensures forall l | l in BlockLines(b) :: OneLiner(l)
  {
    NoBreakIn(b.name);
    NoBreakIn(b.workspaceHostname);
    NoBreakIn(b.agentHostname);
    FixedLines();
    FixedParts();
    OneLinerBoth(b.name, ".hocus.dev");
    OneLinerBoth("Host ", HostOf(b));
    OneLinerBoth("    HostName ", b.workspaceHostname);
    OneLinerBoth(b.agentHostname, ":8822");
    OneLinerBoth("sshgateway@", b.agentHostname + ":8822");
    OneLinerBoth("    ProxyJump ", JumpHostOf(b));
    OneLinerBoth("#<", b.name);
    OneLinerBoth("#<" + b.name, ">");
    OneLinerBoth("#</", b.name);
    OneLinerBoth("#</" + b.name, ">");
  }

  lemma NoBreakIn(s: string)
    requires Permitted(s)
    ensures OneLiner(s)
  {
    forall i | 0 <= i < |s| ensures s[i] != '\n' {
      assert PermittedChar(s[i]);
    }
  }

  lemma LinesWithBlock(f: string, b: Block)
    requires Acceptable(b)
    ensures Lines(f + Text(SegmentOf(b))) == Lines(f) + BlockLines(b)
  {
    NoBreaks(b);
    TextInLines(b);
    AppendedLines(f, BlockLines(b));
  }

  // ---------- What the lines of a block say ----------

  lemma Differs(s: string, p: string, i: nat)
    requires i < |p| && (i < |s| ==> s[i] != p[i])
    ensures !StartsWith(s, p)
  {
    assert |p| <= |s| ==> s[..|p|][i] == s[i];
  }

  lemma PrefixOf(p: string, x: string)
    ensures StartsWith(p + x, p) && (p + x)[|p|..] == x
  {
  }

  predicate Skipped(l: string, keyword: string) {
    !StartsWith(l, "Host ") && !StartsWith(l, keyword)
  }

  lemma SkipLine(l: string, rest: seq<string>, host: string, keyword: string, inside: bool)
    requires !StartsWith(l, "Host ") && (inside ==> !StartsWith(l, keyword))
    ensures Setting([l] + rest, host, keyword, inside) == Setting(rest, host, keyword, inside)
  {
    assert ([l] + rest)[1..] == rest;
  }

  lemma AtHostLine(of: string, rest: seq<string>, host: string, keyword: string, inside: bool)
    ensures Setting(["Host " + of] + rest, host, keyword, inside) == Setting(rest, host, keyword, of == host)
  {
    assert (["Host " + of] + rest)[1..] == rest;
    PrefixOf("Host ", of);
    if "Host " + of == "Host " + host {
      PrefixOf("Host ", host);
    }
  }

  lemma TakeLine(keyword: string, value: string, rest: seq<string>, host: string)
    requires !StartsWith(keyword + value, "Host ")
    ensures Setting([keyword + value] + rest, host, keyword, true) == Some(value)
  {
    PrefixOf(keyword, value);
  }

  lemma {:induction false} NoHostLine(ls: seq<string>, host: string, keyword: string)
    requires forall l | l in ls :: !StartsWith(l, "Host ")
    ensures Setting(ls, host, keyword, false) == None
  {
    if ls != [] {
      assert ls == [ls[0]] + ls[1..];
      NoHostLine(ls[1..], host, keyword);
      SkipLine(ls[0], ls[1..], host, keyword, false);
    }
  }

  /** The two settings. */
  predicate Known(keyword: string) {
    keyword == "    HostName " || keyword == "    ProxyJump "
  }

  function ValueIn(b: Block, keyword: string): string {
    if keyword == "    HostName " then b.workspaceHostname else JumpHostOf(b)
  }

  lemma Indented(l: string)
    requires l != "" && l[0] == ' '
    ensures !StartsWith(l, "Host ")
  {
    Differs(l, "Host ", 0);
  }

  /** The lines behind the host line. */
  function Rest(b: Block): seq<string> {
    ["    HostName " + b.workspaceHostname, USER_LINE, "    ProxyJump " + JumpHostOf(b)] + (OTHER_LINES + ["#</" + b.name + ">", ""])
  }

  lemma BlockParts(b: Block)
    ensures BlockLines(b) == ["#<" + b.name + ">"] + (["Host " + HostOf(b)] + Rest(b))
  {
  }

  lemma RestHasNoHost(b: Block)
    ensures forall l | l in Rest(b) :: !StartsWith(l, "Host ")
  {
    Indented("    HostName " + b.workspaceHostname);
    Indented("    ProxyJump " + JumpHostOf(b));
    Indented(USER_LINE);
    Differs("#</" + b.name + ">", "Host ", 0);
    Differs("", "Host ", 0);
    forall l | l in OTHER_LINES ensures !StartsWith(l, "Host ") {
      Indented(l);
    }
  }

  lemma InRest(b: Block, keyword: string)
    requires Known(keyword)
    ensures Setting(Rest(b), HostOf(b), keyword, true) == Some(ValueIn(b, keyword))
  {
    var name, jump := "    HostName " + b.workspaceHostname, "    ProxyJump " + JumpHostOf(b);
    var tail := OTHER_LINES + ["#</" + b.name + ">", ""];
    Indented(name);
    Indented(jump);
    Indented(USER_LINE);
    if keyword == "    HostName " {
      assert Rest(b) == [name] + ([USER_LINE, jump] + tail);
      TakeLine(keyword, b.workspaceHostname, [USER_LINE, jump] + tail, HostOf(b));
    } else {
      assert Rest(b) == [name] + ([USER_LINE] + ([jump] + tail));
      Differs(name, keyword, 4);
      Differs(USER_LINE, keyword, 4);
      SkipLine(name, [USER_LINE] + ([jump] + tail), HostOf(b), keyword, true);
      SkipLine(USER_LINE, [jump] + tail, HostOf(b), keyword, true);
      TakeLine(keyword, JumpHostOf(b), tail, HostOf(b));
    }
  }

  lemma OwnBlock(b: Block, keyword: string, inside: bool)
    requires Known(keyword)
    ensures Setting(BlockLines(b), HostOf(b), keyword, inside) == Some(ValueIn(b, keyword))
  {
    var first := "#<" + b.name + ">";
    BlockParts(b);
    Differs(first, "Host ", 0);
    Differs(first, keyword, 0);
    SkipLine(first, ["Host " + HostOf(b)] + Rest(b), HostOf(b), keyword, inside);
    AtHostLine(HostOf(b), Rest(b), HostOf(b), keyword, inside);
    InRest(b, keyword);
  }

  lemma OtherBlock(b: Block, host: string, keyword: string, inside: bool)
    requires Known(keyword) && host != HostOf(b)
    ensures Setting(BlockLines(b), host, keyword, inside) == None
  {
    var first := "#<" + b.name + ">";
    BlockParts(b);
    Differs(first, "Host ", 0);
    Differs(first, keyword, 0);
    SkipLine(first, ["Host " + HostOf(b)] + Rest(b), host, keyword, inside);
    AtHostLine(HostOf(b), Rest(b), host, keyword, inside);
    RestHasNoHost(b);
    NoHostLine(Rest(b), host, keyword);
  }

  // ---------- Lines one after the other ----------

  function Ends(ls: seq<string>, host: string, inside: bool): bool {
    if ls == [] then inside else Ends(ls[1..], host, if StartsWith(ls[0], "Host ") then ls[0] == "Host " + host else inside)
  }

  lemma {:induction false} SettingOfBoth(ls: seq<string>, more: seq<string>, host: string, keyword: string, inside: bool)
    ensures Setting(ls + more, host, keyword, inside) ==
            if Setting(ls, host, keyword, inside).Some? then Setting(ls, host, keyword, inside)
            else Setting(more, host, keyword, Ends(ls, host, inside))
    decreases |ls|
  {
    if ls == [] {
      assert ls + more == more;
    } else {
      assert (ls + more)[1..] == ls[1..] + more;
      SettingOfBoth(ls[1..], more, host, keyword, if StartsWith(ls[0], "Host ") then ls[0] == "Host " + host else inside);
    }
  }

  lemma SameHost(b: Block, name: string)
    ensures HostOf(b) == name + ".hocus.dev" <==> b.name == name
  {
    if HostOf(b) == name + ".hocus.dev" {
      assert |b.name| == |name|;
      assert HostOf(b)[..|name|] == b.name && (name + ".hocus.dev")[..|name|] == name;
    }
  }

  // ---------- The file ----------

  ghost predicate OfBlock(g: Segment) {
    exists b: Block :: Acceptable(b) && g == SegmentOf(b)
  }

  ghost predicate OfBlocks(gs: seq<Segment>) {
    forall g | g in gs :: OfBlock(g)
  }

  /** A comment line of the banner. */
  predicate IsComment(c: string, l: string) {
    c == l + "\n" && OneLiner(l)
  }

  lemma FirstComment() returns (l: string)
    ensures IsComment(DONT_EDIT, l)
  {
    l := " Don't edit this file" + " - your changes WILL be" + " overwritten!!!";
    OneLinerBoth(" Don't edit this file", " - your changes WILL be");
    OneLinerBoth(" Don't edit this file" + " - your changes WILL be", " overwritten!!!");
    Joined(" Don't edit this file" + " - your changes WILL be", " overwritten!!!", "\n");
  }

  lemma SecondComment() returns (l: string)
    ensures IsComment(CUSTOMIZE, l)
  {
    l := " Please perform customizations" + " in the main config file" + " under Host *.hocus.dev";
    OneLinerBoth(" Please perform customizations", " in the main config file");
    OneLinerBoth(" Please perform customizations" + " in the main config file", " under Host *.hocus.dev");
    Joined(" Please perform customizations" + " in the main config file", " under Host *.hocus.dev", "\n");
  }

  lemma LastComments() returns (c: string, d: string)
    ensures IsComment(MANAGED, c) && IsComment(VERSION, d)
  {
    c, d := " This file is managed by Hocus", " Hocus SSH Integration 0.0.4";
  }

  lemma CommentLine(f: string, c: string, l: string)
    requires IsComment(c, l)
    ensures f + "\n" + "#" + c == f + ("\n" + ("#" + l)) + "\n"
  {
  }

  lemma LinesOfComments(f: string, c: string, l: string)
    requires IsComment(c, l)
    ensures Lines(f + "\n" + "#" + c) == Lines(f) + ["#" + l, ""]
  {
    CommentLine(f, c, l);
    AppendedLine(f, "#" + l);
    AppendedLine(f + ("\n" + ("#" + l)), "");
    assert "\n" + "" == "\n";
  }

  lemma LinesOfBanner(a: string, b: string, c: string, d: string)
    requires IsComment(DONT_EDIT, a) && IsComment(CUSTOMIZE, b) && IsComment(MANAGED, c) && IsComment(VERSION, d)
    ensures Lines(BANNER) == ["#" + a, "#" + b, "#" + c, "#" + d, ""]
  {
    var one := "#" + a;
    var two := one + ("\n" + ("#" + b));
    var three := two + ("\n" + ("#" + c));
    OneLinerBoth("#", a);
    OneLine(one);
    AppendedLine(one, "#" + b);
    AppendedLine(two, "#" + c);
    assert "#" + DONT_EDIT == one + "\n";
    CommentLine(one, CUSTOMIZE, b);
    CommentLine(two, MANAGED, c);
    LinesOfComments(three, VERSION, d);
  }

  lemma BannerSaysNothing(name: string, keyword: string)
    requires Known(keyword)
    ensures ReadSetting(BANNER, name, keyword) == None
  {
    var a := FirstComment();
    var b := SecondComment();
    var c, d := LastComments();
    LinesOfBanner(a, b, c, d);
    forall l | l in ["#" + a, "#" + b, "#" + c, "#" + d, ""] ensures !StartsWith(l, "Host ") {
      Differs(l, "Host ", 0);
    }
    NoHostLine(Lines(BANNER), name + ".hocus.dev", keyword);
  }

  lemma OneMoreBlock(f: string, b: Block, name: string, keyword: string)
    requires Acceptable(b) && Known(keyword)
    ensures ReadSetting(f, name, keyword).Some? ==>
              ReadSetting(f + Text(SegmentOf(b)), name, keyword) == ReadSetting(f, name, keyword)
    ensures ReadSetting(f, name, keyword).None? ==>
              ReadSetting(f + Text(SegmentOf(b)), name, keyword) == if b.name == name then Some(ValueIn(b, keyword)) else None
  {
    var host := name + ".hocus.dev";
    LinesWithBlock(f, b);
    SettingOfBoth(Lines(f), BlockLines(b), host, keyword, false);
    SameHost(b, name);
    if b.name == name {
      OwnBlock(b, keyword, Ends(Lines(f), host, false));
    } else {
      OtherBlock(b, host, keyword, Ends(Lines(f), host, false));
    }
  }

  /** A name without a block has no settings. */
  lemma {:induction false} NoBlock(gs: seq<Segment>, name: string, keyword: string)
    requires OfBlocks(gs) && Known(keyword) && forall g | g in gs :: g.name != name
    ensures ReadSetting(BANNER + Texts(gs), name, keyword) == None
  {
    if gs == [] {
      assert BANNER + Texts(gs) == BANNER;
      BannerSaysNothing(name, keyword);
    } else {
      var rest, g := gs[..|gs| - 1], gs[|gs| - 1];
      assert gs == rest + [g] && OfBlock(g);
      NoBlock(rest, name, keyword);
      var b: Block :| Acceptable(b) && g == SegmentOf(b);
      OneMoreBlock(BANNER + Texts(rest), b, name, keyword);
      Joined(BANNER, Texts(rest), Text(g));
    }
  }

  /** And a name with a block has those of the block. */
  lemma {:induction false} BlockIsRead(gs: seq<Segment>, b: Block, keyword: string)
    requires OfBlocks(gs) && Known(keyword) && DistinctNames(gs) && Acceptable(b) && SegmentOf(b) in gs
    ensures ReadSetting(BANNER + Texts(gs), b.name, keyword) == Some(ValueIn(b, keyword))
  {
    var rest, g := gs[..|gs| - 1], gs[|gs| - 1];
    assert gs == rest + [g] && OfBlock(g);
    Joined(BANNER, Texts(rest), Text(g));
    if SegmentOf(b) in rest {
      BlockIsRead(rest, b, keyword);
      var last: Block :| Acceptable(last) && g == SegmentOf(last);
      OneMoreBlock(BANNER + Texts(rest), last, b.name, keyword);
    } else {
      forall h | h in rest ensures h.name != b.name {
        var i :| 0 <= i < |rest| && rest[i] == h;
        assert gs[i].name != gs[|gs| - 1].name;
      }
      NoBlock(rest, b.name, keyword);
      OneMoreBlock(BANNER + Texts(rest), b, b.name, keyword);
    }
  }

  lemma {:induction false} LastIsLatest(cs: seq<Segment>, k: nat)
    requires k < |cs| && forall m | k < m < |cs| :: cs[m].name != cs[k].name
    ensures cs[k] in Latest(cs)
  {
    if k == 0 {
      assert forall d | d in cs[1..] :: d.name != cs[0].name;
    } else {
      assert cs[1..][k - 1] == cs[k];
      LastIsLatest(cs[1..], k - 1);
    }
  }

  /** After any connections with names that do not begin with a slash, ssh finds for each workspace the host
      name and the jump host of its last connection. */
  lemma SettingsAreThoseOfTheLastConnection(bs: seq<Block>, k: nat)
    requires forall b | b in bs :: Acceptable(b) && !LeadingSlash(b.name)
    requires k < |bs| && forall m | k < m < |bs| :: bs[m].name != bs[k].name
    ensures var cs := seq(|bs|, i requires 0 <= i < |bs| => SegmentOf(bs[i]));
            && AfterAll(BANNER, cs).Some?
            && var file := AfterAll(BANNER, cs).value;
            && ReadSetting(file, bs[k].name, "    HostName ") == Some(bs[k].workspaceHostname)
            && ReadSetting(file, bs[k].name, "    ProxyJump ") == Some("sshgateway@" + (bs[k].agentHostname + ":8822"))
  {
    var cs := seq(|bs|, i requires 0 <= i < |bs| => SegmentOf(bs[i]));
    ConnectionsAreKept(bs);
    LatestAreDistinct(cs);
    LastIsLatest(cs, k);
    forall g | g in Latest(cs) ensures OfBlock(g) {
      var i :| 0 <= i < |cs| && cs[i] == g;
      assert bs[i] in bs && g == SegmentOf(bs[i]);
    }
    assert bs[k] in bs;
    BlockIsRead(Latest(cs), bs[k], "    HostName ");
    BlockIsRead(Latest(cs), bs[k], "    ProxyJump ");
  }
}
