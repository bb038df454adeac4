/** The ssh config that the editor extension keeps for its workspaces: a banner and one block of
    text per workspace, which every connection writes anew at the end. */
module SshConfig {
  import opened Wrappers
  import opened MarkedText

  // ---------- The text of a block ----------

  const BANNER: string :=
    "#" + DONT_EDIT + "#" + CUSTOMIZE + "#" + MANAGED + "#" + VERSION

  const DONT_EDIT := " Don't edit this file" + " - your changes WILL be" + " overwritten!!!\n"
  const CUSTOMIZE := " Please perform customizations" + " in the main config file" + " under Host *.hocus.dev\n"
  const MANAGED := " This file is managed by Hocus\n"
  const VERSION := " Hocus SSH Integration 0.0.4\n"

  const USER_LINE := "    User hocus"
  const OTHER_LINES := ["    UserKnownHostsFile /dev/null", "    StrictHostKeyChecking no", "    ForwardAgent yes",
                        "    AddKeysToAgent yes", "    UseKeychain yes"]

  datatype Block = Block(name: string, workspaceHostname: string, agentHostname: string)

  function HostOf(b: Block): string {
    b.name + ".hocus.dev"
  }

  function JumpHostOf(b: Block): string {
    "sshgateway@" + (b.agentHostname + ":8822")
  }

  /** The host and its settings. */
  function HostLines(b: Block): seq<string> {
    ["Host " + HostOf(b), "    HostName " + b.workspaceHostname, USER_LINE, "    ProxyJump " + JumpHostOf(b)] + OTHER_LINES
  }

  /** Each line after a line break. */
  function Broken(ls: seq<string>): string {
    if ls == [] then "" else Broken(ls[..|ls| - 1]) + ("\n" + ls[|ls| - 1])
  }

  function Body(b: Block): string {
    Broken(HostLines(b)) + "\n"
  }

  function SegmentOf(b: Block): Segment {
    Segment(b.name, Body(b))
  }

  /** The pattern that every parameter has to match; it allows the empty string. */
  predicate Permitted(s: string) {
    forall i | 0 <= i < |s| :: PermittedChar(s[i])
  }

  predicate PermittedChar(c: char) {
    '0' <= c <= '9' || 'a' <= c <= 'z' || 'A' <= c <= 'Z' || c == '.' || c == '-' || c == '_' || c == '/'
  }

  /** By their codes: hyphen, dot, slash and the digits are neighbours, and the letters have the underscore between them. */
  lemma PermittedCodes(c: char)
    ensures PermittedChar(c) <==> var n := c as int; 45 <= n <= 57 || 65 <= n <= 90 || n == 95 || 97 <= n <= 122
  {
  }

  predicate Acceptable(b: Block) {
    Permitted(b.name) && Permitted(b.workspaceHostname) && Permitted(b.agentHostname)
  }

  // ---------- The handler ----------

  /** What one connection makes of the file, or nothing on the fatal error. */
  function Connected(config: string, g: Segment): Option<string> {
    Spliced(config, Start(g.name), End(g.name), Text(g))
  }

  datatype Outcome = Opened | InvalidParameter | FatalError

  class HocusSshConfig {
    var config: string

    constructor ()
      ensures config == BANNER
    {
      config := BANNER;
    }

    method Find(pattern: string, from: nat) returns (r: int)
      requires pattern != ""
      ensures r == IndexOf(config, pattern, from) && (r == -1 || (from <= r && r + |pattern| <= |config|))
    {
      FirstMatch(config, pattern, from);
      r := IndexOf(config, pattern, from);
    }

    /** Two writes: the old segment is cut out, then the new text is appended. */
    method Splice(start: string, end: string, text: string) returns (found: bool)
      requires start != "" && end != ""
      modifies this
      ensures Spliced(old(config), start, end, text) == if found then Some(config) else None
      ensures !found ==> config == old(config)
    {
      var startPos := Find(start, 0);
      if startPos != -1 {
        var endPos := Find(end, startPos + |start|);
        if endPos == -1 {
          NothingWithoutEnd(config, start, end, text);
          return false;
        }
        SplicedAt(config, config[..startPos], config[endPos + |end|..], start, end, text, endPos);
        config := config[..startPos] + config[endPos + |end|..];
      } else {
        AppendedOnly(config, start, end, text);
      }
      config := config + text;
      return true;
    }

    method Connect(b: Block, workspaceRoot: string) returns (outcome: Outcome)
      modifies this
      ensures outcome == InvalidParameter <==> !(Acceptable(b) && Permitted(workspaceRoot))
      ensures outcome == Opened ==> Connected(old(config), SegmentOf(b)) == Some(config)
      ensures outcome == FatalError ==> Connected(old(config), SegmentOf(b)) == None
      ensures outcome != Opened ==> config == old(config)
    {
      if !(Acceptable(b) && Permitted(workspaceRoot)) {
        return InvalidParameter;
      }
      var g := SegmentOf(b);
      var found := Splice(Start(g.name), End(g.name), Text(g));
      return if found then Opened else FatalError;
    }
  }

  // ---------- The banner and the blocks have the marks they should ----------

  lemma PlainBoth(a: string, b: string)
    requires Plain(a) && Plain(b)
    ensures Plain(a + b)
  {
  }

  lemma PermittedIsGood(s: string)
    requires Permitted(s)
    ensures GoodName(s)
  {
    forall i | 0 <= i < |s| ensures s[i] != '#' && s[i] != '>' {
      assert PermittedChar(s[i]);
    }
  }

  lemma FirstLines()
    ensures Plain(DONT_EDIT)
  {
    PlainBoth(" Don't edit this file", " - your changes WILL be");
    PlainBoth(" Don't edit this file" + " - your changes WILL be", " overwritten!!!\n");
  }

  lemma SecondLine()
    ensures Plain(CUSTOMIZE)
  {
    PlainBoth(" Please perform customizations", " in the main config file");
    PlainBoth(" Please perform customizations" + " in the main config file", " under Host *.hocus.dev\n");
  }

  lemma LastLines()
    ensures Plain(MANAGED) && Plain(VERSION)
  {
  }

  /** A comment may follow a preamble. */
  lemma Commented(pre: string, comment: string)
    requires Preamble(pre) && Plain(comment) && comment != "" && comment[0] != '<'
    ensures Preamble(pre + "#" + comment)
  {
  }

  lemma BannerOf(a: string, b: string, c: string, d: string)
    requires forall s | s in {a, b, c, d} :: Plain(s) && s != "" && s[0] != '<'
    ensures Preamble("#" + a + "#" + b + "#" + c + "#" + d)
  {
    assert "" + "#" + a == "#" + a;
    Commented("", a);
    Commented("#" + a, b);
    Commented("#" + a + "#" + b, c);
    Commented("#" + a + "#" + b + "#" + c, d);
  }

  lemma BannerIsPreamble()
    ensures Preamble(BANNER)
  {
    FirstLines();
    SecondLine();
    LastLines();
    BannerOf(DONT_EDIT, CUSTOMIZE, MANAGED, VERSION);
  }

  lemma {:induction false} BrokenIsPlain(ls: seq<string>)
    requires forall l | l in ls :: Plain(l)
    ensures Plain(Broken(ls))
  {
    if ls != [] {
      var rest, l := ls[..|ls| - 1], ls[|ls| - 1];
      assert ls == rest + [l];
      BrokenIsPlain(rest);
      PlainBoth("\n", l);
      PlainBoth(Broken(rest), "\n" + l);
    }
  }

  lemma {:induction false} BrokenStarts(ls: seq<string>)
    requires ls != [] && ls[0] != ""
    ensures |Broken(ls)| > 1 && Broken(ls)[0] == '\n' && Broken(ls)[1] == ls[0][0]
  {
    if |ls| == 1 {
      assert Broken(ls[..0]) == "";
      assert Broken(ls) == "\n" + ls[0];
    } else {
      BrokenStarts(ls[..|ls| - 1]);
    }
  }

  lemma OtherLinesArePlain()
    ensures Plain(USER_LINE) && forall l | l in OTHER_LINES :: Plain(l)
  {
  }

  lemma FixedTextIsPlain()
    ensures Plain("Host ") && Plain(".hocus.dev") && Plain("    HostName ") && Plain("    ProxyJump ")
            && Plain("sshgateway@") && Plain(":8822")
  {
  }

  lemma HostLinesArePlain(b: Block)
    requires Plain(b.name) && Plain(b.workspaceHostname) && Plain(b.agentHostname)
    ensures forall l | l in HostLines(b) :: Plain(l)
  {
    FixedTextIsPlain();
    OtherLinesArePlain();
    PlainBoth(b.name, ".hocus.dev");
    PlainBoth("Host ", HostOf(b));
    PlainBoth("    HostName ", b.workspaceHostname);
    PlainBoth(b.agentHostname, ":8822");
    PlainBoth("sshgateway@", b.agentHostname + ":8822");
    PlainBoth("    ProxyJump ", JumpHostOf(b));
  }

  lemma BlockIsGood(b: Block)
    requires Acceptable(b)
    ensures Good(SegmentOf(b))
  {
    PermittedIsGood(b.name);
    PermittedIsGood(b.workspaceHostname);
    PermittedIsGood(b.agentHostname);
    HostLinesArePlain(b);
    BrokenIsPlain(HostLines(b));
    BrokenStarts(HostLines(b));
    PlainBoth(Broken(HostLines(b)), "\n");
  }

  // ---------- One connection ----------

  function Without(gs: seq<Segment>, name: string): seq<Segment> {
    if gs == [] then []
    else (if gs[0].name == name then [] else [gs[0]]) + Without(gs[1..], name)
  }

  /** What a connection is for: one block per name, the latest at the end. */
  function Renewed(gs: seq<Segment>, g: Segment): seq<Segment> {
    Without(gs, g.name) + [g]
  }

  ghost predicate DistinctNames(gs: seq<Segment>) {
    forall i, j | 0 <= i < j < |gs| :: gs[i].name != gs[j].name
  }

  /** A name that is a slash and the name of another block, which comes before the block of
      the name itself, if there is one. */
  ghost predicate Misled(gs: seq<Segment>, name: string) {
    exists i :: 0 <= i < |gs| && Confused(gs[i], name) && forall j | 0 <= j < i :: gs[j].name != name
  }

  lemma {:induction false} WithoutAbsent(gs: seq<Segment>, name: string)
    requires forall g | g in gs :: g.name != name
    ensures Without(gs, name) == gs
  {
    if gs != [] {
      WithoutAbsent(gs[1..], name);
    }
  }

  lemma {:induction false} WithoutBoth(a: seq<Segment>, b: seq<Segment>, name: string)
    ensures Without(a + b, name) == Without(a, name) + Without(b, name)
  {
    if a == [] {
      assert a + b == b;
    } else {
      assert (a + b)[1..] == a[1..] + b;
      WithoutBoth(a[1..], b, name);
    }
  }

  /** The first block of the name, or whose end marker looks like its start marker. */
  lemma {:induction false} FirstFound(gs: seq<Segment>, name: string) returns (k: nat)
    ensures k <= |gs| && forall j | 0 <= j < k :: gs[j].name != name && !Confused(gs[j], name)
    ensures k < |gs| ==> gs[k].name == name || Confused(gs[k], name)
  {
    k := 0;
    while k < |gs| && gs[k].name != name && !Confused(gs[k], name)
      invariant k <= |gs| && forall j | 0 <= j < k :: gs[j].name != name && !Confused(gs[j], name)
    {
      k := k + 1;
    }
  }

  lemma SplitAt(gs: seq<Segment>, k: nat)
    requires k < |gs|
    ensures gs == gs[..k] + [gs[k]] + gs[k + 1..]
  {
  }

  lemma WithoutAround(before: seq<Segment>, h: Segment, after: seq<Segment>, name: string)
    requires forall s | s in before :: s.name != name
    ensures Without(before + [h] + after, name) == before + Without([h], name) + Without(after, name)
  {
    WithoutAbsent(before, name);
    WithoutBoth(before + [h], after, name);
    WithoutBoth(before, [h], name);
  }

  lemma RenewedFirst(before: seq<Segment>, h: Segment, after: seq<Segment>, g: Segment)
    requires forall s | s in before :: s.name != g.name
    requires h.name == g.name && forall s | s in after :: s.name != g.name
    ensures Renewed(before + [h] + after, g) == before + after + [g]
  {
    WithoutAround(before, h, after, g.name);
    WithoutAbsent(after, g.name);
    assert Without([h], g.name) == Without([], g.name);
  }

  lemma RenewedLater(before: seq<Segment>, h: Segment, after: seq<Segment>, g: Segment)
    requires forall s | s in before :: s.name != g.name
    requires h.name != g.name
    ensures Renewed(before + [h] + after, g) == before + [h] + (Without(after, g.name) + [g])
  {
    WithoutAround(before, h, after, g.name);
    WithoutAbsent([h], g.name);
  }

  lemma ReplacedRenews(pre: string, before: seq<Segment>, h: Segment, after: seq<Segment>, g: Segment)
    requires Preamble(pre) && AllGood(before) && Good(h) && h.name == g.name
    requires forall s | s in before :: s.name != g.name && !Confused(s, g.name)
    requires forall s | s in after :: s.name != g.name
    ensures Connected(pre + Texts(before + [h] + after), g) == Some(pre + Texts(Renewed(before + [h] + after, g)))
  {
    RenewedFirst(before, h, after, g);
    Replaced(pre, before, h, after, g);
  }

  lemma MangledDoesNot(pre: string, before: seq<Segment>, h: Segment, after: seq<Segment>, g: Segment)
    requires Preamble(pre) && AllGood(before + [h] + after) && Good(g) && Confused(h, g.name)
    requires forall s | s in before :: s.name != g.name && !Confused(s, g.name)
    ensures Connected(pre + Texts(before + [h] + after), g) != Some(pre + Texts(Renewed(before + [h] + after, g)))
  {
    RenewedLater(before, h, after, g);
    Mangled(pre, before, h, after, g, Without(after, g.name) + [g]);
  }

  /** A connection renews its block, and keeps all others byte for byte, if and only if its
      name is not misled. */
  lemma ConnectionRenews(pre: string, gs: seq<Segment>, g: Segment)
    requires Preamble(pre) && AllGood(gs) && Good(g) && DistinctNames(gs)
    ensures Connected(pre + Texts(gs), g) == Some(pre + Texts(Renewed(gs, g))) <==> !Misled(gs, g.name)
  {
    var k := FirstFound(gs, g.name);
    if k == |gs| {
      WithoutAbsent(gs, g.name);
      Appended(pre, gs, g);
    } else {
      SplitAt(gs, k);
      if gs[k].name == g.name {
        ReplacedRenews(pre, gs[..k], gs[k], gs[k + 1..], g);
      } else {
        assert Misled(gs, g.name);
        MangledDoesNot(pre, gs[..k], gs[k], gs[k + 1..], g);
      }
    }
  }

  // ---------- Every sequence of connections ----------

  /** The file after completed connections. */
  function AfterAll(config: string, cs: seq<Segment>): Option<string> {
    if cs == [] then Some(config)
    else
      match AfterAll(config, cs[..|cs| - 1])
      case None => None
      case Some(now) => Connected(now, cs[|cs| - 1])
  }

  function Unless(c: Segment, later: seq<Segment>): seq<Segment> {
    if exists d :: d in later && d.name == c.name then [] else [c]
  }

  /** The connections with no later one of the same name, in order. */
  function Latest(cs: seq<Segment>): seq<Segment> {
    if cs == [] then [] else Unless(cs[0], cs[1..]) + Latest(cs[1..])
  }

  lemma UnlessRenewed(h: Segment, rest: seq<Segment>, c: Segment)
    ensures Unless(h, rest + [c]) == Without(Unless(h, rest), c.name)
  {
    assert c in rest + [c] && forall d | d in rest :: d in rest + [c];
    assert forall d | d in rest + [c] :: d in rest || d == c;
    assert Without([h], c.name) == (if h.name == c.name then [] else [h]) + Without([h][1..], c.name);
  }

  lemma LatestOfMore(h: Segment, rest: seq<Segment>)
    ensures Latest([h] + rest) == Unless(h, rest) + Latest(rest)
  {
    assert ([h] + rest)[1..] == rest;
  }

  lemma RenewedBoth(a: seq<Segment>, b: seq<Segment>, c: Segment)
    ensures Renewed(a + b, c) == Without(a, c.name) + Renewed(b, c)
  {
    WithoutBoth(a, b, c.name);
  }

  lemma LatestOneMore(h: Segment, rest: seq<Segment>, c: Segment)
    requires Latest(rest + [c]) == Renewed(Latest(rest), c)
    ensures Latest([h] + (rest + [c])) == Renewed(Latest([h] + rest), c)
  {
    LatestOfMore(h, rest + [c]);
    LatestOfMore(h, rest);
    UnlessRenewed(h, rest, c);
    RenewedBoth(Unless(h, rest), Latest(rest), c);
  }

  lemma {:induction false} LatestRenewed(cs: seq<Segment>, c: Segment)
    ensures Latest(cs + [c]) == Renewed(Latest(cs), c)
  {
    if cs == [] {
      assert cs + [c] == [c] && [c][1..] == [];
    } else {
      var h, rest := cs[0], cs[1..];
      assert cs + [c] == [h] + (rest + [c]) && cs == [h] + rest;
      LatestRenewed(rest, c);
      LatestOneMore(h, rest, c);
    }
  }

  lemma {:induction false} LatestAreDistinct(cs: seq<Segment>)
    ensures DistinctNames(Latest(cs)) && forall g | g in Latest(cs) :: g in cs
  {
    if cs != [] {
      LatestAreDistinct(cs[1..]);
      forall i | 0 <= i < |Latest(cs[1..])| ensures Latest(cs[1..])[i] in cs[1..] {
      }
    }
  }

  predicate LeadingSlash(name: string) {
    name != "" && name[0] == '/'
  }

  /** After any connections with names that do not begin with a slash, the file is the banner and
      exactly one block per name, with its latest values, in order of last connection. */
  lemma {:induction false} FileHoldsLatest(pre: string, cs: seq<Segment>)
    requires Preamble(pre) && AllGood(cs) && forall c | c in cs :: !LeadingSlash(c.name)
    ensures AfterAll(pre, cs) == Some(pre + Texts(Latest(cs)))
  {
    if cs == [] {
      assert pre + Texts(Latest(cs)) == pre;
    } else {
      var rest, c := cs[..|cs| - 1], cs[|cs| - 1];
      assert cs == rest + [c];
      FileHoldsLatest(pre, rest);
      LatestAreDistinct(rest);
      LatestRenewed(rest, c);
      assert !Misled(Latest(rest), c.name);
      ConnectionRenews(pre, Latest(rest), c);
    }
  }

  /** The same for the blocks of the source, none of whose text matters. */
  lemma ConnectionsAreKept(bs: seq<Block>)
    requires forall b | b in bs :: Acceptable(b) && !LeadingSlash(b.name)
    ensures var cs := seq(|bs|, i requires 0 <= i < |bs| => SegmentOf(bs[i]));
            AfterAll(BANNER, cs) == Some(BANNER + Texts(Latest(cs)))
  {
    var cs := seq(|bs|, i requires 0 <= i < |bs| => SegmentOf(bs[i]));
    forall c | c in cs ensures Good(c) && !LeadingSlash(c.name) {
      var i :| 0 <= i < |cs| && cs[i] == c;
      BlockIsGood(bs[i]);
    }
    BannerIsPreamble();
    FileHoldsLatest(BANNER, cs);
  }

  /** A leading slash: with a workspace `a` in the file, connecting to `/a` finds the end marker of `a`
      and does not leave the file it should. */
  lemma LeadingSlashIsMisled(a: Block, slashA: Block)
    requires Acceptable(a) && Acceptable(slashA) && slashA.name == "/" + a.name
    ensures Connected(BANNER + Texts([SegmentOf(a)]), SegmentOf(slashA))
            != Some(BANNER + Texts([SegmentOf(a), SegmentOf(slashA)]))
  {
    BlockIsGood(a);
    BlockIsGood(slashA);
    BannerIsPreamble();
    var gs, g := [SegmentOf(a)], SegmentOf(slashA);
    assert Confused(gs[0], g.name) && Misled(gs, g.name);
    ConnectionRenews(BANNER, gs, g);
    WithoutAbsent(gs, g.name);
    assert Renewed(gs, g) == [SegmentOf(a), SegmentOf(slashA)];
  }
}
