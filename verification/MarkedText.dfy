/** Text made of a preamble and named segments between markers, and how a segment is found
    again and replaced by searching for its markers byte by byte. */
module MarkedText {
  import opened Wrappers

  datatype Segment = Segment(name: string, body: string)

  function Start(name: string): string {
    "\n#<" + name + ">"
  }

  function End(name: string): string {
    "#</" + name + ">\n"
  }

  function Text(g: Segment): string {
    Start(g.name) + g.body + End(g.name)
  }

  function Texts(gs: seq<Segment>): string {
    if gs == [] then "" else Texts(gs[..|gs| - 1]) + Text(gs[|gs| - 1])
  }

  predicate MatchAt(s: string, p: string, i: int) {
    0 <= i && i + |p| <= |s| && forall k | 0 <= k < |p| :: s[i + k] == p[k]
  }

  /** `Buffer.indexOf`: the first match at or after an offset, or -1. */
  function IndexOf(s: string, p: string, from: nat): int
    requires p != ""
    decreases |s| - from
  {
    if from + |p| > |s| then -1 else if MatchAt(s, p, from) then from else IndexOf(s, p, from + 1)
  }

  lemma {:induction false} FirstMatch(s: string, p: string, from: nat)
    requires p != ""
    ensures var r := IndexOf(s, p, from);
            if r == -1 then forall i | from <= i :: !MatchAt(s, p, i)
            else from <= r && MatchAt(s, p, r) && forall i | from <= i < r :: !MatchAt(s, p, i)
    decreases |s| - from
  {
    if from + |p| <= |s| && !MatchAt(s, p, from) {
      FirstMatch(s, p, from + 1);
    }
  }

  lemma IndexIs(s: string, p: string, from: nat, r: nat)
    requires p != "" && from <= r && MatchAt(s, p, r) && forall i | from <= i < r :: !MatchAt(s, p, i)
    ensures IndexOf(s, p, from) == r
  {
    FirstMatch(s, p, from);
  }

  /** The segment between the markers replaced by a text at the end; nothing when the end marker is missing. */
  function Spliced(s: string, start: string, end: string, text: string): Option<string>
    requires start != "" && end != ""
  {
    FirstMatch(s, start, 0);
    var startPos := IndexOf(s, start, 0);
    if startPos == -1 then Some(s + text)
    else
      FirstMatch(s, end, startPos + |start|);
      var endPos := IndexOf(s, end, startPos + |start|);
      if endPos == -1 then None else Some(s[..startPos] + s[endPos + |end|..] + text)
  }

  // ---------- Where the marks are ----------

  predicate Plain(s: string) {
    forall i | 0 <= i < |s| :: s[i] != '#'
  }

  predicate GoodName(name: string) {
    Plain(name) && '>' !in name
  }

  /** The body has no mark and starts with a line break of its own. */
  predicate Good(g: Segment) {
    GoodName(g.name) && Plain(g.body) && |g.body| > 1 && g.body[0] == g.body[|g.body| - 1] == '\n' && g.body[1] != '\n'
  }

  ghost predicate AllGood(gs: seq<Segment>) {
    forall g | g in gs :: Good(g)
  }

  /** Marks in the preamble are not those of a segment. */
  predicate Preamble(pre: string) {
    forall i | 0 <= i < |pre| && pre[i] == '#' :: i + 1 < |pre| && pre[i + 1] != '<'
  }

  predicate Follows(y: string) {
    y == "" || y[0] == '\n'
  }

  lemma Stop(s: string, i: nat, a: string)
    requires MatchAt(s, a + ">", i)
    ensures s[i + |a|] == '>'
  {
    assert (a + ">")[|a|] == '>';
  }

  lemma NoStop(s: string, i: nat, a: string, k: nat)
    requires MatchAt(s, a + ">", i) && '>' !in a && k < |a|
    ensures s[i + k] == a[k] != '>'
  {
    assert (a + ">")[k] == a[k];
  }

  lemma SameName(s: string, i: nat, a: string, b: string)
    requires MatchAt(s, a + ">", i) && MatchAt(s, b + ">", i)
    requires '>' !in a && '>' !in b
    ensures a == b
  {
    Stop(s, i, a);
    Stop(s, i, b);
    if |a| < |b| {
      NoStop(s, i, b, |a|);
    } else if |b| < |a| {
      NoStop(s, i, a, |b|);
    } else {
      forall k | 0 <= k < |a| ensures a[k] == b[k] {
        NoStop(s, i, a, k);
        NoStop(s, i, b, k);
      }
    }
  }

  lemma Shifted(x: string, y: string, p: string, i: int)
    requires i >= |x|
    ensures MatchAt(x + y, p, i) <==> MatchAt(y, p, i - |x|)
  {
    if 0 <= i && i + |p| <= |x + y| {
      assert (x + y)[i..i + |p|] == y[i - |x|..i - |x| + |p|];
    }
  }

  /** The parts of a match match where they stand. */
  lemma MatchParts(s: string, p: string, q: string, i: int)
    requires 0 <= i
    ensures MatchAt(s, p + q, i) <==> MatchAt(s, p, i) && MatchAt(s, q, i + |p|)
  {
    assert forall k | 0 <= k < |p| :: (p + q)[k] == p[k];
    assert forall k | 0 <= k < |q| :: (p + q)[|p| + k] == q[k];
  }

  /** The two marks of a segment. */
  lemma MarksOf(g: Segment, i: nat)
    requires Good(g) && i < |Text(g)|
    ensures Text(g)[i] == '#' <==> i == 1 || i == |Start(g.name)| + |g.body|
  {
  }

  lemma AtStart(g: Segment, y: string)
    ensures MatchAt(Text(g) + y, "\n#<", 0) && MatchAt(Text(g) + y, g.name + ">", 3)
  {
    var s := Text(g) + y;
    assert s[0..3] == "\n#<";
    assert s[3..3 + |g.name + ">"|] == g.name + ">";
  }

  lemma AtEnd(g: Segment, y: string)
    requires Good(g)
    ensures var i := |Start(g.name)| + |g.body| - 1;
            MatchAt(Text(g) + y, "\n#<", i) && MatchAt(Text(g) + y, "/" + g.name + ">", i + 3)
  {
    var s := Text(g) + y;
    var i := |Start(g.name)| + |g.body| - 1;
    assert s[i..] == "\n" + End(g.name) + y;
    assert s[i..i + 3] == s[i..][..3] == "\n#<";
    assert s[i + 3..i + 3 + |"/" + g.name + ">"|] == s[i..][3..3 + |"/" + g.name + ">"|] == "/" + g.name + ">";
  }

  lemma HashIn(s: string, i: nat)
    requires MatchAt(s, "\n#<", i)
    ensures s[i + 1] == '#'
  {
    assert "\n#<"[1] == '#';
  }

  /** A start marker matches at the start of the segment, or, with a slash in front of
      the name, at its end marker. */
  lemma StartsInSegment(g: Segment, y: string, name: string, i: nat)
    requires Good(g) && GoodName(name) && Follows(y) && i < |Text(g)|
    ensures MatchAt(Text(g) + y, Start(name), i) <==>
              || (i == 0 && name == g.name)
              || (i + 1 == |Start(g.name)| + |g.body| && name == "/" + g.name)
  {
    var s := Text(g) + y;
    assert Start(name) == "\n#<" + (name + ">");
    MatchParts(s, "\n#<", name + ">", i);
    AtStart(g, y);
    AtEnd(g, y);
    if MatchAt(s, Start(name), i) {
      HashIn(s, i);
      assert i + 1 < |Text(g)|;
      MarksOf(g, i + 1);
      SameName(s, i + 3, name, if i == 0 then g.name else "/" + g.name);
    }
  }

  lemma NoStartInPreamble(pre: string, y: string, name: string, i: nat)
    requires Preamble(pre) && Follows(y) && i < |pre|
    ensures !MatchAt(pre + y, Start(name), i)
  {
    var s := pre + y;
    assert Start(name) == "\n#<" + (name + ">");
    MatchParts(s, "\n#<", name + ">", i);
    if MatchAt(s, "\n#<", i) {
      HashIn(s, i);
      assert "\n#<"[2] == '<';
    }
  }

  /** The start marker of a name is mistaken for the end marker of another segment. */
  predicate Confused(g: Segment, name: string) {
    name == "/" + g.name
  }

  lemma {:induction false} NoStartBefore(pre: string, gs: seq<Segment>, y: string, name: string, i: nat)
    requires Preamble(pre) && AllGood(gs) && GoodName(name) && Follows(y) && i < |pre + Texts(gs)|
    requires forall g | g in gs :: g.name != name && !Confused(g, name)
    ensures !MatchAt(pre + Texts(gs) + y, Start(name), i)
  {
    if gs == [] {
      assert pre + Texts(gs) == pre;
      NoStartInPreamble(pre, y, name, i);
    } else {
      var rest, g := gs[..|gs| - 1], gs[|gs| - 1];
      var x := pre + Texts(rest);
      Regrouped(pre, Texts(rest), Text(g), y);
      if i < |x| {
        NoStartBefore(pre, rest, Text(g) + y, name, i);
      } else {
        Shifted(x, Text(g) + y, Start(name), i);
        StartsInSegment(g, y, name, i - |x|);
      }
    }
  }

  /** The first segment of the name, or the first confused with it, is where the search ends. */
  lemma StartFound(pre: string, before: seq<Segment>, g: Segment, y: string, name: string)
    requires Preamble(pre) && AllGood(before) && Good(g) && GoodName(name) && Follows(y)
    requires forall h | h in before :: h.name != name && !Confused(h, name)
    requires g.name == name || Confused(g, name)
    ensures IndexOf(pre + Texts(before) + (Text(g) + y), Start(name), 0)
            == |pre + Texts(before)| + if g.name == name then 0 else |Start(g.name)| + |g.body| - 1
  {
    var x := pre + Texts(before);
    var s := x + (Text(g) + y);
    var at := if g.name == name then 0 else |Start(g.name)| + |g.body| - 1;
    StartsInSegment(g, y, name, at);
    Shifted(x, Text(g) + y, Start(name), |x| + at);
    forall i | 0 <= i < |x| + at ensures !MatchAt(s, Start(name), i) {
      if i < |x| {
        NoStartBefore(pre, before, Text(g) + y, name, i);
      } else {
        Shifted(x, Text(g) + y, Start(name), i);
        StartsInSegment(g, y, name, i - |x|);
      }
    }
    IndexIs(s, Start(name), 0, |x| + at);
  }

  lemma NoStart(pre: string, gs: seq<Segment>, name: string)
    requires Preamble(pre) && AllGood(gs) && GoodName(name)
    requires forall g | g in gs :: g.name != name && !Confused(g, name)
    ensures IndexOf(pre + Texts(gs), Start(name), 0) == -1
  {
    var s := pre + Texts(gs);
    assert s + "" == s;
    forall i | 0 <= i ensures !MatchAt(s, Start(name), i) {
      if i < |s| {
        NoStartBefore(pre, gs, "", name, i);
      }
    }
    FirstMatch(s, Start(name), 0);
  }

  lemma MatchIndex(s: string, p: string, i: nat, k: nat)
    requires MatchAt(s, p, i) && k < |p|
    ensures s[i + k] == p[k]
  {
  }

  lemma BodyIsPlain(s: string, g: Segment, i: nat, k: nat)
    requires Good(g) && MatchAt(s, g.body, i) && i <= k < i + |g.body|
    ensures s[k] != '#'
  {
    MatchIndex(s, g.body, i, k - i);
  }

  lemma EndIsMark(s: string, name: string, i: nat)
    requires MatchAt(s, End(name), i)
    ensures s[i] == '#'
  {
    assert End(name)[0] == '#';
  }

  lemma FirstMark(s: string, name: string, from: nat, r: nat)
    requires from <= r && MatchAt(s, End(name), r)
    requires forall i | from <= i < r :: s[i] != '#'
    ensures IndexOf(s, End(name), from) == r
  {
    forall i | from <= i < r ensures !MatchAt(s, End(name), i) {
      if MatchAt(s, End(name), i) {
        EndIsMark(s, name, i);
      }
    }
    IndexIs(s, End(name), from, r);
  }

  /** From behind the start marker of a segment, its own end marker is the first. */
  lemma EndFound(s: string, g: Segment, i: nat)
    requires Good(g) && MatchAt(s, Text(g), i)
    ensures IndexOf(s, End(g.name), i + |Start(g.name)|) == i + |Start(g.name)| + |g.body|
  {
    MatchParts(s, Start(g.name) + g.body, End(g.name), i);
    MatchParts(s, Start(g.name), g.body, i);
    var from := i + |Start(g.name)|;
    forall k | from <= k < from + |g.body| ensures s[k] != '#' {
      BodyIsPlain(s, g, from, k);
    }
    FirstMark(s, g.name, from, from + |g.body|);
  }

  // ---------- Replacing a segment ----------

  lemma Associative(x: string, y: string, z: string)
    ensures x + y + z == x + (y + z)
  {
  }

  lemma TextsOfMore(gs: seq<Segment>, g: Segment)
    ensures Texts(gs + [g]) == Texts(gs) + Text(g)
  {
    assert (gs + [g])[..|gs|] == gs;
  }

  lemma {:induction false} TextsOfBoth(a: seq<Segment>, b: seq<Segment>)
    ensures Texts(a + b) == Texts(a) + Texts(b)
  {
    if b == [] {
      assert a + b == a;
    } else {
      var rest, g := b[..|b| - 1], b[|b| - 1];
      assert a + b == a + rest + [g] && b == rest + [g];
      TextsOfBoth(a, rest);
      TextsOfMore(a + rest, g);
      TextsOfMore(rest, g);
      Associative(Texts(a), Texts(rest), Text(g));
    }
  }

  lemma {:induction false} TextsFollow(gs: seq<Segment>)
    ensures Follows(Texts(gs))
  {
    if gs != [] {
      TextsFollow(gs[..|gs| - 1]);
    }
  }

  /** A segment of a new name is appended. */
  lemma Appended(pre: string, gs: seq<Segment>, new_: Segment)
    requires Preamble(pre) && AllGood(gs) && Good(new_)
    requires forall g | g in gs :: g.name != new_.name && !Confused(g, new_.name)
    ensures Spliced(pre + Texts(gs), Start(new_.name), End(new_.name), Text(new_)) == Some(pre + Texts(gs + [new_]))
  {
    NoStart(pre, gs, new_.name);
    assert (gs + [new_])[..|gs|] == gs;
    assert pre + Texts(gs) + Text(new_) == pre + (Texts(gs) + Text(new_));
  }

  lemma Regrouped(pre: string, a: string, b: string, c: string)
    ensures pre + (a + b + c) == pre + a + (b + c) == pre + (a + b) + c
  {
  }

  lemma AroundOne(pre: string, before: seq<Segment>, g: Segment, after: seq<Segment>)
    ensures pre + Texts(before + [g] + after) == pre + Texts(before) + (Text(g) + Texts(after))
  {
    TextsOfBoth(before + [g], after);
    TextsOfMore(before, g);
    Regrouped(pre, Texts(before), Text(g), Texts(after));
  }

  lemma Joined(pre: string, before: seq<Segment>, after: seq<Segment>, new_: Segment)
    ensures pre + Texts(before) + Texts(after) + Text(new_) == pre + Texts(before + after + [new_])
  {
    TextsOfMore(before + after, new_);
    TextsOfBoth(before, after);
    Rejoined(pre, Texts(before), Texts(after), Text(new_));
  }

  lemma SegmentStands(pre: string, a: seq<Segment>, h: Segment, b: seq<Segment>)
    ensures var s, i := pre + Texts(a + [h] + b), |pre + Texts(a)|;
            MatchAt(s, Text(h), i) && s[..i] == pre + Texts(a) && s[i + |Text(h)|..] == Texts(b)
  {
    AroundOne(pre, a, h, b);
    CutOut(pre + Texts(a), Text(h), Texts(b));
  }

  lemma FirstStart(pre: string, before: seq<Segment>, g: Segment, after: seq<Segment>, name: string)
    requires Preamble(pre) && AllGood(before) && Good(g) && GoodName(name)
    requires forall h | h in before :: h.name != name && !Confused(h, name)
    requires g.name == name || Confused(g, name)
    ensures IndexOf(pre + Texts(before + [g] + after), Start(name), 0)
            == |pre + Texts(before)| + if g.name == name then 0 else |Start(g.name)| + |g.body| - 1
  {
    TextsFollow(after);
    AroundOne(pre, before, g, after);
    StartFound(pre, before, g, Texts(after), name);
  }

  /** A segment of a known name is taken out and appended; all others are kept byte for byte. */
  lemma Replaced(pre: string, before: seq<Segment>, g: Segment, after: seq<Segment>, new_: Segment)
    requires Preamble(pre) && AllGood(before) && Good(g) && g.name == new_.name
    requires forall h | h in before :: h.name != new_.name && !Confused(h, new_.name)
    ensures Spliced(pre + Texts(before + [g] + after), Start(new_.name), End(new_.name), Text(new_))
            == Some(pre + Texts(before + after + [new_]))
  {
    var s, i := pre + Texts(before + [g] + after), |pre + Texts(before)|;
    assert i + |Text(g)| <= |s| by {
      SegmentStands(pre, before, g, after);
    }
    assert Spliced(s, Start(new_.name), End(new_.name), Text(new_)) == Some(s[..i] + s[i + |Text(g)|..] + Text(new_)) by {
      FirstStart(pre, before, g, after, new_.name);
      SegmentStands(pre, before, g, after);
      ReplacedAt(s, g, i, new_);
    }
    assert s[..i] + s[i + |Text(g)|..] + Text(new_) == pre + Texts(before + after + [new_]) by {
      SegmentStands(pre, before, g, after);
      Joined(pre, before, after, new_);
    }
  }

  lemma ReplacedAt(s: string, g: Segment, i: nat, new_: Segment)
    requires Good(g) && g.name == new_.name && MatchAt(s, Text(g), i) && IndexOf(s, Start(g.name), 0) == i
    ensures Spliced(s, Start(new_.name), End(new_.name), Text(new_)) == Some(s[..i] + s[i + |Text(g)|..] + Text(new_))
  {
    EndFound(s, g, i);
    SplicedAt(s, s[..i], s[i + |Text(g)|..], Start(g.name), End(g.name), Text(new_), i + |Start(g.name)| + |g.body|);
  }

  lemma SplicedAt(s: string, x: string, y: string, start: string, end: string, text: string, e: nat)
    requires start != "" && end != "" && |x| <= |s| && e + |end| <= |s|
    requires s[..|x|] == x && s[e + |end|..] == y
    requires IndexOf(s, start, 0) == |x| && IndexOf(s, end, |x| + |start|) == e
    ensures Spliced(s, start, end, text) == Some(x + y + text)
  {
  }

  lemma CutOut(x: string, z: string, y: string)
    ensures (x + (z + y))[..|x|] == x && MatchAt(x + (z + y), z, |x|) && (x + (z + y))[|x| + |z|..] == y
  {
  }

  lemma Rejoined(pre: string, a: string, y: string, z: string)
    ensures pre + a + y + z == pre + (a + y + z)
  {
  }

  // ---------- What goes wrong with confused markers ----------

  /** Every mark behind the preamble belongs to a segment. */
  lemma {:induction false} MarkOwner(pre: string, gs: seq<Segment>, i: nat)
    returns (a: seq<Segment>, h: Segment, b: seq<Segment>)
    requires AllGood(gs) && |pre| <= i < |pre + Texts(gs)| && (pre + Texts(gs))[i] == '#'
    ensures gs == a + [h] + b
    ensures i == |pre + Texts(a)| + 1 || i == |pre + Texts(a)| + |Start(h.name)| + |h.body|
  {
    var rest, g := gs[..|gs| - 1], gs[|gs| - 1];
    var x := pre + Texts(rest);
    Rejoined2(pre, Texts(rest), Text(g));
    if i < |x| {
      assert (x + Text(g))[i] == x[i];
      a, h, b := MarkOwner(pre, rest, i);
      b := b + [g];
    } else {
      assert (x + Text(g))[i] == Text(g)[i - |x|];
      MarksOf(g, i - |x|);
      a, h, b := rest, g, [];
    }
  }

  lemma Rejoined2(pre: string, a: string, z: string)
    ensures pre + (a + z) == pre + a + z
  {
  }

  lemma StartParts(s: string, name: string, i: nat)
    requires MatchAt(s, Start(name), i)
    ensures MatchAt(s, name + ">", i + 3)
  {
    assert Start(name) == "\n#<" + (name + ">");
    MatchParts(s, "\n#<", name + ">", i);
  }

  lemma EndParts(s: string, name: string, e: nat)
    requires MatchAt(s, End(name), e)
    ensures MatchAt(s, "/" + name + ">", e + 2) && MatchAt(s, name + ">", e + 3)
  {
    assert End(name) == "#<" + ("/" + name + ">" + "\n");
    MatchParts(s, "#<", "/" + name + ">" + "\n", e);
    MatchParts(s, "/" + name + ">", "\n", e + 2);
    assert "/" + name + ">" == "/" + (name + ">");
    MatchParts(s, "/", name + ">", e + 2);
  }

  lemma TextParts(s: string, h: Segment, i: nat)
    requires MatchAt(s, Text(h), i)
    ensures MatchAt(s, Start(h.name), i) && MatchAt(s, h.body, i + |Start(h.name)|)
    ensures MatchAt(s, End(h.name), i + |Start(h.name)| + |h.body|)
  {
    MatchParts(s, Start(h.name) + h.body, End(h.name), i);
    MatchParts(s, Start(h.name), h.body, i);
  }

  /** Behind an end marker that matches at a start marker the text does not go on with a line break. */
  lemma BehindStart(s: string, h: Segment, i: nat, name: string)
    requires MatchAt(s, Text(h), i) && Good(h) && GoodName(name) && MatchAt(s, End(name), i + 1)
    ensures i + 1 + |End(name)| < |s| && s[i + 1 + |End(name)|] != '\n'
  {
    TextParts(s, h, i);
    StartParts(s, h.name, i);
    EndParts(s, name, i + 1);
    SameName(s, i + 3, h.name, "/" + name);
    MatchIndex(s, h.body, i + |Start(h.name)|, 1);
  }

  /** Behind one that matches at an end marker the segment ends. */
  lemma BehindEnd(s: string, h: Segment, i: nat, name: string)
    requires MatchAt(s, Text(h), i) && Good(h) && GoodName(name)
    requires MatchAt(s, End(name), i + |Start(h.name)| + |h.body|)
    ensures |End(name)| == |End(h.name)|
  {
    var e := i + |Start(h.name)| + |h.body|;
    TextParts(s, h, i);
    EndParts(s, h.name, e);
    EndParts(s, name, e);
    SameName(s, e + 3, h.name, name);
  }

  lemma TwoBreaks(s: string, name: string)
    requires MatchAt(s, Start(name) + "\n\n", 0)
    ensures MatchAt(s, Start(name), 0) && |s| > |Start(name)| + 1 && s[|Start(name)| + 1] == '\n'
  {
    MatchParts(s, Start(name), "\n\n", 0);
    MatchIndex(s, "\n\n", |Start(name)|, 1);
  }

  /** A segment, and text that goes on, are not a start marker followed by two line breaks. */
  lemma NotTwoBreaks(g: Segment, y: string, name: string)
    requires Good(g) && GoodName(name) && Follows(y)
    ensures !MatchAt(Text(g) + y, Start(name) + "\n\n", 0)
  {
    var s := Text(g) + y;
    assert MatchAt(s, Text(g), 0);
    TextParts(s, g, 0);
    MatchIndex(s, g.body, |Start(g.name)|, 1);
    if MatchAt(s, Start(name) + "\n\n", 0) {
      TwoBreaks(s, name);
      StartsInSegment(g, y, name, 0);
    }
  }

  lemma CutInBody(s: string, h: Segment, i: nat, name: string, text: string)
    requires MatchAt(s, Text(h), i) && Good(h) && GoodName(name) && MatchAt(s, End(name), i + 1)
    ensures !MatchAt(s[i + 1 + |End(name)|..] + text, Start(name) + "\n\n", 0)
  {
    BehindStart(s, h, i, name);
    var t := s[i + 1 + |End(name)|..] + text;
    assert t[0] == s[i + 1 + |End(name)|];
    if MatchAt(t, Start(name) + "\n\n", 0) {
      MatchIndex(t, Start(name) + "\n\n", 0, 0);
    }
  }

  lemma CutBetween(b: seq<Segment>, name: string, new_: Segment)
    requires AllGood(b) && Good(new_) && GoodName(name)
    ensures !MatchAt(Texts(b) + Text(new_), Start(name) + "\n\n", 0)
  {
    TextsOfMore(b, new_);
    FirstOf(b + [new_]);
    TextsFollow((b + [new_])[1..]);
    NotTwoBreaks((b + [new_])[0], Texts((b + [new_])[1..]), name);
  }

  lemma BehindAnyEnd(s: string, h: Segment, i: nat, b: seq<Segment>, name: string, e: nat, new_: Segment)
    requires MatchAt(s, Text(h), i) && s[i + |Text(h)|..] == Texts(b) && MatchAt(s, End(name), e)
    requires AllGood(b) && Good(h) && Good(new_) && GoodName(name)
    requires e == i + 1 || e == i + |Start(h.name)| + |h.body|
    ensures !MatchAt(s[e + |End(name)|..] + Text(new_), Start(name) + "\n\n", 0)
  {
    if e == i + 1 {
      CutInBody(s, h, i, name, Text(new_));
    } else {
      BehindEnd(s, h, i, name);
      CutBetween(b, name, new_);
    }
  }

  /** What is left behind some end marker, once the new segment is appended. */
  lemma NotTwoBreaksAfterCut(pre: string, gs: seq<Segment>, name: string, e: nat, new_: Segment)
    requires AllGood(gs) && Good(new_) && GoodName(name) && |pre| <= e && MatchAt(pre + Texts(gs), End(name), e)
    ensures !MatchAt((pre + Texts(gs))[e + |End(name)|..] + Text(new_), Start(name) + "\n\n", 0)
  {
    EndIsMark(pre + Texts(gs), name, e);
    var a, h, b := MarkOwner(pre, gs, e);
    SegmentStands(pre, a, h, b);
    BehindAnyEnd(pre + Texts(gs), h, |pre + Texts(a)|, b, name, e, new_);
  }

  lemma NotTwoBreaksAfterAny(pre: string, gs: seq<Segment>, name: string, at: nat, new_: Segment)
    requires AllGood(gs) && Good(new_) && GoodName(name) && |pre| <= at
    ensures forall e | at <= e && MatchAt(pre + Texts(gs), End(name), e) ::
              !MatchAt((pre + Texts(gs))[e + |End(name)|..] + Text(new_), Start(name) + "\n\n", 0)
  {
    forall e | at <= e && MatchAt(pre + Texts(gs), End(name), e)
      ensures !MatchAt((pre + Texts(gs))[e + |End(name)|..] + Text(new_), Start(name) + "\n\n", 0)
    {
      NotTwoBreaksAfterCut(pre, gs, name, e, new_);
    }
  }

  lemma TwoBreaksAt(s: string, i: nat, g: Segment, y: string, name: string)
    requires Good(g) && Confused(g, name) && MatchAt(s, Text(g), i)
    requires s[i + |Text(g)|..] == y && y != "" && y[0] == '\n'
    ensures MatchAt(s, Start(name) + "\n\n", i + |Start(g.name)| + |g.body| - 1)
  {
    var at, end := i + |Start(g.name)| + |g.body| - 1, End(g.name);
    assert MatchAt(s, "\n", at) && MatchAt(s, end, at + 1) && at + 1 + |end| == i + |Text(g)| by {
      TextParts(s, g, i);
      MatchIndex(s, g.body, i + |Start(g.name)|, |g.body| - 1);
      assert s[at..at + 1] == "\n";
    }
    assert MatchAt(s, "\n", i + |Text(g)|) by {
      assert s[i + |Text(g)|] == y[0];
      assert s[i + |Text(g)|..i + |Text(g)| + 1] == "\n";
    }
    MatchParts(s, "\n", end, at);
    MatchParts(s, "\n" + end, "\n", at);
    assert Start(name) + "\n\n" == "\n" + end + "\n";
  }

  /** The intended file goes on with the end marker of the confused segment and, after its line break,
      with another segment. */
  lemma TwoBreaksIntended(pre: string, before: seq<Segment>, g: Segment, more: seq<Segment>, name: string)
    requires Good(g) && Confused(g, name) && more != []
    ensures var at := |pre + Texts(before)| + |Start(g.name)| + |g.body| - 1;
            MatchAt(pre + Texts(before + [g] + more), Start(name) + "\n\n", at)
  {
    SegmentStands(pre, before, g, more);
    StartsWithBreak(more);
    TwoBreaksAt(pre + Texts(before + [g] + more), |pre + Texts(before)|, g, Texts(more), name);
  }

  lemma StartsWithBreak(gs: seq<Segment>)
    requires gs != []
    ensures Texts(gs) != "" && Texts(gs)[0] == '\n'
  {
    FirstOf(gs);
  }

  /** When the start marker of the new segment is first found at the end marker of another segment,
      the result is never a file that keeps the segments up to that one and goes on. */
  lemma Mangled(pre: string, before: seq<Segment>, g: Segment, after: seq<Segment>, new_: Segment, more: seq<Segment>)
    requires Preamble(pre) && AllGood(before + [g] + after) && Good(new_) && more != []
    requires forall h | h in before :: h.name != new_.name && !Confused(h, new_.name)
    requires Confused(g, new_.name)
    ensures Spliced(pre + Texts(before + [g] + after), Start(new_.name), End(new_.name), Text(new_))
            != Some(pre + Texts(before + [g] + more))
  {
    var gs, name := before + [g] + after, new_.name;
    var s, at := pre + Texts(gs), |pre + Texts(before)| + |Start(g.name)| + |g.body| - 1;
    assert g in gs && forall h | h in before :: h in gs;
    assert at <= |s| by {
      SegmentStands(pre, before, g, after);
    }
    assert IndexOf(s, Start(name), 0) == at by {
      FirstStart(pre, before, g, after, name);
    }
    NotTwoBreaksAfterAny(pre, gs, name, at, new_);
    TwoBreaksIntended(pre, before, g, more, name);
    MangledAt(s, at, Start(name), End(name), Text(new_), Start(name) + "\n\n", pre + Texts(before + [g] + more));
  }

  lemma AppendedOnly(s: string, start: string, end: string, text: string)
    requires start != "" && end != "" && IndexOf(s, start, 0) == -1
    ensures Spliced(s, start, end, text) == Some(s + text)
  {
  }

  lemma NothingWithoutEnd(s: string, start: string, end: string, text: string)
    requires start != "" && end != "" && IndexOf(s, start, 0) >= 0
    requires IndexOf(s, end, IndexOf(s, start, 0) + |start|) == -1
    ensures Spliced(s, start, end, text) == None
  {
  }

  lemma WhereItEnds(s: string, p: string, from: nat) returns (e: int)
    requires p != ""
    ensures e == IndexOf(s, p, from) && (e == -1 || (from <= e && MatchAt(s, p, e)))
  {
    FirstMatch(s, p, from);
    e := IndexOf(s, p, from);
  }

  /** A text that has a mark where the search for the start ended is not the result, when
      what is left behind any end marker does not begin with that mark. */
  lemma MangledAt(s: string, at: nat, start: string, end: string, text: string, mark: string, intended: string)
    requires start != "" && end != "" && IndexOf(s, start, 0) == at <= |s|
    requires forall e | at <= e && MatchAt(s, end, e) :: !MatchAt(s[e + |end|..] + text, mark, 0)
    requires MatchAt(intended, mark, at)
    ensures Spliced(s, start, end, text) != Some(intended)
  {
    var e := WhereItEnds(s, end, at + |start|);
    if e == -1 {
      NothingWithoutEnd(s, start, end, text);
    } else {
      SplicedAt(s, s[..at], s[e + |end|..], start, end, text, e);
      Associative(s[..at], s[e + |end|..], text);
      Shifted(s[..at], s[e + |end|..] + text, mark, at);
    }
  }

  lemma FirstOf(gs: seq<Segment>)
    requires gs != []
    ensures Texts(gs) == Text(gs[0]) + Texts(gs[1..])
  {
    TextsOfBoth([gs[0]], gs[1..]);
    assert gs == [gs[0]] + gs[1..];
    TextsOfMore([], gs[0]);
    assert [] + [gs[0]] == [gs[0]];
  }
}
