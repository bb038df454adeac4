/** Which prebuilds of a project may be archived: `getArchivablePrebuildEvents` ranks the
    successful prebuilds of every branch and spares those that come first on some branch. */
module ArchivablePrebuilds {
  type PrebuildId = nat
  type ObjectId = nat
  type BranchId = nat
  type ProjectId = nat

  datatype Status = Pending | Running | Success | Error | Cancelled | PendingArchive | Archived

  datatype Prebuild = Prebuild(project: ProjectId, object_: ObjectId, createdAt: int, archiveAfter: int, status: Status)

  /** `objects` gives the creation time of a git object, `links` the rows of GitObjectToBranch. */
  datatype Tables = Tables(
    prebuilds: map<PrebuildId, Prebuild>,
    objects: map<ObjectId, int>,
    links: set<(ObjectId, BranchId)>)

  // ---------- The query ----------

  /** The joins: a successful prebuild of the project, on a branch linked to its git object. */
  predicate Row(t: Tables, project: ProjectId, branch: BranchId, p: PrebuildId) {
    && p in t.prebuilds && t.prebuilds[p].project == project && t.prebuilds[p].status == Success
    && t.prebuilds[p].object_ in t.objects && (t.prebuilds[p].object_, branch) in t.links
  }

  /** The window order: newer git object first, then newer prebuild, then larger id. */
  predicate Before(t: Tables, p: PrebuildId, q: PrebuildId)
    requires p in t.prebuilds && q in t.prebuilds
    requires t.prebuilds[p].object_ in t.objects && t.prebuilds[q].object_ in t.objects
  {
    var (a, b) := (t.prebuilds[p], t.prebuilds[q]);
    var (x, y) := (t.objects[a.object_], t.objects[b.object_]);
    x > y || (x == y && (a.createdAt > b.createdAt || (a.createdAt == b.createdAt && p > q)))
  }

  function Ahead(t: Tables, project: ProjectId, branch: BranchId, p: PrebuildId): set<PrebuildId>
    requires Row(t, project, branch, p)
  {
    set q | q in t.prebuilds && Row(t, project, branch, q) && Before(t, q, p)
  }

  /** ROW_NUMBER() over the partition of the branch. */
  function RowNumber(t: Tables, project: ProjectId, branch: BranchId, p: PrebuildId): nat
    requires Row(t, project, branch, p)
  {
    1 + |Ahead(t, project, branch, p)|
  }

  predicate Latest(t: Tables, project: ProjectId, p: PrebuildId) {
    exists link :: link in t.links && Row(t, project, link.1, p) && RowNumber(t, project, link.1, p) == 1
  }

  predicate Listed(t: Tables, project: ProjectId, p: PrebuildId) {
    exists link :: link in t.links && Row(t, project, link.1, p)
  }

  function Archivable(t: Tables, project: ProjectId, now: int): set<PrebuildId> {
    set p | p in t.prebuilds && Listed(t, project, p) && !Latest(t, project, p) && t.prebuilds[p].archiveAfter < now
  }

  /** Archiving sets the status, first to pending and in the end to archived. */
  function Archive(t: Tables, chosen: set<PrebuildId>, to: Status): Tables {
    t.(prebuilds := map p | p in t.prebuilds ::
         if p in chosen then t.prebuilds[p].(status := to) else t.prebuilds[p])
  }

  // ---------- What it is for ----------

  /** `q` is no newer than `p`: its git object is not newer; of objects of one date it is not a later
      prebuild; and of prebuilds of one date it has no larger id. */
  ghost predicate NoNewer(t: Tables, q: PrebuildId, p: PrebuildId)
    requires p in t.prebuilds && q in t.prebuilds
    requires t.prebuilds[p].object_ in t.objects && t.prebuilds[q].object_ in t.objects
  {
    var (a, b) := (t.prebuilds[p], t.prebuilds[q]);
    && t.objects[b.object_] <= t.objects[a.object_]
    && (t.objects[b.object_] == t.objects[a.object_] ==> b.createdAt <= a.createdAt)
    && (t.objects[b.object_] == t.objects[a.object_] && b.createdAt == a.createdAt ==> q <= p)
  }

  /** The prebuild that new workspaces of the branch start from. */
  ghost predicate Newest(t: Tables, project: ProjectId, branch: BranchId, p: PrebuildId) {
    && Row(t, project, branch, p)
    && forall q | Row(t, project, branch, q) :: NoNewer(t, q, p)
  }

  /** The window order is the reverse of being no newer. */
  lemma NoNewerIsNotBefore(t: Tables, q: PrebuildId, p: PrebuildId)
    requires p in t.prebuilds && q in t.prebuilds
    requires t.prebuilds[p].object_ in t.objects && t.prebuilds[q].object_ in t.objects
    ensures NoNewer(t, q, p) <==> !Before(t, q, p)
    ensures NoNewer(t, q, p) <==> q == p || Before(t, p, q)
  {
  }

  lemma FirstRowIsNewest(t: Tables, project: ProjectId, branch: BranchId, p: PrebuildId)
    requires Row(t, project, branch, p)
    ensures RowNumber(t, project, branch, p) == 1 <==> Newest(t, project, branch, p)
  {
    if Ahead(t, project, branch, p) == {} {
      forall q | Row(t, project, branch, q) ensures NoNewer(t, q, p) {
        assert q !in Ahead(t, project, branch, p);
        NoNewerIsNotBefore(t, q, p);
      }
    } else {
      var q :| q in Ahead(t, project, branch, p);
      NoNewerIsNotBefore(t, q, p);
    }
  }

  /** A branch with a successful prebuild has a newest one, at or ahead of any given one. */
  lemma {:induction false} NewestExists(t: Tables, project: ProjectId, branch: BranchId, p: PrebuildId) returns (n: PrebuildId)
    requires Row(t, project, branch, p)
    ensures Newest(t, project, branch, n)
    ensures n == p || Before(t, n, p)
    decreases |Ahead(t, project, branch, p)|
  {
    if Ahead(t, project, branch, p) == {} {
      FirstRowIsNewest(t, project, branch, p);
      n := p;
    } else {
      var q :| q in Ahead(t, project, branch, p);
      assert Ahead(t, project, branch, q) <= Ahead(t, project, branch, p) - {q};
      Smaller(Ahead(t, project, branch, q), Ahead(t, project, branch, p), q);
      n := NewestExists(t, project, branch, q);
    }
  }

  lemma Smaller(a: set<PrebuildId>, b: set<PrebuildId>, q: PrebuildId)
    requires a <= b - {q} && q in b
    ensures |a| < |b|
  {
    var rest := b - {q} - a;
    assert b == a + rest + {q};
  }

  /** The independent reading of the query: successful, on some branch, with a newer successful prebuild on
      each of its branches, and past its date. */
  lemma ArchivableMeansSuperseded(t: Tables, project: ProjectId, now: int, p: PrebuildId)
    ensures p in Archivable(t, project, now) <==>
              && p in t.prebuilds && Listed(t, project, p) && t.prebuilds[p].archiveAfter < now
              && forall branch: BranchId | Row(t, project, branch, p) ::
                   exists q :: Row(t, project, branch, q) && Before(t, q, p)
  {
    if p in t.prebuilds && Listed(t, project, p) {
      if Latest(t, project, p) {
        var link :| link in t.links && Row(t, project, link.1, p) && RowNumber(t, project, link.1, p) == 1;
        FirstRowIsNewest(t, project, link.1, p);
        forall q | Row(t, project, link.1, q) ensures !Before(t, q, p) {
          assert q == p || Before(t, p, q);
        }
      } else {
        forall branch: BranchId | Row(t, project, branch, p)
          ensures exists q :: Row(t, project, branch, q) && Before(t, q, p)
        {
          assert (t.prebuilds[p].object_, branch) in t.links && Row(t, project, (t.prebuilds[p].object_, branch).1, p);
          assert Ahead(t, project, branch, p) != {};
          var q :| q in Ahead(t, project, branch, p);
        }
      }
    }
  }

  // ---------- Archiving is safe and complete ----------

  lemma RowsLeft(t: Tables, chosen: set<PrebuildId>, to: Status, project: ProjectId, branch: BranchId, p: PrebuildId)
    requires to != Success
    ensures Row(Archive(t, chosen, to), project, branch, p) <==> Row(t, project, branch, p) && p !in chosen
  {
  }

  lemma NewestIsSpared(t: Tables, project: ProjectId, now: int, branch: BranchId, p: PrebuildId)
    requires Newest(t, project, branch, p)
    ensures p !in Archivable(t, project, now)
  {
    FirstRowIsNewest(t, project, branch, p);
    assert (t.prebuilds[p].object_, branch) in t.links && Row(t, project, (t.prebuilds[p].object_, branch).1, p);
  }

  /** Archiving any of the archivable prebuilds leaves the newest successful prebuild of
      every branch what it was, whatever branches share a prebuild, and in every project. */
  lemma NewestIsKept(t: Tables, project: ProjectId, now: int, chosen: set<PrebuildId>, to: Status,
                     other: ProjectId, branch: BranchId, p: PrebuildId)
    requires chosen <= Archivable(t, project, now) && to != Success
    ensures Newest(t, other, branch, p) <==> Newest(Archive(t, chosen, to), other, branch, p)
  {
    var t' := Archive(t, chosen, to);
    forall q ensures Row(t', other, branch, q) <==> Row(t, other, branch, q) && q !in chosen {
      RowsLeft(t, chosen, to, other, branch, q);
    }
    if Newest(t, other, branch, p) {
      OtherProjectsAreSpared(t, project, now, other, branch, p);
      forall q | Row(t', other, branch, q) ensures NoNewer(t', q, p) {
        assert NoNewer(t, q, p);
      }
    } else if Newest(t', other, branch, p) {
      var n := NewestExists(t, other, branch, p);
      OtherProjectsAreSpared(t, project, now, other, branch, n);
      NewestIsAhead(t', other, branch, p, n);
    }
  }

  lemma NewestIsAhead(t: Tables, project: ProjectId, branch: BranchId, p: PrebuildId, q: PrebuildId)
    requires Newest(t, project, branch, p) && Row(t, project, branch, q)
    ensures q == p || Before(t, p, q)
  {
    NoNewerIsNotBefore(t, q, p);
  }

  lemma OtherProjectsAreSpared(t: Tables, project: ProjectId, now: int, other: ProjectId, branch: BranchId, p: PrebuildId)
    requires Newest(t, other, branch, p)
    ensures p !in Archivable(t, project, now)
  {
    if other == project {
      NewestIsSpared(t, project, now, branch, p);
    }
  }

  lemma LatestIsKept(t: Tables, project: ProjectId, now: int, to: Status, p: PrebuildId)
    requires Latest(t, project, p) && to != Success
    ensures Latest(Archive(t, Archivable(t, project, now), to), project, p)
  {
    var t' := Archive(t, Archivable(t, project, now), to);
    var first :| first in t.links && Row(t, project, first.1, p) && RowNumber(t, project, first.1, p) == 1;
    FirstRowIsNewest(t, project, first.1, p);
    NewestIsKept(t, project, now, Archivable(t, project, now), to, project, first.1, p);
    FirstRowIsNewest(t', project, first.1, p);
  }

  /** Archiving all of them and asking again at the same time returns nothing. */
  lemma NothingIsLeft(t: Tables, project: ProjectId, now: int, to: Status)
    requires to != Success
    ensures Archivable(Archive(t, Archivable(t, project, now), to), project, now) == {}
  {
    var t' := Archive(t, Archivable(t, project, now), to);
    forall p | p in Archivable(t', project, now) ensures false {
      var link :| link in t'.links && Row(t', project, link.1, p);
      assert Row(t, project, link.1, p);
      if Latest(t, project, p) {
        LatestIsKept(t, project, now, to, p);
      }
    }
  }
}
