/** What an audit, of one tenant or of all, and its repair remove: exactly which points, edges and files,
    when that is what PostgreSQL does not back, and when it is more. */
module ReconcilerLaws {
  import opened Options
  import opened Reconciler

  // ---------------------------------------------------------------- what a report contains

  lemma {:induction false} PointDriftsAre(docs: seq<Document>, points: seq<Point>, d: Drift)
    ensures d in PointDrifts(docs, points)
       <==> exists p :: p in points && IsOrphanPoint(docs, p) && d == OrphanVector(p.doc.value, PointTenant(p), p.id)
  {
    hide IsOrphanPoint, PointTenant;
    if points != [] {
      PointDriftsAre(docs, points[1..], d);
    }
  }

  /** One drift for every orphan point. */
  lemma {:induction false} OneDriftEach(docs: seq<Document>, points: seq<Point>)
    ensures |PointDrifts(docs, points)| == |Filter(points, (p: Point) => IsOrphanPoint(docs, p))|
  {
    hide IsOrphanPoint;
    if points != [] {
      OneDriftEach(docs, points[1..]);
    }
  }

  lemma {:induction false} CountedGroups(records: seq<Record>, e: Edge, doc: Option<string>, tenant: Option<string>)
    ensures (exists r :: r in Counted(records, e) && r.doc == doc && r.tenant == tenant)
       <==> (exists r :: r in records && r.doc == doc && r.tenant == tenant) || (e.doc == doc && e.tenant == tenant)
  {
    if records == [] {
      assert Record(e.doc, e.tenant, 1) in Counted(records, e);
    } else if records[0].doc == e.doc && records[0].tenant == e.tenant {
      var first := records[0].(count := records[0].count + 1);
      assert Counted(records, e) == [first] + records[1..];
      assert first in Counted(records, e) && records[0] in records;
      assert forall r :: r in Counted(records, e) <==> r == first || r in records[1..];
      assert forall r :: r in records <==> r == records[0] || r in records[1..];
    } else {
      CountedGroups(records[1..], e, doc, tenant);
      assert forall r :: r in Counted(records, e) <==> r == records[0] || r in Counted(records[1..], e);
      assert forall r :: r in records <==> r == records[0] || r in records[1..];
    }
  }

  /** The groups of the query are those of the edges. */
  lemma {:induction false} RecordsAre(edges: seq<Edge>, doc: Option<string>, tenant: Option<string>)
    ensures (exists r :: r in Records(edges) && r.doc == doc && r.tenant == tenant)
       <==> (exists e :: e in edges && e.doc == doc && e.tenant == tenant)
    decreases |edges|
  {
    hide Counted;
    if edges != [] {
      var init, last := edges[..|edges| - 1], edges[|edges| - 1];
      RecordsAre(init, doc, tenant);
      CountedGroups(Records(init), last, doc, tenant);
      assert edges == init + [last];
      assert forall e :: e in edges <==> e in init || e == last;
    }
  }

  lemma {:induction false} GroupDriftsAre(docs: seq<Document>, records: seq<Record>, d: Drift)
    ensures d in GroupDrifts(docs, records)
       <==> exists r :: r in records && IsOrphanGroup(docs, r.doc, r.tenant)
                        && d == OrphanEdge(r.doc.value, GroupTenant(r.tenant), r.count)
    decreases |records|
  {
    hide IsOrphanGroup, GroupTenant;
    if records != [] {
      var init, last := records[..|records| - 1], records[|records| - 1];
      GroupDriftsAre(docs, init, d);
      assert forall r :: r in records <==> r in init || r == last by { assert records == init + [last]; }
    }
  }

  lemma {:induction false} FileDriftsAre(docs: seq<Document>, files: seq<File>, d: Drift)
    ensures d in FileDrifts(docs, files) <==> d.OrphanFile? && d.file in files && !Stored(docs, d.file)
    decreases |files|
  {
    hide Stored;
    if files != [] {
      var init, last := files[..|files| - 1], files[|files| - 1];
      FileDriftsAre(docs, init, d);
      assert forall f :: f in files <==> f in init || f == last by { assert files == init + [last]; }
    }
  }

  // ---------------------------------------------------------------- what a repair leaves

  /** A sweep is one filter: what no drift hits stays, in place. */
  lemma {:induction false} RepairedIs(c: Contents, drifts: seq<Drift>)
    ensures forall p :: p in Repaired(c, drifts).points <==> p in c.points && !exists d :: d in drifts && HitsPoint(d, p)
    ensures forall e :: e in Repaired(c, drifts).edges <==> e in c.edges && !exists d :: d in drifts && HitsEdge(d, e)
    ensures forall f :: f in Repaired(c, drifts).files <==> f in c.files && !exists d :: d in drifts && HitsFile(d, f)
    decreases |drifts|
  {
    hide HitsPoint, HitsEdge, HitsFile;
    if drifts != [] {
      var init, last := drifts[..|drifts| - 1], drifts[|drifts| - 1];
      var before := Repaired(c, init);
      RepairedIs(c, init);
      FilterMembers(before.points, (p: Point) => !HitsPoint(last, p));
      FilterMembers(before.edges, (e: Edge) => !HitsEdge(last, e));
      FilterMembers(before.files, (f: File) => !HitsFile(last, f));
      assert drifts == init + [last];
      assert forall d :: d in drifts <==> d in init || d == last;
    }
  }

  // ---------------------------------------------------------------- what is in a report

  lemma {:induction false} MissingVectorsAre(succeeded: seq<string>, docIds: set<string>, d: Drift)
    ensures d in MissingVectors(succeeded, docIds) <==> d.MissingVector? && d.doc in succeeded && d.doc !in docIds
    decreases |succeeded|
  {
    if succeeded != [] {
      var init, last := succeeded[..|succeeded| - 1], succeeded[|succeeded| - 1];
      MissingVectorsAre(init, docIds, d);
      assert forall x :: x in succeeded <==> x in init || x == last by { assert succeeded == init + [last]; }
    }
  }

  lemma {:induction false} MissingFilesAre(docs: seq<Document>, files: seq<File>, d: Drift)
    ensures d in MissingFiles(docs, files)
       <==> d.MissingFile? && exists x :: x in docs && x.id == d.doc && File(x.bucket, x.key) !in files
    decreases |docs|
  {
    if docs != [] {
      var init, last := docs[..|docs| - 1], docs[|docs| - 1];
      MissingFilesAre(init, files, d);
      assert forall x :: x in docs <==> x in init || x == last by { assert docs == init + [last]; }
    }
  }

  /** Each kind of drift comes from its own part of the audit. */
  lemma ReportIs(pg: seq<Document>, succeeded: seq<string>, tenant: Option<string>, bucket: string, c: Contents, d: Drift)
    ensures var docs, report := DocsOf(pg, tenant), Report(pg, succeeded, tenant, bucket, c);
            && (d in report && d.OrphanVector? <==> d in PointDrifts(docs, PointsOf(c.points, tenant)))
            && (d in report && d.OrphanEdge? <==> d in GroupDrifts(docs, Records(EdgesOf(c.edges, tenant))))
            && (d in report && d.OrphanFile? <==> d in FileDrifts(docs, ScannedFiles(docs, bucket, c.files)))
            && (d in report && d.MissingVector? <==>
                  d in MissingVectors(succeeded, Mentioned(PointsOf(c.points, tenant))))
            && (d in report && d.MissingFile? <==> d in MissingFiles(docs, ScannedFiles(docs, bucket, c.files)))
  {
    hide DocsOf, PointsOf, EdgesOf, PointDrifts, GroupDrifts, FileDrifts, MissingVectors, MissingFiles, Records,
      ScannedFiles, Mentioned;
    var docs := DocsOf(pg, tenant);
    PointDriftsAre(docs, PointsOf(c.points, tenant), d);
    GroupDriftsAre(docs, Records(EdgesOf(c.edges, tenant)), d);
    FileDriftsAre(docs, ScannedFiles(docs, bucket, c.files), d);
    MissingVectorsAre(succeeded, Mentioned(PointsOf(c.points, tenant)), d);
    MissingFilesAre(docs, ScannedFiles(docs, bucket, c.files), d);
  }

  /** The part of a store that an audit looks at. */
  predicate Looks(tenant: Option<string>, of: Option<string>) {
    Named(tenant) ==> of == tenant
  }

  predicate Scans(docs: seq<Document>, bucket: string, f: File) {
    f.bucket == bucket || InBuckets(docs, f.bucket)
  }

  lemma LookedAt(c: Contents, docs: seq<Document>, tenant: Option<string>, bucket: string)
    ensures forall p :: p in PointsOf(c.points, tenant) <==> p in c.points && Looks(tenant, p.tenant)
    ensures forall e :: e in EdgesOf(c.edges, tenant) <==> e in c.edges && Looks(tenant, e.tenant)
    ensures forall f :: f in ScannedFiles(docs, bucket, c.files) <==> f in c.files && Scans(docs, bucket, f)
  {
    hide InBuckets;
    FilterMembers(c.points, (p: Point) => p.tenant == tenant);
    FilterMembers(c.edges, (e: Edge) => e.tenant == tenant);
    FilterMembers(c.files, (f: File) => f.bucket == bucket || InBuckets(docs, f.bucket));
  }

  // ---------------------------------------------------------------- what a repair deletes

  /** An orphan a repair can delete: the tenant is recorded, so the deletion filter finds it. */
  predicate Deletable(docs: seq<Document>, tenant: Option<string>, p: Point) {
    Looks(tenant, p.tenant) && IsOrphanPoint(docs, p) && p.tenant.Some?
  }

  predicate DeletableEdge(docs: seq<Document>, tenant: Option<string>, e: Edge) {
    Looks(tenant, e.tenant) && IsOrphanGroup(docs, e.doc, e.tenant) && e.tenant.Some? && e.tenant.value != ""
  }

  predicate DeletableFile(docs: seq<Document>, bucket: string, f: File) {
    Scans(docs, bucket, f) && !Stored(docs, f) && f.name != ""
  }

  lemma HitPoints(pg: seq<Document>, succeeded: seq<string>, tenant: Option<string>, bucket: string, c: Contents, p: Point)
    requires p in c.points
    ensures (exists d :: d in Report(pg, succeeded, tenant, bucket, c) && HitsPoint(d, p))
       <==> Deletable(DocsOf(pg, tenant), tenant, p)
  {
    hide Report, Backed, PointDrifts, DocsOf, PointsOf;
    var docs := DocsOf(pg, tenant);
    LookedAt(c, docs, tenant, bucket);
    if Deletable(docs, tenant, p) {
      var d := OrphanVector(p.doc.value, PointTenant(p), p.id);
      PointDriftsAre(docs, PointsOf(c.points, tenant), d);
      ReportIs(pg, succeeded, tenant, bucket, c, d);
      assert HitsPoint(d, p);
    }
    forall d | d in Report(pg, succeeded, tenant, bucket, c) && HitsPoint(d, p)
      ensures Deletable(docs, tenant, p)
    {
      ReportIs(pg, succeeded, tenant, bucket, c, d);
      PointDriftsAre(docs, PointsOf(c.points, tenant), d);
    }
  }

  lemma HitEdges(pg: seq<Document>, succeeded: seq<string>, tenant: Option<string>, bucket: string, c: Contents, e: Edge)
    requires e in c.edges
    ensures (exists d :: d in Report(pg, succeeded, tenant, bucket, c) && HitsEdge(d, e))
       <==> DeletableEdge(DocsOf(pg, tenant), tenant, e)
  {
    hide Report, Backed, GroupDrifts, Records, DocsOf, EdgesOf;
    var docs, edges := DocsOf(pg, tenant), EdgesOf(c.edges, tenant);
    LookedAt(c, docs, tenant, bucket);
    if DeletableEdge(docs, tenant, e) {
      RecordsAre(edges, e.doc, e.tenant);
      var r :| r in Records(edges) && r.doc == e.doc && r.tenant == e.tenant;
      var d := OrphanEdge(e.doc.value, GroupTenant(e.tenant), r.count);
      GroupDriftsAre(docs, Records(edges), d);
      ReportIs(pg, succeeded, tenant, bucket, c, d);
      assert HitsEdge(d, e);
    }
    forall d | d in Report(pg, succeeded, tenant, bucket, c) && HitsEdge(d, e)
      ensures DeletableEdge(docs, tenant, e)
    {
      ReportIs(pg, succeeded, tenant, bucket, c, d);
      GroupDriftsAre(docs, Records(edges), d);
      var r :| r in Records(edges) && IsOrphanGroup(docs, r.doc, r.tenant)
               && d == OrphanEdge(r.doc.value, GroupTenant(r.tenant), r.count);
      RecordsAre(edges, r.doc, r.tenant);
    }
  }

  lemma HitFiles(pg: seq<Document>, succeeded: seq<string>, tenant: Option<string>, bucket: string, c: Contents, f: File)
    requires f in c.files
    ensures (exists d :: d in Report(pg, succeeded, tenant, bucket, c) && HitsFile(d, f))
       <==> DeletableFile(DocsOf(pg, tenant), bucket, f)
  {
    hide Report, Stored, Scans, FileDrifts, DocsOf, ScannedFiles;
    var docs := DocsOf(pg, tenant);
    LookedAt(c, docs, tenant, bucket);
    FileDriftsAre(docs, ScannedFiles(docs, bucket, c.files), OrphanFile(f));
    ReportIs(pg, succeeded, tenant, bucket, c, OrphanFile(f));
    forall d | d in Report(pg, succeeded, tenant, bucket, c) && HitsFile(d, f)
      ensures d == OrphanFile(f)
    {
    }
    assert f.name != "" ==> HitsFile(OrphanFile(f), f);
  }

  lemma RepairByLoaded(pg: seq<Document>, succeeded: seq<string>, tenant: Option<string>, bucket: string, c: Contents)
    ensures var docs, after := DocsOf(pg, tenant), Repaired(c, Report(pg, succeeded, tenant, bucket, c));
            && (forall p :: p in after.points <==> p in c.points && !Deletable(docs, tenant, p))
            && (forall e :: e in after.edges <==> e in c.edges && !DeletableEdge(docs, tenant, e))
            && (forall f :: f in after.files <==> f in c.files && !DeletableFile(docs, bucket, f))
  {
    hide Report, Deletable, DeletableEdge, DeletableFile, HitsPoint, HitsEdge, HitsFile, Repaired, DocsOf;
    var docs, report := DocsOf(pg, tenant), Report(pg, succeeded, tenant, bucket, c);
    RepairedIs(c, report);
    forall p | p in c.points
      ensures (exists d :: d in report && HitsPoint(d, p)) <==> Deletable(docs, tenant, p)
    {
      HitPoints(pg, succeeded, tenant, bucket, c, p);
    }
    forall e | e in c.edges
      ensures (exists d :: d in report && HitsEdge(d, e)) <==> DeletableEdge(docs, tenant, e)
    {
      HitEdges(pg, succeeded, tenant, bucket, c, e);
    }
    forall f | f in c.files
      ensures (exists d :: d in report && HitsFile(d, f)) <==> DeletableFile(docs, bucket, f)
    {
      HitFiles(pg, succeeded, tenant, bucket, c, f);
    }
  }

  // ---------------------------------------------------------------- what PostgreSQL backs

  /** The documents of one tenant back what the tenant has as well as all documents do. */
  lemma LoadedBacks(pg: seq<Document>, tenant: Option<string>, of: string, doc: string)
    requires Selects(tenant, of)
    ensures Backed(DocsOf(pg, tenant), of, doc) <==> Backed(pg, of, doc)
  {
    FilterMembers(pg, (d: Document) => Selects(tenant, d.tenant));
    var docs := DocsOf(pg, tenant);
    if Backed(pg, of, doc) {
      var k :| 0 <= k < |pg| && pg[k].tenant == of && pg[k].id == doc;
      assert pg[k] in docs;
    }
    if Backed(docs, of, doc) {
      var k :| 0 <= k < |docs| && docs[k].tenant == of && docs[k].id == doc;
      assert docs[k] in docs;
    }
  }

  /** The documents an audit loads. */
  lemma LoadedAre(pg: seq<Document>, tenant: Option<string>)
    ensures forall d :: d in DocsOf(pg, tenant) <==>
              d in pg && (tenant.None? || tenant.value == "" || d.tenant == tenant.value)
  {
    FilterMembers(pg, (d: Document) => Selects(tenant, d.tenant));
  }

  lemma BackedIs(docs: seq<Document>, tenant: string, doc: string)
    ensures Backed(docs, tenant, doc) <==> exists d :: d in docs && d.tenant == tenant && d.id == doc
  {
    if d :| d in docs && d.tenant == tenant && d.id == doc {
      var k :| 0 <= k < |docs| && docs[k] == d;
    }
  }

  lemma StoredIs(docs: seq<Document>, f: File)
    ensures Stored(docs, f) <==> exists d :: d in docs && d.bucket == f.bucket && d.key == f.name
  {
    if d :| d in docs && d.bucket == f.bucket && d.key == f.name {
      var k :| 0 <= k < |docs| && docs[k] == d;
    }
  }

  lemma InBucketsIs(docs: seq<Document>, bucket: string)
    ensures InBuckets(docs, bucket) <==> bucket != "" && exists d :: d in docs && d.bucket == bucket
  {
    if d :| d in docs && d.bucket == bucket {
      var k :| 0 <= k < |docs| && docs[k] == d;
    }
  }

  /** An audit and its repair, of one tenant or of all, delete a point or an edge if and only if it names its
      tenant and a document, the tenant is the audited one (if there is one), and PostgreSQL has no such
      document of that tenant. */
  lemma RepairLaw(pg: seq<Document>, succeeded: seq<string>, tenant: Option<string>, bucket: string, c: Contents)
    ensures var after := Repaired(c, Report(pg, succeeded, tenant, bucket, c));
            && (forall p | p in c.points ::
                  p !in after.points <==>
                    && p.tenant.Some? && p.doc.Some? && p.doc.value != ""
                    && (tenant.None? || tenant.value == "" || p.tenant == tenant)
                    && !exists d :: d in pg && d.tenant == p.tenant.value && d.id == p.doc.value)
            && (forall e | e in c.edges ::
                  e !in after.edges <==>
                    && e.tenant.Some? && e.tenant.value != "" && e.doc.Some? && e.doc.value != ""
                    && (tenant.None? || tenant.value == "" || e.tenant == tenant)
                    && !exists d :: d in pg && d.tenant == e.tenant.value && d.id == e.doc.value)
            && (forall p | p in after.points :: p in c.points) && (forall e | e in after.edges :: e in c.edges)
  {
    hide Report, Repaired, Backed, DocsOf;
    RepairByLoaded(pg, succeeded, tenant, bucket, c);
    forall of: string, doc: string | Selects(tenant, of)
      ensures Backed(DocsOf(pg, tenant), of, doc) <==> exists d :: d in pg && d.tenant == of && d.id == doc
    {
      LoadedBacks(pg, tenant, of, doc);
      BackedIs(pg, of, doc);
    }
  }

  /** They delete a file if and only if it has a name, is in the default bucket or in that of a loaded document,
      and no loaded document stores it, whoever else's it may be. */
  lemma RepairedFiles(pg: seq<Document>, succeeded: seq<string>, tenant: Option<string>, bucket: string, c: Contents, f: File)
    requires f in c.files
    ensures var loaded := set d | d in pg && (tenant.None? || tenant.value == "" || d.tenant == tenant.value);
            f !in Repaired(c, Report(pg, succeeded, tenant, bucket, c)).files <==>
              && f.name != ""
              && (f.bucket == bucket || (f.bucket != "" && exists d :: d in loaded && d.bucket == f.bucket))
              && !exists d :: d in loaded && d.bucket == f.bucket && d.key == f.name
  {
    hide Report, Repaired, Stored, InBuckets, DocsOf;
    RepairByLoaded(pg, succeeded, tenant, bucket, c);
    LoadedAre(pg, tenant);
    StoredIs(DocsOf(pg, tenant), f);
    InBucketsIs(DocsOf(pg, tenant), f.bucket);
  }

  /** The number of edges of a group. */
  function EdgesIn(edges: seq<Edge>, doc: Option<string>, tenant: Option<string>): nat {
    if edges == [] then 0
    else
      var last := edges[|edges| - 1];
      EdgesIn(edges[..|edges| - 1], doc, tenant) + if last.doc == doc && last.tenant == tenant then 1 else 0
  }

  function CountOf(records: seq<Record>, doc: Option<string>, tenant: Option<string>): nat {
    if records == [] then 0
    else (if records[0].doc == doc && records[0].tenant == tenant then records[0].count else 0)
         + CountOf(records[1..], doc, tenant)
  }

  ghost predicate OneEach(records: seq<Record>) {
    forall i, j | 0 <= i < j < |records| :: records[i].doc != records[j].doc || records[i].tenant != records[j].tenant
  }

  lemma {:induction false} CountedMore(records: seq<Record>, e: Edge, doc: Option<string>, tenant: Option<string>)
    ensures CountOf(Counted(records, e), doc, tenant)
         == CountOf(records, doc, tenant) + if e.doc == doc && e.tenant == tenant then 1 else 0
  {
    if records == [] {
      assert [Record(e.doc, e.tenant, 1)][1..] == [];
    } else if records[0].doc == e.doc && records[0].tenant == e.tenant {
    } else {
      CountedMore(records[1..], e, doc, tenant);
      assert Counted(records, e)[1..] == Counted(records[1..], e);
    }
  }

  lemma {:induction false} CountedOneEach(records: seq<Record>, e: Edge)
    requires OneEach(records)
    ensures OneEach(Counted(records, e))
  {
    if records != [] && !(records[0].doc == e.doc && records[0].tenant == e.tenant) {
      CountedOneEach(records[1..], e);
      var rest := Counted(records[1..], e);
      forall j | 0 <= j < |rest|
        ensures records[0].doc != rest[j].doc || records[0].tenant != rest[j].tenant
      {
        CountedGroups(records[1..], e, records[0].doc, records[0].tenant);
      }
    }
  }

  lemma {:induction false} CountIsOwn(records: seq<Record>, r: Record)
    requires OneEach(records) && r in records
    ensures CountOf(records, r.doc, r.tenant) == r.count
  {
    if records[0] == r {
      NoneLike(records[1..], r.doc, r.tenant);
    } else {
      CountIsOwn(records[1..], r);
    }
  }

  lemma {:induction false} NoneLike(records: seq<Record>, doc: Option<string>, tenant: Option<string>)
    requires forall r | r in records :: r.doc != doc || r.tenant != tenant
    ensures CountOf(records, doc, tenant) == 0
  {
    if records != [] {
      NoneLike(records[1..], doc, tenant);
    }
  }

  /** Each record of the grouped query counts the edges of its group, and no two records are of one group. */
  lemma {:induction false} RecordsCount(edges: seq<Edge>)
    ensures OneEach(Records(edges))
    ensures forall r | r in Records(edges) :: r.count == EdgesIn(edges, r.doc, r.tenant)
    decreases |edges|
  {
    if edges != [] {
      RecordsCount(edges[..|edges| - 1]);
      CountedOneEach(Records(edges[..|edges| - 1]), edges[|edges| - 1]);
    }
    forall r | r in Records(edges)
      ensures r.count == EdgesIn(edges, r.doc, r.tenant)
    {
      CountsAgree(edges, r.doc, r.tenant);
      CountIsOwn(Records(edges), r);
    }
  }

  lemma {:induction false} CountsAgree(edges: seq<Edge>, doc: Option<string>, tenant: Option<string>)
    ensures CountOf(Records(edges), doc, tenant) == EdgesIn(edges, doc, tenant)
    decreases |edges|
  {
    if edges != [] {
      CountsAgree(edges[..|edges| - 1], doc, tenant);
      CountedMore(Records(edges[..|edges| - 1]), edges[|edges| - 1], doc, tenant);
    }
  }

  /** Which orphans an audit reports: the points and edges in sight that name a document PostgreSQL does not
      have under their tenant (an unrecorded one is "unknown"), the edges with their number. */
  lemma OrphansExactly(pg: seq<Document>, succeeded: seq<string>, tenant: Option<string>, bucket: string, c: Contents,
                       d: Drift)
    ensures var docs := DocsOf(pg, tenant);
            && (d.OrphanVector? ==>
                  (d in Report(pg, succeeded, tenant, bucket, c) <==>
                    exists p :: p in c.points && p.id == d.point && p.doc == Some(d.doc) && d.doc != ""
                                && d.tenant == (if p.tenant.Some? then p.tenant.value else "unknown")
                                && (tenant.None? || tenant.value == "" || p.tenant == tenant)
                                && !Backed(docs, d.tenant, d.doc)))
            && (d.OrphanEdge? ==>
                  (d in Report(pg, succeeded, tenant, bucket, c) <==>
                    exists e :: e in c.edges && e.doc == Some(d.doc) && d.doc != ""
                                && d.tenant == (if e.tenant.Some? && e.tenant.value != "" then e.tenant.value else "unknown")
                                && (tenant.None? || tenant.value == "" || e.tenant == tenant)
                                && !Backed(docs, d.tenant, d.doc)
                                && d.count == EdgesIn(EdgesOf(c.edges, tenant), e.doc, e.tenant)))
  {
    hide Report, DocsOf, PointsOf, EdgesOf, ScannedFiles, Backed, PointDrifts, GroupDrifts, Records, EdgesIn;
    var docs := DocsOf(pg, tenant);
    var points, edges := PointsOf(c.points, tenant), EdgesOf(c.edges, tenant);
    LookedAt(c, docs, tenant, bucket);
    ReportIs(pg, succeeded, tenant, bucket, c, d);
    if d.OrphanVector? {
      PointDriftsAre(docs, points, d);
    } else if d.OrphanEdge? {
      GroupDriftsAre(docs, Records(edges), d);
      RecordsCount(edges);
      forall e | e in edges
        ensures exists r :: r in Records(edges) && r.doc == e.doc && r.tenant == e.tenant
      {
        RecordsAre(edges, e.doc, e.tenant);
      }
      forall r | r in Records(edges)
        ensures exists e :: e in edges && e.doc == r.doc && e.tenant == r.tenant
      {
        RecordsAre(edges, r.doc, r.tenant);
      }
    }
  }

  /** Which documents an audit reports as incomplete: those with a succeeded task that no point in sight names,
      and the loaded ones whose file is in none of the scanned buckets. */
  lemma MissingExactly(pg: seq<Document>, succeeded: seq<string>, tenant: Option<string>, bucket: string, c: Contents,
                       doc: string)
    ensures var report := Report(pg, succeeded, tenant, bucket, c);
            var loaded := set d | d in pg && (tenant.None? || tenant.value == "" || d.tenant == tenant.value);
            && (MissingVector(doc) in report <==>
                  && doc in succeeded
                  && !exists p :: p in c.points && p.doc == Some(doc) && doc != ""
                                  && (tenant.None? || tenant.value == "" || p.tenant == tenant))
            && (MissingFile(doc) in report <==>
                  exists d :: d in loaded && d.id == doc
                              && (File(d.bucket, d.key) !in c.files || (d.bucket == "" && bucket != "")))
  {
    hide Report, DocsOf, PointsOf, ScannedFiles, InBuckets, MissingVectors, MissingFiles;
    var docs, points := DocsOf(pg, tenant), PointsOf(c.points, tenant);
    var scanned := ScannedFiles(docs, bucket, c.files);
    ReportIs(pg, succeeded, tenant, bucket, c, MissingVector(doc));
    ReportIs(pg, succeeded, tenant, bucket, c, MissingFile(doc));
    LookedAt(c, docs, tenant, bucket);
    LoadedAre(pg, tenant);
    MissingVectorsAre(succeeded, Mentioned(points), MissingVector(doc));
    assert doc in Mentioned(points) <==> exists p :: p in points && p.doc == Some(doc) && doc != "";
    MissingFilesAre(docs, scanned, MissingFile(doc));
    forall d | d in docs
      ensures File(d.bucket, d.key) in scanned
         <==> File(d.bucket, d.key) in c.files && !(d.bucket == "" && bucket != "")
    {
      InBucketsIs(docs, d.bucket);
    }
  }

  /** Points and edges that PostgreSQL backs stay, whatever tenant is audited. */
  lemma BackedStays(pg: seq<Document>, succeeded: seq<string>, tenant: Option<string>, bucket: string, c: Contents)
    ensures var after := Repaired(c, Report(pg, succeeded, tenant, bucket, c));
            && (forall p | p in c.points && Named(p.doc) && Backed(pg, PointTenant(p), p.doc.value) :: p in after.points)
            && (forall e | e in c.edges && Named(e.doc) && Backed(pg, GroupTenant(e.tenant), e.doc.value) :: e in after.edges)
  {
    hide Report, Repaired, Backed, DocsOf;
    var docs := DocsOf(pg, tenant);
    RepairByLoaded(pg, succeeded, tenant, bucket, c);
    forall p | p in c.points && Named(p.doc) && Backed(pg, PointTenant(p), p.doc.value)
      ensures !Deletable(docs, tenant, p)
    {
      if Deletable(docs, tenant, p) {
        LoadedBacks(pg, tenant, PointTenant(p), p.doc.value);
        assert false;
      }
    }
    forall e | e in c.edges && Named(e.doc) && Backed(pg, GroupTenant(e.tenant), e.doc.value)
      ensures !DeletableEdge(docs, tenant, e)
    {
      if DeletableEdge(docs, tenant, e) {
        LoadedBacks(pg, tenant, GroupTenant(e.tenant), e.doc.value);
        assert false;
      }
    }
  }

  /** Files are another matter, because all scanned files are compared with the loaded documents alone:
      every backed file stays if and only if every backed file in sight, with a name, belongs to one of them. */
  lemma BackedFilesStayExactly(pg: seq<Document>, succeeded: seq<string>, tenant: Option<string>, bucket: string, c: Contents)
    ensures var docs, after := DocsOf(pg, tenant), Repaired(c, Report(pg, succeeded, tenant, bucket, c));
            (forall f | f in c.files && Stored(pg, f) :: f in after.files) <==>
            (forall f | f in c.files && Stored(pg, f) && Scans(docs, bucket, f) && f.name != "" :: Stored(docs, f))
  {
    hide Report, Repaired, Stored, Scans, DocsOf;
    RepairByLoaded(pg, succeeded, tenant, bucket, c);
  }

  lemma AllDocs(pg: seq<Document>)
    ensures DocsOf(pg, None) == pg
  {
    FilterAll(pg, (d: Document) => Selects(None, d.tenant));
  }

  /** So an audit of all tenants keeps every backed file. */
  lemma FullAuditKeepsFiles(pg: seq<Document>, succeeded: seq<string>, bucket: string, c: Contents)
    ensures forall f | f in c.files && Stored(pg, f) :: f in Repaired(c, Report(pg, succeeded, None, bucket, c)).files
  {
    hide Report, Repaired, Stored, Scans, DocsOf;
    AllDocs(pg);
    BackedFilesStayExactly(pg, succeeded, None, bucket, c);
  }

  /** And an audit of one tenant can delete another tenant's file. */
  lemma FilteredAuditDeletesForeignFile()
    returns (pg: seq<Document>, tenant: Option<string>, bucket: string, c: Contents, f: File)
    ensures Stored(pg, f) && f in c.files
    ensures f !in Repaired(c, Report(pg, [], tenant, bucket, c)).files
  {
    hide Report, Repaired, Filter, DocsOf;
    pg, tenant, bucket := [Document("d", "theirs", "b", "k")], Some("ours"), "b";
    f := File("b", "k");
    c := Contents([], [], [f]);
    assert Stored(pg, f) by { assert File(pg[0].bucket, pg[0].key) == f; }
    NoneOfTheirs(pg, tenant);
    RepairByLoaded(pg, [], tenant, bucket, c);
  }

  lemma NoneOfTheirs(pg: seq<Document>, tenant: Option<string>)
    requires pg == [Document("d", "theirs", "b", "k")] && tenant == Some("ours")
    ensures DocsOf(pg, tenant) == []
  {
    FilterNone(pg, (d: Document) => Selects(tenant, d.tenant));
  }

  lemma {:induction false} FilterNone<T>(items: seq<T>, keep: T -> bool)
    requires forall x | x in items :: !keep(x)
    ensures Filter(items, keep) == []
  {
    if items != [] {
      FilterNone(items[1..], keep);
    }
  }

  // ---------------------------------------------------------------- a second audit

  ghost predicate NoOrphans(pg: seq<Document>, succeeded: seq<string>, tenant: Option<string>, bucket: string, c: Contents) {
    forall d | d in Report(pg, succeeded, tenant, bucket, c) :: d.MissingVector? || d.MissingFile?
  }

  /** What an audit calls free of orphans. */
  ghost predicate Clean(docs: seq<Document>, tenant: Option<string>, bucket: string, c: Contents) {
    && (forall p | p in c.points && Looks(tenant, p.tenant) :: !IsOrphanPoint(docs, p))
    && (forall e | e in c.edges && Looks(tenant, e.tenant) :: !IsOrphanGroup(docs, e.doc, e.tenant))
    && (forall f | f in c.files && Scans(docs, bucket, f) :: Stored(docs, f))
  }

  lemma NoOrphansIs(pg: seq<Document>, succeeded: seq<string>, tenant: Option<string>, bucket: string, c: Contents)
    ensures NoOrphans(pg, succeeded, tenant, bucket, c) <==> Clean(DocsOf(pg, tenant), tenant, bucket, c)
  {
    hide Report, DocsOf, IsOrphanPoint, Backed, Stored, Scans, PointDrifts, GroupDrifts, FileDrifts, Records, PointsOf,
      EdgesOf, ScannedFiles;
    if NoOrphans(pg, succeeded, tenant, bucket, c) {
      OrphanFree(pg, succeeded, tenant, bucket, c);
    } else {
      var d :| d in Report(pg, succeeded, tenant, bucket, c) && !d.MissingVector? && !d.MissingFile?;
      var docs := DocsOf(pg, tenant);
      LookedAt(c, docs, tenant, bucket);
      ReportIs(pg, succeeded, tenant, bucket, c, d);
      PointDriftsAre(docs, PointsOf(c.points, tenant), d);
      GroupDriftsAre(docs, Records(EdgesOf(c.edges, tenant)), d);
      FileDriftsAre(docs, ScannedFiles(docs, bucket, c.files), d);
      if d.OrphanEdge? {
        var r :| r in Records(EdgesOf(c.edges, tenant)) && IsOrphanGroup(docs, r.doc, r.tenant)
                 && d == OrphanEdge(r.doc.value, GroupTenant(r.tenant), r.count);
        RecordsAre(EdgesOf(c.edges, tenant), r.doc, r.tenant);
      }
    }
  }

  lemma OrphanFree(pg: seq<Document>, succeeded: seq<string>, tenant: Option<string>, bucket: string, c: Contents)
    requires NoOrphans(pg, succeeded, tenant, bucket, c)
    ensures Clean(DocsOf(pg, tenant), tenant, bucket, c)
  {
    hide Report, Backed, Stored, Scans, PointDrifts, GroupDrifts, FileDrifts, Records, PointsOf, EdgesOf, ScannedFiles, DocsOf;
    var docs, edges := DocsOf(pg, tenant), EdgesOf(c.edges, tenant);
    LookedAt(c, docs, tenant, bucket);
    forall p | p in c.points && Looks(tenant, p.tenant)
      ensures !IsOrphanPoint(docs, p)
    {
      if IsOrphanPoint(docs, p) {
        var d := OrphanVector(p.doc.value, PointTenant(p), p.id);
        PointDriftsAre(docs, PointsOf(c.points, tenant), d);
        ReportIs(pg, succeeded, tenant, bucket, c, d);
        assert false;
      }
    }
    forall e | e in c.edges && Looks(tenant, e.tenant)
      ensures !IsOrphanGroup(docs, e.doc, e.tenant)
    {
      if IsOrphanGroup(docs, e.doc, e.tenant) {
        RecordsAre(edges, e.doc, e.tenant);
        var r :| r in Records(edges) && r.doc == e.doc && r.tenant == e.tenant;
        var d := OrphanEdge(e.doc.value, GroupTenant(e.tenant), r.count);
        GroupDriftsAre(docs, Records(edges), d);
        ReportIs(pg, succeeded, tenant, bucket, c, d);
        assert false;
      }
    }
    forall f | f in c.files && Scans(docs, bucket, f)
      ensures Stored(docs, f)
    {
      FileDriftsAre(docs, ScannedFiles(docs, bucket, c.files), OrphanFile(f));
      ReportIs(pg, succeeded, tenant, bucket, c, OrphanFile(f));
    }
  }

  /** The same audit after its repair finds no orphan if and only if every orphan the first one saw named its
      tenant, and every stray file has a name. */
  lemma SecondAuditIsClean(pg: seq<Document>, succeeded: seq<string>, tenant: Option<string>, bucket: string, c: Contents)
    ensures var docs, after := DocsOf(pg, tenant), Repaired(c, Report(pg, succeeded, tenant, bucket, c));
            NoOrphans(pg, succeeded, tenant, bucket, after) <==>
              && (forall p | p in c.points && Looks(tenant, p.tenant) && IsOrphanPoint(docs, p) :: p.tenant.Some?)
              && (forall e | e in c.edges && Looks(tenant, e.tenant) && IsOrphanGroup(docs, e.doc, e.tenant) ::
                    e.tenant.Some? && e.tenant.value != "")
              && (forall f | f in c.files && Scans(docs, bucket, f) && !Stored(docs, f) :: f.name != "")
  {
    hide Report, Repaired, NoOrphans, IsOrphanPoint, IsOrphanGroup, Stored, Scans, DocsOf;
    RepairByLoaded(pg, succeeded, tenant, bucket, c);
    NoOrphansIs(pg, succeeded, tenant, bucket, Repaired(c, Report(pg, succeeded, tenant, bucket, c)));
  }

  /** The counters: one for each orphan in the report, a file only if it has a name. */
  lemma {:induction false} CleanedCounts(drifts: seq<Drift>)
    ensures CleanedBy(drifts).vectors == |Filter(drifts, (d: Drift) => d.OrphanVector?)|
    ensures CleanedBy(drifts).edges == |Filter(drifts, (d: Drift) => d.OrphanEdge?)|
    ensures CleanedBy(drifts).files == |Filter(drifts, (d: Drift) => d.OrphanFile? && d.file.name != "")|
    decreases |drifts|
  {
    if drifts != [] {
      var init, last := drifts[..|drifts| - 1], drifts[|drifts| - 1];
      CleanedCounts(init);
      assert drifts == init + [last];
      FilterLast(init, last, (d: Drift) => d.OrphanVector?);
      FilterLast(init, last, (d: Drift) => d.OrphanEdge?);
      FilterLast(init, last, (d: Drift) => d.OrphanFile? && d.file.name != "");
    }
  }

  lemma {:induction false} FilterLast<T>(items: seq<T>, last: T, keep: T -> bool)
    ensures Filter(items + [last], keep) == Filter(items, keep) + if keep(last) then [last] else []
  {
    if items == [] {
      assert [last][1..] == [];
    } else {
      assert (items + [last])[1..] == items[1..] + [last];
      FilterLast(items[1..], last, keep);
    }
  }

  /** A point without a tenant is reported, counted as cleaned, and still there for the next audit. */
  lemma UntaggedOrphanStays() returns (c: Contents)
    ensures var report := Report([], [], None, "b", c);
            CleanedBy(report).vectors == 1 && !NoOrphans([], [], None, "b", Repaired(c, report))
  {
    hide Report, Repaired, NoOrphans, CleanedBy, DocsOf, Filter;
    var p := Point(0, Some("d"), None);
    c := Contents([p], [], []);
    AllDocs([]);
    SecondAuditIsClean([], [], None, "b", c);
    assert p in c.points && IsOrphanPoint([], p);
    CleanedVectors([], [], None, "b", c);
    OneOrphan(p);
  }

  lemma OneOrphan(p: Point)
    requires IsOrphanPoint([], p)
    ensures |Filter(PointsOf([p], None), (q: Point) => IsOrphanPoint([], q))| == 1
  {
    assert [p][1..] == [];
  }

  // ---------------------------------------------------------------- the counter

  lemma {:induction false} CleanedAppend(a: seq<Drift>, b: seq<Drift>)
    ensures CleanedBy(a + b).vectors == CleanedBy(a).vectors + CleanedBy(b).vectors
    decreases |b|
  {
    if b == [] {
      assert a + b == a;
    } else {
      var n := |a + b| - 1;
      assert (a + b)[..n] == a + b[..|b| - 1] && (a + b)[n] == b[|b| - 1];
      CleanedAppend(a, b[..|b| - 1]);
    }
  }

  lemma {:induction false} VectorsCleaned(drifts: seq<Drift>)
    ensures (forall d | d in drifts :: d.OrphanVector?) ==> CleanedBy(drifts).vectors == |drifts|
    ensures (forall d | d in drifts :: !d.OrphanVector?) ==> CleanedBy(drifts).vectors == 0
    decreases |drifts|
  {
    if drifts != [] {
      VectorsCleaned(drifts[..|drifts| - 1]);
    }
  }

  /** `cleaned_orphan_vectors` is the number of orphan points the audit looked at. */
  lemma CleanedVectors(pg: seq<Document>, succeeded: seq<string>, tenant: Option<string>, bucket: string, c: Contents)
    ensures var docs := DocsOf(pg, tenant);
            CleanedBy(Report(pg, succeeded, tenant, bucket, c)).vectors
            == |Filter(PointsOf(c.points, tenant), (p: Point) => IsOrphanPoint(docs, p))|
  {
    hide CleanedBy, PointDrifts, GroupDrifts, FileDrifts, MissingVectors, MissingFiles, Records, ScannedFiles,
      Mentioned, Filter, IsOrphanPoint, DocsOf, PointsOf, EdgesOf;
    var docs, points := DocsOf(pg, tenant), PointsOf(c.points, tenant);
    var vectors, groups := PointDrifts(docs, points), GroupDrifts(docs, Records(EdgesOf(c.edges, tenant)));
    var missing := MissingVectors(succeeded, Mentioned(points));
    var scanned := ScannedFiles(docs, bucket, c.files);
    var files, lost := FileDrifts(docs, scanned), MissingFiles(docs, scanned);
    Kinds(docs, points, Records(EdgesOf(c.edges, tenant)), scanned);
    forall d: Drift
      ensures d in missing ==> d.MissingVector?
      ensures d in lost ==> d.MissingFile?
    {
      MissingVectorsAre(succeeded, Mentioned(points), d);
      MissingFilesAre(docs, scanned, d);
    }
    VectorsCleaned(vectors);
    VectorsCleaned(missing);
    VectorsCleaned(groups);
    VectorsCleaned(files);
    VectorsCleaned(lost);
    CleanedAppend(vectors, missing);
    CleanedAppend(vectors + missing, groups);
    CleanedAppend(vectors + missing + groups, files);
    CleanedAppend(vectors + missing + groups + files, lost);
    OneDriftEach(docs, points);
  }

  lemma Kinds(docs: seq<Document>, points: seq<Point>, records: seq<Record>, scanned: seq<File>)
    ensures forall d | d in PointDrifts(docs, points) :: d.OrphanVector?
    ensures forall d | d in GroupDrifts(docs, records) :: d.OrphanEdge?
    ensures forall d | d in FileDrifts(docs, scanned) :: d.OrphanFile?
  {
    hide PointDrifts, GroupDrifts, FileDrifts, IsOrphanPoint, IsOrphanGroup, Stored;
    forall d: Drift
      ensures d in PointDrifts(docs, points) ==> d.OrphanVector?
      ensures d in GroupDrifts(docs, records) ==> d.OrphanEdge?
      ensures d in FileDrifts(docs, scanned) ==> d.OrphanFile?
    {
      PointDriftsAre(docs, points, d);
      GroupDriftsAre(docs, records, d);
      FileDriftsAre(docs, scanned, d);
    }
  }
}
