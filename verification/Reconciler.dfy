/** The storage reconciler of src/core/storage/reconciliation.py: PostgreSQL says which documents exist;
    an audit lists what the other stores hold beyond that, and a repair deletes it. */
module Reconciler {
  import opened Options

  datatype Document = Document(id: string, tenant: string, bucket: string, key: string)

  /** A vector with its payload. */
  datatype Point = Point(id: nat, doc: Option<string>, tenant: Option<string>)

  /** A graph edge; `tenant` is the edge's own or else its source's. */
  datatype Edge = Edge(id: nat, doc: Option<string>, tenant: Option<string>)

  datatype File = File(bucket: string, name: string)

  /** A row of the grouped edge query. */
  datatype Record = Record(doc: Option<string>, tenant: Option<string>, count: nat)

  datatype Drift =
    | OrphanVector(doc: string, tenant: string, point: nat)
    | MissingVector(doc: string)
    | OrphanEdge(doc: string, tenant: string, count: nat)
    | OrphanFile(file: File)
    | MissingFile(doc: string)

  const UNKNOWN: string := "unknown"
  const PAGE: nat := 200

  // ---------------------------------------------------------------- sequences

  function Filter<T>(items: seq<T>, keep: T -> bool): seq<T> {
    if items == [] then []
    else (if keep(items[0]) then [items[0]] else []) + Filter(items[1..], keep)
  }

  lemma {:induction false} FilterMembers<T>(items: seq<T>, keep: T -> bool)
    ensures forall x :: x in Filter(items, keep) <==> x in items && keep(x)
    ensures |Filter(items, keep)| <= |items|
  {
    if items != [] {
      FilterMembers(items[1..], keep);
    }
  }

  lemma {:induction false} FilterAll<T>(items: seq<T>, keep: T -> bool)
    requires forall x | x in items :: keep(x)
    ensures Filter(items, keep) == items
  {
    if items != [] {
      FilterAll(items[1..], keep);
    }
  }

  // ---------------------------------------------------------------- what PostgreSQL backs

  predicate Backed(docs: seq<Document>, tenant: string, doc: string) {
    exists k :: 0 <= k < |docs| && docs[k].tenant == tenant && docs[k].id == doc
  }

  predicate Stored(docs: seq<Document>, file: File) {
    exists k :: 0 <= k < |docs| && File(docs[k].bucket, docs[k].key) == file
  }

  /** Ids are the primary key. */
  ghost predicate UniqueIds(docs: seq<Document>) {
    forall i, j | 0 <= i < j < |docs| :: docs[i].id != docs[j].id
  }

  predicate Named(doc: Option<string>) {
    doc.Some? && doc.value != ""
  }

  function PointTenant(p: Point): string {
    if p.tenant.Some? then p.tenant.value else UNKNOWN
  }

  function GroupTenant(tenant: Option<string>): string {
    if tenant.Some? && tenant.value != "" then tenant.value else UNKNOWN
  }

  predicate IsOrphanPoint(docs: seq<Document>, p: Point) {
    Named(p.doc) && !Backed(docs, PointTenant(p), p.doc.value)
  }

  predicate IsOrphanGroup(docs: seq<Document>, doc: Option<string>, tenant: Option<string>) {
    Named(doc) && !Backed(docs, GroupTenant(tenant), doc.value)
  }

  // ---------------------------------------------------------------- the audit as functions

  function PointDrift(docs: seq<Document>, p: Point): seq<Drift> {
    if IsOrphanPoint(docs, p) then [OrphanVector(p.doc.value, PointTenant(p), p.id)] else []
  }

  /** The drifts of the vectors: one for every orphan point. */
  function PointDrifts(docs: seq<Document>, points: seq<Point>): seq<Drift> {
    if points == [] then [] else PointDrift(docs, points[0]) + PointDrifts(docs, points[1..])
  }

  lemma {:induction false} PointDriftsAppend(docs: seq<Document>, a: seq<Point>, b: seq<Point>)
    ensures PointDrifts(docs, a + b) == PointDrifts(docs, a) + PointDrifts(docs, b)
  {
    hide PointDrift, PointDrifts;
    if a == [] {
      NoPoints(docs);
      assert a + b == b;
    } else {
      PointDriftsAppend(docs, a[1..], b);
      PointDriftsFirst(docs, [a[0]] + a[1..]);
      PointDriftsFirst(docs, [a[0]] + (a[1..] + b));
      assert a == [a[0]] + a[1..];
      assert a + b == [a[0]] + (a[1..] + b);
    }
  }

  lemma PointDriftsFirst(docs: seq<Document>, points: seq<Point>)
    requires points != []
    ensures PointDrifts(docs, points) == PointDrift(docs, points[0]) + PointDrifts(docs, points[1..])
  {
  }

  function Counted(records: seq<Record>, e: Edge): seq<Record> {
    if records == [] then [Record(e.doc, e.tenant, 1)]
    else if records[0].doc == e.doc && records[0].tenant == e.tenant then
      [records[0].(count := records[0].count + 1)] + records[1..]
    else [records[0]] + Counted(records[1..], e)
  }

  /** The grouped query: document, tenant and the number of edges. */
  function Records(edges: seq<Edge>): seq<Record> {
    if edges == [] then [] else Counted(Records(edges[..|edges| - 1]), edges[|edges| - 1])
  }

  function GroupDrifts(docs: seq<Document>, records: seq<Record>): seq<Drift> {
    if records == [] then []
    else
      var r := records[|records| - 1];
      GroupDrifts(docs, records[..|records| - 1])
      + if IsOrphanGroup(docs, r.doc, r.tenant) then [OrphanEdge(r.doc.value, GroupTenant(r.tenant), r.count)] else []
  }

  function FileDrifts(docs: seq<Document>, objects: seq<File>): seq<Drift> {
    if objects == [] then []
    else
      FileDrifts(docs, objects[..|objects| - 1])
      + if Stored(docs, objects[|objects| - 1]) then [] else [OrphanFile(objects[|objects| - 1])]
  }

  // ---------------------------------------------------------------- the audit loops

  /** One page of the collection, and where the next one starts. */
  function Scroll(points: seq<Point>, offset: nat): (page: (seq<Point>, Option<nat>))
    requires offset <= |points|
  {
    if offset + PAGE < |points| then (points[offset..offset + PAGE], Some(offset + PAGE))
    else (points[offset..], None)
  }

  /** The documents that the points name. */
  function Mentioned(points: seq<Point>): set<string> {
    set p | p in points && Named(p.doc) :: p.doc.value
  }

  /** The paged scroll visits the whole collection. */
  method AuditVectors(docs: seq<Document>, points: seq<Point>) returns (drifts: seq<Drift>, total: nat, docIds: set<string>)
    ensures drifts == PointDrifts(docs, points) && total == |points|
    ensures docIds == Mentioned(points)
  {
    hide IsOrphanPoint, PointDrifts;
    drifts, total, docIds := [], 0, {};
    var offset, more := 0, true;
    NoPoints(docs);
    while more
      invariant offset <= |points| && (!more ==> offset == |points|) && total == offset
      invariant drifts == PointDrifts(docs, points[..offset])
      invariant docIds == Mentioned(points[..offset])
      decreases more, |points| - offset
    {
      var (page, next) := Scroll(points, offset);
      total := total + |page|;
      for k := 0 to |page|
        invariant drifts == PointDrifts(docs, points[..offset + k])
        invariant docIds == Mentioned(points[..offset + k])
      {
        var p := page[k];
        assert points[..offset + k + 1] == points[..offset + k] + [p];
        PointDriftsAppend(docs, points[..offset + k], [p]);
        OnePoint(docs, p);
        if Named(p.doc) {
          docIds := docIds + {p.doc.value};
          if !Backed(docs, PointTenant(p), p.doc.value) {
            drifts := drifts + [OrphanVector(p.doc.value, PointTenant(p), p.id)];
          }
        }
      }
      offset := offset + |page|;
      more := next.Some?;
    }
    assert points[..offset] == points;
  }

  lemma NoPoints(docs: seq<Document>)
    ensures PointDrifts(docs, []) == []
  {
  }

  lemma OnePoint(docs: seq<Document>, p: Point)
    ensures PointDrifts(docs, [p])
         == if Named(p.doc) && !Backed(docs, PointTenant(p), p.doc.value)
            then [OrphanVector(p.doc.value, PointTenant(p), p.id)] else []
  {
    assert [p][1..] == [];
  }

  predicate Knows(tenantOf: map<string, string>, doc: string, tenant: string) {
    doc in tenantOf && tenantOf[doc] == tenant
  }

  /** `d_id not in valid_pg_doc_ids or doc_tenant_map.get(d_id) != t_id`; the map keeps the last tenant. */
  method AuditEdges(docs: seq<Document>, edges: seq<Edge>) returns (drifts: seq<Drift>)
    requires UniqueIds(docs)
    ensures drifts == GroupDrifts(docs, Records(edges))
  {
    var tenantOf: map<string, string> := map[];
    for k := 0 to |docs|
      invariant forall doc, tenant :: Knows(tenantOf, doc, tenant) <==> Backed(docs[..k], tenant, doc)
    {
      DocumentAdded(docs, k, tenantOf);
      tenantOf := tenantOf[docs[k].id := docs[k].tenant];
    }
    assert docs[..|docs|] == docs;
    var records := Records(edges);
    drifts := [];
    for k := 0 to |records|
      invariant drifts == GroupDrifts(docs, records[..k])
    {
      assert records[..k + 1][..k] == records[..k];
      var r := records[k];
      var tenant := GroupTenant(r.tenant);
      assert Named(r.doc) ==> (Knows(tenantOf, r.doc.value, tenant) <==> Backed(docs, tenant, r.doc.value));
      if Named(r.doc) && (r.doc.value !in tenantOf || tenantOf[r.doc.value] != tenant) {
        drifts := drifts + [OrphanEdge(r.doc.value, tenant, r.count)];
      }
    }
    assert records[..|records|] == records;
  }

  lemma DocumentAdded(docs: seq<Document>, k: nat, tenantOf: map<string, string>)
    requires UniqueIds(docs) && k < |docs|
    requires forall doc, tenant :: Knows(tenantOf, doc, tenant) <==> Backed(docs[..k], tenant, doc)
    ensures var after := tenantOf[docs[k].id := docs[k].tenant];
            forall doc, tenant :: Knows(after, doc, tenant) <==> Backed(docs[..k + 1], tenant, doc)
  {
    var after := tenantOf[docs[k].id := docs[k].tenant];
    forall doc, tenant
      ensures Knows(after, doc, tenant) <==> Backed(docs[..k + 1], tenant, doc)
    {
      BackedOneMore(docs, k, tenant, doc);
      assert Knows(tenantOf, doc, tenant) <==> Backed(docs[..k], tenant, doc);
      if doc == docs[k].id {
        FirstWithThisId(docs, k, tenant);
      }
    }
  }

  lemma BackedOneMore(docs: seq<Document>, k: nat, tenant: string, doc: string)
    requires k < |docs|
    ensures Backed(docs[..k + 1], tenant, doc)
       <==> Backed(docs[..k], tenant, doc) || (docs[k].id == doc && docs[k].tenant == tenant)
  {
    assert docs[..k + 1][k] == docs[k];
    if Backed(docs[..k], tenant, doc) {
      var j :| 0 <= j < k && docs[..k][j].tenant == tenant && docs[..k][j].id == doc;
      assert docs[..k + 1][j] == docs[j];
    }
    if Backed(docs[..k + 1], tenant, doc) {
      var j :| 0 <= j < k + 1 && docs[..k + 1][j].tenant == tenant && docs[..k + 1][j].id == doc;
      assert j < k ==> docs[..k][j] == docs[j];
    }
  }

  lemma FirstWithThisId(docs: seq<Document>, k: nat, tenant: string)
    requires UniqueIds(docs) && k < |docs|
    ensures !Backed(docs[..k], tenant, docs[k].id)
  {
  }

  method AuditFiles(docs: seq<Document>, objects: seq<File>) returns (drifts: seq<Drift>)
    ensures drifts == FileDrifts(docs, objects)
  {
    hide Stored;
    drifts := [];
    for k := 0 to |objects|
      invariant drifts == FileDrifts(docs, objects[..k])
    {
      assert objects[..k + 1][..k] == objects[..k];
      if !Stored(docs, objects[k]) {
        drifts := drifts + [OrphanFile(objects[k])];
      }
    }
    assert objects[..|objects|] == objects;
  }

  // ---------------------------------------------------------------- the whole audit

  /** `if tenant_id:` */
  predicate Selects(tenant: Option<string>, of: string) {
    Named(tenant) ==> of == tenant.value
  }

  function DocsOf(docs: seq<Document>, tenant: Option<string>): seq<Document> {
    Filter(docs, (d: Document) => Selects(tenant, d.tenant))
  }

  function PointsOf(points: seq<Point>, tenant: Option<string>): seq<Point> {
    if Named(tenant) then Filter(points, (p: Point) => p.tenant == tenant) else points
  }

  function EdgesOf(edges: seq<Edge>, tenant: Option<string>): seq<Edge> {
    if Named(tenant) then Filter(edges, (e: Edge) => e.tenant == tenant) else edges
  }

  /** Every file in the default bucket and the buckets of the documents. */
  function ScannedFiles(docs: seq<Document>, bucket: string, files: seq<File>): seq<File> {
    Filter(files, (f: File) => f.bucket == bucket || InBuckets(docs, f.bucket))
  }

  predicate InBuckets(docs: seq<Document>, bucket: string) {
    exists k :: 0 <= k < |docs| && docs[k].bucket == bucket && bucket != ""
  }

  function MissingVectors(succeeded: seq<string>, docIds: set<string>): seq<Drift> {
    if succeeded == [] then []
    else
      var doc := succeeded[|succeeded| - 1];
      MissingVectors(succeeded[..|succeeded| - 1], docIds) + if doc in docIds then [] else [MissingVector(doc)]
  }

  function MissingFiles(docs: seq<Document>, files: seq<File>): seq<Drift> {
    if docs == [] then []
    else
      var d := docs[|docs| - 1];
      MissingFiles(docs[..|docs| - 1], files) + if File(d.bucket, d.key) in files then [] else [MissingFile(d.id)]
  }

  datatype Contents = Contents(points: seq<Point>, edges: seq<Edge>, files: seq<File>)

  /** The report of an audit, of one tenant or of all. */
  function Report(pg: seq<Document>, succeeded: seq<string>, tenant: Option<string>, bucket: string, c: Contents)
    : seq<Drift>
  {
    var docs := DocsOf(pg, tenant);
    var scanned := ScannedFiles(docs, bucket, c.files);
    PointDrifts(docs, PointsOf(c.points, tenant))
    + MissingVectors(succeeded, Mentioned(PointsOf(c.points, tenant)))
    + GroupDrifts(docs, Records(EdgesOf(c.edges, tenant)))
    + FileDrifts(docs, scanned) + MissingFiles(docs, scanned)
  }

  // ---------------------------------------------------------------- what a drift deletes

  predicate HitsPoint(d: Drift, p: Point) {
    d.OrphanVector? && p.doc == Some(d.doc) && p.tenant == Some(d.tenant)
  }

  predicate HitsEdge(d: Drift, e: Edge) {
    d.OrphanEdge? && e.doc == Some(d.doc) && e.tenant == Some(d.tenant)
  }

  predicate HitsFile(d: Drift, f: File) {
    d.OrphanFile? && d.file == f && f.name != ""
  }

  function PointsWithout(points: seq<Point>, d: Drift): seq<Point> {
    Filter(points, (p: Point) => !HitsPoint(d, p))
  }

  function EdgesWithout(edges: seq<Edge>, d: Drift): seq<Edge> {
    Filter(edges, (e: Edge) => !HitsEdge(d, e))
  }

  function FilesWithout(files: seq<File>, d: Drift): seq<File> {
    Filter(files, (f: File) => !HitsFile(d, f))
  }

  function Deleted(c: Contents, d: Drift): Contents {
    Contents(PointsWithout(c.points, d), EdgesWithout(c.edges, d), FilesWithout(c.files, d))
  }

  /** A drift of one store leaves the others alone. */
  lemma DeletesOnlyThere(c: Contents, d: Drift)
    ensures !d.OrphanVector? ==> PointsWithout(c.points, d) == c.points
    ensures !d.OrphanEdge? ==> EdgesWithout(c.edges, d) == c.edges
    ensures !d.OrphanFile? || d.file.name == "" ==> FilesWithout(c.files, d) == c.files
  {
    if !d.OrphanVector? {
      FilterAll(c.points, (p: Point) => !HitsPoint(d, p));
    }
    if !d.OrphanEdge? {
      FilterAll(c.edges, (e: Edge) => !HitsEdge(d, e));
    }
    if !d.OrphanFile? || d.file.name == "" {
      FilterAll(c.files, (f: File) => !HitsFile(d, f));
    }
  }

  function Repaired(c: Contents, drifts: seq<Drift>): Contents {
    if drifts == [] then c else Deleted(Repaired(c, drifts[..|drifts| - 1]), drifts[|drifts| - 1])
  }

  datatype Cleaned = Cleaned(vectors: nat, edges: nat, files: nat)

  function CleanedBy(drifts: seq<Drift>): Cleaned {
    if drifts == [] then Cleaned(0, 0, 0)
    else
      var d, c := drifts[|drifts| - 1], CleanedBy(drifts[..|drifts| - 1]);
      match d
      case OrphanVector(_, _, _) => c.(vectors := c.vectors + 1)
      case OrphanEdge(_, _, _) => c.(edges := c.edges + 1)
      case OrphanFile(f) => if f.name == "" then c else c.(files := c.files + 1)
      case _ => c
  }

  // ---------------------------------------------------------------- the code

  class Stores {
    var points: seq<Point>
    var edges: seq<Edge>
    var files: seq<File>

    function Now(): Contents
      reads this
    {
      Contents(points, edges, files)
    }

    constructor (points: seq<Point>, edges: seq<Edge>, files: seq<File>)
      ensures Now() == Contents(points, edges, files)
    {
      this.points, this.edges, this.files := points, edges, files;
    }

    /** `audit_consistency` reads the stores and changes nothing. */
    method Audit(pg: seq<Document>, succeeded: seq<string>, tenant: Option<string>, bucket: string)
      returns (report: seq<Drift>)
      requires UniqueIds(DocsOf(pg, tenant))
      ensures report == Report(pg, succeeded, tenant, bucket, Now())
    {
      hide PointDrifts, GroupDrifts, FileDrifts, Records, Mentioned;
      var docs := DocsOf(pg, tenant);
      var docIds, total;
      report, total, docIds := AuditVectors(docs, PointsOf(points, tenant));
      var vectors := report;
      for k := 0 to |succeeded|
        invariant report == vectors + MissingVectors(succeeded[..k], docIds)
      {
        assert succeeded[..k + 1][..k] == succeeded[..k];
        if succeeded[k] !in docIds {
          report := report + [MissingVector(succeeded[k])];
        }
      }
      assert succeeded[..|succeeded|] == succeeded;
      var graph := AuditEdges(docs, EdgesOf(edges, tenant));
      var scanned := ScannedFiles(docs, bucket, files);
      var orphanFiles := AuditFiles(docs, scanned);
      report := report + graph + orphanFiles;
      var before := report;
      for k := 0 to |docs|
        invariant report == before + MissingFiles(docs[..k], scanned)
      {
        assert docs[..k + 1][..k] == docs[..k];
        if File(docs[k].bucket, docs[k].key) !in scanned {
          report := report + [MissingFile(docs[k].id)];
        }
      }
      assert docs[..|docs|] == docs;
    }

    /** The deletions of one drift. */
    method RepairOne(d: Drift)
      modifies this
      ensures Now() == Deleted(old(Now()), d)
    {
      hide PointsWithout, EdgesWithout, FilesWithout;
      DeletesOnlyThere(Now(), d);
      match d {
        case OrphanVector(_, _, _) => points := PointsWithout(points, d);
        case OrphanEdge(_, _, _) => edges := EdgesWithout(edges, d);
        case OrphanFile(f) =>
          if f.name != "" {
            files := FilesWithout(files, d);
          }
        case _ =>
      }
    }

    /** `repair_consistency` */
    method Repair(report: seq<Drift>, dryRun: bool) returns (cleaned: Cleaned)
      modifies this
      ensures dryRun ==> Now() == old(Now()) && cleaned == Cleaned(0, 0, 0)
      ensures !dryRun ==> Now() == Repaired(old(Now()), report) && cleaned == CleanedBy(report)
    {
      hide Deleted;
      cleaned := Cleaned(0, 0, 0);
      if dryRun || report == [] {
        return;
      }
      for k := 0 to |report|
        invariant Now() == Repaired(old(Now()), report[..k]) && cleaned == CleanedBy(report[..k])
      {
        assert report[..k + 1][..k] == report[..k];
        RepairOne(report[k]);
        match report[k] {
          case OrphanVector(_, _, _) => cleaned := cleaned.(vectors := cleaned.vectors + 1);
          case OrphanEdge(_, _, _) => cleaned := cleaned.(edges := cleaned.edges + 1);
          case OrphanFile(f) =>
            if f.name != "" {
              cleaned := cleaned.(files := cleaned.files + 1);
            }
          case _ =>
        }
      }
      assert report[..|report|] == report;
    }
  }
}
