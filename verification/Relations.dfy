/** The sixteen relations of a finished report: the edges that building visits, and the naive
    definition of each relation over the tables. */
module Relations {
  import opened Common
  import opened Order
  import opened Report
  import opened Indexes

  datatype Relation =
    | ImageOccurrences
    | ImageFindings
    | OccurrenceFindings
    | ImagePackages
    | ImageVulnerablePackages
    | ImageNoncompliantPackages
    | ImageVulnerabilities
    | PackagePresentImages
    | PackageVulnerableImages
    | PackageNoncompliantImages
    | PackageAffectedImages
    | VulnerabilityAffectedImages
    | AdvisoryAffectedImages
    | VulnerabilityFindings
    | AdvisoryFindings
    | PackageFindings

  /** The relations by ABI slot. */
  const RELATIONS: seq<Relation> := [
    ImageOccurrences, ImageFindings, OccurrenceFindings,
    ImagePackages, ImageVulnerablePackages, ImageNoncompliantPackages, ImageVulnerabilities,
    PackagePresentImages, PackageVulnerableImages, PackageNoncompliantImages, PackageAffectedImages,
    VulnerabilityAffectedImages, AdvisoryAffectedImages,
    VulnerabilityFindings, AdvisoryFindings, PackageFindings]

  /** The ABI slot of a relation. */
  function SlotOf(rel: Relation): (slot: nat)
    ensures slot < |RELATIONS| && RELATIONS[slot] == rel
  {
    match rel
    case ImageOccurrences => 0
    case ImageFindings => 1
    case OccurrenceFindings => 2
    case ImagePackages => 3
    case ImageVulnerablePackages => 4
    case ImageNoncompliantPackages => 5
    case ImageVulnerabilities => 6
    case PackagePresentImages => 7
    case PackageVulnerableImages => 8
    case PackageNoncompliantImages => 9
    case PackageAffectedImages => 10
    case VulnerabilityAffectedImages => 11
    case AdvisoryAffectedImages => 12
    case VulnerabilityFindings => 13
    case AdvisoryFindings => 14
    case PackageFindings => 15
  }

  /** Members are consecutive row numbers, so only offsets are stored. */
  predicate Contiguous(rel: Relation) {
    rel.ImageOccurrences? || rel.ImageFindings? || rel.OccurrenceFindings?
  }

  /** The number of keys. */
  function KeyCount(s: ReportStore, rel: Relation): nat {
    match rel
    case ImageOccurrences | ImageFindings | ImagePackages | ImageVulnerablePackages | ImageNoncompliantPackages
      | ImageVulnerabilities => |s.images|
    case OccurrenceFindings => |s.occurrences|
    case PackagePresentImages | PackageVulnerableImages | PackageNoncompliantImages | PackageAffectedImages
      | PackageFindings => |s.packages|
    case VulnerabilityAffectedImages | VulnerabilityFindings => |s.vulnerabilities|
    case AdvisoryAffectedImages | AdvisoryFindings => |s.advisorySources|
  }

  /** Rows refer to rows, and images and occurrences appear in order. */
  ghost predicate RowsLinked(s: ReportStore) {
    && (forall i :: 0 <= i < |s.occurrences| ==>
          s.occurrences[i].image < |s.images| && s.occurrences[i].pkg < |s.packages| &&
          s.occurrences[i].context < |s.contexts| && s.occurrences[i].license < |s.licenses|)
    && (forall i, j :: 0 <= i < j < |s.occurrences| ==> s.occurrences[i].image <= s.occurrences[j].image)
    && (forall i :: 0 <= i < |s.findings| ==>
          s.findings[i].occurrence < |s.occurrences| && s.findings[i].advisory < |s.advisorySources| &&
          s.findings[i].fix < |s.fixes| && s.findings[i].assessment < |s.assessments|)
    && (forall i, j :: 0 <= i < j < |s.findings| ==> s.findings[i].occurrence <= s.findings[j].occurrence)
    && |s.advisoryVulnerabilities| == |s.advisorySources|
    && (forall a :: 0 <= a < |s.advisoryVulnerabilities| && 0 < |s.vulnerabilities| ==>
       s.advisoryVulnerabilities[a] < |s.vulnerabilities|)
    && (|s.findings| > 0 ==> |s.vulnerabilities| > 0)
  }

  // ---------------------------------------------------------------- columns

  predicate Noncompliant(s: ReportStore, o: nat)
    requires o < |s.occurrences|
  {
    s.occurrences[o].license < |s.licenses| && s.licenses[s.occurrences[o].license].status == NONCOMPLIANT
  }

  function OccurrenceOf(s: ReportStore, f: nat): nat
    requires f < |s.findings|
  {
    s.findings[f].occurrence
  }

  function ImageOf(s: ReportStore, f: nat): nat
    requires f < |s.findings|
  {
    if OccurrenceOf(s, f) < |s.occurrences| then s.occurrences[OccurrenceOf(s, f)].image else 0
  }

  function PackageOf(s: ReportStore, f: nat): nat
    requires f < |s.findings|
  {
    if OccurrenceOf(s, f) < |s.occurrences| then s.occurrences[OccurrenceOf(s, f)].pkg else 0
  }

  function AdvisoryOf(s: ReportStore, f: nat): nat
    requires f < |s.findings|
  {
    s.findings[f].advisory
  }

  function VulnerabilityOf(s: ReportStore, f: nat): nat
    requires f < |s.findings|
  {
    if AdvisoryOf(s, f) < |s.advisoryVulnerabilities| then s.advisoryVulnerabilities[AdvisoryOf(s, f)] else 0
  }

  // ---------------------------------------------------------------- the naive definition

  /** Everything related to `k`, by scanning the tables. */
  ghost function Related(s: ReportStore, rel: Relation, k: nat): set<nat> {
    match rel
    case ImageOccurrences => set o: nat | o < |s.occurrences| && s.occurrences[o].image == k
    case ImageFindings => set f: nat | f < |s.findings| && ImageOf(s, f) == k
    case OccurrenceFindings => set f: nat | f < |s.findings| && OccurrenceOf(s, f) == k
    case ImagePackages => set o: nat | o < |s.occurrences| && s.occurrences[o].image == k :: s.occurrences[o].pkg
    case ImageVulnerablePackages => set f: nat | f < |s.findings| && ImageOf(s, f) == k :: PackageOf(s, f)
    case ImageNoncompliantPackages =>
      set o: nat | o < |s.occurrences| && Noncompliant(s, o) && s.occurrences[o].image == k :: s.occurrences[o].pkg
    case ImageVulnerabilities => set f: nat | f < |s.findings| && ImageOf(s, f) == k :: VulnerabilityOf(s, f)
    case PackagePresentImages => set o: nat | o < |s.occurrences| && s.occurrences[o].pkg == k :: s.occurrences[o].image
    case PackageVulnerableImages => set f: nat | f < |s.findings| && PackageOf(s, f) == k :: ImageOf(s, f)
    case PackageNoncompliantImages =>
      set o: nat | o < |s.occurrences| && Noncompliant(s, o) && s.occurrences[o].pkg == k :: s.occurrences[o].image
    case PackageAffectedImages =>
      (set o: nat | o < |s.occurrences| && Noncompliant(s, o) && s.occurrences[o].pkg == k :: s.occurrences[o].image) +
      (set f: nat | f < |s.findings| && PackageOf(s, f) == k :: ImageOf(s, f))
    case VulnerabilityAffectedImages => set f: nat | f < |s.findings| && VulnerabilityOf(s, f) == k :: ImageOf(s, f)
    case AdvisoryAffectedImages => set f: nat | f < |s.findings| && AdvisoryOf(s, f) == k :: ImageOf(s, f)
    case VulnerabilityFindings => set f: nat | f < |s.findings| && VulnerabilityOf(s, f) == k
    case AdvisoryFindings => set f: nat | f < |s.findings| && AdvisoryOf(s, f) == k
    case PackageFindings => set f: nat | f < |s.findings| && PackageOf(s, f) == k
  }

  /** An affected image is a vulnerable or a noncompliant one. */
  lemma AffectedIsUnion(s: ReportStore, p: nat)
    ensures Related(s, PackageAffectedImages, p) ==
            Related(s, PackageVulnerableImages, p) + Related(s, PackageNoncompliantImages, p)
  {
  }

  // ---------------------------------------------------------------- the visitor

  predicate VisitsOccurrences(rel: Relation) {
    match rel
    case ImageOccurrences | ImagePackages | PackagePresentImages | ImageNoncompliantPackages | PackageNoncompliantImages
      | PackageAffectedImages => true
    case _ => false
  }

  predicate VisitsFindings(rel: Relation) {
    !VisitsOccurrences(rel) || rel.PackageAffectedImages?
  }

  /** The callback made for an occurrence, if any. */
  function OccurrenceEdge(s: ReportStore, rel: Relation, o: nat): Option<Edge>
    requires o < |s.occurrences|
  {
    var row := s.occurrences[o];
    match rel
    case ImageOccurrences => Some(Edge(row.image, o))
    case ImagePackages => Some(Edge(row.image, row.pkg))
    case PackagePresentImages => Some(Edge(row.pkg, row.image))
    case ImageNoncompliantPackages => if Noncompliant(s, o) then Some(Edge(row.image, row.pkg)) else None
    case PackageNoncompliantImages | PackageAffectedImages =>
      if Noncompliant(s, o) then Some(Edge(row.pkg, row.image)) else None
    case _ => None
  }

  /** The callback made for a finding, if any. */
  function FindingEdge(s: ReportStore, rel: Relation, f: nat): Option<Edge>
    requires f < |s.findings|
  {
    match rel
    case ImageFindings => Some(Edge(ImageOf(s, f), f))
    case OccurrenceFindings => Some(Edge(OccurrenceOf(s, f), f))
    case ImageVulnerabilities => Some(Edge(ImageOf(s, f), VulnerabilityOf(s, f)))
    case ImageVulnerablePackages => Some(Edge(ImageOf(s, f), PackageOf(s, f)))
    case PackageVulnerableImages | PackageAffectedImages => Some(Edge(PackageOf(s, f), ImageOf(s, f)))
    case VulnerabilityAffectedImages => Some(Edge(VulnerabilityOf(s, f), ImageOf(s, f)))
    case AdvisoryAffectedImages => Some(Edge(AdvisoryOf(s, f), ImageOf(s, f)))
    case VulnerabilityFindings => Some(Edge(VulnerabilityOf(s, f), f))
    case AdvisoryFindings => Some(Edge(AdvisoryOf(s, f), f))
    case PackageFindings => Some(Edge(PackageOf(s, f), f))
    case _ => None
  }

  function OccurrenceEdges(s: ReportStore, rel: Relation, n: nat): seq<Edge>
    requires n <= |s.occurrences|
  {
    if n == 0 then []
    else
      var e := OccurrenceEdge(s, rel, n - 1);
      OccurrenceEdges(s, rel, n - 1) + if e.Some? then [e.value] else []
  }

  function FindingEdges(s: ReportStore, rel: Relation, n: nat): seq<Edge>
    requires n <= |s.findings|
  {
    if n == 0 then []
    else
      var e := FindingEdge(s, rel, n - 1);
      FindingEdges(s, rel, n - 1) + if e.Some? then [e.value] else []
  }

  /** Everything visited for a relation, in order. */
  function Edges(s: ReportStore, rel: Relation): seq<Edge> {
    OccurrenceEdges(s, rel, |s.occurrences|) + FindingEdges(s, rel, |s.findings|)
  }

  lemma {:induction false} OccurrenceEdgesHave(s: ReportStore, rel: Relation, n: nat, e: Edge)
    requires n <= |s.occurrences|
    ensures e in OccurrenceEdges(s, rel, n) <==> exists o: nat :: o < n && OccurrenceEdge(s, rel, o) == Some(e)
  {
    hide OccurrenceEdge;
    if n > 0 {
      OccurrenceEdgesHave(s, rel, n - 1, e);
    }
  }

  lemma {:induction false} FindingEdgesHave(s: ReportStore, rel: Relation, n: nat, e: Edge)
    requires n <= |s.findings|
    ensures e in FindingEdges(s, rel, n) <==> exists f: nat :: f < n && FindingEdge(s, rel, f) == Some(e)
  {
    hide FindingEdge;
    if n > 0 {
      FindingEdgesHave(s, rel, n - 1, e);
    }
  }

  lemma EdgesHave(s: ReportStore, rel: Relation, e: Edge)
    ensures e in Edges(s, rel) <==>
              || (exists o: nat :: o < |s.occurrences| && OccurrenceEdge(s, rel, o) == Some(e))
              || (exists f: nat :: f < |s.findings| && FindingEdge(s, rel, f) == Some(e))
  {
    hide OccurrenceEdge, FindingEdge, OccurrenceEdges, FindingEdges;
    OccurrenceEdgesHave(s, rel, |s.occurrences|, e);
    FindingEdgesHave(s, rel, |s.findings|, e);
  }

  ghost predicate EdgeMakes(s: ReportStore, rel: Relation, k: nat, x: nat) {
    || (exists o: nat :: o < |s.occurrences| && OccurrenceEdge(s, rel, o) == Some(Edge(k, x)))
    || (exists f: nat :: f < |s.findings| && FindingEdge(s, rel, f) == Some(Edge(k, x)))
  }

  lemma RelatedByOccurrence(s: ReportStore, rel: Relation, k: nat, x: nat)
    requires VisitsOccurrences(rel) && !VisitsFindings(rel)
    ensures x in Related(s, rel, k) <==> EdgeMakes(s, rel, k, x)
  {
    match rel {
      case ImageOccurrences =>
        if x in Related(s, rel, k) {
          var o: nat :| o < |s.occurrences| && s.occurrences[o].image == k && o == x;
          assert OccurrenceEdge(s, rel, o) == Some(Edge(k, x));
        }
      case ImagePackages =>
        if x in Related(s, rel, k) {
          var o: nat :| o < |s.occurrences| && s.occurrences[o].image == k && s.occurrences[o].pkg == x;
          assert OccurrenceEdge(s, rel, o) == Some(Edge(k, x));
        }
      case PackagePresentImages =>
        if x in Related(s, rel, k) {
          var o: nat :| o < |s.occurrences| && s.occurrences[o].pkg == k && s.occurrences[o].image == x;
          assert OccurrenceEdge(s, rel, o) == Some(Edge(k, x));
        }
      case ImageNoncompliantPackages =>
        if x in Related(s, rel, k) {
          var o: nat :| o < |s.occurrences| && Noncompliant(s, o) && s.occurrences[o].image == k
            && s.occurrences[o].pkg == x;
          assert OccurrenceEdge(s, rel, o) == Some(Edge(k, x));
        }
      case PackageNoncompliantImages =>
        if x in Related(s, rel, k) {
          var o: nat :| o < |s.occurrences| && Noncompliant(s, o) && s.occurrences[o].pkg == k
            && s.occurrences[o].image == x;
          assert OccurrenceEdge(s, rel, o) == Some(Edge(k, x));
        }
    }
  }

  lemma RelatedByFinding(s: ReportStore, rel: Relation, k: nat, x: nat)
    requires !VisitsOccurrences(rel)
    ensures x in Related(s, rel, k) <==> EdgeMakes(s, rel, k, x)
  {
    hide ImageOf, PackageOf, VulnerabilityOf, AdvisoryOf, OccurrenceOf;
    assert forall o: nat :: o < |s.occurrences| ==> OccurrenceEdge(s, rel, o).None?;
    match rel {
      case ImageFindings =>
        if x in Related(s, rel, k) {
          var f: nat :| f < |s.findings| && ImageOf(s, f) == k && f == x;
          assert FindingEdge(s, rel, f) == Some(Edge(k, x));
        }
      case OccurrenceFindings =>
        if x in Related(s, rel, k) {
          var f: nat :| f < |s.findings| && OccurrenceOf(s, f) == k && f == x;
          assert FindingEdge(s, rel, f) == Some(Edge(k, x));
        }
      case ImageVulnerablePackages =>
        if x in Related(s, rel, k) {
          var f: nat :| f < |s.findings| && ImageOf(s, f) == k && PackageOf(s, f) == x;
          assert FindingEdge(s, rel, f) == Some(Edge(k, x));
        }
      case ImageVulnerabilities =>
        if x in Related(s, rel, k) {
          var f: nat :| f < |s.findings| && ImageOf(s, f) == k && VulnerabilityOf(s, f) == x;
          assert FindingEdge(s, rel, f) == Some(Edge(k, x));
        }
      case PackageVulnerableImages =>
        if x in Related(s, rel, k) {
          var f: nat :| f < |s.findings| && PackageOf(s, f) == k && ImageOf(s, f) == x;
          assert FindingEdge(s, rel, f) == Some(Edge(k, x));
        }
      case VulnerabilityAffectedImages =>
        if x in Related(s, rel, k) {
          var f: nat :| f < |s.findings| && VulnerabilityOf(s, f) == k && ImageOf(s, f) == x;
          assert FindingEdge(s, rel, f) == Some(Edge(k, x));
        }
      case AdvisoryAffectedImages =>
        if x in Related(s, rel, k) {
          var f: nat :| f < |s.findings| && AdvisoryOf(s, f) == k && ImageOf(s, f) == x;
          assert FindingEdge(s, rel, f) == Some(Edge(k, x));
        }
      case VulnerabilityFindings =>
        if x in Related(s, rel, k) {
          var f: nat :| f < |s.findings| && VulnerabilityOf(s, f) == k && f == x;
          assert FindingEdge(s, rel, f) == Some(Edge(k, x));
        }
      case AdvisoryFindings =>
        if x in Related(s, rel, k) {
          var f: nat :| f < |s.findings| && AdvisoryOf(s, f) == k && f == x;
          assert FindingEdge(s, rel, f) == Some(Edge(k, x));
        }
      case PackageFindings =>
        if x in Related(s, rel, k) {
          var f: nat :| f < |s.findings| && PackageOf(s, f) == k && f == x;
          assert FindingEdge(s, rel, f) == Some(Edge(k, x));
        }
    }
  }

  lemma RelatedByBoth(s: ReportStore, k: nat, x: nat)
    ensures x in Related(s, PackageAffectedImages, k) <==> EdgeMakes(s, PackageAffectedImages, k, x)
  {
    hide ImageOf, PackageOf;
    var rel := PackageAffectedImages;
    if x in Related(s, rel, k) {
      if o: nat :|
           o < |s.occurrences| && Noncompliant(s, o) && s.occurrences[o].pkg == k && s.occurrences[o].image == x
      {
        assert OccurrenceEdge(s, rel, o) == Some(Edge(k, x));
      } else {
        var f: nat :| f < |s.findings| && PackageOf(s, f) == k && ImageOf(s, f) == x;
        assert FindingEdge(s, rel, f) == Some(Edge(k, x));
      }
    }
  }

  /** For each of the sixteen relations: the distinct values visited for a key are exactly what the
      naive definition relates to it. */
  lemma VisitorIsNaive(s: ReportStore, rel: Relation, k: nat)
    ensures ValueSet(Edges(s, rel), k) == Related(s, rel, k)
  {
    forall x
      ensures x in ValueSet(Edges(s, rel), k) <==> x in Related(s, rel, k)
    {
      hide Edges, Related, OccurrenceEdge, FindingEdge;
      EdgesHave(s, rel, Edge(k, x));
      if VisitsOccurrences(rel) && !VisitsFindings(rel) {
        RelatedByOccurrence(s, rel, k, x);
      } else if rel.PackageAffectedImages? {
        RelatedByBoth(s, k, x);
      } else {
        RelatedByFinding(s, rel, k, x);
      }
      assert x in ValueSet(Edges(s, rel), k) <==> Edge(k, x) in Edges(s, rel) by {
        if x in ValueSet(Edges(s, rel), k) {
          var e :| e in Edges(s, rel) && e.key == k && e.value == x;
          assert e == Edge(k, x);
        }
        if Edge(k, x) in Edges(s, rel) {
          assert Edge(k, x).key == k && Edge(k, x).value == x;
        }
      }
    }
  }

  // ---------------------------------------------------------------- in range

  /** How many values a relation can have. */
  function ValueCount(s: ReportStore, rel: Relation): nat {
    match rel
    case ImageOccurrences => |s.occurrences|
    case ImageFindings | OccurrenceFindings | VulnerabilityFindings | AdvisoryFindings | PackageFindings => |s.findings|
    case ImagePackages | ImageVulnerablePackages | ImageNoncompliantPackages => |s.packages|
    case ImageVulnerabilities => |s.vulnerabilities|
    case PackagePresentImages | PackageVulnerableImages | PackageNoncompliantImages | PackageAffectedImages =>
      |s.images|
    case VulnerabilityAffectedImages | AdvisoryAffectedImages => |s.images|
  }

  lemma ColumnsInRange(s: ReportStore, f: nat)
    requires RowsLinked(s) && f < |s.findings|
    ensures OccurrenceOf(s, f) < |s.occurrences| && ImageOf(s, f) < |s.images| && PackageOf(s, f) < |s.packages|
    ensures AdvisoryOf(s, f) < |s.advisorySources| && VulnerabilityOf(s, f) < |s.vulnerabilities|
  {
  }

  lemma OccurrenceEdgeInRange(s: ReportStore, rel: Relation, o: nat)
    requires RowsLinked(s) && o < |s.occurrences| && OccurrenceEdge(s, rel, o).Some?
    ensures OccurrenceEdge(s, rel, o).value.key < KeyCount(s, rel)
            && OccurrenceEdge(s, rel, o).value.value < ValueCount(s, rel)
  {
  }

  lemma FindingEdgeInRange(s: ReportStore, rel: Relation, f: nat)
    requires RowsLinked(s) && f < |s.findings| && FindingEdge(s, rel, f).Some?
    ensures FindingEdge(s, rel, f).value.key < KeyCount(s, rel)
            && FindingEdge(s, rel, f).value.value < ValueCount(s, rel)
  {
    ColumnsInRange(s, f);
    hide ImageOf, PackageOf, VulnerabilityOf, AdvisoryOf, OccurrenceOf, RowsLinked;
  }

  /** Every visited edge has a key and a value of the relation. */
  lemma EdgesInRange(s: ReportStore, rel: Relation)
    requires RowsLinked(s)
    ensures KeysBelow(Edges(s, rel), KeyCount(s, rel))
    ensures forall e :: e in Edges(s, rel) ==> e.value < ValueCount(s, rel)
  {
    hide Edges, RowsLinked, OccurrenceEdge, FindingEdge, KeyCount, ValueCount;
    forall e | e in Edges(s, rel)
      ensures e.key < KeyCount(s, rel) && e.value < ValueCount(s, rel)
    {
      EdgesHave(s, rel, e);
      if o: nat :| o < |s.occurrences| && OccurrenceEdge(s, rel, o) == Some(e) {
        OccurrenceEdgeInRange(s, rel, o);
      } else {
        var f: nat :| f < |s.findings| && FindingEdge(s, rel, f) == Some(e);
        FindingEdgeInRange(s, rel, f);
      }
    }
  }

  // ---------------------------------------------------------------- contiguous relations

  /** Edge `i` has value `i`, and keys never decrease. */
  ghost predicate InRuns(edges: seq<Edge>) {
    && (forall i :: 0 <= i < |edges| ==> edges[i].value == i)
    && (forall i, j :: 0 <= i < j < |edges| ==> edges[i].key <= edges[j].key)
  }

  lemma {:induction false} OccurrenceEdgesAll(s: ReportStore, n: nat)
    requires n <= |s.occurrences|
    ensures var edges := OccurrenceEdges(s, ImageOccurrences, n);
            |edges| == n && forall i :: 0 <= i < n ==> edges[i] == Edge(s.occurrences[i].image, i)
  {
    if n > 0 {
      OccurrenceEdgesAll(s, n - 1);
    }
  }

  lemma {:induction false} FindingEdgesAll(s: ReportStore, rel: Relation, n: nat)
    requires n <= |s.findings| && (rel.ImageFindings? || rel.OccurrenceFindings?)
    ensures var edges := FindingEdges(s, rel, n);
            |edges| == n && forall i :: 0 <= i < n ==> Some(edges[i]) == FindingEdge(s, rel, i)
  {
    if n > 0 {
      FindingEdgesAll(s, rel, n - 1);
    }
  }

  lemma {:induction false} NoOccurrenceEdges(s: ReportStore, rel: Relation, n: nat)
    requires n <= |s.occurrences| && !VisitsOccurrences(rel)
    ensures OccurrenceEdges(s, rel, n) == []
  {
    if n > 0 {
      NoOccurrenceEdges(s, rel, n - 1);
    }
  }

  lemma {:induction false} NoFindingEdges(s: ReportStore, rel: Relation, n: nat)
    requires n <= |s.findings| && !VisitsFindings(rel)
    ensures FindingEdges(s, rel, n) == []
  {
    if n > 0 {
      NoFindingEdges(s, rel, n - 1);
    }
  }

  lemma FindingsInRuns(s: ReportStore, rel: Relation, edges: seq<Edge>)
    requires RowsLinked(s) && (rel.ImageFindings? || rel.OccurrenceFindings?)
    requires |edges| == |s.findings| && forall i :: 0 <= i < |edges| ==> Some(edges[i]) == FindingEdge(s, rel, i)
    ensures InRuns(edges)
  {
    forall i | 0 <= i < |edges|
      ensures edges[i].value == i && edges[i].key == if rel.ImageFindings? then ImageOf(s, i) else OccurrenceOf(s, i)
    {
      assert Some(edges[i]) == FindingEdge(s, rel, i);
    }
    forall i, j | 0 <= i < j < |edges|
      ensures ImageOf(s, i) <= ImageOf(s, j) && OccurrenceOf(s, i) <= OccurrenceOf(s, j)
    {
      var o, p := s.findings[i].occurrence, s.findings[j].occurrence;
      assert o <= p && p < |s.occurrences|;
      assert o == p || s.occurrences[o].image <= s.occurrences[p].image;
    }
  }

  /** Because images and occurrences appear in order, the three contiguous relations visit their
      members in runs. */
  lemma ContiguousInRuns(s: ReportStore, rel: Relation)
    requires RowsLinked(s) && Contiguous(rel)
    ensures InRuns(Edges(s, rel))
  {
    hide FindingEdge, OccurrenceEdge, FindingEdges, OccurrenceEdges;
    if rel.ImageOccurrences? {
      OccurrenceEdgesAll(s, |s.occurrences|);
      NoFindingEdges(s, rel, |s.findings|);
      assert Edges(s, rel) == OccurrenceEdges(s, rel, |s.occurrences|);
    } else {
      hide RowsLinked;
      NoOccurrenceEdges(s, rel, |s.occurrences|);
      FindingEdgesAll(s, rel, |s.findings|);
      assert Edges(s, rel) == FindingEdges(s, rel, |s.findings|);
      FindingsInRuns(s, rel, Edges(s, rel));
    }
  }
}
