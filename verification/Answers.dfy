/** What reading a finished report must answer, by scanning the ingested records directly, and the
    proof that the compact tables and the indexes answer exactly that. */
module Answers {
  import opened Common
  import opened Order
  import opened Report
  import opened Payloads
  import opened Records
  import opened Aliases
  import opened Batches
  import opened Builder
  import opened Indexes
  import opened Relations
  import opened Planning
  import opened Finishing
  import opened Query
  import AliasTables

  // ---------------------------------------------------------------- the naive relations

  function FindingImage(b: Batch, f: nat): nat
    requires f < |b.findings|
  {
    if b.findings[f].occurrence < |b.occurrences| then b.occurrences[b.findings[f].occurrence].image else 0
  }

  function FindingPackage(b: Batch, f: nat): nat
    requires f < |b.findings|
  {
    if b.findings[f].occurrence < |b.occurrences| then b.occurrences[b.findings[f].occurrence].pkg else 0
  }

  /** Vulnerability `v` groups the advisory of a finding: their identifiers are connected. */
  ghost predicate FindingNames(b: Batch, rows: seq<Vulnerability>, f: nat, v: nat)
    requires f < |b.findings|
  {
    && v < |rows| && b.findings[f].advisory < |b.advisories|
    && Linked(b.groups, rows[v].id, b.advisories[b.findings[f].advisory].id)
  }

  ghost predicate ImageNames(b: Batch, rows: seq<Vulnerability>, image: nat, v: nat) {
    exists f: nat :: f < |b.findings| && FindingImage(b, f) == image && FindingNames(b, rows, f, v)
  }

  /** Everything related to `k`, by scanning the ingested records. */
  ghost function Members(b: Batch, rows: seq<Vulnerability>, rel: Relation, k: nat): set<nat>
    decreases rel.PackageAffectedImages?
  {
    match rel
    case ImageOccurrences => set o: nat | o < |b.occurrences| && b.occurrences[o].image == k
    case ImageFindings => set f: nat | f < |b.findings| && FindingImage(b, f) == k
    case OccurrenceFindings => set f: nat | f < |b.findings| && b.findings[f].occurrence == k
    case ImagePackages => set o: nat | o < |b.occurrences| && b.occurrences[o].image == k :: b.occurrences[o].pkg
    case ImageVulnerablePackages => set f: nat | f < |b.findings| && FindingImage(b, f) == k :: FindingPackage(b, f)
    case ImageNoncompliantPackages =>
      set o: nat | o < |b.occurrences| && NoncompliantIn(b, o) && b.occurrences[o].image == k :: b.occurrences[o].pkg
    case ImageVulnerabilities => set v: nat | v < |rows| && ImageNames(b, rows, k, v)
    case PackagePresentImages => set o: nat | o < |b.occurrences| && b.occurrences[o].pkg == k :: b.occurrences[o].image
    case PackageVulnerableImages => set f: nat | f < |b.findings| && FindingPackage(b, f) == k :: FindingImage(b, f)
    case PackageNoncompliantImages =>
      set o: nat | o < |b.occurrences| && NoncompliantIn(b, o) && b.occurrences[o].pkg == k :: b.occurrences[o].image
    case PackageAffectedImages =>
      Members(b, rows, PackageVulnerableImages, k) + Members(b, rows, PackageNoncompliantImages, k)
    case VulnerabilityAffectedImages =>
      set f: nat | f < |b.findings| && FindingNames(b, rows, f, k) :: FindingImage(b, f)
    case AdvisoryAffectedImages => set f: nat | f < |b.findings| && b.findings[f].advisory == k :: FindingImage(b, f)
    case VulnerabilityFindings => set f: nat | f < |b.findings| && FindingNames(b, rows, f, k)
    case AdvisoryFindings => set f: nat | f < |b.findings| && b.findings[f].advisory == k
    case PackageFindings => set f: nat | f < |b.findings| && FindingPackage(b, f) == k
  }

  /** A set as an increasing sequence. */
  ghost function Enumeration(s: set<nat>): seq<nat> {
    if s == {} then []
    else
      var x :| x in s;
      Enumeration(s - {x}) + [x]
  }

  ghost function Increasing(s: set<nat>): seq<nat> {
    Canonical(NatLess(), Enumeration(s))
  }

  lemma {:induction false} EnumerationElements(s: set<nat>)
    ensures Elements(Enumeration(s)) == s
  {
    if s != {} {
      var x :| x in s && Enumeration(s) == Enumeration(s - {x}) + [x];
      EnumerationElements(s - {x});
      assert Elements(Enumeration(s)) == Elements(Enumeration(s - {x})) + {x};
    } else {
      assert Elements(Enumeration(s)) == {};
    }
  }

  lemma IncreasingElements(s: set<nat>)
    ensures Elements(Increasing(s)) == s
    ensures forall i :: 0 <= i < |Increasing(s)| ==> Increasing(s)[i] in s
  {
    NatLessTotal();
    EnumerationElements(s);
    CanonicalForm(NatLess(), Enumeration(s));
    forall i | 0 <= i < |Increasing(s)|
      ensures Increasing(s)[i] in s
    {
      assert Increasing(s)[i] in Elements(Increasing(s));
    }
  }

  /** Any increasing sequence of exactly the members is the one that is asked for. */
  lemma IncreasingUnique(s: set<nat>, row: seq<nat>)
    requires StrictlySorted(NatLess(), row) && Elements(row) == s
    ensures Increasing(s) == row
  {
    NatLessTotal();
    EnumerationElements(s);
    CanonicalForm(NatLess(), Enumeration(s));
    StrictlySortedUnique(NatLess(), Increasing(s), row);
  }

  // ---------------------------------------------------------------- the naive answers

  ghost function OptionalAnswer(s: Option<string>): Result<Native> {
    Success(if s.None? then Absent else Text(s.value))
  }

  ghost function TruthAnswer(b: Option<bool>): Result<Native> {
    Success(if b.None? then Absent else Truth(b.value))
  }

  function ItemsOf<T>(v: List<T>): seq<T> {
    if v.Nil? then [] else v.values
  }

  ghost function ListAnswer(v: List<string>, index: int): Result<Native> {
    if index < 0 then Success(Count(|ItemsOf(v)|))
    else if index < |ItemsOf(v)| then Success(Text(ItemsOf(v)[index]))
    else Invalid()
  }

  /** The objects numbered from zero that belong to `row`. */
  ghost function PartsAnswer(n: nat, kind: nat, row: nat, index: int): Result<Native> {
    if index < 0 then Success(Count(n))
    else if index < n then Success(Ref(kind, row, index))
    else Invalid()
  }

  ghost function RowsAnswer(n: nat, kind: nat, index: int): Result<Native> {
    if index < 0 then Success(Count(n))
    else if index < n then Success(Ref(kind, index, 0))
    else Invalid()
  }

  ghost function SeqAnswer(row: seq<nat>, kind: nat, index: int): Result<Native> {
    if index < 0 then Success(Count(|row|))
    else if index < |row| then Success(Ref(kind, row[index], 0))
    else Invalid()
  }

  ghost function MembersAnswer(members: set<nat>, kind: nat, index: int): Result<Native> {
    SeqAnswer(Increasing(members), kind, index)
  }

  ghost function SeverityAnswer(v: List<Severity>, sub: nat, field: nat): Result<Native> {
    if sub >= |ItemsOf(v)| then Invalid()
    else
      match field
      case 1 => Success(Text(ItemsOf(v)[sub].kind))
      case 2 => Success(Text(ItemsOf(v)[sub].source))
      case 3 => Success(Text(ItemsOf(v)[sub].vector))
      case _ => Invalid()
  }

  ghost function ReferenceAnswer(v: List<Reference>, sub: nat, field: nat): Result<Native> {
    if sub >= |ItemsOf(v)| then Invalid()
    else
      match field
      case 1 => Success(Text(ItemsOf(v)[sub].kind))
      case 2 => Success(Text(ItemsOf(v)[sub].url))
      case _ => Invalid()
  }

  ghost function BatchAnswer(b: Batch, rows: seq<Vulnerability>, field: nat, index: int): Result<Native> {
    match field
    case 1 => RowsAnswer(|b.images|, 2, index)
    case 2 => RowsAnswer(|b.packages|, 3, index)
    case 3 => RowsAnswer(|rows|, 4, index)
    case 4 => RowsAnswer(|b.advisories|, 5, index)
    case 5 => RowsAnswer(|b.findings|, 7, index)
    case _ => Invalid()
  }

  ghost function ImageAnswer(b: Batch, rows: seq<Vulnerability>, row: nat, field: nat, index: int): Result<Native>
    requires row < |b.images|
  {
    var v := b.images[row];
    match field
    case 1 => Success(Text(v.requested))
    case 2 => OptionalAnswer(v.os)
    case 3 => Success(Text(v.status))
    case 5 => PartsAnswer(|v.diagnostics|, 13, row, index)
    case 6 => MembersAnswer(Members(b, rows, ImageOccurrences, row), 6, index)
    case 7 => MembersAnswer(Members(b, rows, ImageFindings, row), 7, index)
    case 8 => MembersAnswer(Members(b, rows, ImagePackages, row), 3, index)
    case 9 => MembersAnswer(Members(b, rows, ImageVulnerablePackages, row), 3, index)
    case 10 => MembersAnswer(Members(b, rows, ImageNoncompliantPackages, row), 3, index)
    case 11 => MembersAnswer(Members(b, rows, ImageVulnerabilities, row), 4, index)
    case _ => Invalid()
  }

  ghost function PackageAnswer(b: Batch, rows: seq<Vulnerability>, row: nat, field: nat, index: int): Result<Native>
    requires row < |b.packages|
  {
    var v := b.packages[row];
    match field
    case 1 => Success(Text(v.name))
    case 2 => Success(Text(v.version))
    case 3 => Success(Text(v.ecosystem))
    case 4 => Success(Text(v.commit))
    case 5 => Success(Text(v.osPackageName))
    case 6 => Success(Text(v.purl))
    case 7 => MembersAnswer(Members(b, rows, PackagePresentImages, row), 2, index)
    case 8 => MembersAnswer(Members(b, rows, PackageVulnerableImages, row), 2, index)
    case 9 => MembersAnswer(Members(b, rows, PackageNoncompliantImages, row), 2, index)
    case 10 => MembersAnswer(Members(b, rows, PackageAffectedImages, row), 2, index)
    case 11 => MembersAnswer(Members(b, rows, PackageFindings, row), 7, index)
    case _ => Invalid()
  }

  ghost function VulnerabilityAnswer(b: Batch, rows: seq<Vulnerability>, row: nat, field: nat,
                                     index: int): Result<Native>
    requires row < |rows|
  {
    match field
    case 1 => Success(Text(rows[row].id))
    case 2 => ListAnswer(rows[row].aliases, index)
    case 3 => MembersAnswer(Members(b, rows, VulnerabilityAffectedImages, row), 2, index)
    case 4 => MembersAnswer(Members(b, rows, VulnerabilityFindings, row), 7, index)
    case _ => Invalid()
  }

  ghost function AdvisoryAnswer(b: Batch, rows: seq<Vulnerability>, row: nat, field: nat, index: int): Result<Native>
    requires row < |b.advisories|
  {
    var v := b.advisories[row];
    match field
    case 1 => Success(Text(v.id))
    case 2 => ListAnswer(v.aliases, index)
    case 3 => Success(Text(v.summary))
    case 4 => OptionalAnswer(v.modified)
    case 5 => OptionalAnswer(v.published)
    case 6 => OptionalAnswer(v.withdrawn)
    case 7 => OptionalAnswer(v.databaseSeverity)
    case 8 => PartsAnswer(|ItemsOf(v.severities)|, 14, row, index)
    case 9 => PartsAnswer(|ItemsOf(v.references)|, 15, row, index)
    case 10 => MembersAnswer(Members(b, rows, AdvisoryAffectedImages, row), 2, index)
    case 11 => MembersAnswer(Members(b, rows, AdvisoryFindings, row), 7, index)
    case _ => Invalid()
  }

  ghost function OccurrenceAnswer(b: Batch, rows: seq<Vulnerability>, row: nat, field: nat, index: int): Result<Native>
    requires row < |b.occurrences|
  {
    var v := b.occurrences[row];
    match field
    case 1 => Success(Ref(2, v.image, 0))
    case 2 => Success(Ref(3, v.pkg, 0))
    case 3 => Success(Ref(8, v.context, 0))
    case 4 => Success(Ref(10, v.license, 0))
    case 5 => MembersAnswer(Members(b, rows, OccurrenceFindings, row), 7, index)
    case _ => Invalid()
  }

  /** The vulnerability of a finding is the one that groups its advisory. */
  ghost function FindingAnswer(b: Batch, rows: seq<Vulnerability>, row: nat, field: nat): Result<Native>
    requires row < |b.findings|
  {
    var v := b.findings[row];
    match field
    case 1 => Success(Ref(6, v.occurrence, 0))
    case 2 => Success(Ref(5, v.advisory, 0))
    case 3 => Success(Ref(11, v.fix, 0))
    case 4 => Success(Ref(9, v.assessment, 0))
    case 5 =>
      if exists k :: FindingNames(b, rows, row, k) then
        var k :| FindingNames(b, rows, row, k);
        Success(Ref(4, k, 0))
      else Invalid()
    case _ => Invalid()
  }

  ghost function ContextAnswer(v: PackageContext, field: nat, index: int): Result<Native> {
    match field
    case 1 => Success(Text(v.path))
    case 2 => Success(Text(v.sourceType))
    case 3 => OptionalAnswer(v.layer)
    case 4 => ListAnswer(v.dependencyGroups, index)
    case _ => Invalid()
  }

  ghost function AssessmentAnswer(v: Assessment, field: nat): Result<Native> {
    match field
    case 1 => TruthAnswer(v.called)
    case 2 => TruthAnswer(v.unimportant)
    case 3 => Success(Text(v.maxSeverity))
    case _ => Invalid()
  }

  ghost function LicenseAnswer(v: License, field: nat, index: int): Result<Native> {
    match field
    case 1 => ListAnswer(v.licenses, index)
    case 2 => if v.policy.Nil? then Success(Absent) else ListAnswer(v.policy, index)
    case 3 => ListAnswer(v.violations, index)
    case 4 => Success(Text(v.status))
    case _ => Invalid()
  }

  ghost function FixAnswer(v: Fix, row: nat, field: nat, index: int): Result<Native> {
    match field
    case 1 => ListAnswer(v.versions, index)
    case 2 => Success(Text(v.status))
    case 3 => PartsAnswer(|ItemsOf(v.severities)|, 16, row, index)
    case 4 => ListAnswer(v.urgencies, index)
    case _ => Invalid()
  }

  ghost function DiagnosticAnswer(v: Diagnostic, field: nat): Result<Native> {
    match field
    case 1 => Success(Text(v.code))
    case 2 => Success(Text(v.message))
    case _ => Invalid()
  }

  /** What a read must answer: the ingested records, decoded, and the relations by scanning. */
  ghost function Answer(b: Batch, rows: seq<Vulnerability>, kind: nat, row: nat, sub: nat, field: nat,
                        index: int): Result<Native> {
    match kind
    case 1 => BatchAnswer(b, rows, field, index)
    case 2 => if row < |b.images| then ImageAnswer(b, rows, row, field, index) else Invalid()
    case 3 => if row < |b.packages| then PackageAnswer(b, rows, row, field, index) else Invalid()
    case 4 => if row < |rows| then VulnerabilityAnswer(b, rows, row, field, index) else Invalid()
    case 5 => if row < |b.advisories| then AdvisoryAnswer(b, rows, row, field, index) else Invalid()
    case 6 => if row < |b.occurrences| then OccurrenceAnswer(b, rows, row, field, index) else Invalid()
    case 7 => if row < |b.findings| then FindingAnswer(b, rows, row, field) else Invalid()
    case 8 => if row < |b.contexts| then ContextAnswer(b.contexts[row], field, index) else Invalid()
    case 9 => if row < |b.assessments| then AssessmentAnswer(b.assessments[row], field) else Invalid()
    case 10 => if row < |b.licenses| then LicenseAnswer(b.licenses[row], field, index) else Invalid()
    case 11 => if row < |b.fixes| then FixAnswer(b.fixes[row], row, field, index) else Invalid()
    case 13 =>
      if row < |b.images| && sub < |b.images[row].diagnostics| then
        DiagnosticAnswer(b.images[row].diagnostics[sub], field)
      else
        Invalid()
    case 14 => if row < |b.advisories| then SeverityAnswer(b.advisories[row].severities, sub, field) else Invalid()
    case 15 => if row < |b.advisories| then ReferenceAnswer(b.advisories[row].references, sub, field) else Invalid()
    case 16 => if row < |b.fixes| then SeverityAnswer(b.fixes[row].severities, sub, field) else Invalid()
    case _ => Invalid()
  }

  // ---------------------------------------------------------------- the tables relate what was ingested

  /** Only one row groups a name. */
  lemma RowsDistinct(groups: seq<seq<string>>, rows: seq<Vulnerability>, u: nat, v: nat, x: string)
    requires AliasTables.IsTable(groups, rows) && u < |rows| && v < |rows|
    requires Linked(groups, rows[u].id, x) && Linked(groups, rows[v].id, x)
    ensures u == v
  {
    hide Linked, AliasTables.IsRow;
    LinkedSymmetric(groups, rows[v].id, x);
    LinkedTransitive(groups, rows[u].id, x, rows[v].id);
    AliasTables.RowUnique(groups, rows[u], rows[v]);
    LessTotal(rows[u].id, rows[v].id);
  }

  /** A finding's vulnerability row is the one row that groups its advisory. */
  lemma FindingNamesIs(store: ReportStore, b: Batch, rows: seq<Vulnerability>, f: nat, v: nat)
    requires Finished(store, b, rows) && Batches.Complete(b) && f < |b.findings|
    ensures f < |store.findings| && (FindingNames(b, rows, f, v) <==> v == VulnerabilityOf(store, f))
  {
    hide Linked, Finished, Batches.Complete, AliasTables.IsTable, IsVulnerabilityRow, RowsLinked;
    FinishedSizes(store, b, rows);
    AdvisoriesLinked(store, b, rows);
    RowsInRange(b);
    TableOf(store, b, rows);
    var a := b.findings[f].advisory;
    if FindingNames(b, rows, f, v) {
      RowsDistinct(b.groups, rows, store.advisoryVulnerabilities[a], v, b.advisories[a].id);
    }
  }

  lemma TableOf(store: ReportStore, b: Batch, rows: seq<Vulnerability>)
    requires Finished(store, b, rows)
    ensures AliasTables.IsTable(b.groups, rows)
  {
  }

  /** The columns that the relations scan say the same in both forms. */
  ghost predicate SameColumns(store: ReportStore, b: Batch, rows: seq<Vulnerability>) {
    && store.occurrences == b.occurrences && store.findings == b.findings
    && (forall o: nat :: o < |b.occurrences| ==> (Noncompliant(store, o) <==> NoncompliantIn(b, o)))
    && (forall f: nat :: f < |b.findings| ==> ImageOf(store, f) == FindingImage(b, f))
    && (forall f: nat :: f < |b.findings| ==> PackageOf(store, f) == FindingPackage(b, f))
    && (forall f: nat, v: nat :: f < |b.findings| ==> (FindingNames(b, rows, f, v) <==> v == VulnerabilityOf(store, f)))
  }

  lemma ColumnsSame(store: ReportStore, b: Batch, rows: seq<Vulnerability>)
    requires Finished(store, b, rows) && Batches.Complete(b)
    ensures SameColumns(store, b, rows)
  {
    FinishedSizes(store, b, rows);
    hide Finished, Batches.Complete, Linked, IsVulnerabilityRow, Noncompliant, NoncompliantIn, FindingNames,
      VulnerabilityOf;
    forall o: nat | o < |b.occurrences|
      ensures Noncompliant(store, o) <==> NoncompliantIn(b, o)
    {
      NoncompliantIs(store, b, rows, o);
    }
    forall f: nat, v: nat | f < |b.findings|
      ensures FindingNames(b, rows, f, v) <==> v == VulnerabilityOf(store, f)
    {
      FindingNamesIs(store, b, rows, f, v);
    }
  }

  lemma ImageNamesIs(store: ReportStore, b: Batch, rows: seq<Vulnerability>, k: nat, v: nat)
    requires SameColumns(store, b, rows)
    ensures v in Related(store, ImageVulnerabilities, k) <==> v in Members(b, rows, ImageVulnerabilities, k)
  {
    hide Noncompliant, NoncompliantIn, VulnerabilityOf, ImageOf, PackageOf, FindingImage, FindingPackage;
    if v in Related(store, ImageVulnerabilities, k) {
      var f: nat :| f < |store.findings| && ImageOf(store, f) == k && VulnerabilityOf(store, f) == v;
      assert FindingNames(b, rows, f, v);
    }
  }

  /** The relations over the tables are the relations over the ingested records. */
  lemma MembersAre(store: ReportStore, b: Batch, rows: seq<Vulnerability>, rel: Relation, k: nat)
    requires SameColumns(store, b, rows)
    ensures Related(store, rel, k) == Members(b, rows, rel, k)
    decreases rel.PackageAffectedImages?
  {
    hide Noncompliant, NoncompliantIn, FindingNames, VulnerabilityOf, ImageOf, PackageOf, FindingImage, FindingPackage;
    match rel {
      case ImageVulnerabilities =>
        forall v
          ensures v in Related(store, rel, k) <==> v in Members(b, rows, rel, k)
        {
          ImageNamesIs(store, b, rows, k, v);
        }
      case PackageAffectedImages =>
        MembersAre(store, b, rows, PackageVulnerableImages, k);
        MembersAre(store, b, rows, PackageNoncompliantImages, k);
        AffectedIsUnion(store, k);
      case _ =>
    }
  }

  // ---------------------------------------------------------------- reading a relation

  /** An index row enumerates the relation, with offsets that `uint32` holds. */
  lemma IndexRow(store: ReportStore, rel: Relation, ix: Index, k: nat)
    requires RowsLinked(store) && TablesFit(store) && Built(store, rel, ix) && k < KeyCount(store, rel)
             && |ix.members| <= MAX_U32
    ensures k + 1 < |ix.offsets| && ix.offsets[k] <= ix.offsets[k + 1] <= MAX_U32
    ensures ix.range || ix.offsets[k + 1] <= |ix.members|
    ensures StrictlySorted(NatLess(), Row(ix, k)) && Elements(Row(ix, k)) == Related(store, rel, k)
  {
    hide RowsLinked, TablesFit, KeyCount, Edges, Below, StrictlySorted, Related, RawGiven;
    var edges := Edges(store, rel);
    VisitorIsNaive(store, rel, k);
    EdgesInRange(store, rel);
    if Contiguous(rel) {
      ContiguousInRuns(store, rel);
      RangeIsSound(ix, KeyCount(store, rel), edges, k);
      BelowMonotone(edges, k + 1, KeyCount(store, rel));
      BelowAll(edges, KeyCount(store, rel));
      EdgesCounted(store, rel);
      ContiguousFits(store, rel);
    } else {
      MemberRowIsSound(ix, KeyCount(store, rel), edges, k);
    }
  }

  lemma ContiguousFits(store: ReportStore, rel: Relation)
    requires TablesFit(store) && Contiguous(rel)
    ensures Raw(store, rel) <= MAX_U32
  {
  }

  lemma IndexValueIsRow(indexes: seq<Index>, id: nat, k: nat, kind: nat, index: int)
    requires id < |indexes|
    requires var ix := indexes[id];
             && k + 1 < |ix.offsets| && ix.offsets[k] <= ix.offsets[k + 1] <= MAX_U32
             && (ix.range || ix.offsets[k + 1] <= |ix.members|)
    ensures IndexValue(indexes, id, k, kind, index) == SeqAnswer(Row(indexes[id], k), kind, index)
  {
    var ix := indexes[id];
    var start, stop := ix.offsets[k], ix.offsets[k + 1];
    assert Low32(stop - start) == stop - start;
    if 0 <= index < stop - start {
      assert Low32(start + index) == start + index;
    }
  }

  /** Reading a relation through its index is scanning the ingested records. */
  lemma RelationRead(store: ReportStore, indexes: seq<Index>, b: Batch, rows: seq<Vulnerability>, rel: Relation, k: nat,
                     kind: nat, index: int)
    requires FrozenFrom(store, indexes, b, rows) && k < KeyCount(store, rel)
    ensures IndexValue(indexes, SlotOf(rel), k, kind, index) == MembersAnswer(Members(b, rows, rel, k), kind, index)
  {
    hide Finished, Batches.Complete, TablesFit, Built, SameColumns, KeyCount, RELATIONS, Related, Members, IndexValue,
      StrictlySorted, SeqAnswer, Row;
    FinishedIsLinked(store, b, rows);
    ColumnsSame(store, b, rows);
    MembersAre(store, b, rows, rel, k);
    var slot := SlotOf(rel);
    assert Built(store, RELATIONS[slot], indexes[slot]);
    IndexRow(store, rel, indexes[slot], k);
    IncreasingUnique(Related(store, rel, k), Row(indexes[slot], k));
    IndexValueIsRow(indexes, slot, k, kind, index);
  }

  // ---------------------------------------------------------------- reading texts and lists

  lemma TextRead(store: ReportStore, id: nat, s: string)
    requires IsString(store.payload, id, s)
    ensures TextAt(store, id) == Success(Text(s))
  {
  }

  lemma OptionalRead(store: ReportStore, id: nat, s: Option<string>)
    requires IsOptional(store.payload, id, s)
    ensures OptionalText(store, id) == OptionalAnswer(s)
  {
  }

  lemma StatusRead(id: nat, s: string)
    requires IsStatus(id, s)
    ensures StatusText(id) == Success(Text(s))
  {
  }

  /** Nil and empty lists read alike; every other list reads as it was stored. */
  lemma ListRead(store: ReportStore, span: Span, v: List<string>, index: int)
    requires StoredOnce(store.payload) && IsStrings(store.payload, span, v)
    ensures StringList(store, span, index) == ListAnswer(v, index)
    ensures span.count == |ItemsOf(v)| <= MAX_U32
    ensures forall i :: 0 <= i < span.count ==> WordText(store, span.start + i) == Success(Text(ItemsOf(v)[i]))
    ensures span.start == NIL_SPAN_START <==> v.Nil?
  {
    forall i | 0 <= i < span.count
      ensures WordText(store, span.start + i) == Success(Text(ItemsOf(v)[i]))
    {
      assert IsString(store.payload, store.payload.words[span.start + i], v.values[i]);
    }
  }

  lemma SeverityStringIs(v: seq<Severity>, sub: nat, field: nat)
    requires sub < |v| && 1 <= field <= 3
    ensures 3 * sub + field - 1 < |SeverityStrings(v)|
    ensures SeverityStrings(v)[3 * sub + field - 1] == [v[sub].kind, v[sub].source, v[sub].vector][field - 1]
  {
    SeverityStringsAt(v);
    assert SeverityStrings(v)[3 * sub..3 * sub + 3][field - 1] == SeverityStrings(v)[3 * sub + (field - 1)];
  }

  lemma ReferenceStringIs(v: seq<Reference>, sub: nat, field: nat)
    requires sub < |v| && 1 <= field <= 2
    ensures 2 * sub + field - 1 < |ReferenceStrings(v)|
    ensures ReferenceStrings(v)[2 * sub + field - 1] == [v[sub].kind, v[sub].url][field - 1]
  {
    ReferenceStringsAt(v);
    assert ReferenceStrings(v)[2 * sub..2 * sub + 2][field - 1] == ReferenceStrings(v)[2 * sub + (field - 1)];
  }

  lemma SeverityRead(store: ReportStore, span: Span, v: List<Severity>, sub: nat, field: nat)
    requires StoredOnce(store.payload) && IsSeverities(store.payload, span, v)
    ensures span.count / 3 == |ItemsOf(v)| <= MAX_U32
    ensures RecordText(store, span, 3, sub, field) == SeverityAnswer(v, sub, field)
  {
    hide WordText, StoredOnce, IsStrings;
    var strings := if v.Nil? then Nil else Items(SeverityStrings(v.values));
    ListRead(store, span, strings, -1);
    if v.Items? {
      SeverityStringsSize(v.values);
      if sub < |v.values| && 1 <= field <= 3 {
        SeverityStringIs(v.values, sub, field);
        assert WordText(store, span.start + (3 * sub + field - 1))
               == Success(Text(SeverityStrings(v.values)[3 * sub + field - 1]));
      }
    }
  }

  lemma ReferenceRead(store: ReportStore, span: Span, v: List<Reference>, sub: nat, field: nat)
    requires StoredOnce(store.payload) && IsReferences(store.payload, span, v)
    ensures span.count / 2 == |ItemsOf(v)| <= MAX_U32
    ensures RecordText(store, span, 2, sub, field) == ReferenceAnswer(v, sub, field)
  {
    hide WordText, StoredOnce, IsStrings;
    var strings := if v.Nil? then Nil else Items(ReferenceStrings(v.values));
    ListRead(store, span, strings, -1);
    if v.Items? {
      ReferenceStringsSize(v.values);
      if sub < |v.values| && 1 <= field <= 2 {
        ReferenceStringIs(v.values, sub, field);
        assert WordText(store, span.start + (2 * sub + field - 1))
               == Success(Text(ReferenceStrings(v.values)[2 * sub + field - 1]));
      }
    }
  }

  lemma PartsRead(n: nat, kind: nat, row: nat, index: int)
    requires n <= MAX_U32
    ensures RecordList(n, kind, row, index) == PartsAnswer(n, kind, row, index)
    ensures RowList(n, kind, index) == RowsAnswer(n, kind, index)
  {
  }

  // ---------------------------------------------------------------- every read

  /** The stored row `row` of each table and the record it stands for. */
  lemma StoredRows(store: ReportStore, b: Batch, rows: seq<Vulnerability>, row: nat)
    requires Finished(store, b, rows)
    ensures StoredOnce(store.payload)
    ensures row < |b.packages| ==> IsPackage(store.payload, store.packages[row], b.packages[row])
    ensures row < |b.contexts| ==> IsContext(store.payload, store.contexts[row], b.contexts[row])
    ensures row < |b.licenses| ==> IsLicense(store.payload, store.licenses[row], b.licenses[row])
    ensures row < |b.advisories| ==> IsAdvisory(store.payload, store.advisorySources[row], b.advisories[row])
    ensures row < |b.fixes| ==> IsFix(store.payload, store.fixes[row], b.fixes[row])
    ensures row < |b.assessments| ==> IsAssessment(store.payload, store.assessments[row], b.assessments[row])
    ensures row < |rows| ==> IsVulnerability(store.payload, store.vulnerabilities[row], rows[row])
  {
    hide AliasTables.IsTable, IsVulnerabilityRow, IsPackage, IsContext, IsLicense, IsAdvisory, IsFix, IsAssessment,
      IsVulnerability, StoredOnce;
    if row < |b.packages| { assert PackageEncoding()(store.payload, store.packages[row], b.packages[row]); }
    if row < |b.contexts| { assert ContextEncoding()(store.payload, store.contexts[row], b.contexts[row]); }
    if row < |b.licenses| { assert LicenseEncoding()(store.payload, store.licenses[row], b.licenses[row]); }
    if row < |b.advisories| { assert AdvisoryEncoding()(store.payload, store.advisorySources[row], b.advisories[row]); }
    if row < |b.fixes| { assert FixEncoding()(store.payload, store.fixes[row], b.fixes[row]); }
    if row < |b.assessments| { assert AssessmentEncoding()(store.payload, store.assessments[row], b.assessments[row]); }
  }

  lemma BatchReads(store: ReportStore, indexes: seq<Index>, b: Batch, rows: seq<Vulnerability>, field: nat, index: int)
    requires FrozenFrom(store, indexes, b, rows)
    ensures BatchValue(store, field, index) == BatchAnswer(b, rows, field, index)
  {
    hide Finished, Batches.Complete, IndexesBuilt;
    FinishedSizes(store, b, rows);
    PartsRead(|b.images|, 2, 0, index);
    PartsRead(|b.packages|, 3, 0, index);
    PartsRead(|rows|, 4, 0, index);
    PartsRead(|b.advisories|, 5, 0, index);
    PartsRead(|b.findings|, 7, 0, index);
  }

  /** The length of a list of diagnostics is the one count that no table limits. */
  predicate ReadableImage(image: Image) {
    |image.diagnostics| <= MAX_U32
  }

  lemma ImageReads(store: ReportStore, indexes: seq<Index>, b: Batch, rows: seq<Vulnerability>, row: nat, field: nat,
                   index: int)
    requires FrozenFrom(store, indexes, b, rows) && row < |b.images| && ReadableImage(b.images[row])
    ensures ImageValue(store, indexes, row, field, index) == ImageAnswer(b, rows, row, field, index)
  {
    hide Finished, FrozenFrom, IndexValue, MembersAnswer, Members;
    FrozenRows(store, indexes, b, rows);
    PartsRead(|b.images[row].diagnostics|, 13, row, index);
    match field {
      case 6 => RelationRead(store, indexes, b, rows, ImageOccurrences, row, 6, index);
      case 7 => RelationRead(store, indexes, b, rows, ImageFindings, row, 7, index);
      case 8 => RelationRead(store, indexes, b, rows, ImagePackages, row, 3, index);
      case 9 => RelationRead(store, indexes, b, rows, ImageVulnerablePackages, row, 3, index);
      case 10 => RelationRead(store, indexes, b, rows, ImageNoncompliantPackages, row, 3, index);
      case 11 => RelationRead(store, indexes, b, rows, ImageVulnerabilities, row, 4, index);
      case _ =>
    }
  }

  lemma FrozenRows(store: ReportStore, indexes: seq<Index>, b: Batch, rows: seq<Vulnerability>)
    requires FrozenFrom(store, indexes, b, rows)
    ensures Finished(store, b, rows)
    ensures store.images == b.images && store.occurrences == b.occurrences && store.findings == b.findings
    ensures |store.packages| == |b.packages| && |store.contexts| == |b.contexts| && |store.licenses| == |b.licenses|
    ensures |store.advisorySources| == |b.advisories| && |store.fixes| == |b.fixes|
            && |store.assessments| == |b.assessments|
    ensures |store.vulnerabilities| == |rows| && |store.advisoryVulnerabilities| == |b.advisories|
  {
    hide Finished, Batches.Complete, IndexesBuilt, TablesFit;
    FinishedSizes(store, b, rows);
  }

  lemma PackageReads(store: ReportStore, indexes: seq<Index>, b: Batch, rows: seq<Vulnerability>, row: nat, field: nat,
                     index: int)
    requires FrozenFrom(store, indexes, b, rows) && row < |b.packages|
    ensures PackageValue(store, indexes, row, field, index) == PackageAnswer(b, rows, row, field, index)
  {
    hide Finished, FrozenFrom, IndexValue, MembersAnswer, Members, TextAt, IsString, IsContext, IsLicense, IsAdvisory,
      IsFix, IsAssessment, IsVulnerability;
    FrozenRows(store, indexes, b, rows);
    StoredRows(store, b, rows, row);
    match field {
      case 1 => TextRead(store, store.packages[row].name, b.packages[row].name);
      case 2 => TextRead(store, store.packages[row].version, b.packages[row].version);
      case 3 => TextRead(store, store.packages[row].ecosystem, b.packages[row].ecosystem);
      case 4 => TextRead(store, store.packages[row].commit, b.packages[row].commit);
      case 5 => TextRead(store, store.packages[row].osPackageName, b.packages[row].osPackageName);
      case 6 => TextRead(store, store.packages[row].purl, b.packages[row].purl);
      case 7 => RelationRead(store, indexes, b, rows, PackagePresentImages, row, 2, index);
      case 8 => RelationRead(store, indexes, b, rows, PackageVulnerableImages, row, 2, index);
      case 9 => RelationRead(store, indexes, b, rows, PackageNoncompliantImages, row, 2, index);
      case 10 => RelationRead(store, indexes, b, rows, PackageAffectedImages, row, 2, index);
      case 11 => RelationRead(store, indexes, b, rows, PackageFindings, row, 7, index);
      case _ =>
    }
  }

  lemma VulnerabilityReads(store: ReportStore, indexes: seq<Index>, b: Batch, rows: seq<Vulnerability>, row: nat,
                           field: nat, index: int)
    requires FrozenFrom(store, indexes, b, rows) && row < |rows|
    ensures VulnerabilityValue(store, indexes, row, field, index) == VulnerabilityAnswer(b, rows, row, field, index)
  {
    hide Finished, FrozenFrom, IndexValue, MembersAnswer, Members, TextAt, StringList, ListAnswer, IsString, IsStrings,
      StoredOnce, IsPackage, IsContext, IsLicense, IsAdvisory, IsFix, IsAssessment;
    FrozenRows(store, indexes, b, rows);
    StoredRows(store, b, rows, row);
    match field {
      case 1 => TextRead(store, store.vulnerabilities[row].id, rows[row].id);
      case 2 => ListRead(store, store.vulnerabilities[row].aliases, rows[row].aliases, index);
      case 3 => RelationRead(store, indexes, b, rows, VulnerabilityAffectedImages, row, 2, index);
      case 4 => RelationRead(store, indexes, b, rows, VulnerabilityFindings, row, 7, index);
      case _ =>
    }
  }

  lemma AdvisoryReads(store: ReportStore, indexes: seq<Index>, b: Batch, rows: seq<Vulnerability>, row: nat, field: nat,
                      index: int)
    requires FrozenFrom(store, indexes, b, rows) && row < |b.advisories|
    ensures AdvisoryValue(store, indexes, row, field, index) == AdvisoryAnswer(b, rows, row, field, index)
  {
    hide Finished, FrozenFrom, IndexValue, MembersAnswer, Members, TextAt, OptionalText, OptionalAnswer, StringList,
      ListAnswer, RecordList, PartsAnswer, IsString, IsOptional, IsStrings, IsSeverities, IsReferences, StoredOnce,
      IsPackage, IsContext, IsLicense, IsFix, IsAssessment, IsVulnerability;
    FrozenRows(store, indexes, b, rows);
    StoredRows(store, b, rows, row);
    var stored, v := store.advisorySources[row], b.advisories[row];
    match field {
      case 1 => TextRead(store, stored.id, v.id);
      case 2 => ListRead(store, stored.aliases, v.aliases, index);
      case 3 => TextRead(store, stored.summary, v.summary);
      case 4 => OptionalRead(store, stored.modified, v.modified);
      case 5 => OptionalRead(store, stored.published, v.published);
      case 6 => OptionalRead(store, stored.withdrawn, v.withdrawn);
      case 7 => OptionalRead(store, stored.databaseSeverity, v.databaseSeverity);
      case 8 =>
        SeverityRead(store, stored.severities, v.severities, 0, 0);
        PartsRead(|ItemsOf(v.severities)|, 14, row, index);
      case 9 =>
        ReferenceRead(store, stored.references, v.references, 0, 0);
        PartsRead(|ItemsOf(v.references)|, 15, row, index);
      case 10 => RelationRead(store, indexes, b, rows, AdvisoryAffectedImages, row, 2, index);
      case 11 => RelationRead(store, indexes, b, rows, AdvisoryFindings, row, 7, index);
      case _ =>
    }
  }

  lemma OccurrenceReads(store: ReportStore, indexes: seq<Index>, b: Batch, rows: seq<Vulnerability>, row: nat,
                        field: nat, index: int)
    requires FrozenFrom(store, indexes, b, rows) && row < |b.occurrences|
    ensures OccurrenceValue(store, indexes, row, field, index) == OccurrenceAnswer(b, rows, row, field, index)
  {
    hide Finished, FrozenFrom, IndexValue, MembersAnswer, Members;
    FrozenRows(store, indexes, b, rows);
    if field == 5 {
      RelationRead(store, indexes, b, rows, OccurrenceFindings, row, 7, index);
    }
  }

  lemma FindingReads(store: ReportStore, indexes: seq<Index>, b: Batch, rows: seq<Vulnerability>, row: nat, field: nat)
    requires FrozenFrom(store, indexes, b, rows) && row < |b.findings|
    ensures FindingValue(store, row, field) == FindingAnswer(b, rows, row, field)
  {
    hide Finished, IndexesBuilt, Batches.Complete, TablesFit, FindingNames, RowsLinked;
    FrozenRows(store, indexes, b, rows);
    RowsInRange(b);
    var v := VulnerabilityOf(store, row);
    forall k: nat
      ensures FindingNames(b, rows, row, k) <==> k == v
    {
      FindingNamesIs(store, b, rows, row, k);
    }
    assert FindingNames(b, rows, row, v);
  }

  lemma ContextReads(store: ReportStore, indexes: seq<Index>, b: Batch, rows: seq<Vulnerability>, row: nat, field: nat,
                     index: int)
    requires FrozenFrom(store, indexes, b, rows) && row < |b.contexts|
    ensures ContextValue(store, row, field, index) == ContextAnswer(b.contexts[row], field, index)
  {
    hide Finished, FrozenFrom, TextAt, OptionalText, OptionalAnswer, StringList, ListAnswer, IsString, IsOptional,
      IsStrings, StoredOnce, IsPackage, IsLicense, IsAdvisory, IsFix, IsAssessment, IsVulnerability;
    FrozenRows(store, indexes, b, rows);
    StoredRows(store, b, rows, row);
    var stored, v := store.contexts[row], b.contexts[row];
    match field {
      case 1 => TextRead(store, stored.path, v.path);
      case 2 => TextRead(store, stored.sourceType, v.sourceType);
      case 3 => OptionalRead(store, stored.layer, v.layer);
      case 4 => ListRead(store, stored.dependencyGroups, v.dependencyGroups, index);
      case _ =>
    }
  }

  lemma AssessmentReads(store: ReportStore, indexes: seq<Index>, b: Batch, rows: seq<Vulnerability>, row: nat,
                        field: nat)
    requires FrozenFrom(store, indexes, b, rows) && row < |b.assessments|
    ensures AssessmentValue(store, row, field) == AssessmentAnswer(b.assessments[row], field)
  {
    hide Finished, FrozenFrom, TextAt, IsString, StoredOnce, IsPackage, IsContext, IsLicense, IsAdvisory, IsFix,
      IsVulnerability;
    FrozenRows(store, indexes, b, rows);
    StoredRows(store, b, rows, row);
    TextRead(store, store.assessments[row].maxSeverity, b.assessments[row].maxSeverity);
  }

  lemma LicenseReads(store: ReportStore, indexes: seq<Index>, b: Batch, rows: seq<Vulnerability>, row: nat, field: nat,
                     index: int)
    requires FrozenFrom(store, indexes, b, rows) && row < |b.licenses|
    ensures LicenseValue(store, row, field, index) == LicenseAnswer(b.licenses[row], field, index)
  {
    hide Finished, FrozenFrom, StringList, ListAnswer, IsStrings, StoredOnce, IsPackage, IsContext, IsAdvisory, IsFix,
      IsAssessment, IsVulnerability;
    FrozenRows(store, indexes, b, rows);
    StoredRows(store, b, rows, row);
    var stored, v := store.licenses[row], b.licenses[row];
    match field {
      case 1 => ListRead(store, stored.licenses, v.licenses, index);
      case 2 => ListRead(store, stored.policy, v.policy, index);
      case 3 => ListRead(store, stored.violations, v.violations, index);
      case 4 => StatusRead(stored.status, v.status);
      case _ =>
    }
  }

  lemma FixReads(store: ReportStore, indexes: seq<Index>, b: Batch, rows: seq<Vulnerability>, row: nat, field: nat,
                 index: int)
    requires FrozenFrom(store, indexes, b, rows) && row < |b.fixes|
    ensures FixValue(store, row, field, index) == FixAnswer(b.fixes[row], row, field, index)
  {
    hide Finished, FrozenFrom, StringList, ListAnswer, RecordList, PartsAnswer, IsStrings, IsSeverities, StoredOnce,
      IsPackage, IsContext, IsAdvisory, IsLicense, IsAssessment, IsVulnerability;
    FrozenRows(store, indexes, b, rows);
    StoredRows(store, b, rows, row);
    var stored, v := store.fixes[row], b.fixes[row];
    match field {
      case 1 => ListRead(store, stored.versions, v.versions, index);
      case 2 => StatusRead(stored.status, v.status);
      case 3 =>
        SeverityRead(store, stored.severities, v.severities, 0, 0);
        PartsRead(|ItemsOf(v.severities)|, 16, row, index);
      case 4 => ListRead(store, stored.urgencies, v.urgencies, index);
      case _ =>
    }
  }

  lemma RecordReads(store: ReportStore, indexes: seq<Index>, b: Batch, rows: seq<Vulnerability>, row: nat, sub: nat,
                    field: nat)
    requires FrozenFrom(store, indexes, b, rows)
    ensures row < |b.advisories| ==> row < |store.advisorySources|
    ensures row < |b.advisories| ==>
              RecordText(store, store.advisorySources[row].severities, 3, sub, field)
                == SeverityAnswer(b.advisories[row].severities, sub, field)
    ensures row < |b.advisories| ==>
              RecordText(store, store.advisorySources[row].references, 2, sub, field)
                == ReferenceAnswer(b.advisories[row].references, sub, field)
    ensures row < |b.fixes| ==> row < |store.fixes|
    ensures row < |b.fixes| ==>
              RecordText(store, store.fixes[row].severities, 3, sub, field)
                == SeverityAnswer(b.fixes[row].severities, sub, field)
  {
    hide Finished, FrozenFrom, IsString, IsStrings, IsOptional, IsSeverities, IsReferences, StoredOnce, RecordText,
      SeverityAnswer, ReferenceAnswer, IsPackage, IsContext, IsLicense, IsAssessment, IsVulnerability;
    FrozenRows(store, indexes, b, rows);
    StoredRows(store, b, rows, row);
    if row < |b.advisories| {
      SeverityRead(store, store.advisorySources[row].severities, b.advisories[row].severities, sub, field);
      ReferenceRead(store, store.advisorySources[row].references, b.advisories[row].references, sub, field);
    }
    if row < |b.fixes| {
      SeverityRead(store, store.fixes[row].severities, b.fixes[row].severities, sub, field);
    }
  }

  /** Every read of a finished report answers what scanning the ingested records answers. Reading an
      image needs its diagnostics to be countable. */
  lemma ReadsAgree(store: ReportStore, indexes: seq<Index>, b: Batch, rows: seq<Vulnerability>, kind: nat, row: nat,
                   sub: nat, field: nat, index: int)
    requires FrozenFrom(store, indexes, b, rows)
    requires kind == 2 && row < |b.images| ==> ReadableImage(b.images[row])
    ensures Value(store, indexes, kind, row, sub, field, index) == Answer(b, rows, kind, row, sub, field, index)
  {
    hide FrozenFrom, Finished, BatchValue, BatchAnswer, ImageAnswer, PackageAnswer, VulnerabilityAnswer, AdvisoryAnswer,
      OccurrenceAnswer, FindingAnswer, ContextAnswer, AssessmentAnswer, LicenseAnswer, FixAnswer, RecordText,
      SeverityAnswer, ReferenceAnswer, IndexValue, ReadableImage;
    FrozenRows(store, indexes, b, rows);
    match kind {
      case 1 => BatchReads(store, indexes, b, rows, field, index);
      case 2 => if row < |b.images| { ImageReads(store, indexes, b, rows, row, field, index); }
      case 3 => if row < |b.packages| { PackageReads(store, indexes, b, rows, row, field, index); }
      case 4 => if row < |rows| { VulnerabilityReads(store, indexes, b, rows, row, field, index); }
      case 5 => if row < |b.advisories| { AdvisoryReads(store, indexes, b, rows, row, field, index); }
      case 6 => if row < |b.occurrences| { OccurrenceReads(store, indexes, b, rows, row, field, index); }
      case 7 => if row < |b.findings| { FindingReads(store, indexes, b, rows, row, field); }
      case 8 => if row < |b.contexts| { ContextReads(store, indexes, b, rows, row, field, index); }
      case 9 => if row < |b.assessments| { AssessmentReads(store, indexes, b, rows, row, field); }
      case 10 => if row < |b.licenses| { LicenseReads(store, indexes, b, rows, row, field, index); }
      case 11 => if row < |b.fixes| { FixReads(store, indexes, b, rows, row, field, index); }
      case _ => RecordReads(store, indexes, b, rows, row, sub, field);
    }
  }

  /** The one exception: counting too many diagnostics overflows. All reads agree exactly when no
      image has more diagnostics than a `uint32` counts. */
  lemma ReadsAgreeExactly(store: ReportStore, indexes: seq<Index>, b: Batch, rows: seq<Vulnerability>)
    requires FrozenFrom(store, indexes, b, rows)
    ensures (forall kind: nat, row: nat, sub: nat, field: nat, index: int ::
               Value(store, indexes, kind, row, sub, field, index) == Answer(b, rows, kind, row, sub, field, index))
            <==> forall i :: 0 <= i < |b.images| ==> ReadableImage(b.images[i])
  {
    hide FrozenFrom, Value, Answer;
    if forall i :: 0 <= i < |b.images| ==> ReadableImage(b.images[i]) {
      forall kind: nat, row: nat, sub: nat, field: nat, index: int
        ensures Value(store, indexes, kind, row, sub, field, index) == Answer(b, rows, kind, row, sub, field, index)
      {
        ReadsAgree(store, indexes, b, rows, kind, row, sub, field, index);
      }
    } else {
      var i :| 0 <= i < |b.images| && !ReadableImage(b.images[i]);
      DiagnosticsOverflow(store, indexes, b, rows, i);
    }
  }

  lemma DiagnosticsOverflow(store: ReportStore, indexes: seq<Index>, b: Batch, rows: seq<Vulnerability>, i: nat)
    requires FrozenFrom(store, indexes, b, rows) && i < |b.images| && !ReadableImage(b.images[i])
    ensures Value(store, indexes, 2, i, 0, 5, -1) == Fail(Overflow)
    ensures Answer(b, rows, 2, i, 0, 5, -1) == Success(Count(|b.images[i].diagnostics|))
  {
    hide Finished, FrozenFrom;
    FrozenRows(store, indexes, b, rows);
  }
}
