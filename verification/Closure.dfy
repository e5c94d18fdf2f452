/** Following references: from the root of a finished report, every valid field at every index in
    range reads successfully, however long the chain of reads that led there. */
module Closure {
  import opened Common
  import opened Order
  import opened Report
  import opened Aliases
  import opened Batches
  import opened Builder
  import opened Indexes
  import opened Relations
  import opened Planning
  import opened Finishing
  import opened Query
  import opened Answers
  import AliasTables

  /** The fields that each kind of object has. */
  predicate HasField(kind: nat, field: nat) {
    match kind
    case 1 => 1 <= field <= 5
    case 2 => 1 <= field <= 11 && field != 4
    case 3 => 1 <= field <= 11
    case 4 => 1 <= field <= 4
    case 5 => 1 <= field <= 11
    case 6 => 1 <= field <= 5
    case 7 => 1 <= field <= 5
    case 8 => 1 <= field <= 4
    case 9 => 1 <= field <= 3
    case 10 => 1 <= field <= 4
    case 11 => 1 <= field <= 4
    case 13 => 1 <= field <= 2
    case 14 => 1 <= field <= 3
    case 15 => 1 <= field <= 2
    case 16 => 1 <= field <= 3
    case _ => false
  }

  /** A reference to an object of the batch. */
  predicate ValidRef(b: Batch, rows: seq<Vulnerability>, kind: nat, row: nat, sub: nat) {
    match kind
    case 1 => row == 0 && sub == 0
    case 2 => row < |b.images| && sub == 0
    case 3 => row < |b.packages| && sub == 0
    case 4 => row < |rows| && sub == 0
    case 5 => row < |b.advisories| && sub == 0
    case 6 => row < |b.occurrences| && sub == 0
    case 7 => row < |b.findings| && sub == 0
    case 8 => row < |b.contexts| && sub == 0
    case 9 => row < |b.assessments| && sub == 0
    case 10 => row < |b.licenses| && sub == 0
    case 11 => row < |b.fixes| && sub == 0
    case 13 => row < |b.images| && sub < |b.images[row].diagnostics|
    case 14 => row < |b.advisories| && sub < |ItemsOf(b.advisories[row].severities)|
    case 15 => row < |b.advisories| && sub < |ItemsOf(b.advisories[row].references)|
    case 16 => row < |b.fixes| && sub < |ItemsOf(b.fixes[row].severities)|
    case _ => false
  }

  /** Not past the end of a collection: below the length that the read itself reports. */
  ghost predicate InRange(b: Batch, rows: seq<Vulnerability>, kind: nat, row: nat, sub: nat, field: nat, index: int) {
    var length := Answer(b, rows, kind, row, sub, field, -1);
    length.Success? && length.value.Count? ==> index < length.value.n
  }

  lemma AnswerSucceeds(b: Batch, rows: seq<Vulnerability>, kind: nat, row: nat, sub: nat, field: nat, index: int)
    requires ValidRef(b, rows, kind, row, sub)
    requires kind == 7 ==> exists v :: FindingNames(b, rows, row, v)
    ensures Answer(b, rows, kind, row, sub, field, index).Success? <==>
              HasField(kind, field) && InRange(b, rows, kind, row, sub, field, index)
  {
    hide Members, Increasing, FindingNames;
  }

  lemma MembersInRange(store: ReportStore, b: Batch, rows: seq<Vulnerability>, rel: Relation, k: nat)
    requires Finished(store, b, rows) && Batches.Complete(b)
    ensures forall i :: 0 <= i < |Increasing(Members(b, rows, rel, k))| ==>
              Increasing(Members(b, rows, rel, k))[i] < ValueCount(store, rel)
  {
    hide Finished, Batches.Complete, RowsLinked, Members, Related, Edges, ValueCount, SameColumns;
    FinishedIsLinked(store, b, rows);
    ColumnsSame(store, b, rows);
    MembersAre(store, b, rows, rel, k);
    VisitorIsNaive(store, rel, k);
    EdgesInRange(store, rel);
    IncreasingElements(Members(b, rows, rel, k));
  }

  ghost function RelationsOf(kind: nat, field: nat): Option<(Relation, nat)> {
    match (kind, field)
    case (2, 6) => Some((ImageOccurrences, 6))
    case (2, 7) => Some((ImageFindings, 7))
    case (2, 8) => Some((ImagePackages, 3))
    case (2, 9) => Some((ImageVulnerablePackages, 3))
    case (2, 10) => Some((ImageNoncompliantPackages, 3))
    case (2, 11) => Some((ImageVulnerabilities, 4))
    case (3, 7) => Some((PackagePresentImages, 2))
    case (3, 8) => Some((PackageVulnerableImages, 2))
    case (3, 9) => Some((PackageNoncompliantImages, 2))
    case (3, 10) => Some((PackageAffectedImages, 2))
    case (3, 11) => Some((PackageFindings, 7))
    case (4, 3) => Some((VulnerabilityAffectedImages, 2))
    case (4, 4) => Some((VulnerabilityFindings, 7))
    case (5, 10) => Some((AdvisoryAffectedImages, 2))
    case (5, 11) => Some((AdvisoryFindings, 7))
    case (6, 5) => Some((OccurrenceFindings, 7))
    case _ => None
  }

  /** Each relation field reads its own relation. */
  lemma RelationAnswer(b: Batch, rows: seq<Vulnerability>, kind: nat, row: nat, sub: nat, field: nat, index: int)
    requires ValidRef(b, rows, kind, row, sub) && RelationsOf(kind, field).Some?
    ensures var (rel, target) := RelationsOf(kind, field).value;
            Answer(b, rows, kind, row, sub, field, index) == MembersAnswer(Members(b, rows, rel, row), target, index)
  {
    hide Members, Increasing;
  }

  lemma TargetIsValid(store: ReportStore, b: Batch, rows: seq<Vulnerability>, kind: nat, field: nat, x: nat)
    requires Finished(store, b, rows) && RelationsOf(kind, field).Some?
    requires x < ValueCount(store, RelationsOf(kind, field).value.0)
    ensures ValidRef(b, rows, RelationsOf(kind, field).value.1, x, 0)
  {
    hide Finished;
    FinishedSizes(store, b, rows);
  }

  /** What is read is again a valid reference. */
  lemma AnswerIsValid(store: ReportStore, b: Batch, rows: seq<Vulnerability>, kind: nat, row: nat, sub: nat, field: nat,
                      index: int)
    requires Finished(store, b, rows) && Batches.Complete(b) && ValidRef(b, rows, kind, row, sub)
    ensures var r := Answer(b, rows, kind, row, sub, field, index);
            r.Success? && r.value.Ref? ==> ValidRef(b, rows, r.value.kind, r.value.row, r.value.sub)
  {
    var rel := RelationsOf(kind, field);
    if rel.Some? {
      hide Finished, Batches.Complete, Members, Increasing, Answer, ValueCount, ValidRef, RelationsOf;
      RelationAnswer(b, rows, kind, row, sub, field, index);
      MembersInRange(store, b, rows, rel.value.0, row);
      var members := Increasing(Members(b, rows, rel.value.0, row));
      if 0 <= index < |members| {
        TargetIsValid(store, b, rows, kind, field, members[index]);
      }
    } else {
      OtherAnswerIsValid(b, rows, kind, row, sub, field, index);
    }
  }

  lemma OtherAnswerIsValid(b: Batch, rows: seq<Vulnerability>, kind: nat, row: nat, sub: nat, field: nat, index: int)
    requires Batches.Complete(b) && ValidRef(b, rows, kind, row, sub) && RelationsOf(kind, field).None?
    ensures var r := Answer(b, rows, kind, row, sub, field, index);
            r.Success? && r.value.Ref? ==> ValidRef(b, rows, r.value.kind, r.value.row, r.value.sub)
  {
    hide Batches.Complete, MembersAnswer, FindingNames;
    RowsInRange(b);
    if kind == 7 && field == 5 && exists v :: FindingNames(b, rows, row, v) {
      FindingNamesInRange(b, rows, row);
    }
  }

  lemma FindingNamesInRange(b: Batch, rows: seq<Vulnerability>, f: nat)
    requires f < |b.findings|
    ensures forall v: nat :: FindingNames(b, rows, f, v) ==> v < |rows|
  {
  }

  /** A reference that a chain of reads from the root arrives at. */
  ghost predicate Reachable(store: ReportStore, indexes: seq<Index>, steps: seq<(nat, int)>, kind: nat, row: nat,
                            sub: nat) {
    if steps == [] then kind == 1 && row == 0 && sub == 0
    else
      var (field, index) := steps[|steps| - 1];
      exists k: nat, r: nat, s: nat ::
        && Reachable(store, indexes, steps[..|steps| - 1], k, r, s)
        && Value(store, indexes, k, r, s, field, index) == Success(Ref(kind, row, sub))
  }

  lemma ReadIsAnswer(store: ReportStore, indexes: seq<Index>, b: Batch, rows: seq<Vulnerability>, kind: nat, row: nat,
                     sub: nat, field: nat, index: int)
    requires FrozenFrom(store, indexes, b, rows) && AllReadable(b)
    ensures Value(store, indexes, kind, row, sub, field, index) == Answer(b, rows, kind, row, sub, field, index)
  {
    hide FrozenFrom, Value, Answer;
    ReadsAgree(store, indexes, b, rows, kind, row, sub, field, index);
  }

  ghost predicate AllReadable(b: Batch) {
    forall i :: 0 <= i < |b.images| ==> ReadableImage(b.images[i])
  }

  lemma {:induction false} ReachableIsValid(store: ReportStore, indexes: seq<Index>, b: Batch, rows: seq<Vulnerability>,
                                            steps: seq<(nat, int)>, kind: nat, row: nat, sub: nat)
    requires FrozenFrom(store, indexes, b, rows) && AllReadable(b)
    requires Reachable(store, indexes, steps, kind, row, sub)
    ensures ValidRef(b, rows, kind, row, sub)
    decreases |steps|
  {
    hide Value, Answer, Finished, Batches.Complete, IndexesBuilt, TablesFit, AllReadable;
    if steps != [] {
      var (field, index) := steps[|steps| - 1];
      var k: nat, r: nat, s: nat :|
        && Reachable(store, indexes, steps[..|steps| - 1], k, r, s)
        && Value(store, indexes, k, r, s, field, index) == Success(Ref(kind, row, sub));
      ReachableIsValid(store, indexes, b, rows, steps[..|steps| - 1], k, r, s);
      ReadIsAnswer(store, indexes, b, rows, k, r, s, field, index);
      AnswerIsValid(store, b, rows, k, r, s, field, index);
    }
  }

  /** Wherever a chain of reads arrives, a read succeeds exactly when the object has the field and
      the index is below the length that the report gives for it. */
  lemma ReachableReads(store: ReportStore, indexes: seq<Index>, b: Batch, rows: seq<Vulnerability>,
                       steps: seq<(nat, int)>, kind: nat, row: nat, sub: nat, field: nat, index: int)
    requires FrozenFrom(store, indexes, b, rows) && AllReadable(b)
    requires Reachable(store, indexes, steps, kind, row, sub)
    ensures var length := Value(store, indexes, kind, row, sub, field, -1);
            Value(store, indexes, kind, row, sub, field, index).Success? <==>
            HasField(kind, field) && (length.Success? && length.value.Count? ==> index < length.value.n)
  {
    hide Reachable, Value, Answer, Finished, Batches.Complete, IndexesBuilt, TablesFit, AllReadable, HasField;
    ReachableIsValid(store, indexes, b, rows, steps, kind, row, sub);
    ReadIsAnswer(store, indexes, b, rows, kind, row, sub, field, index);
    ReadIsAnswer(store, indexes, b, rows, kind, row, sub, field, -1);
    if kind == 7 {
      FinishedSizes(store, b, rows);
      FindingNamesIs(store, b, rows, row, VulnerabilityOf(store, row));
    }
    AnswerSucceeds(b, rows, kind, row, sub, field, index);
  }

  // ---------------------------------------------------------------- relations as they are read

  /** Reading the collection `field` of an object gives, at some index, the object `k`. */
  ghost predicate Lists(store: ReportStore, indexes: seq<Index>, kind: nat, row: nat, field: nat, target: nat, k: nat) {
    exists index: nat :: Value(store, indexes, kind, row, 0, field, index) == Success(Ref(target, k, 0))
  }

  /** A relation field lists exactly the members of its relation. */
  lemma ListsMembers(store: ReportStore, indexes: seq<Index>, b: Batch, rows: seq<Vulnerability>, kind: nat, row: nat,
                     field: nat, k: nat)
    requires FrozenFrom(store, indexes, b, rows) && AllReadable(b) && ValidRef(b, rows, kind, row, 0)
             && RelationsOf(kind, field).Some?
    ensures var (rel, target) := RelationsOf(kind, field).value;
            Lists(store, indexes, kind, row, field, target, k) <==> k in Members(b, rows, rel, row)
  {
    hide FrozenFrom, AllReadable, Value, Answer, Members, Increasing, RelationsOf, ValidRef;
    var (rel, target) := RelationsOf(kind, field).value;
    var members := Members(b, rows, rel, row);
    IncreasingElements(members);
    forall index: nat
      ensures Value(store, indexes, kind, row, 0, field, index) == SeqAnswer(Increasing(members), target, index)
    {
      ReadIsAnswer(store, indexes, b, rows, kind, row, 0, field, index);
      RelationAnswer(b, rows, kind, row, 0, field, index);
    }
    if k in members {
      assert k in Elements(Increasing(members));
      var i :| 0 <= i < |Increasing(members)| && Increasing(members)[i] == k;
      assert Value(store, indexes, kind, row, 0, field, i) == Success(Ref(target, k, 0));
    }
  }

  /** Forward and reverse navigation agree: an image lists a package exactly when the package lists the
      image, for presence, vulnerability and noncompliance, and so for vulnerabilities. */
  lemma NavigationIsDual(store: ReportStore, indexes: seq<Index>, b: Batch, rows: seq<Vulnerability>, i: nat, p: nat,
                         v: nat)
    requires FrozenFrom(store, indexes, b, rows) && AllReadable(b)
    requires i < |b.images| && p < |b.packages| && v < |rows|
    ensures Lists(store, indexes, 2, i, 8, 3, p) <==> Lists(store, indexes, 3, p, 7, 2, i)
    ensures Lists(store, indexes, 2, i, 9, 3, p) <==> Lists(store, indexes, 3, p, 8, 2, i)
    ensures Lists(store, indexes, 2, i, 10, 3, p) <==> Lists(store, indexes, 3, p, 9, 2, i)
    ensures Lists(store, indexes, 2, i, 11, 4, v) <==> Lists(store, indexes, 4, v, 3, 2, i)
  {
    hide FrozenFrom, AllReadable, Lists, Value, NoncompliantIn, FindingImage, FindingPackage, FindingNames;
    ListsMembers(store, indexes, b, rows, 2, i, 8, p);
    ListsMembers(store, indexes, b, rows, 3, p, 7, i);
    ListsMembers(store, indexes, b, rows, 2, i, 9, p);
    ListsMembers(store, indexes, b, rows, 3, p, 8, i);
    ListsMembers(store, indexes, b, rows, 2, i, 10, p);
    ListsMembers(store, indexes, b, rows, 3, p, 9, i);
    ListsMembers(store, indexes, b, rows, 2, i, 11, v);
    ListsMembers(store, indexes, b, rows, 4, v, 3, i);
  }

  /** A package lists as affected exactly the images that it lists as vulnerable or noncompliant. */
  lemma AffectedNavigation(store: ReportStore, indexes: seq<Index>, b: Batch, rows: seq<Vulnerability>, p: nat, i: nat)
    requires FrozenFrom(store, indexes, b, rows) && AllReadable(b) && p < |b.packages|
    ensures Lists(store, indexes, 3, p, 10, 2, i) <==>
              Lists(store, indexes, 3, p, 8, 2, i) || Lists(store, indexes, 3, p, 9, 2, i)
  {
    hide FrozenFrom, AllReadable, Lists, Value;
    ListsMembers(store, indexes, b, rows, 3, p, 8, i);
    ListsMembers(store, indexes, b, rows, 3, p, 9, i);
    ListsMembers(store, indexes, b, rows, 3, p, 10, i);
  }
}
