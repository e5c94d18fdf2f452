/** What a builder holds as a value: the stored strings and lists, the alias names in the order in
    which they were first seen, and the batch. Ingestion is a function on it, so the same facts leave
    the same state, and need the same room, whether they are streamed or held and replayed. */
module Intakes {
  import opened Common
  import opened Order
  import opened Interning
  import opened Report
  import opened Payloads
  import opened Records
  import opened Aliases
  import opened Batches

  datatype Intake = Intake(payload: Payload, names: seq<string>, batch: Batch)

  const EMPTY_INTAKE: Intake := Intake(Payload([], [], []), [], EMPTY_BATCH)

  // ---------------------------------------------------------------- ingestion

  /** What one sink call packs. A union packs nothing. */
  ghost function StoreCall(p: Payload, call: SinkCall): Payload {
    match call
    case Occurrence(pkg, context, license) => AddLicense(AddContext(AddPackage(p, pkg), context), license)
    case Finding(_, advisory, fix, assessment) => AddAssessment(AddFix(AddAdvisory(p, advisory), fix), assessment)
    case Union(_) => p
  }

  ghost function StoreAll(p: Payload, calls: seq<SinkCall>): Payload {
    if calls == [] then p else StoreCall(StoreAll(p, calls[..|calls| - 1]), calls[|calls| - 1])
  }

  /** The alias names that one sink call interns. Only a union interns any. */
  function NameCall(names: seq<string>, call: SinkCall): seq<string> {
    if call.Union? then InternAll(names, call.ids) else names
  }

  function NameAll(names: seq<string>, calls: seq<SinkCall>): seq<string> {
    if calls == [] then names else NameCall(NameAll(names, calls[..|calls| - 1]), calls[|calls| - 1])
  }

  ghost function Take(s: Intake, call: SinkCall): Intake {
    Intake(StoreCall(s.payload, call), NameCall(s.names, call), Apply(s.batch, call))
  }

  ghost function TakeAll(s: Intake, calls: seq<SinkCall>): Intake {
    Intake(StoreAll(s.payload, calls), NameAll(s.names, calls), ApplyAll(s.batch, calls))
  }

  /** Taking in one image: its calls, then its record. */
  ghost function Stream(s: Intake, facts: Facts): Intake {
    Intake(StoreAll(s.payload, facts.calls), NameAll(s.names, facts.calls), Add(s.batch, facts))
  }

  ghost function StreamAll(facts: seq<Facts>): Intake {
    if facts == [] then EMPTY_INTAKE else Stream(StreamAll(facts[..|facts| - 1]), facts[|facts| - 1])
  }

  /** Taking in an image that was held: its replay, then its record. */
  ghost function Absorb(s: Intake, p: Pending): Intake {
    Stream(s, Facts(Replay(p), p.image))
  }

  lemma {:induction false} StreamAllBatch(facts: seq<Facts>)
    ensures StreamAll(facts).batch == SequentialFold(facts)
  {
    if facts != [] {
      StreamAllBatch(facts[..|facts| - 1]);
    }
  }

  lemma TakeNext(s: Intake, calls: seq<SinkCall>, i: nat)
    requires i < |calls|
    ensures TakeAll(s, calls[..i + 1]) == Take(TakeAll(s, calls[..i]), calls[i])
  {
    hide StoreCall, NameCall, Apply;
    assert calls[..i + 1][..i] == calls[..i];
  }

  // ---------------------------------------------------------------- held and streamed images leave the same state

  lemma {:induction false} StoreSplits(p: Payload, calls: seq<SinkCall>)
    ensures StoreAll(p, calls) == StoreAll(p, Others(calls))
  {
    if calls != [] {
      var init, last := calls[..|calls| - 1], calls[|calls| - 1];
      StoreSplits(p, init);
      if last.Union? {
        assert Others(calls) == Others(init);
      } else {
        assert Others(calls)[..|Others(calls)| - 1] == Others(init);
      }
    }
  }

  lemma {:induction false} NameSplits(names: seq<string>, calls: seq<SinkCall>)
    ensures NameAll(names, calls) == NameAll(names, UnionCalls(Unions(calls)))
  {
    if calls != [] {
      var init, last := calls[..|calls| - 1], calls[|calls| - 1];
      NameSplits(names, init);
      if last.Union? {
        var unions := UnionCalls(Unions(calls));
        assert unions == UnionCalls(Unions(init)) + [last];
        assert unions[..|unions| - 1] == UnionCalls(Unions(init));
      } else {
        assert Unions(calls) == Unions(init);
      }
    }
  }

  /** Holding an image and absorbing it later leaves exactly the state of streaming it: the same
      strings and lists in the same places, the same alias names in the same order, the same batch. */
  lemma AbsorbIsStream(s: Intake, facts: Facts)
    requires WellOrdered(facts.calls)
    ensures Absorb(s, BufferAll(facts.image, facts.calls)) == Stream(s, facts)
  {
    hide StoreAll, NameAll, Add, Unions, Others, AllOccurrenceCalls, UnionCalls, BufferAll, WellOrdered;
    var p := BufferAll(facts.image, facts.calls);
    MergeIsAdd(s.batch, facts);
    BufferHolds(facts.image, facts.calls);
    OccurrenceCallsHaveNoUnion(p.occurrences);
    UnionsOnly(p.aliases);
    UnionsBefore(UnionCalls(p.aliases), AllOccurrenceCalls(p.occurrences));
    assert [] + AllOccurrenceCalls(p.occurrences) == AllOccurrenceCalls(p.occurrences);
    StoreSplits(s.payload, facts.calls);
    StoreSplits(s.payload, Replay(p));
    NameSplits(s.names, facts.calls);
    NameSplits(s.names, Replay(p));
  }

  // ---------------------------------------------------------------- room

  ghost predicate BatchFits(b: Batch) {
    && |b.images| <= MAX_U32 && |b.packages| <= MAX_U32 && |b.contexts| <= MAX_U32 && |b.licenses| <= MAX_U32
    && |b.advisories| <= MAX_U32 && |b.fixes| <= MAX_U32 && |b.assessments| <= MAX_U32
    && |b.occurrences| <= MAX_U32 && |b.findings| <= MAX_U32
  }

  /** Every counter is within its limit. */
  ghost predicate Fits(s: Intake) {
    PayloadFits(s.payload) && |s.names| <= MAX_U32 && BatchFits(s.batch)
  }

  /** `t` is a later state than `s`: everything is only appended to. */
  ghost predicate Later(s: Intake, t: Intake) {
    && Extends(s.payload, t.payload) && s.names <= t.names
    && s.batch.images <= t.batch.images && s.batch.packages <= t.batch.packages
    && s.batch.contexts <= t.batch.contexts && s.batch.licenses <= t.batch.licenses
    && s.batch.advisories <= t.batch.advisories && s.batch.fixes <= t.batch.fixes
    && s.batch.assessments <= t.batch.assessments
    && s.batch.occurrences <= t.batch.occurrences && s.batch.findings <= t.batch.findings
  }

  lemma LaterFits(s: Intake, t: Intake)
    requires Later(s, t) && Fits(t)
    ensures Fits(s)
  {
  }

  lemma LaterTransitive(s: Intake, t: Intake, u: Intake)
    requires Later(s, t) && Later(t, u)
    ensures Later(s, u)
  {
  }

  lemma StoreCallGrows(p: Payload, call: SinkCall)
    ensures Extends(p, StoreCall(p, call))
  {
    GrowthLaws();
    PackingRecordsGrows();
    hide Extends, AddPackage, AddContext, AddLicense, AddAdvisory, AddFix, AddAssessment;
    if call.Union? {
      assert Extends(p, p) by {
        SameExtends(p);
      }
    }
  }

  lemma SameExtends(p: Payload)
    ensures Extends(p, p)
  {
  }

  lemma NameCallGrows(names: seq<string>, call: SinkCall)
    ensures names <= NameCall(names, call)
  {
    if call.Union? {
      InternAllHas(names, call.ids);
    }
  }

  lemma TakeGrows(s: Intake, call: SinkCall)
    ensures Later(s, Take(s, call))
  {
    hide StoreCall, NameCall, Extends;
    StoreCallGrows(s.payload, call);
    NameCallGrows(s.names, call);
  }

  lemma {:induction false} TakeAllGrows(s: Intake, calls: seq<SinkCall>, i: nat)
    requires i <= |calls|
    ensures Later(TakeAll(s, calls[..i]), TakeAll(s, calls))
    decreases |calls| - i
  {
    hide TakeAll, Take, Later;
    if i == |calls| {
      assert calls[..i] == calls;
      LaterSelf(TakeAll(s, calls));
    } else {
      TakeNext(s, calls, i);
      TakeGrows(TakeAll(s, calls[..i]), calls[i]);
      TakeAllGrows(s, calls, i + 1);
      LaterTransitive(TakeAll(s, calls[..i]), TakeAll(s, calls[..i + 1]), TakeAll(s, calls));
    }
  }

  lemma LaterSelf(s: Intake)
    ensures Later(s, s)
  {
  }

  /** Where one call does not fit, the image does not fit. */
  lemma PrefixFits(s: Intake, calls: seq<SinkCall>, i: nat)
    requires i <= |calls| && Fits(TakeAll(s, calls))
    ensures Fits(TakeAll(s, calls[..i]))
  {
    hide TakeAll, Later, Fits;
    TakeAllGrows(s, calls, i);
    LaterFits(TakeAll(s, calls[..i]), TakeAll(s, calls));
  }

  lemma TakeNone(s: Intake, calls: seq<SinkCall>)
    ensures TakeAll(s, calls[..0]) == s
  {
  }

  lemma StreamGrows(s: Intake, facts: Facts)
    ensures Later(s, Stream(s, facts)) && Later(TakeAll(s, facts.calls), Stream(s, facts))
  {
    TakeAllGrows(s, facts.calls, 0);
    TakeNone(s, facts.calls);
    hide StoreAll, NameAll, ApplyAll, Extends;
    var after := TakeAll(s, facts.calls);
    assert after.batch.images <= Add(s.batch, facts).images;
    SameExtends(after.payload);
    LaterTransitive(s, after, Stream(s, facts));
  }

  /** Where one image does not fit, the inputs do not fit. */
  lemma {:induction false} StreamAllFits(facts: seq<Facts>, n: nat)
    requires n <= |facts| && Fits(StreamAll(facts))
    ensures Fits(StreamAll(facts[..n]))
    decreases |facts|
  {
    hide Fits, Stream;
    if n == |facts| {
      assert facts[..n] == facts;
    } else {
      var init := facts[..|facts| - 1];
      StreamGrows(StreamAll(init), facts[|facts| - 1]);
      LaterFits(StreamAll(init), StreamAll(facts));
      StreamAllFits(init, n);
      assert init[..n] == facts[..n];
    }
  }

  // ---------------------------------------------------------------- every record has a row

  ghost predicate Rows<T(!new), V>(enc: (Payload, T, V) -> bool, p: Payload, values: seq<V>) {
    forall v :: v in values ==> exists t :: enc(p, t, v)
  }

  /** Every record of the batch has a packed form, and the names are those of the alias groups. */
  ghost predicate AllPacked(s: Intake) {
    && StoredOnce(s.payload)
    && Rows(PackageEncoding(), s.payload, s.batch.packages)
    && Rows(ContextEncoding(), s.payload, s.batch.contexts)
    && Rows(LicenseEncoding(), s.payload, s.batch.licenses)
    && Rows(AdvisoryEncoding(), s.payload, s.batch.advisories)
    && Rows(FixEncoding(), s.payload, s.batch.fixes)
    && Rows(AssessmentEncoding(), s.payload, s.batch.assessments)
    && NoDuplicates(s.names) && Elements(s.names) == Names(s.batch.groups)
  }

  lemma RowsLater<T(!new), V(!new)>(enc: (Payload, T, V) -> bool, p: Payload, q: Payload, values: seq<V>)
    requires Encoding(enc) && Rows(enc, p, values) && Extends(p, q)
    ensures Rows(enc, q, values)
  {
    hide Extends, StoredOnce;
  }

  lemma RowsInterned<T(!new), V(!new)>(enc: (Payload, T, V) -> bool, p: Payload, q: Payload, values: seq<V>, t: T, v: V)
    requires Encoding(enc) && Rows(enc, p, values) && Extends(p, q) && enc(q, t, v)
    ensures Rows(enc, q, Intern(values, v))
  {
    hide Extends, StoredOnce;
    RowsLater(enc, p, q, values);
  }

  lemma EmptyPacked()
    ensures AllPacked(EMPTY_INTAKE) && Fits(EMPTY_INTAKE)
  {
    assert Names([]) == {};
    assert Elements<string>([]) == {};
  }

  lemma OccurrencePacked(s: Intake, call: SinkCall)
    requires AllPacked(s) && call.Occurrence? && KnownStatus(call) && PayloadFits(StoreCall(s.payload, call))
    ensures AllPacked(Take(s, call))
  {
    GrowthLaws();
    PackingGrows();
    PackingRecordsGrows();
    hide StoredOnce, Extends, PayloadFits, Rows, Encoding, IsPackage, IsContext, IsLicense, AddPackage, AddContext,
      AddLicense, Names, IsString, IsOptional, IsStrings, IsSeverities, IsReferences, AddString, AddOptional, AddList,
      AddAdvisory, AddVulnerability, AddAssessment, AddFix;
    var p1 := AddPackage(s.payload, call.pkg);
    var p2 := AddContext(p1, call.context);
    var p3 := AddLicense(p2, call.license);
    var t1 := PackageNamed(s.payload, call.pkg);
    var t2 := ContextNamed(p1, call.context);
    var t3 := LicenseNamed(p2, call.license);
    OccurrenceRows(s, call, p1, p2, p3, t1, t2, t3);
  }

  lemma OccurrenceRows(s: Intake, call: SinkCall, p1: Payload, p2: Payload, p3: Payload, t1: StoredPackage,
                       t2: StoredContext, t3: StoredLicense)
    requires AllPacked(s) && call.Occurrence? && StoredOnce(p3)
    requires Extends(s.payload, p3) && Extends(p1, p3) && Extends(p2, p3) && p3 == StoreCall(s.payload, call)
    requires IsPackage(p1, t1, call.pkg) && IsContext(p2, t2, call.context) && IsLicense(p3, t3, call.license)
    ensures AllPacked(Take(s, call))
  {
    PackageRowsAgree();
    ContextRowsAgree();
    LicenseRowsAgree();
    AdvisoryRowsAgree();
    FixRowsAgree();
    AssessmentRowsAgree();
    EncodedLaterRow(PackageEncoding(), p1, p3, t1, call.pkg);
    EncodedLaterRow(ContextEncoding(), p2, p3, t2, call.context);
    hide StoredOnce, Extends, Rows, Encoding, IsPackage, IsContext, IsLicense, Names, Intern, StoreCall, RowOf;
    RowsInterned(PackageEncoding(), s.payload, p3, s.batch.packages, t1, call.pkg);
    RowsInterned(ContextEncoding(), s.payload, p3, s.batch.contexts, t2, call.context);
    RowsInterned(LicenseEncoding(), s.payload, p3, s.batch.licenses, t3, call.license);
    RowsLater(AdvisoryEncoding(), s.payload, p3, s.batch.advisories);
    RowsLater(FixEncoding(), s.payload, p3, s.batch.fixes);
    RowsLater(AssessmentEncoding(), s.payload, p3, s.batch.assessments);
  }

  lemma EncodedLaterRow<T(!new), V(!new)>(enc: (Payload, T, V) -> bool, p: Payload, q: Payload, t: T, v: V)
    requires Encoding(enc) && Extends(p, q) && enc(p, t, v)
    ensures enc(q, t, v)
  {
    hide Extends, StoredOnce;
  }

  lemma FindingPacked(s: Intake, call: SinkCall)
    requires AllPacked(s) && call.Finding? && KnownStatus(call) && PayloadFits(StoreCall(s.payload, call))
    ensures AllPacked(Take(s, call))
  {
    GrowthLaws();
    PackingGrows();
    PackingRecordsGrows();
    hide StoredOnce, Extends, PayloadFits, Rows, Encoding, IsAdvisory, IsFix, IsAssessment, AddAdvisory, AddFix,
      AddAssessment, Names, IsString, IsOptional, IsStrings, IsSeverities, IsReferences, AddString, AddOptional,
      AddList, AddPackage, AddVulnerability, AddContext, AddLicense;
    var p1 := AddAdvisory(s.payload, call.advisory);
    var p2 := AddFix(p1, call.fix);
    var p3 := AddAssessment(p2, call.assessment);
    var t1 := AdvisoryNamed(s.payload, call.advisory);
    var t2 := FixNamed(p1, call.fix);
    var t3 := AssessmentNamed(p2, call.assessment);
    FindingRows(s, call, p1, p2, p3, t1, t2, t3);
  }

  lemma FindingRows(s: Intake, call: SinkCall, p1: Payload, p2: Payload, p3: Payload, t1: StoredAdvisory, t2: StoredFix,
                    t3: StoredAssessment)
    requires AllPacked(s) && call.Finding? && StoredOnce(p3)
    requires Extends(s.payload, p3) && Extends(p1, p3) && Extends(p2, p3) && p3 == StoreCall(s.payload, call)
    requires IsAdvisory(p1, t1, call.advisory) && IsFix(p2, t2, call.fix) && IsAssessment(p3, t3, call.assessment)
    ensures AllPacked(Take(s, call))
  {
    PackageRowsAgree();
    ContextRowsAgree();
    LicenseRowsAgree();
    AdvisoryRowsAgree();
    FixRowsAgree();
    AssessmentRowsAgree();
    EncodedLaterRow(AdvisoryEncoding(), p1, p3, t1, call.advisory);
    EncodedLaterRow(FixEncoding(), p2, p3, t2, call.fix);
    hide StoredOnce, Extends, Rows, Encoding, IsAdvisory, IsFix, IsAssessment, Names, Intern, StoreCall, RowOf;
    RowsInterned(AdvisoryEncoding(), s.payload, p3, s.batch.advisories, t1, call.advisory);
    RowsInterned(FixEncoding(), s.payload, p3, s.batch.fixes, t2, call.fix);
    RowsInterned(AssessmentEncoding(), s.payload, p3, s.batch.assessments, t3, call.assessment);
    RowsLater(AdvisoryEncoding(), s.payload, p3, s.batch.advisories);
    RowsLater(FixEncoding(), s.payload, p3, s.batch.fixes);
    RowsLater(AssessmentEncoding(), s.payload, p3, s.batch.assessments);
    RowsLater(PackageEncoding(), s.payload, p3, s.batch.packages);
    RowsLater(ContextEncoding(), s.payload, p3, s.batch.contexts);
    RowsLater(LicenseEncoding(), s.payload, p3, s.batch.licenses);
  }

  lemma UnionPacked(s: Intake, call: SinkCall)
    requires AllPacked(s) && call.Union?
    ensures AllPacked(Take(s, call))
  {
    hide StoredOnce, Rows, Names;
    InternAllHas(s.names, call.ids);
    NamesGrow(s.batch.groups, call.ids);
  }

  /** A call that fits keeps every record packed. */
  lemma TakePacked(s: Intake, call: SinkCall)
    requires AllPacked(s) && KnownStatus(call) && Fits(Take(s, call))
    ensures AllPacked(Take(s, call))
  {
    hide AllPacked, KnownStatus, StoreCall, Apply;
    match call {
      case Occurrence(_, _, _) => OccurrencePacked(s, call);
      case Finding(_, _, _, _) => FindingPacked(s, call);
      case Union(_) => UnionPacked(s, call);
    }
  }

  lemma {:induction false} TakeAllPacked(s: Intake, calls: seq<SinkCall>)
    requires AllPacked(s) && Fits(TakeAll(s, calls)) && forall i :: 0 <= i < |calls| ==> KnownStatus(calls[i])
    ensures AllPacked(TakeAll(s, calls))
    decreases |calls|
  {
    hide AllPacked, KnownStatus, TakeAll, Fits;
    TakeNone(s, calls);
    var n := |calls|;
    assert calls[..n] == calls;
    if n > 0 {
      PrefixFits(s, calls, n - 1);
      TakeAllPacked(s, calls[..n - 1]);
      TakeNext(s, calls, n - 1);
      TakePacked(TakeAll(s, calls[..n - 1]), calls[n - 1]);
    }
  }

  lemma ImagePacked(s: Intake, facts: Facts)
    requires AllPacked(TakeAll(s, facts.calls))
    ensures AllPacked(Stream(s, facts))
  {
    hide StoredOnce, Rows, Names;
  }

  /** In every history that fits, every record is packed. */
  lemma {:induction false} StreamAllPacked(facts: seq<Facts>)
    requires Fits(StreamAll(facts)) && forall i :: 0 <= i < |facts| ==> Projected(facts[i])
    ensures AllPacked(StreamAll(facts))
  {
    hide AllPacked, Fits, KnownStatus, WellOrdered, Named, OnePointer, TakeAll, Stream, Later;
    if facts == [] {
      EmptyPacked();
    } else {
      var n := |facts| - 1;
      StreamAllFits(facts, n);
      StreamAllPacked(facts[..n]);
      var s := StreamAll(facts[..n]);
      StreamGrows(s, facts[n]);
      LaterFits(TakeAll(s, facts[n].calls), Stream(s, facts[n]));
      TakeAllPacked(s, facts[n].calls);
      ImagePacked(s, facts[n]);
    }
  }
}
