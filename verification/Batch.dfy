/** The batch as a value: what ingestion builds, with every record in decoded form. The builder in
    `Builder` is proved to maintain exactly this value. */
module Batches {
  import opened Common
  import opened Interning
  import opened Report
  import opened Aliases

  datatype Batch = Batch(
    images: seq<Image>,
    packages: seq<Package>,
    contexts: seq<PackageContext>,
    licenses: seq<License>,
    advisories: seq<Advisory>,
    fixes: seq<Fix>,
    assessments: seq<Assessment>,
    occurrences: seq<OccurrenceRow>,
    findings: seq<FindingRow>,
    groups: seq<seq<string>>)

  const EMPTY_BATCH: Batch := Batch([], [], [], [], [], [], [], [], [], [])

  /** One call that a projection makes on its sink. `pointer` is the identity of the projected
      advisory, which the sink may memoize. */
  datatype SinkCall =
    | Occurrence(pkg: Package, context: PackageContext, license: License)
    | Finding(pointer: nat, advisory: Advisory, fix: Fix, assessment: Assessment)
    | Union(ids: seq<string>)

  /** Everything one scan contributes: its sink calls in order, and its image record. */
  datatype Facts = Facts(calls: seq<SinkCall>, image: Image)

  // ---------------------------------------------------------------- direct ingestion

  function AddOccurrence(b: Batch, pkg: Package, context: PackageContext, license: License): Batch {
    b.(packages := Intern(b.packages, pkg),
       contexts := Intern(b.contexts, context),
       licenses := Intern(b.licenses, license),
       occurrences := b.occurrences
         + [OccurrenceRow(|b.images|, RowOf(b.packages, pkg), RowOf(b.contexts, context), RowOf(b.licenses, license))])
  }

  /** A finding belongs to the occurrence added last. */
  function AddFinding(b: Batch, advisory: Advisory, fix: Fix, assessment: Assessment): Batch {
    if b.occurrences == [] then b
    else
      b.(advisories := Intern(b.advisories, advisory),
         fixes := Intern(b.fixes, fix),
         assessments := Intern(b.assessments, assessment),
         findings := b.findings
           + [FindingRow(|b.occurrences| - 1, RowOf(b.advisories, advisory), RowOf(b.fixes, fix),
             RowOf(b.assessments, assessment))])
  }

  function Apply(b: Batch, call: SinkCall): Batch {
    match call
    case Occurrence(pkg, context, license) => AddOccurrence(b, pkg, context, license)
    case Finding(_, advisory, fix, assessment) => AddFinding(b, advisory, fix, assessment)
    case Union(ids) => b.(groups := b.groups + [ids])
  }

  function ApplyAll(b: Batch, calls: seq<SinkCall>): Batch {
    if calls == [] then b
    else Apply(ApplyAll(b, calls[..|calls| - 1]), calls[|calls| - 1])
  }

  /** Streaming one image's facts into the batch. */
  function Add(b: Batch, facts: Facts): Batch {
    var b' := ApplyAll(b, facts.calls);
    b'.(images := b'.images + [facts.image])
  }

  /** The report's contents when the images are taken in one after the other. */
  function SequentialFold(facts: seq<Facts>): Batch {
    if facts == [] then EMPTY_BATCH
    else Add(SequentialFold(facts[..|facts| - 1]), facts[|facts| - 1])
  }

  lemma ApplyOne(b: Batch, calls: seq<SinkCall>, call: SinkCall)
    ensures ApplyAll(b, calls + [call]) == Apply(ApplyAll(b, calls), call)
  {
    hide Apply;
    assert (calls + [call])[..|calls|] == calls;
  }

  // ---------------------------------------------------------------- buffered ingestion

  datatype PendingFinding = PendingFinding(pointer: nat, advisory: Advisory, fix: Fix, assessment: Assessment)

  datatype PendingOccurrence = PendingOccurrence(pkg: Package, context: PackageContext, license: License,
                                                 findings: seq<PendingFinding>)

  /** The facts of an image that is not its turn yet. */
  datatype Pending = Pending(image: Image, occurrences: seq<PendingOccurrence>, aliases: seq<seq<string>>)

  /** The buffer after one more sink call. A finding goes to the occurrence buffered last. */
  function Buffer(p: Pending, call: SinkCall): Pending {
    match call
    case Occurrence(pkg, context, license) =>
      p.(occurrences := p.occurrences + [PendingOccurrence(pkg, context, license, [])])
    case Finding(pointer, advisory, fix, assessment) =>
      if p.occurrences == [] then p
      else
        var last := p.occurrences[|p.occurrences| - 1];
        var last' := last.(findings := last.findings + [PendingFinding(pointer, advisory, fix, assessment)]);
        p.(occurrences := p.occurrences[|p.occurrences| - 1 := last'])
    case Union(ids) => p.(aliases := p.aliases + [ids])
  }

  function BufferAll(image: Image, calls: seq<SinkCall>): Pending {
    if calls == [] then Pending(image, [], [])
    else Buffer(BufferAll(image, calls[..|calls| - 1]), calls[|calls| - 1])
  }

  function UnionCalls(aliases: seq<seq<string>>): seq<SinkCall> {
    seq(|aliases|, i requires 0 <= i < |aliases| => Union(aliases[i]))
  }

  function FindingCalls(findings: seq<PendingFinding>): seq<SinkCall> {
    seq(|findings|, i requires 0 <= i < |findings| =>
      Finding(findings[i].pointer, findings[i].advisory, findings[i].fix, findings[i].assessment))
  }

  function OccurrenceCalls(o: PendingOccurrence): seq<SinkCall> {
    [Occurrence(o.pkg, o.context, o.license)] + FindingCalls(o.findings)
  }

  function AllOccurrenceCalls(occurrences: seq<PendingOccurrence>): seq<SinkCall> {
    if occurrences == [] then []
    else AllOccurrenceCalls(occurrences[..|occurrences| - 1]) + OccurrenceCalls(occurrences[|occurrences| - 1])
  }

  /** The replay of a buffered image: every union first, then each occurrence with its findings. */
  function Replay(p: Pending): seq<SinkCall> {
    UnionCalls(p.aliases) + AllOccurrenceCalls(p.occurrences)
  }

  function Merge(b: Batch, p: Pending): Batch {
    Add(b, Facts(Replay(p), p.image))
  }

  // ---------------------------------------------------------------- both ways agree

  /** No finding comes before the first occurrence. */
  ghost predicate WellOrdered(calls: seq<SinkCall>) {
    forall i :: 0 <= i < |calls| && calls[i].Finding? ==> exists j :: 0 <= j < i && calls[j].Occurrence?
  }

  function Unions(calls: seq<SinkCall>): seq<seq<string>> {
    if calls == [] then []
    else
      var last := calls[|calls| - 1];
      Unions(calls[..|calls| - 1]) + if last.Union? then [last.ids] else []
  }

  function Others(calls: seq<SinkCall>): seq<SinkCall> {
    if calls == [] then []
    else
      var last := calls[|calls| - 1];
      Others(calls[..|calls| - 1]) + if last.Union? then [] else [last]
  }

  /** Unions touch state that occurrences and findings neither read nor write. */
  lemma {:induction false} ApplySplits(b: Batch, calls: seq<SinkCall>)
    ensures ApplyAll(b, calls) == ApplyAll(b, Others(calls)).(groups := b.groups + Unions(calls))
    ensures ApplyAll(b, Others(calls)).groups == b.groups
  {
    if calls == [] {
      assert b.groups + Unions(calls) == b.groups;
    } else {
      var init, last := calls[..|calls| - 1], calls[|calls| - 1];
      ApplySplits(b, init);
      if last.Union? {
        assert Others(calls) == Others(init);
        assert (b.groups + Unions(init)) + [last.ids] == b.groups + Unions(calls);
      } else {
        assert Unions(calls) == Unions(init);
        ApplyOne(b, Others(init), last);
      }
    }
  }

  lemma {:induction false} WellOrderedPrefix(calls: seq<SinkCall>, n: nat)
    requires WellOrdered(calls) && n <= |calls|
    ensures WellOrdered(calls[..n])
  {
    forall i | 0 <= i < n && calls[..n][i].Finding?
      ensures exists j :: 0 <= j < i && calls[..n][j].Occurrence?
    {
      var j :| 0 <= j < i && calls[j].Occurrence?;
      assert calls[..n][j].Occurrence?;
    }
  }

  /** Buffering a finding appends it to the replay. */
  lemma BufferFinding(p: Pending, call: SinkCall)
    requires call.Finding? && p.occurrences != []
    ensures AllOccurrenceCalls(Buffer(p, call).occurrences) == AllOccurrenceCalls(p.occurrences) + [call]
  {
    var k := |p.occurrences| - 1;
    var q := Buffer(p, call);
    var before, after := p.occurrences[k], q.occurrences[k];
    assert q.occurrences[..k] == p.occurrences[..k];
    assert FindingCalls(after.findings) == FindingCalls(before.findings) + [call];
    assert OccurrenceCalls(after) == OccurrenceCalls(before) + [call];
  }

  lemma BufferOccurrence(p: Pending, call: SinkCall)
    requires call.Occurrence?
    ensures AllOccurrenceCalls(Buffer(p, call).occurrences) == AllOccurrenceCalls(p.occurrences) + [call]
  {
    var q := Buffer(p, call);
    assert q.occurrences[..|q.occurrences| - 1] == p.occurrences;
    assert OccurrenceCalls(q.occurrences[|q.occurrences| - 1]) == [call];
  }

  lemma {:induction false} BufferEmpty(image: Image, calls: seq<SinkCall>, j: nat)
    requires j < |calls| && calls[j].Occurrence?
    ensures BufferAll(image, calls).occurrences != []
  {
    if j < |calls| - 1 {
      BufferEmpty(image, calls[..|calls| - 1], j);
    }
  }

  /** The buffer holds exactly the calls made on it: the unions, and the rest in order. */
  lemma {:induction false} BufferHolds(image: Image, calls: seq<SinkCall>)
    requires WellOrdered(calls)
    ensures BufferAll(image, calls).image == image
    ensures BufferAll(image, calls).aliases == Unions(calls)
    ensures AllOccurrenceCalls(BufferAll(image, calls).occurrences) == Others(calls)
  {
    if calls != [] {
      var n := |calls| - 1;
      var init, last := calls[..n], calls[n];
      WellOrderedPrefix(calls, n);
      BufferHolds(image, init);
      var p := BufferAll(image, init);
      if last.Occurrence? {
        BufferOccurrence(p, last);
      } else if last.Finding? {
        var j :| 0 <= j < n && calls[j].Occurrence?;
        BufferEmpty(image, init, j);
        BufferFinding(p, last);
      }
    }
  }

  lemma {:induction false} OccurrenceCallsHaveNoUnion(occurrences: seq<PendingOccurrence>)
    ensures forall i :: 0 <= i < |AllOccurrenceCalls(occurrences)| ==> !AllOccurrenceCalls(occurrences)[i].Union?
  {
    if occurrences != [] {
      OccurrenceCallsHaveNoUnion(occurrences[..|occurrences| - 1]);
    }
  }

  /** Replayed findings come right after their own occurrence. */
  lemma {:induction false} OccurrenceCallsOrdered(occurrences: seq<PendingOccurrence>)
    ensures WellOrdered(AllOccurrenceCalls(occurrences))
  {
    if occurrences != [] {
      var n := |occurrences| - 1;
      OccurrenceCallsOrdered(occurrences[..n]);
      var before, calls := AllOccurrenceCalls(occurrences[..n]), AllOccurrenceCalls(occurrences);
      assert calls == before + OccurrenceCalls(occurrences[n]);
      forall i | 0 <= i < |calls| && calls[i].Finding?
        ensures exists j :: 0 <= j < i && calls[j].Occurrence?
      {
        if i < |before| {
          assert before[i].Finding?;
          var j :| 0 <= j < i && before[j].Occurrence?;
          assert calls[j].Occurrence?;
        } else {
          assert calls[|before|].Occurrence?;
        }
      }
    }
  }

  lemma {:induction false} OthersAreCalls(calls: seq<SinkCall>, call: SinkCall)
    requires call in Others(calls)
    ensures call in calls
  {
    if call !in Others(calls[..|calls| - 1]) {
      assert call == calls[|calls| - 1];
    } else {
      OthersAreCalls(calls[..|calls| - 1], call);
    }
  }

  lemma {:induction false} UnionsOnly(aliases: seq<seq<string>>)
    ensures Unions(UnionCalls(aliases)) == aliases && Others(UnionCalls(aliases)) == []
  {
    if aliases != [] {
      var n := |aliases| - 1;
      UnionsOnly(aliases[..n]);
      assert UnionCalls(aliases)[..n] == UnionCalls(aliases[..n]);
    }
  }

  lemma {:induction false} UnionsBefore(calls: seq<SinkCall>, rest: seq<SinkCall>)
    requires forall i :: 0 <= i < |rest| ==> !rest[i].Union?
    ensures Unions(calls + rest) == Unions(calls) && Others(calls + rest) == Others(calls) + rest
  {
    if rest == [] {
      assert calls + rest == calls;
    } else {
      var n := |rest| - 1;
      UnionsBefore(calls, rest[..n]);
      assert (calls + rest)[..|calls| + n] == calls + rest[..n];
    }
  }

  /** Buffering an image and merging it later gives exactly the batch of streaming it directly. */
  lemma MergeIsAdd(b: Batch, facts: Facts)
    requires WellOrdered(facts.calls)
    ensures Merge(b, BufferAll(facts.image, facts.calls)) == Add(b, facts)
  {
    hide ApplyAll, Unions, Others, AllOccurrenceCalls, UnionCalls, BufferAll, WellOrdered;
    var p := BufferAll(facts.image, facts.calls);
    BufferHolds(facts.image, facts.calls);
    OccurrenceCallsHaveNoUnion(p.occurrences);
    UnionsOnly(p.aliases);
    UnionsBefore(UnionCalls(p.aliases), AllOccurrenceCalls(p.occurrences));
    assert [] + AllOccurrenceCalls(p.occurrences) == AllOccurrenceCalls(p.occurrences);
    ApplySplits(b, facts.calls);
    ApplySplits(b, Replay(p));
  }

  // ---------------------------------------------------------------- noncompliance

  predicate NoncompliantIn(b: Batch, o: nat)
    requires o < |b.occurrences|
  {
    b.occurrences[o].license < |b.licenses| && b.licenses[b.occurrences[o].license].status == "noncompliant"
  }

  function NoncompliantsIn(b: Batch, n: nat): nat
    requires n <= |b.occurrences|
  {
    if n == 0 then 0 else NoncompliantsIn(b, n - 1) + if NoncompliantIn(b, n - 1) then 1 else 0
  }

  // ---------------------------------------------------------------- what every history keeps

  /** Every advisory is named by a union made before its finding. */
  ghost predicate Named(calls: seq<SinkCall>) {
    forall i :: 0 <= i < |calls| && calls[i].Finding? ==>
      exists j :: 0 <= j < i && calls[j].Union? && calls[i].advisory.id in calls[j].ids
  }

  /** One pointer is one advisory. */
  ghost predicate OnePointer(calls: seq<SinkCall>) {
    forall i, j :: 0 <= i < |calls| && 0 <= j < |calls| && calls[i].Finding? && calls[j].Finding? ==>
      calls[i].pointer == calls[j].pointer ==> calls[i].advisory == calls[j].advisory
  }

  /** Statuses are among the names that have a number. */
  ghost predicate KnownStatus(call: SinkCall) {
    && (call.Occurrence? ==> call.license.status in STATUS_NAMES)
    && (call.Finding? ==> call.fix.status in STATUS_NAMES)
  }

  /** What the projection guarantees about its sink calls. */
  ghost predicate Projected(facts: Facts) {
    && WellOrdered(facts.calls) && Named(facts.calls) && OnePointer(facts.calls)
    && forall i :: 0 <= i < |facts.calls| ==> KnownStatus(facts.calls[i])
  }

  ghost predicate OccurrenceInRange(b: Batch, o: OccurrenceRow) {
    o.image <= |b.images| && o.pkg < |b.packages| && o.context < |b.contexts| && o.license < |b.licenses|
  }

  ghost predicate FindingInRange(b: Batch, f: FindingRow) {
    f.occurrence < |b.occurrences| && f.advisory < |b.advisories| && f.fix < |b.fixes| && f.assessment < |b.assessments|
  }

  /** Rows refer to rows, images and occurrences appear in order, and every advisory is named in
      the alias graph. An image being taken in has the next free number. */
  ghost predicate Linkage(b: Batch) {
    && (forall i :: 0 <= i < |b.occurrences| ==> OccurrenceInRange(b, b.occurrences[i]))
    && (forall i, j :: 0 <= i < j < |b.occurrences| ==> b.occurrences[i].image <= b.occurrences[j].image)
    && (forall i :: 0 <= i < |b.findings| ==> FindingInRange(b, b.findings[i]))
    && (forall i, j :: 0 <= i < j < |b.findings| ==> b.findings[i].occurrence <= b.findings[j].occurrence)
    && (forall i :: 0 <= i < |b.advisories| ==> b.advisories[i].id in Names(b.groups))
  }

  /** Between images, no row refers to an image that is not there yet. */
  ghost predicate Complete(b: Batch) {
    Linkage(b) && forall i :: 0 <= i < |b.occurrences| ==> b.occurrences[i].image < |b.images|
  }

  lemma NamesGrow(groups: seq<seq<string>>, ids: seq<string>)
    ensures Names(groups + [ids]) == Names(groups) + set x | x in ids
  {
    forall x
      ensures x in Names(groups + [ids]) <==> x in Names(groups) || x in ids
    {
      if x in ids {
        assert ids in groups + [ids];
      }
      if x in Names(groups) {
        var g :| g in groups && x in g;
        assert g in groups + [ids];
      }
    }
  }

  lemma ApplyKeepsLinkage(b: Batch, call: SinkCall)
    requires Linkage(b)
    requires call.Finding? ==> call.advisory.id in Names(b.groups)
    ensures Linkage(Apply(b, call))
    ensures Names(b.groups) <= Names(Apply(b, call).groups)
    ensures call.Union? ==> forall x :: x in call.ids ==> x in Names(Apply(b, call).groups)
  {
    var b' := Apply(b, call);
    if call.Union? {
      NamesGrow(b.groups, call.ids);
      forall i | 0 <= i < |b.occurrences|
        ensures OccurrenceInRange(b', b.occurrences[i])
      {
        assert OccurrenceInRange(b, b.occurrences[i]);
      }
    } else {
      hide Names;
      forall i | 0 <= i < |b.occurrences|
        ensures OccurrenceInRange(b', b.occurrences[i])
      {
        assert OccurrenceInRange(b, b.occurrences[i]);
      }
      forall i | 0 <= i < |b.findings|
        ensures FindingInRange(b', b.findings[i])
      {
        assert FindingInRange(b, b.findings[i]);
      }
    }
  }

  lemma {:induction false} ApplyAllKeepsLinkage(b: Batch, calls: seq<SinkCall>)
    requires Linkage(b) && Named(calls)
    ensures Linkage(ApplyAll(b, calls)) && ApplyAll(b, calls).images == b.images
    ensures Names(b.groups) <= Names(ApplyAll(b, calls).groups)
    ensures forall j, x :: 0 <= j < |calls| && calls[j].Union? && x in calls[j].ids ==>
              x in Names(ApplyAll(b, calls).groups)
  {
    if calls != [] {
      hide Names, Linkage;
      var n := |calls| - 1;
      var init, last := calls[..n], calls[n];
      forall i | 0 <= i < n && init[i].Finding?
        ensures exists j :: 0 <= j < i && init[j].Union? && init[i].advisory.id in init[j].ids
      {
        var j :| 0 <= j < i && calls[j].Union? && calls[i].advisory.id in calls[j].ids;
        assert init[j].Union?;
      }
      ApplyAllKeepsLinkage(b, init);
      if last.Finding? {
        var j :| 0 <= j < n && calls[j].Union? && last.advisory.id in calls[j].ids;
        assert init[j] == calls[j];
      }
      ApplyKeepsLinkage(ApplyAll(b, init), last);
      forall j, x | 0 <= j < |calls| && calls[j].Union? && x in calls[j].ids
        ensures x in Names(ApplyAll(b, calls).groups)
      {
        if j < n {
          assert init[j] == calls[j];
        }
      }
    }
  }

  lemma AddKeepsComplete(b: Batch, facts: Facts)
    requires Complete(b) && Named(facts.calls)
    ensures Complete(Add(b, facts))
  {
    ApplyAllKeepsLinkage(b, facts.calls);
    hide ApplyAll, Names;
    var b', after := ApplyAll(b, facts.calls), Add(b, facts);
    forall i | 0 <= i < |b'.occurrences|
      ensures OccurrenceInRange(after, b'.occurrences[i])
    {
      assert OccurrenceInRange(b', b'.occurrences[i]);
    }
    forall i | 0 <= i < |b'.findings|
      ensures FindingInRange(after, b'.findings[i])
    {
      assert FindingInRange(b', b'.findings[i]);
    }
  }

  /** Every sequence of projected images gives a batch whose rows only refer to existing rows. */
  lemma {:induction false} FoldComplete(facts: seq<Facts>)
    requires forall i :: 0 <= i < |facts| ==> Projected(facts[i])
    ensures Complete(SequentialFold(facts))
  {
    if facts != [] {
      FoldComplete(facts[..|facts| - 1]);
      AddKeepsComplete(SequentialFold(facts[..|facts| - 1]), facts[|facts| - 1]);
    }
  }

  lemma UnionsKeepOrder(unions: seq<SinkCall>, rest: seq<SinkCall>)
    requires WellOrdered(rest) && forall i :: 0 <= i < |unions| ==> unions[i].Union?
    ensures WellOrdered(unions + rest)
  {
    var calls := unions + rest;
    forall i | 0 <= i < |calls| && calls[i].Finding?
      ensures exists j :: 0 <= j < i && calls[j].Occurrence?
    {
      var j :| 0 <= j < i - |unions| && rest[j].Occurrence?;
      assert calls[|unions| + j].Occurrence?;
    }
  }

  lemma CallsInherit(calls: seq<SinkCall>, from: seq<SinkCall>)
    requires OnePointer(from) && forall i :: 0 <= i < |from| ==> KnownStatus(from[i])
    requires forall i :: 0 <= i < |calls| ==> calls[i].Union? || calls[i] in from
    ensures OnePointer(calls) && forall i :: 0 <= i < |calls| ==> KnownStatus(calls[i])
  {
    forall i, j | 0 <= i < |calls| && 0 <= j < |calls| && calls[i].Finding? && calls[j].Finding?
      && calls[i].pointer == calls[j].pointer
      ensures calls[i].advisory == calls[j].advisory
    {
      var m :| 0 <= m < |from| && from[m] == calls[i];
      var n :| 0 <= n < |from| && from[n] == calls[j];
    }
  }

  /** A replay keeps what merging needs of the projected calls. */
  lemma ReplayProjected(facts: Facts)
    requires Projected(facts)
    ensures var calls := Replay(BufferAll(facts.image, facts.calls));
            && WellOrdered(calls) && OnePointer(calls)
            && forall i :: 0 <= i < |calls| ==> KnownStatus(calls[i])
  {
    hide WellOrdered, OnePointer, KnownStatus, BufferAll, Others, AllOccurrenceCalls;
    var p := BufferAll(facts.image, facts.calls);
    BufferHolds(facts.image, facts.calls);
    OccurrenceCallsOrdered(p.occurrences);
    var unions, rest := UnionCalls(p.aliases), AllOccurrenceCalls(p.occurrences);
    UnionsKeepOrder(unions, rest);
    forall i | 0 <= i < |unions + rest|
      ensures (unions + rest)[i].Union? || (unions + rest)[i] in facts.calls
    {
      if i >= |unions| {
        OthersAreCalls(facts.calls, rest[i - |unions|]);
      }
    }
    CallsInherit(unions + rest, facts.calls);
  }
}
