/** The batch builder: normalized tables over the payload and the alias forest. It is proved to hold,
    in packed form, exactly the value that `Intakes` describes. */
module Builder {
  import opened Common
  import opened Order
  import opened Interning
  import opened Report
  import opened Payloads
  import opened Records
  import opened Aliases
  import opened Batches
  import opened Intakes
  import AliasTables
  import Fixes
  import Projection

  // ---------------------------------------------------------------- interning rows

  /** A table of distinct rows with its lookup map. */
  datatype Table<T(==)> = Table(ids: map<T, nat>, rows: seq<T>)

  ghost predicate TableValid<T>(t: Table<T>) {
    && |t.rows| <= MAX_U32
    && NoDuplicates(t.rows)
    && (forall x :: x in t.ids ==> t.ids[x] < |t.rows| && t.rows[t.ids[x]] == x)
    && (forall i :: 0 <= i < |t.rows| ==> t.rows[i] in t.ids)
  }

  /** The table and the row number after `value` has been interned. */
  ghost function WithRow<T>(t: Table<T>, value: T): Table<T> {
    if value in t.ids then t else Table(t.ids[value := |t.rows|], t.rows + [value])
  }

  method InternRow<T(==)>(t: Table<T>, value: T) returns (r: Result<(Table<T>, nat)>)
    requires TableValid(t)
    ensures r.Success? ==> r.value.0 == WithRow(t, value) && TableValid(r.value.0)
    ensures r.Success? ==> r.value.1 < |r.value.0.rows| && r.value.0.rows[r.value.1] == value
    ensures r.Fail? <==> value !in t.ids && |t.rows| == MAX_U32
    ensures r.Fail? ==> r.error == Overflow
  {
    if value in t.ids {
      return Success((t, t.ids[value]));
    }
    var _ :- Checked(|t.rows| + 1);
    var i := |t.rows|;
    return Success((Table(t.ids[value := i], t.rows + [value]), i));
  }

  /** The rows stand for the values, one by one. */
  ghost predicate Stands<T, V>(enc: (Payload, T, V) -> bool, p: Payload, t: Table<T>, values: seq<V>) {
    && TableValid(t)
    && |t.rows| == |values|
    && forall i :: 0 <= i < |values| ==> enc(p, t.rows[i], values[i])
  }

  lemma StandsLater<T(!new), V(!new)>(enc: (Payload, T, V) -> bool, p: Payload, q: Payload, t: Table<T>, values: seq<V>)
    requires Encoding(enc) && Stands(enc, p, t, values) && Extends(p, q)
    ensures Stands(enc, q, t, values)
  {
    hide Extends;
  }

  lemma RowsAgree<T(!new), V(!new)>(enc: (Payload, T, V) -> bool, p: Payload, t: Table<T>, values: seq<V>, row: T, v: V)
    requires Encoding(enc) && StoredOnce(p) && Stands(enc, p, t, values) && enc(p, row, v)
    ensures |t.rows| == |values| && forall k :: 0 <= k < |values| ==> (t.rows[k] == row <==> values[k] == v)
  {
    hide Extends, StoredOnce;
    forall k | 0 <= k < |values|
      ensures t.rows[k] == row <==> values[k] == v
    {
      assert enc(p, t.rows[k], values[k]);
    }
  }

  /** Interning a row is interning its value: the same row comes back exactly for equal values. */
  lemma StandsInterned<T(!new), V(!new)>(enc: (Payload, T, V) -> bool, p: Payload, t: Table<T>, values: seq<V>, row: T,
                                         v: V, i: nat)
    requires Encoding(enc) && StoredOnce(p) && Stands(enc, p, t, values) && enc(p, row, v)
    requires TableValid(WithRow(t, row)) && i < |WithRow(t, row).rows| && WithRow(t, row).rows[i] == row
    ensures Stands(enc, p, WithRow(t, row), Intern(values, v)) && i == RowOf(values, v)
  {
    hide Encoding, StoredOnce;
    RowsAgree(enc, p, t, values, row, v);
    var k := RowOf(values, v);
    assert k < |values| ==> t.rows[k] == row;
    assert row in t.ids ==> values[t.ids[row]] == v;
    assert WithRow(t, row).rows[k] == row;
  }

  /** Interning a packed record: the row of its value, in a table that stands for the values with this
      one interned; overflow exactly when they are too many. */
  method InternValue<T(==, !new), V(!new)>(
      ghost enc: (Payload, T, V) -> bool, ghost p: Payload, t: Table<T>, ghost values: seq<V>, row: T, ghost v: V)
    returns (r: Result<(Table<T>, nat)>)
    requires Encoding(enc) && StoredOnce(p) && Stands(enc, p, t, values) && enc(p, row, v)
    ensures r.Success? ==> Stands(enc, p, r.value.0, Intern(values, v)) && r.value.1 == RowOf(values, v)
    ensures r.Fail? ==> r.error == Overflow && |Intern(values, v)| > MAX_U32
  {
    hide Encoding, StoredOnce;
    RowsAgree(enc, p, t, values, row, v);
    if v in values {
      assert t.rows[RowOf(values, v)] == row;
    }
    r := InternRow(t, row);
    if r.Success? {
      StandsInterned(enc, p, t, values, row, v, r.value.1);
    }
  }

  // ---------------------------------------------------------------- all tables

  datatype Tables = Tables(
    packages: Table<StoredPackage>,
    contexts: Table<StoredContext>,
    licenses: Table<StoredLicense>,
    advisories: Table<StoredAdvisory>,
    fixes: Table<StoredFix>,
    assessments: Table<StoredAssessment>)

  /** The tables hold the batch's records in packed form. */
  ghost predicate Encoded(p: Payload, t: Tables, b: Batch) {
    && Stands(PackageEncoding(), p, t.packages, b.packages)
    && Stands(ContextEncoding(), p, t.contexts, b.contexts)
    && Stands(LicenseEncoding(), p, t.licenses, b.licenses)
    && Stands(AdvisoryEncoding(), p, t.advisories, b.advisories)
    && Stands(FixEncoding(), p, t.fixes, b.fixes)
    && Stands(AssessmentEncoding(), p, t.assessments, b.assessments)
  }

  lemma EncodedLater(p: Payload, q: Payload, t: Tables, b: Batch)
    requires Encoded(p, t, b) && Extends(p, q)
    ensures Encoded(q, t, b)
  {
    hide Extends, Stands;
    PackageRowsAgree();
    StandsLater(PackageEncoding(), p, q, t.packages, b.packages);
    ContextRowsAgree();
    StandsLater(ContextEncoding(), p, q, t.contexts, b.contexts);
    LicenseRowsAgree();
    StandsLater(LicenseEncoding(), p, q, t.licenses, b.licenses);
    AdvisoryRowsAgree();
    StandsLater(AdvisoryEncoding(), p, q, t.advisories, b.advisories);
    FixRowsAgree();
    StandsLater(FixEncoding(), p, q, t.fixes, b.fixes);
    AssessmentRowsAgree();
    StandsLater(AssessmentEncoding(), p, q, t.assessments, b.assessments);
  }

  lemma NothingEncoded(p: Payload, t: Tables)
    requires t == Tables(Table(map[], []), Table(map[], []), Table(map[], []), Table(map[], []), Table(map[], []),
             Table(map[], []))
    ensures Encoded(p, t, EMPTY_BATCH)
  {
  }

  lemma EncodedSizes(p: Payload, t: Tables, b: Batch)
    requires Encoded(p, t, b)
    ensures TableValid(t.packages) && |t.packages.rows| == |b.packages|
    ensures TableValid(t.contexts) && |t.contexts.rows| == |b.contexts|
    ensures TableValid(t.licenses) && |t.licenses.rows| == |b.licenses|
    ensures TableValid(t.advisories) && |t.advisories.rows| == |b.advisories|
    ensures TableValid(t.fixes) && |t.fixes.rows| == |b.fixes|
    ensures TableValid(t.assessments) && |t.assessments.rows| == |b.assessments|
  {
  }

  /** The decoded advisories are distinct, because their rows are. */
  lemma EncodedDistinct(p: Payload, t: Tables, b: Batch)
    requires Encoded(p, t, b) && StoredOnce(p)
    ensures NoDuplicates(b.advisories)
  {
    hide StoredOnce, Extends, IsAdvisory;
    AdvisoryRowsAgree();
    var enc := AdvisoryEncoding();
    forall i, j | 0 <= i < j < |b.advisories|
      ensures b.advisories[i] != b.advisories[j]
    {
      assert enc(p, t.advisories.rows[i], b.advisories[i]) && enc(p, t.advisories.rows[j], b.advisories[j]);
    }
  }

  lemma EncodedAdvisory(p: Payload, t: Tables, b: Batch, i: nat)
    requires Encoded(p, t, b) && StoredOnce(p) && i < |b.advisories|
    ensures AddAdvisory(p, b.advisories[i]) == p
  {
    hide StoredOnce, IsAdvisory, AddAdvisory;
    assert AdvisoryEncoding()(p, t.advisories.rows[i], b.advisories[i]);
    AdvisoryKnown(p, t.advisories.rows[i], b.advisories[i]);
  }

  /** The calls of an image, and then its record, need no more than the image. */
  lemma StreamNeeds(s: Intake, facts: Facts)
    ensures Fits(Stream(s, facts)) ==>
              Fits(Intakes.TakeAll(s, facts.calls)) && |Intakes.TakeAll(s, facts.calls).batch.images| < MAX_U32
    ensures var t := Intakes.TakeAll(s, facts.calls);
            Stream(s, facts) == t.(batch := t.batch.(images := t.batch.images + [facts.image]))
  {
    hide StoreAll, NameAll, ApplyAll;
    StreamGrows(s, facts);
  }

  /** The tables do not depend on the other parts of the batch. */
  lemma SameTables(p: Payload, t: Tables, b: Batch, b': Batch)
    requires Encoded(p, t, b)
    requires b' == b.(occurrences := b'.occurrences, findings := b'.findings, images := b'.images, groups := b'.groups)
    ensures Encoded(p, t, b')
  {
  }

  lemma AddOccurrenceIs(b: Batch, pkg: Package, context: PackageContext, license: License)
    ensures AddOccurrence(b, pkg, context, license) ==
            b.(packages := Intern(b.packages, pkg), contexts := Intern(b.contexts, context),
              licenses := Intern(b.licenses, license),
               occurrences := b.occurrences
                 + [OccurrenceRow(|b.images|, RowOf(b.packages, pkg), RowOf(b.contexts, context),
                   RowOf(b.licenses, license))])
  {
  }

  lemma AddFindingIs(b: Batch, advisory: Advisory, fix: Fix, assessment: Assessment)
    ensures b.occurrences != [] ==>
              AddFinding(b, advisory, fix, assessment) ==
              b.(advisories := Intern(b.advisories, advisory), fixes := Intern(b.fixes, fix),
                assessments := Intern(b.assessments, assessment),
                 findings := b.findings
                   + [FindingRow(|b.occurrences| - 1, RowOf(b.advisories, advisory), RowOf(b.fixes, fix),
                     RowOf(b.assessments, assessment))])
  {
  }

  /** After the first `i` calls: what has been taken in, and the pointers seen so far. */
  ghost predicate Taken(s0: Intake, s: Intake, pointees: map<nat, Advisory>, calls: seq<SinkCall>, i: nat) {
    && i <= |calls|
    && s == TakeAll(s0, calls[..i])
    && forall k :: k in pointees ==>
         exists j :: 0 <= j < i && calls[j].Finding? && calls[j].pointer == k && calls[j].advisory == pointees[k]
  }

  lemma TakenNone(s: Intake, calls: seq<SinkCall>)
    ensures Taken(s, s, map[], calls, 0)
  {
    TakeNone(s, calls);
  }

  lemma TakenAll(s0: Intake, s: Intake, pointees: map<nat, Advisory>, calls: seq<SinkCall>)
    requires Taken(s0, s, pointees, calls, |calls|)
    ensures s == TakeAll(s0, calls)
  {
    assert calls[..|calls|] == calls;
  }

  /** What the next call may rely on, and what it leads to. Where it does not fit, the calls do not. */
  lemma TakenNext(s0: Intake, s: Intake, pointees: map<nat, Advisory>, calls: seq<SinkCall>, i: nat)
    requires Taken(s0, s, pointees, calls, i) && i < |calls| && WellOrdered(calls) && OnePointer(calls)
    ensures calls[i].Finding? && calls[i].pointer in pointees ==> pointees[calls[i].pointer] == calls[i].advisory
    ensures calls[i].Finding? ==> s.batch.occurrences != []
    ensures var pointees' := if calls[i].Finding? then pointees[calls[i].pointer := calls[i].advisory] else pointees;
            Taken(s0, Take(s, calls[i]), pointees', calls, i + 1)
    ensures Fits(TakeAll(s0, calls)) ==> Fits(Take(s, calls[i]))
  {
    hide Take, TakeAll, Fits;
    TakeNext(s0, calls, i);
    if Fits(TakeAll(s0, calls)) {
      PrefixFits(s0, calls, i + 1);
    }
    if calls[i].Finding? {
      var j :| 0 <= j < i && calls[j].Occurrence?;
      TakenOccurrences(s0, s, calls, i, j);
      var pointees' := pointees[calls[i].pointer := calls[i].advisory];
      forall k | k in pointees'
        ensures exists j ::
                  0 <= j < i + 1 && calls[j].Finding? && calls[j].pointer == k
                  && calls[j].advisory == pointees'[k]
      {
        if k == calls[i].pointer {
          assert calls[i].pointer == k;
        }
      }
    }
  }

  lemma TakenOccurrences(s0: Intake, s: Intake, calls: seq<SinkCall>, i: nat, j: nat)
    requires j < i <= |calls| && calls[j].Occurrence? && s == TakeAll(s0, calls[..i])
    ensures s.batch.occurrences != []
  {
    hide StoreAll, NameAll;
    OccurrencesStay(s0.batch, calls[..i], j);
  }

  lemma {:induction false} OccurrencesStay(b: Batch, calls: seq<SinkCall>, j: nat)
    requires j < |calls| && calls[j].Occurrence?
    ensures ApplyAll(b, calls).occurrences != []
  {
    if j < |calls| - 1 {
      OccurrencesStay(b, calls[..|calls| - 1], j);
    }
  }

  /** What an occurrence needs on the way. */
  lemma OccurrenceNeeds(s: Intake, pkg: Package, context: PackageContext, license: License)
    requires Fits(Take(s, Batches.Occurrence(pkg, context, license)))
    ensures var p1 := AddPackage(s.payload, pkg);
            && PayloadFits(p1) && PayloadFits(AddContext(p1, context))
               && PayloadFits(AddLicense(AddContext(p1, context), license))
    ensures |Intern(s.batch.packages, pkg)| <= MAX_U32 && |Intern(s.batch.contexts, context)| <= MAX_U32
    ensures |Intern(s.batch.licenses, license)| <= MAX_U32 && |s.batch.occurrences| < MAX_U32
  {
    GrowthLaws();
    PackingGrows();
    PackingRecordsGrows();
    hide Extends, AddPackage, AddContext, AddLicense, AddAdvisory, AddVulnerability, AddAssessment, AddFix, AddString,
      AddOptional, AddList, IsString, IsOptional, IsStrings, IsSeverities, IsReferences, PayloadFits, RowOf, Intern;
  }

  /** What a finding needs on the way. */
  lemma FindingNeeds(s: Intake, pointer: nat, advisory: Advisory, fix: Fix, assessment: Assessment)
    requires s.batch.occurrences != [] && Fits(Take(s, Batches.Finding(pointer, advisory, fix, assessment)))
    ensures var p1 := AddAdvisory(s.payload, advisory);
            && PayloadFits(p1) && PayloadFits(AddFix(p1, fix))
               && PayloadFits(AddAssessment(AddFix(p1, fix), assessment))
    ensures |Intern(s.batch.advisories, advisory)| <= MAX_U32 && |Intern(s.batch.fixes, fix)| <= MAX_U32
    ensures |Intern(s.batch.assessments, assessment)| <= MAX_U32 && |s.batch.findings| < MAX_U32
  {
    GrowthLaws();
    PackingGrows();
    PackingRecordsGrows();
    hide Extends, AddPackage, AddContext, AddLicense, AddAdvisory, AddVulnerability, AddAssessment, AddFix, AddString,
      AddOptional, AddList, IsString, IsOptional, IsStrings, IsSeverities, IsReferences, PayloadFits, RowOf, Intern;
  }

  lemma ReplayUnion(p: Pending, i: nat)
    requires i < |p.aliases|
    ensures i < |Replay(p)| && Replay(p)[i] == Batches.Union(p.aliases[i])
  {
  }

  /** The replay position `at` is where the calls of the occurrences from `i` on begin. */
  ghost predicate ReplayAt(p: Pending, i: nat, at: nat) {
    && i <= |p.occurrences|
    && at == |p.aliases| + |AllOccurrenceCalls(p.occurrences[..i])| <= |Replay(p)|
  }

  lemma ReplayStarts(p: Pending)
    ensures ReplayAt(p, 0, |p.aliases|)
  {
  }

  lemma ReplayEnds(p: Pending, at: nat)
    requires ReplayAt(p, |p.occurrences|, at)
    ensures at == |Replay(p)|
  {
    assert p.occurrences[..|p.occurrences|] == p.occurrences;
  }

  lemma ReplayNext(p: Pending, i: nat, at: nat)
    requires ReplayAt(p, i, at) && i < |p.occurrences|
    ensures var o := p.occurrences[i];
            && at + 1 + |o.findings| <= |Replay(p)|
            && Replay(p)[at] == Batches.Occurrence(o.pkg, o.context, o.license)
            && Replay(p)[at + 1..at + 1 + |o.findings|] == FindingCalls(o.findings)
            && ReplayAt(p, i + 1, at + 1 + |o.findings|)
  {
    hide AllOccurrenceCalls;
    var o := p.occurrences[i];
    AllOccurrenceCallsPrefix(p.occurrences, i + 1);
    AllOccurrenceCallsNext(p.occurrences, i);
    var before, all := AllOccurrenceCalls(p.occurrences[..i]), AllOccurrenceCalls(p.occurrences);
    assert all[|before|] == OccurrenceCalls(o)[0];
    assert all[|before| + 1..|before| + 1 + |o.findings|] == OccurrenceCalls(o)[1..];
    assert Replay(p)[at + 1..at + 1 + |o.findings|] == all[|before| + 1..|before| + 1 + |o.findings|];
  }

  lemma AllOccurrenceCallsNext(occurrences: seq<PendingOccurrence>, i: nat)
    requires i < |occurrences|
    ensures AllOccurrenceCalls(occurrences[..i + 1])
            == AllOccurrenceCalls(occurrences[..i]) + OccurrenceCalls(occurrences[i])
  {
    assert occurrences[..i + 1][..i] == occurrences[..i];
  }

  lemma {:induction false} AllOccurrenceCallsPrefix(occurrences: seq<PendingOccurrence>, i: nat)
    requires i <= |occurrences|
    ensures AllOccurrenceCalls(occurrences[..i]) <= AllOccurrenceCalls(occurrences)
  {
    if i < |occurrences| {
      AllOccurrenceCallsPrefix(occurrences[..|occurrences| - 1], i);
      assert occurrences[..|occurrences| - 1][..i] == occurrences[..i];
    } else {
      assert occurrences[..i] == occurrences;
    }
  }

  lemma StatusKnown(call: SinkCall)
    requires KnownStatus(call)
    ensures call.Occurrence? ==> call.license.status in STATUS_NAMES
    ensures call.Finding? ==> call.fix.status in STATUS_NAMES
  {
  }

  // ---------------------------------------------------------------- the finished tables

  /** The vulnerability row of an advisory: that of the component of its identifier, or row zero
      when no union has named it. */
  ghost predicate IsVulnerabilityRow(b: Batch, rows: seq<Vulnerability>, a: nat, vi: nat)
    requires a < |b.advisories|
  {
    if b.advisories[a].id in Names(b.groups)
    then vi < |rows| && Linked(b.groups, rows[vi].id, b.advisories[a].id)
    else vi == 0
  }

  /** `store` holds the batch in packed form, with `rows` as its vulnerability table. */
  ghost predicate Finished(store: ReportStore, b: Batch, rows: seq<Vulnerability>) {
    && StoredOnce(store.payload)
    && store.images == b.images && store.occurrences == b.occurrences && store.findings == b.findings
    && Packed(PackageEncoding(), store.payload, store.packages, b.packages)
    && Packed(ContextEncoding(), store.payload, store.contexts, b.contexts)
    && Packed(LicenseEncoding(), store.payload, store.licenses, b.licenses)
    && Packed(AdvisoryEncoding(), store.payload, store.advisorySources, b.advisories)
    && Packed(FixEncoding(), store.payload, store.fixes, b.fixes)
    && Packed(AssessmentEncoding(), store.payload, store.assessments, b.assessments)
    && AliasTables.IsTable(b.groups, rows) && AliasTables.RowsPacked(store.payload, store.vulnerabilities, rows)
    && |store.advisoryVulnerabilities| == |b.advisories|
    && forall a :: 0 <= a < |b.advisories| ==> IsVulnerabilityRow(b, rows, a, store.advisoryVulnerabilities[a])
  }

  ghost predicate Packed<T, V>(enc: (Payload, T, V) -> bool, p: Payload, rows: seq<T>, values: seq<V>) {
    |rows| == |values| && forall i :: 0 <= i < |values| ==> enc(p, rows[i], values[i])
  }

  lemma TablesFinished(p: Payload, q: Payload, t: Tables, b: Batch)
    requires Encoded(p, t, b) && Extends(p, q)
    ensures Packed(PackageEncoding(), q, t.packages.rows, b.packages)
    ensures Packed(ContextEncoding(), q, t.contexts.rows, b.contexts)
    ensures Packed(LicenseEncoding(), q, t.licenses.rows, b.licenses)
    ensures Packed(AdvisoryEncoding(), q, t.advisories.rows, b.advisories)
    ensures Packed(FixEncoding(), q, t.fixes.rows, b.fixes)
    ensures Packed(AssessmentEncoding(), q, t.assessments.rows, b.assessments)
  {
    EncodedLater(p, q, t, b);
  }

  /** An alias in the range of the grouping belongs to the row it was assigned. */
  lemma AliasRowLinked(groups: seq<seq<string>>, names: seq<string>, rootOf: seq<nat>, roots: seq<nat>,
                       byAlias: seq<nat>, id: nat)
    requires Components(groups, names, rootOf) && AliasTables.RootOrder(roots, names, rootOf)
    requires AliasTables.AliasRows(byAlias, rootOf, roots, |roots|) && id < |names|
    ensures |byAlias| == |names|
    ensures var rows := AliasTables.RowsFor(names, rootOf, roots);
            byAlias[id] < |rows| && Linked(groups, rows[byAlias[id]].id, names[id])
  {
    hide Linked;
    assert rootOf[id] in rootOf;
    var i :| 0 <= i < |roots| && roots[i] == rootOf[id];
    AliasTables.RowForId(names, rootOf, roots[i]);
    assert Linked(groups, names[rootOf[id]], names[id]);
  }

  // ---------------------------------------------------------------- the builder

  class BatchBuilder {
    const ctx: Context
    const payload: PayloadBuilder
    const forest: AliasForest
    var tables: Tables
    var images: seq<Image>
    var occurrences: seq<OccurrenceRow>
    var findings: seq<FindingRow>
    /** Rows of the advisories already seen in the image being taken in, by pointer. */
    var imageAdvisories: map<nat, nat>
    /** What has been built, and what the memoized pointers point at. */
    ghost var batch: Batch
    ghost var pointees: map<nat, Advisory>

    ghost predicate Valid()
      reads this, payload, forest
    {
      && payload.Valid() && forest.Valid()
      && Encoded(payload.View(), tables, batch)
      && images == batch.images && occurrences == batch.occurrences && findings == batch.findings
      && |images| <= MAX_U32 && |occurrences| <= MAX_U32 && |findings| <= MAX_U32
      && forest.groups == batch.groups
      && imageAdvisories.Keys == pointees.Keys
      && forall k :: k in pointees ==>
           imageAdvisories[k] < |batch.advisories| && batch.advisories[imageAdvisories[k]] == pointees[k]
    }

    /** Everything that has been taken in, as a value. */
    ghost function State(): Intake
      reads this, payload, forest
    {
      Intake(payload.View(), forest.names, batch)
    }

    lemma StateFits()
      requires Valid()
      ensures Fits(State())
    {
      hide PayloadBuilder.Valid, AliasForest.Valid, Encoded, PayloadBuilder.View;
      payload.Once();
      forest.Sizes();
      EncodedSizes(payload.View(), tables, batch);
    }

    constructor (ctx: Context, hash: seq<nat> -> nat)
      ensures Valid() && fresh(payload) && fresh(forest)
      ensures State() == EMPTY_INTAKE && pointees == map[] && this.ctx == ctx
    {
      hide Encoded, PayloadBuilder.Valid, AliasForest.Valid, StoredOnce;
      this.ctx := ctx;
      payload := new PayloadBuilder(hash);
      forest := new AliasForest();
      tables := Tables(Table(map[], []), Table(map[], []), Table(map[], []), Table(map[], []), Table(map[], []),
        Table(map[], []));
      images, occurrences, findings, imageAdvisories := [], [], [], map[];
      batch, pointees := EMPTY_BATCH, map[];
      new;
      NothingEncoded(payload.View(), tables);
    }

    /** Packing and interning in one: the row of `v`. */
    method InternPackage(v: Package) returns (r: Result<nat>)
      requires Valid()
      modifies this`tables, this`batch, payload
      ensures r.Success? ==> Valid() && payload.View() == AddPackage(old(payload.View()), v)
      ensures r.Success? ==> batch == old(batch).(packages := Intern(old(batch).packages, v))
      ensures r.Success? ==> r.value == RowOf(old(batch).packages, v)
      ensures r.Fail? ==>
                r.error == Overflow &&
                (!PayloadFits(AddPackage(old(payload.View()), v)) || |Intern(old(batch).packages, v)| > MAX_U32)
    {
      hide PayloadBuilder.Valid, PayloadBuilder.View, AliasForest.Valid, IsPackage, Extends, Stands, StoredOnce,
        AddPackage, Intern, RowOf;
      ghost var p := payload.View();
      var row :- PackPackage(payload, v);
      payload.Once();
      PackingRecordsGrows();
      EncodedLater(p, payload.View(), tables, batch);
      PackageRowsAgree();
      var interned :- InternValue(PackageEncoding(), payload.View(), tables.packages, batch.packages, row, v);
      tables := tables.(packages := interned.0);
      batch := batch.(packages := Intern(batch.packages, v));
      return Success(interned.1);
    }

    /** Packing and interning in one: the row of `v`. */
    method InternContext(v: PackageContext) returns (r: Result<nat>)
      requires Valid()
      modifies this`tables, this`batch, payload
      ensures r.Success? ==> Valid() && payload.View() == AddContext(old(payload.View()), v)
      ensures r.Success? ==> batch == old(batch).(contexts := Intern(old(batch).contexts, v))
      ensures r.Success? ==> r.value == RowOf(old(batch).contexts, v)
      ensures r.Fail? ==>
                r.error == Overflow &&
                (!PayloadFits(AddContext(old(payload.View()), v)) || |Intern(old(batch).contexts, v)| > MAX_U32)
    {
      hide PayloadBuilder.Valid, PayloadBuilder.View, AliasForest.Valid, IsContext, Extends, Stands, StoredOnce,
        AddContext, Intern, RowOf;
      ghost var p := payload.View();
      var row :- PackContext(payload, v);
      payload.Once();
      PackingRecordsGrows();
      EncodedLater(p, payload.View(), tables, batch);
      ContextRowsAgree();
      var interned :- InternValue(ContextEncoding(), payload.View(), tables.contexts, batch.contexts, row, v);
      tables := tables.(contexts := interned.0);
      batch := batch.(contexts := Intern(batch.contexts, v));
      return Success(interned.1);
    }

    /** Packing and interning in one: the row of `v`. */
    method InternLicense(v: License) returns (r: Result<nat>)
      requires Valid()
      modifies this`tables, this`batch, payload
      ensures r.Success? ==> Valid() && payload.View() == AddLicense(old(payload.View()), v)
      ensures r.Success? ==> batch == old(batch).(licenses := Intern(old(batch).licenses, v))
      ensures r.Success? ==> r.value == RowOf(old(batch).licenses, v)
      ensures r == Fail(Internal) ==> v.status !in STATUS_NAMES
      ensures r.Fail? && r.error != Internal ==>
                r.error == Overflow &&
                (!PayloadFits(AddLicense(old(payload.View()), v)) || |Intern(old(batch).licenses, v)| > MAX_U32)
    {
      hide PayloadBuilder.Valid, PayloadBuilder.View, AliasForest.Valid, IsLicense, Extends, Stands, StoredOnce,
        AddLicense, Intern, RowOf;
      ghost var p := payload.View();
      var row :- PackLicense(payload, v);
      payload.Once();
      PackingRecordsGrows();
      EncodedLater(p, payload.View(), tables, batch);
      LicenseRowsAgree();
      var interned :- InternValue(LicenseEncoding(), payload.View(), tables.licenses, batch.licenses, row, v);
      tables := tables.(licenses := interned.0);
      batch := batch.(licenses := Intern(batch.licenses, v));
      return Success(interned.1);
    }

    /** Packing and interning in one: the row of `v`. */
    method InternAdvisory(v: Advisory) returns (r: Result<nat>)
      requires Valid()
      modifies this`tables, this`batch, payload
      ensures r.Success? ==> Valid() && payload.View() == AddAdvisory(old(payload.View()), v)
      ensures r.Success? ==> batch == old(batch).(advisories := Intern(old(batch).advisories, v))
      ensures r.Success? ==> r.value == RowOf(old(batch).advisories, v)
      ensures r.Fail? ==>
                r.error == Overflow &&
                (!PayloadFits(AddAdvisory(old(payload.View()), v)) || |Intern(old(batch).advisories, v)| > MAX_U32)
    {
      hide PayloadBuilder.Valid, PayloadBuilder.View, AliasForest.Valid, IsAdvisory, Extends, Stands, StoredOnce,
        AddAdvisory, Intern, RowOf;
      InternKeeps(batch.advisories, v);
      ghost var p := payload.View();
      var row :- PackAdvisory(payload, v);
      payload.Once();
      PackingRecordsGrows();
      EncodedLater(p, payload.View(), tables, batch);
      AdvisoryRowsAgree();
      var interned :- InternValue(AdvisoryEncoding(), payload.View(), tables.advisories, batch.advisories, row, v);
      tables := tables.(advisories := interned.0);
      batch := batch.(advisories := Intern(batch.advisories, v));
      return Success(interned.1);
    }

    /** Packing and interning in one: the row of `v`. */
    method InternFix(v: Fix) returns (r: Result<nat>)
      requires Valid()
      modifies this`tables, this`batch, payload
      ensures r.Success? ==> Valid() && payload.View() == AddFix(old(payload.View()), v)
      ensures r.Success? ==> batch == old(batch).(fixes := Intern(old(batch).fixes, v))
      ensures r.Success? ==> r.value == RowOf(old(batch).fixes, v)
      ensures r == Fail(Internal) ==> v.status !in STATUS_NAMES
      ensures r.Fail? && r.error != Internal ==>
                r.error == Overflow &&
                (!PayloadFits(AddFix(old(payload.View()), v)) || |Intern(old(batch).fixes, v)| > MAX_U32)
    {
      hide PayloadBuilder.Valid, PayloadBuilder.View, AliasForest.Valid, IsFix, Extends, Stands, StoredOnce, AddFix,
        Intern, RowOf;
      ghost var p := payload.View();
      var row :- PackFix(payload, v);
      payload.Once();
      PackingRecordsGrows();
      EncodedLater(p, payload.View(), tables, batch);
      FixRowsAgree();
      var interned :- InternValue(FixEncoding(), payload.View(), tables.fixes, batch.fixes, row, v);
      tables := tables.(fixes := interned.0);
      batch := batch.(fixes := Intern(batch.fixes, v));
      return Success(interned.1);
    }

    /** Packing and interning in one: the row of `v`. */
    method InternAssessment(v: Assessment) returns (r: Result<nat>)
      requires Valid()
      modifies this`tables, this`batch, payload
      ensures r.Success? ==> Valid() && payload.View() == AddAssessment(old(payload.View()), v)
      ensures r.Success? ==> batch == old(batch).(assessments := Intern(old(batch).assessments, v))
      ensures r.Success? ==> r.value == RowOf(old(batch).assessments, v)
      ensures r.Fail? ==>
                r.error == Overflow &&
                (!PayloadFits(AddAssessment(old(payload.View()), v)) || |Intern(old(batch).assessments, v)| > MAX_U32)
    {
      hide PayloadBuilder.Valid, PayloadBuilder.View, AliasForest.Valid, IsAssessment, Extends, Stands, StoredOnce,
        AddAssessment, Intern, RowOf;
      ghost var p := payload.View();
      var row :- PackAssessment(payload, v);
      payload.Once();
      PackingRecordsGrows();
      EncodedLater(p, payload.View(), tables, batch);
      AssessmentRowsAgree();
      var interned :- InternValue(AssessmentEncoding(), payload.View(), tables.assessments, batch.assessments, row, v);
      tables := tables.(assessments := interned.0);
      batch := batch.(assessments := Intern(batch.assessments, v));
      return Success(interned.1);
    }

    method AppendOccurrence(pi: nat, ci: nat, li: nat) returns (r: Result<()>)
      requires Valid()
      modifies this`occurrences, this`batch
      ensures r.Success? ==> Valid()
      ensures r.Success? ==>
                batch == old(batch).(occurrences := old(batch).occurrences
                  + [OccurrenceRow(|old(batch).images|, pi, ci, li)])
      ensures r.Fail? ==> r.error == Overflow && |old(batch).occurrences| == MAX_U32
    {
      hide Encoded, PayloadBuilder.Valid, AliasForest.Valid;
      var _ :- Checked(|occurrences| + 1);
      ghost var b := batch;
      var row := OccurrenceRow(|images|, pi, ci, li);
      occurrences := occurrences + [row];
      batch := batch.(occurrences := batch.occurrences + [row]);
      SameTables(payload.View(), tables, b, batch);
      return Success(());
    }

    method AppendFinding(ai: nat, fi: nat, si: nat) returns (r: Result<()>)
      requires Valid()
      modifies this`findings, this`batch
      ensures r.Success? ==> Valid() && old(batch).occurrences != []
      ensures r.Success? ==>
                batch == old(batch).(findings := old(batch).findings
                  + [FindingRow(|old(batch).occurrences| - 1, ai, fi, si)])
      ensures r.Fail? ==> r.error == Overflow && (|old(batch).findings| == MAX_U32 || old(batch).occurrences == [])
    {
      hide Encoded, PayloadBuilder.Valid, AliasForest.Valid;
      var _ :- Checked(|findings| + 1);
      var occurrence :- Checked(|occurrences| - 1);
      ghost var b := batch;
      var row := FindingRow(occurrence, ai, fi, si);
      findings := findings + [row];
      batch := batch.(findings := batch.findings + [row]);
      SameTables(payload.View(), tables, b, batch);
      return Success(());
    }

    /** The three rows of an occurrence, interned in order. */
    method OccurrenceKeys(pkg: Package, context: PackageContext, license: License) returns (r: Result<(nat, nat, nat)>)
      requires Valid()
      modifies this`tables, this`batch, payload
      ensures r.Success? ==> Valid()
      ensures r.Success? ==>
                payload.View() == AddLicense(AddContext(AddPackage(old(payload.View()), pkg), context), license)
      ensures r.Success? ==> batch == old(batch).(packages := Intern(old(batch).packages, pkg),
                                                  contexts := Intern(old(batch).contexts, context),
                                                  licenses := Intern(old(batch).licenses, license))
      ensures r.Success? ==>
                r.value == (RowOf(old(batch).packages, pkg), RowOf(old(batch).contexts, context),
                  RowOf(old(batch).licenses, license))
      ensures r == Fail(Internal) ==> license.status !in STATUS_NAMES
      ensures r.Fail? && r.error != Internal ==>
                r.error == Overflow && !Fits(Intakes.Take(old(State()), Batches.Occurrence(pkg, context, license)))
    {
      hide BatchBuilder.Valid, Intern, RowOf, AddPackage, AddContext, AddLicense, PayloadFits, PayloadBuilder.View,
        Intakes.Take, Fits;
      if Fits(Intakes.Take(State(), Batches.Occurrence(pkg, context, license))) {
        OccurrenceNeeds(State(), pkg, context, license);
      }
      var pi :- InternPackage(pkg);
      var ci :- InternContext(context);
      var li :- InternLicense(license);
      return Success((pi, ci, li));
    }

    method Occurrence(pkg: Package, context: PackageContext, license: License) returns (r: Result<()>)
      requires Valid()
      modifies this, payload
      ensures r.Success? ==> Valid() && State() == Intakes.Take(old(State()), Batches.Occurrence(pkg, context, license))
      ensures r.Success? ==> pointees == old(pointees)
      ensures r == Fail(Canceled) ==> ctx.Cancelable?
      ensures r == Fail(Internal) ==> license.status !in STATUS_NAMES
      ensures r == Fail(Overflow) ==> !Fits(Intakes.Take(old(State()), Batches.Occurrence(pkg, context, license)))
    {
      hide BatchBuilder.Valid, Intern, RowOf, AddOccurrence, AddPackage, AddContext, AddLicense, PayloadBuilder.View,
        Fits;
      var canceled := CheckContext(ctx);
      if canceled {
        return Fail(Canceled);
      }
      if Fits(Intakes.Take(State(), Batches.Occurrence(pkg, context, license))) {
        OccurrenceNeeds(State(), pkg, context, license);
      }
      AddOccurrenceIs(batch, pkg, context, license);
      var keys :- OccurrenceKeys(pkg, context, license);
      r := AppendOccurrence(keys.0, keys.1, keys.2);
    }

    /** The row of an advisory, looked up by pointer first. Packing and interning it again would give the
        same row and store nothing. */
    method AdvisoryRow(pointer: nat, advisory: Advisory) returns (r: Result<nat>)
      requires Valid()
      requires pointer in pointees ==> pointees[pointer] == advisory
      modifies this`tables, this`batch, this`imageAdvisories, this`pointees, payload
      ensures r.Success? ==> Valid() && payload.View() == AddAdvisory(old(payload.View()), advisory)
      ensures r.Success? ==> batch == old(batch).(advisories := Intern(old(batch).advisories, advisory))
      ensures r.Success? ==> r.value == RowOf(old(batch).advisories, advisory)
      ensures r.Success? ==> pointees == old(pointees)[pointer := advisory]
      ensures r.Fail? ==>
                r.error == Overflow &&
                (!PayloadFits(AddAdvisory(old(payload.View()), advisory))
                  || |Intern(old(batch).advisories, advisory)| > MAX_U32)
    {
      hide Encoded, PayloadBuilder.Valid, PayloadBuilder.View, AliasForest.Valid, AddAdvisory;
      ghost var b := batch;
      payload.Once();
      if pointer in imageAdvisories {
        EncodedDistinct(payload.View(), tables, batch);
        RowOfAt(batch.advisories, imageAdvisories[pointer]);
        EncodedAdvisory(payload.View(), tables, batch, imageAdvisories[pointer]);
        return Success(imageAdvisories[pointer]);
      }
      var ai :- InternAdvisory(advisory);
      InternKeeps(b.advisories, advisory);
      imageAdvisories := imageAdvisories[pointer := ai];
      pointees := pointees[pointer := advisory];
      return Success(ai);
    }

    /** The three rows of a finding, interned in order. */
    method FindingKeys(pointer: nat, advisory: Advisory, fix: Fix, assessment: Assessment)
      returns (r: Result<(nat, nat, nat)>)
      requires Valid()
      requires pointer in pointees ==> pointees[pointer] == advisory
      modifies this`tables, this`batch, this`imageAdvisories, this`pointees, payload
      ensures r.Success? ==> Valid()
      ensures r.Success? ==>
                payload.View() == AddAssessment(AddFix(AddAdvisory(old(payload.View()), advisory), fix), assessment)
      ensures r.Success? ==> pointees == old(pointees)[pointer := advisory]
      ensures r.Success? ==> batch == old(batch).(advisories := Intern(old(batch).advisories, advisory),
                                                  fixes := Intern(old(batch).fixes, fix),
                                                  assessments := Intern(old(batch).assessments, assessment))
      ensures r.Success? ==>
                r.value == (RowOf(old(batch).advisories, advisory), RowOf(old(batch).fixes, fix),
                  RowOf(old(batch).assessments, assessment))
      ensures r == Fail(Internal) ==> fix.status !in STATUS_NAMES
      ensures r.Fail? && r.error != Internal ==>
                r.error == Overflow &&
                (old(batch).occurrences == []
                  || !Fits(Intakes.Take(old(State()), Batches.Finding(pointer, advisory, fix, assessment))))
    {
      hide BatchBuilder.Valid, Intern, RowOf, AddAdvisory, AddFix, AddAssessment, PayloadFits, PayloadBuilder.View,
        Intakes.Take, Fits;
      if batch.occurrences != [] && Fits(Intakes.Take(State(), Batches.Finding(pointer, advisory, fix, assessment))) {
        FindingNeeds(State(), pointer, advisory, fix, assessment);
      }
      var ai :- AdvisoryRow(pointer, advisory);
      var fi :- InternFix(fix);
      var si :- InternAssessment(assessment);
      return Success((ai, fi, si));
    }

    method Finding(pointer: nat, advisory: Advisory, fix: Fix, assessment: Assessment) returns (r: Result<()>)
      requires Valid()
      requires pointer in pointees ==> pointees[pointer] == advisory
      modifies this, payload
      ensures r.Success? ==>
                Valid() && State() == Intakes.Take(old(State()), Batches.Finding(pointer, advisory, fix, assessment))
      ensures r.Success? ==> pointees == old(pointees)[pointer := advisory]
      ensures r == Fail(Canceled) ==> ctx.Cancelable?
      ensures r == Fail(Internal) ==> fix.status !in STATUS_NAMES
      ensures r == Fail(Overflow) ==>
                || old(batch).occurrences == []
                || !Fits(Intakes.Take(old(State()), Batches.Finding(pointer, advisory, fix, assessment)))
    {
      hide BatchBuilder.Valid, Intern, RowOf, AddFinding, AddAdvisory, AddFix, AddAssessment, PayloadBuilder.View, Fits;
      var canceled := CheckContext(ctx);
      if canceled {
        return Fail(Canceled);
      }
      if batch.occurrences != [] && Fits(Intakes.Take(State(), Batches.Finding(pointer, advisory, fix, assessment))) {
        FindingNeeds(State(), pointer, advisory, fix, assessment);
      }
      AddFindingIs(batch, advisory, fix, assessment);
      var keys :- FindingKeys(pointer, advisory, fix, assessment);
      r := AppendFinding(keys.0, keys.1, keys.2);
    }

    method Union(ids: seq<string>) returns (r: Result<()>)
      requires Valid()
      modifies this`batch, forest
      ensures r.Success? ==> Valid() && State() == Intakes.Take(old(State()), Batches.Union(ids))
      ensures r.Fail? ==>
                || (r.error == Canceled && ctx.Cancelable?)
                || (r.error == Overflow && !Fits(Intakes.Take(old(State()), Batches.Union(ids))))
    {
      hide Encoded, PayloadBuilder.Valid, PayloadBuilder.View, AliasForest.Valid, InternAll;
      ghost var b := batch;
      var _ :- forest.Union(ctx, ids);
      batch := batch.(groups := batch.groups + [ids]);
      SameTables(payload.View(), tables, b, batch);
      return Success(());
    }

    /** One sink call. */
    method Take(call: SinkCall) returns (r: Result<()>)
      requires Valid()
      requires call.Finding? && call.pointer in pointees ==> pointees[call.pointer] == call.advisory
      modifies this, payload, forest
      ensures r.Success? ==> Valid() && State() == Intakes.Take(old(State()), call)
      ensures r.Success? ==>
                pointees == if call.Finding? then old(pointees)[call.pointer := call.advisory] else old(pointees)
      ensures r == Fail(Canceled) ==> ctx.Cancelable?
      ensures r == Fail(Internal) ==> !KnownStatus(call)
      ensures r == Fail(Overflow) ==>
                (call.Finding? && old(batch).occurrences == []) || !Fits(Intakes.Take(old(State()), call))
    {
      hide BatchBuilder.Valid, BatchBuilder.State, Intakes.Take, Fits;
      match call
      case Occurrence(pkg, context, license) => r := Occurrence(pkg, context, license);
      case Finding(pointer, advisory, fix, assessment) => r := Finding(pointer, advisory, fix, assessment);
      case Union(ids) => r := Union(ids);
    }

    /** The sink calls of an image. */
    method TakeAll(calls: seq<SinkCall>) returns (r: Result<()>)
      requires Valid() && pointees == map[]
      requires WellOrdered(calls) && OnePointer(calls) && forall i :: 0 <= i < |calls| ==> KnownStatus(calls[i])
      modifies this, payload, forest
      ensures r.Success? ==> Valid() && State() == Intakes.TakeAll(old(State()), calls)
      ensures r.Fail? ==>
                || (r.error == Canceled && ctx.Cancelable?)
                || (r.error == Overflow && !Fits(Intakes.TakeAll(old(State()), calls)))
    {
      hide BatchBuilder.Valid, Intakes.Take, Intakes.TakeAll, Fits, KnownStatus, WellOrdered, OnePointer, Taken,
        PayloadBuilder.View;
      ghost var s0 := State();
      TakenNone(s0, calls);
      for i := 0 to |calls|
        invariant Valid() && Taken(s0, State(), pointees, calls, i)
      {
        TakenNext(s0, State(), pointees, calls, i);
        var _ :- Take(calls[i]);
      }
      TakenAll(s0, State(), pointees, calls);
      return Success(());
    }

    /** The vulnerability row of every advisory, by the alias that is its identifier. */
    method LinkAdvisories(byAlias: seq<nat>, roots: seq<nat>) returns (r: Result<seq<nat>>)
      requires forest.Valid() && payload.Valid()
      requires AliasTables.RootOrder(roots, forest.names, forest.rootOf)
      requires AliasTables.AliasRows(byAlias, forest.rootOf, roots, |roots|)
      requires Packed(AdvisoryEncoding(), payload.View(), tables.advisories.rows, batch.advisories)
      requires forest.groups == batch.groups
      ensures r.Success? ==> |r.value| == |batch.advisories|
      ensures r.Success? ==>
                var rows := AliasTables.RowsFor(forest.names, forest.rootOf, roots);
                forall a :: 0 <= a < |batch.advisories| ==> IsVulnerabilityRow(batch, rows, a, r.value[a])
      ensures r.Fail? ==> r.error == Canceled && ctx.Cancelable?
    {
      hide Linked, PayloadBuilder.Valid, AliasForest.Valid, AliasTables.RowsFor, Components, AliasTables.RootOrder,
        AliasTables.AliasRows, Names;
      var linked: seq<nat> := [];
      ghost var rows := AliasTables.RowsFor(forest.names, forest.rootOf, roots);
      forest.Meaning();
      for i := 0 to |tables.advisories.rows|
        invariant |linked| == i
        invariant forall a :: 0 <= a < i ==> IsVulnerabilityRow(batch, rows, a, linked[a])
        modifies {}
      {
        var canceled := CheckContext(ctx);
        if canceled {
          return Fail(Canceled);
        }
        assert AdvisoryEncoding()(payload.View(), tables.advisories.rows[i], batch.advisories[i]);
        var id := payload.strings[tables.advisories.rows[i].id - 1];
        var vi := 0;
        if id in forest.aliasID {
          AliasRowLinked(forest.groups, forest.names, forest.rootOf, roots, byAlias, forest.aliasID[id]);
          vi := byAlias[forest.aliasID[id]];
        }
        linked := linked + [vi];
      }
      return Success(linked);
    }

    /** Finalization of the aliases: the tables are complete except for their indexes. Overflow exactly
        when the packed rows do not fit. */
    method FinishAliases() returns (r: Result<ReportStore>)
      requires Valid()
      modifies payload, forest
      ensures var rows := AliasTables.TableOf(batch.groups);
              && (r.Success? ==> TablesFit(r.value) && Finished(r.value, batch, rows))
              && (r.Success? ==> r.value.payload == AliasTables.AddRows(old(payload.View()), rows))
              && (r.Fail? ==>
                    || (r.error == Canceled && ctx.Cancelable?)
                    || (r.error == Overflow && !PayloadFits(AliasTables.AddRows(old(payload.View()), rows))))
    {
      hide Linked, PayloadBuilder.Valid, PayloadBuilder.View, AliasForest.Valid, Encoded, Components, Extends,
        PayloadFits, AliasTables.RowsFor, AliasTables.RootOrder, AliasTables.AliasRows, AliasTables.IsTable,
        AliasTables.RowsPacked, AliasTables.AddRows, AliasTables.TableOf;
      ghost var p := payload.View();
      EncodedSizes(p, tables, batch);
      forest.Sizes();
      var groups :- AliasTables.GroupByRoot(ctx, forest);
      forest.Meaning();
      AliasTables.GroupsSize(groups, forest.names, forest.rootOf);
      AliasTables.RootsFit(groups.roots, forest.names, forest.rootOf);
      ghost var table := AliasTables.RowsFor(forest.names, forest.rootOf, groups.roots);
      AliasTables.RowsAreTable(forest.groups, forest.names, forest.rootOf, groups.roots);
      AliasTables.TableIs(forest.groups, table);
      var rows :- AliasTables.BuildRows(ctx, forest.names, groups, payload, forest.rootOf, forest.groups);
      AliasTables.AddRowsGrows(p, table);
      TablesFinished(p, payload.View(), tables, batch);
      payload.Once();
      var linked :- LinkAdvisories(rows.byAlias, groups.roots);
      var store := ReportStore(images, tables.packages.rows, rows.rows, tables.advisories.rows, tables.contexts.rows,
                               tables.assessments.rows, tables.licenses.rows, tables.fixes.rows, occurrences, findings,
                               linked, payload.Snapshot());
      AliasTables.RowsPackedSize(store.payload, rows.rows, forest.names, forest.rootOf, groups.roots);
      return Success(store);
    }

    /** The image record closes the image. */
    method AppendImage(image: Image) returns (r: Result<()>)
      requires Valid()
      modifies this`images, this`batch, this`imageAdvisories, this`pointees
      ensures r.Success? ==> Valid() && batch == old(batch).(images := old(batch).images + [image]) && pointees == map[]
      ensures r.Fail? ==> r.error == Overflow && |old(batch).images| == MAX_U32
    {
      hide Encoded, PayloadBuilder.Valid, PayloadBuilder.View, AliasForest.Valid;
      ghost var b := batch;
      var _ :- Checked(|images| + 1);
      images := images + [image];
      batch := batch.(images := batch.images + [image]);
      imageAdvisories, pointees := map[], map[];
      SameTables(payload.View(), tables, b, batch);
      return Success(());
    }

    /** A fresh memo for the next image. */
    method ForgetPointers()
      requires Valid()
      modifies this`imageAdvisories, this`pointees
      ensures Valid() && pointees == map[] && State() == old(State())
    {
      hide Encoded, PayloadBuilder.Valid, PayloadBuilder.View, AliasForest.Valid;
      imageAdvisories, pointees := map[], map[];
    }

    /** Streaming the facts of one image. */
    method AddFacts(facts: Facts) returns (r: Result<()>)
      requires Valid() && Projected(facts)
      modifies this, payload, forest
      ensures r.Success? ==> Valid() && State() == Stream(old(State()), facts)
      ensures r.Fail? ==>
                || (r.error == Canceled && ctx.Cancelable?)
                || (r.error == Overflow && !Fits(Stream(old(State()), facts)))
    {
      hide BatchBuilder.Valid, WellOrdered, OnePointer, KnownStatus, Named, PayloadBuilder.View, Intakes.TakeAll,
        Stream, Fits;
      ghost var s := State();
      StreamNeeds(s, facts);
      ForgetPointers();
      var _ :- TakeAll(facts.calls);
      r := AppendImage(facts.image);
    }

    /** The findings of one buffered occurrence. */
    method MergeFindings(o: PendingOccurrence, ghost s0: Intake, ghost calls: seq<SinkCall>, ghost at: nat)
      returns (r: Result<()>)
      requires Valid() && at + |o.findings| <= |calls| && calls[at..at + |o.findings|] == FindingCalls(o.findings)
      requires WellOrdered(calls) && OnePointer(calls) && forall i :: 0 <= i < |calls| ==> KnownStatus(calls[i])
      requires Taken(s0, State(), pointees, calls, at)
      modifies this, payload
      ensures r.Success? ==> Valid() && Taken(s0, State(), pointees, calls, at + |o.findings|)
      ensures r.Fail? ==>
                || (r.error == Canceled && ctx.Cancelable?)
                || (r.error == Overflow && !Fits(Intakes.TakeAll(s0, calls)))
    {
      hide BatchBuilder.Valid, Intakes.Take, Intakes.TakeAll, Fits, KnownStatus, WellOrdered, OnePointer, Taken,
        PayloadBuilder.View;
      for k := 0 to |o.findings|
        invariant Valid() && Taken(s0, State(), pointees, calls, at + k)
      {
        var f := o.findings[k];
        assert calls[at + k] == calls[at..at + |o.findings|][k];
        TakenNext(s0, State(), pointees, calls, at + k);
        StatusKnown(calls[at + k]);
        var _ :- Finding(f.pointer, f.advisory, f.fix, f.assessment);
      }
      return Success(());
    }

    /** Replaying a buffered image: every union first, then each occurrence with its findings. */
    method MergeFacts(p: Pending) returns (r: Result<()>)
      requires Valid()
      requires WellOrdered(Replay(p)) && OnePointer(Replay(p)) && forall i :: 0 <= i < |Replay(p)| ==>
                 KnownStatus(Replay(p)[i])
      modifies this, payload, forest
      ensures r.Success? ==> Valid() && State() == Absorb(old(State()), p)
      ensures r.Fail? ==>
                || (r.error == Canceled && ctx.Cancelable?)
                || (r.error == Overflow && !Fits(Absorb(old(State()), p)))
    {
      hide BatchBuilder.Valid, KnownStatus, WellOrdered, OnePointer, Taken, AllOccurrenceCalls, Replay, Intakes.Take,
        Intakes.TakeAll, Stream, Fits, PayloadBuilder.View;
      ghost var calls, s0 := Replay(p), State();
      StreamNeeds(s0, Facts(calls, p.image));
      ForgetPointers();
      TakenNone(s0, calls);
      for i := 0 to |p.aliases|
        invariant Valid() && i <= |calls| && Taken(s0, State(), pointees, calls, i)
      {
        ReplayUnion(p, i);
        TakenNext(s0, State(), pointees, calls, i);
        var _ :- Union(p.aliases[i]);
      }
      ghost var at: nat := |p.aliases|;
      ReplayStarts(p);
      for i := 0 to |p.occurrences|
        invariant Valid() && ReplayAt(p, i, at) && Taken(s0, State(), pointees, calls, at)
      {
        var o := p.occurrences[i];
        ReplayNext(p, i, at);
        TakenNext(s0, State(), pointees, calls, at);
        StatusKnown(calls[at]);
        var _ :- Occurrence(o.pkg, o.context, o.license);
        at := at + 1;
        var _ :- MergeFindings(o, s0, calls, at);
        at := at + |o.findings|;
      }
      ReplayEnds(p, at);
      TakenAll(s0, State(), pointees, calls);
      r := AppendImage(p.image);
    }

    /** Projecting one response and streaming its facts into the batch. Without cancellation it succeeds
        exactly when the state with these facts fits. */
    method Add(v: Fixes.Versions, req: Projection.Request, resp: Projection.Response) returns (r: Result<()>)
      requires Valid() && Projection.ValidPointers(resp.result)
      modifies this, payload, forest
      ensures var after := Stream(old(State()), Projection.FactsOf(v, req, resp));
              && (r.Success? ==> Valid() && State() == after && Fits(after))
              && (r == Fail(Overflow) ==> !Fits(after))
      ensures r.Fail? ==> (r.error == Canceled && ctx.Cancelable?) || r.error == Overflow
    {
      hide BatchBuilder.Valid, Projection.FactsOf, Projected, Projection.ValidPointers, Stream, Fits,
        PayloadBuilder.View;
      var facts :- Projection.ProjectImage(ctx, v, req, resp);
      Projection.FactsAreProjected(v, req, resp);
      r := AddFacts(facts);
      if r.Success? {
        StateFits();
      }
    }

    /** Merging an image that was buffered when its turn had not come: the same state as if it had been
        streamed, and overflow in exactly the same cases. */
    method Merge(p: Pending, ghost facts: Facts) returns (r: Result<()>)
      requires Valid() && Projected(facts) && p == BufferAll(facts.image, facts.calls)
      modifies this, payload, forest
      ensures var after := Stream(old(State()), facts);
              && (r.Success? ==> Valid() && State() == after && Fits(after))
              && (r == Fail(Overflow) ==> !Fits(after))
      ensures r.Fail? ==> (r.error == Canceled && ctx.Cancelable?) || r.error == Overflow
    {
      hide BatchBuilder.Valid, BufferAll, Replay, Stream, Absorb, Fits, WellOrdered, Named, OnePointer, KnownStatus,
        PayloadBuilder.View;
      ReplayProjected(facts);
      AbsorbIsStream(State(), facts);
      r := MergeFacts(p);
      if r.Success? {
        StateFits();
      }
    }
  }

  // ---------------------------------------------------------------- the state says everything

  lemma TableDetermined<T(!new), V(!new)>(enc: (Payload, T, V) -> bool, p: Payload, t: Table<T>, u: Table<T>,
                                          values: seq<V>)
    requires Encoding(enc) && StoredOnce(p) && Stands(enc, p, t, values) && Stands(enc, p, u, values)
    ensures t == u
  {
    hide Extends, StoredOnce;
    forall i | 0 <= i < |values|
      ensures t.rows[i] == u.rows[i]
    {
      assert enc(p, t.rows[i], values[i]) && enc(p, u.rows[i], values[i]);
    }
    assert t.rows == u.rows;
    forall x
      ensures x in t.ids <==> x in u.ids
      ensures x in t.ids ==> t.ids[x] == u.ids[x]
    {
    }
  }

  /** Two builders of the same state agree in everything that finishing reads: all tables with their
      lookup maps, the rows, and the root of every alias. */
  lemma StateDetermines(x: BatchBuilder, y: BatchBuilder)
    requires x.Valid() && y.Valid() && x.State() == y.State()
    ensures x.tables == y.tables && x.images == y.images && x.occurrences == y.occurrences && x.findings == y.findings
    ensures x.forest.names == y.forest.names && x.forest.rootOf == y.forest.rootOf && x.forest.groups == y.forest.groups
    ensures x.payload.strings == y.payload.strings && x.payload.words == y.payload.words
  {
    hide PayloadBuilder.Valid, AliasForest.Valid, Encoded, Components;
    x.payload.Once();
    x.forest.Meaning();
    y.forest.Meaning();
    AliasTables.RootsUnique(x.batch.groups, x.forest.names, x.forest.rootOf, y.forest.rootOf);
    TablesDetermined(x.payload.View(), x.tables, y.tables, x.batch);
  }

  lemma TablesDetermined(p: Payload, t: Tables, u: Tables, b: Batch)
    requires StoredOnce(p) && Encoded(p, t, b) && Encoded(p, u, b)
    ensures t == u
  {
    PackageRowsAgree();
    ContextRowsAgree();
    LicenseRowsAgree();
    AdvisoryRowsAgree();
    FixRowsAgree();
    AssessmentRowsAgree();
    hide StoredOnce, Stands, Encoding;
    TableDetermined(PackageEncoding(), p, t.packages, u.packages, b.packages);
    TableDetermined(ContextEncoding(), p, t.contexts, u.contexts, b.contexts);
    TableDetermined(LicenseEncoding(), p, t.licenses, u.licenses, b.licenses);
    TableDetermined(AdvisoryEncoding(), p, t.advisories, u.advisories, b.advisories);
    TableDetermined(FixEncoding(), p, t.fixes, u.fixes, b.fixes);
    TableDetermined(AssessmentEncoding(), p, t.assessments, u.assessments, b.assessments);
  }

  // ---------------------------------------------------------------- buffering out of turn

  /** The sink that holds an image's facts until its turn comes. */
  class PendingImage {
    var occurrences: seq<PendingOccurrence>
    var aliases: seq<seq<string>>

    constructor ()
      ensures occurrences == [] && aliases == []
    {
      occurrences, aliases := [], [];
    }

    function View(image: Image): Pending
      reads this
    {
      Pending(image, occurrences, aliases)
    }

    method Occurrence(pkg: Package, context: PackageContext, license: License)
      modifies this
      ensures forall image :: View(image) == Buffer(old(View(image)), Batches.Occurrence(pkg, context, license))
    {
      occurrences := occurrences + [PendingOccurrence(pkg, context, license, [])];
    }

    /** A finding without an occurrence to belong to panics. */
    method Finding(pointer: nat, advisory: Advisory, fix: Fix, assessment: Assessment) returns (r: Result<()>)
      modifies this
      ensures r == if old(occurrences) == [] then Fail(Internal) else Success(())
      ensures forall image ::
                View(image) == Buffer(old(View(image)), Batches.Finding(pointer, advisory, fix, assessment))
    {
      if occurrences == [] {
        return Fail(Internal);
      }
      var last := |occurrences| - 1;
      var o := occurrences[last];
      occurrences := occurrences[last :=
        o.(findings := o.findings + [PendingFinding(pointer, advisory, fix, assessment)])];
      return Success(());
    }

    method Union(ids: seq<string>)
      modifies this
      ensures forall image :: View(image) == Buffer(old(View(image)), Batches.Union(ids))
    {
      aliases := aliases + [ids];
    }
  }

  /** Projecting one response into a buffer. */
  method Hold(ctx: Context, v: Fixes.Versions, req: Projection.Request, resp: Projection.Response)
    returns (r: Result<Pending>)
    requires Projection.ValidPointers(resp.result)
    ensures r.Success? ==>
              var facts := Projection.FactsOf(v, req, resp);
              r.value == BufferAll(facts.image, facts.calls) && Projected(facts)
    ensures r.Fail? ==> r.error == Canceled && ctx.Cancelable?
  {
    hide Projection.FactsOf, Projection.ValidPointers, KnownStatus, Named, OnePointer, Buffer;
    var facts :- Projection.ProjectImage(ctx, v, req, resp);
    Projection.FactsAreProjected(v, req, resp);
    var sink := new PendingImage();
    var calls := facts.calls;
    for i := 0 to |calls|
      invariant sink.View(facts.image) == BufferAll(facts.image, calls[..i])
    {
      assert calls[..i + 1][..i] == calls[..i];
      match calls[i] {
        case Occurrence(pkg, context, license) =>
          sink.Occurrence(pkg, context, license);
        case Finding(pointer, advisory, fix, assessment) =>
          var j :| 0 <= j < i && calls[j].Occurrence?;
          BufferEmpty(facts.image, calls[..i], j);
          var held := sink.Finding(pointer, advisory, fix, assessment);
          assert held.Success?;
        case Union(ids) =>
          sink.Union(ids);
      }
    }
    assert calls[..|calls|] == calls;
    return Success(sink.View(facts.image));
  }
}
