/** Freezing a batch: the tables and their sixteen indexes. */
module Finishing {
  import opened Common
  import opened Order
  import opened Report
  import opened Payloads
  import opened Records
  import opened Aliases
  import opened Batches
  import opened Intakes
  import opened Builder
  import opened Indexes
  import opened Relations
  import opened Planning
  import AliasTables

  datatype Frozen = Frozen(store: ReportStore, indexes: seq<ReportIndex>)

  /** The tables hold a complete batch with `rows` as its vulnerabilities, and the indexes hold the
      relations of these tables. */
  ghost predicate FrozenFrom(store: ReportStore, indexes: seq<Index>, b: Batch, rows: seq<Vulnerability>) {
    && TablesFit(store)
    && Finished(store, b, rows)
    && Batches.Complete(b)
    && IndexesBuilt(store, indexes)
    && forall k :: 0 <= k < |indexes| ==> |indexes[k].members| <= MAX_U32
  }

  ghost function Views(indexes: seq<ReportIndex>): (views: seq<Index>)
    reads set k | 0 <= k < |indexes| :: indexes[k].offsets
    reads set k | 0 <= k < |indexes| :: indexes[k].members
    ensures |views| == |indexes| && forall k :: 0 <= k < |indexes| ==> views[k] == indexes[k].View()
  {
    if indexes == [] then [] else Views(indexes[..|indexes| - 1]) + [indexes[|indexes| - 1].View()]
  }

  lemma FinishedSizes(store: ReportStore, b: Batch, rows: seq<Vulnerability>)
    requires Finished(store, b, rows)
    ensures store.images == b.images && store.occurrences == b.occurrences && store.findings == b.findings
    ensures |store.packages| == |b.packages| && |store.contexts| == |b.contexts| && |store.licenses| == |b.licenses|
    ensures |store.advisorySources| == |b.advisories| && |store.fixes| == |b.fixes|
            && |store.assessments| == |b.assessments|
    ensures |store.vulnerabilities| == |rows| && |store.advisoryVulnerabilities| == |b.advisories|
    ensures forall a :: 0 <= a < |b.advisories| ==> IsVulnerabilityRow(b, rows, a, store.advisoryVulnerabilities[a])
  {
    hide AliasTables.IsTable, IsVulnerabilityRow;
  }

  /** Every advisory has a vulnerability row, because its identifier was united before its first
      finding, and that row is the component of the identifier. */
  lemma AdvisoriesLinked(store: ReportStore, b: Batch, rows: seq<Vulnerability>)
    requires Finished(store, b, rows) && Batches.Complete(b)
    ensures |store.advisoryVulnerabilities| == |b.advisories|
    ensures forall a :: 0 <= a < |b.advisories| ==>
              store.advisoryVulnerabilities[a] < |rows| &&
              Linked(b.groups, rows[store.advisoryVulnerabilities[a]].id, b.advisories[a].id)
  {
    FinishedSizes(store, b, rows);
    hide Linked, Names, Finished, OccurrenceInRange, FindingInRange;
    forall a | 0 <= a < |b.advisories|
      ensures store.advisoryVulnerabilities[a] < |rows|
      ensures Linked(b.groups, rows[store.advisoryVulnerabilities[a]].id, b.advisories[a].id)
    {
      assert IsVulnerabilityRow(b, rows, a, store.advisoryVulnerabilities[a]);
    }
  }

  /** In the tables of a complete batch, rows only refer to rows. */
  lemma FinishedIsLinked(store: ReportStore, b: Batch, rows: seq<Vulnerability>)
    requires Finished(store, b, rows) && Batches.Complete(b)
    ensures RowsLinked(store)
  {
    FinishedSizes(store, b, rows);
    AdvisoriesLinked(store, b, rows);
    RowsInRange(b);
    hide Linked, Names, Finished, IsVulnerabilityRow, Linkage, Batches.Complete;
    if |b.findings| > 0 {
      assert store.advisoryVulnerabilities[b.findings[0].advisory] < |rows|;
    }
  }

  lemma RowsInRange(b: Batch)
    requires Batches.Complete(b)
    ensures forall i :: 0 <= i < |b.occurrences| ==>
              b.occurrences[i].image < |b.images| && b.occurrences[i].pkg < |b.packages| &&
              b.occurrences[i].context < |b.contexts| && b.occurrences[i].license < |b.licenses|
    ensures forall i :: 0 <= i < |b.findings| ==>
              b.findings[i].occurrence < |b.occurrences| && b.findings[i].advisory < |b.advisories| &&
              b.findings[i].fix < |b.fixes| && b.findings[i].assessment < |b.assessments|
    ensures forall i, j :: 0 <= i < j < |b.occurrences| ==> b.occurrences[i].image <= b.occurrences[j].image
    ensures forall i, j :: 0 <= i < j < |b.findings| ==> b.findings[i].occurrence <= b.findings[j].occurrence
  {
    hide Names;
    forall i | 0 <= i < |b.occurrences|
      ensures OccurrenceInRange(b, b.occurrences[i])
    {
    }
    forall i | 0 <= i < |b.findings|
      ensures FindingInRange(b, b.findings[i])
    {
    }
  }

  lemma NoncompliantIs(store: ReportStore, b: Batch, rows: seq<Vulnerability>, o: nat)
    requires Finished(store, b, rows) && o < |b.occurrences|
    ensures o < |store.occurrences| && (Noncompliant(store, o) <==> NoncompliantIn(b, o))
  {
    hide AliasTables.IsTable, IsVulnerabilityRow, IsStrings, StoredOnce, AliasTables.RowsPacked;
    var l := b.occurrences[o].license;
    if l < |b.licenses| {
      assert LicenseEncoding()(store.payload, store.licenses[l], b.licenses[l]);
      StatusNamesAgree(store.licenses[l].status, NONCOMPLIANT, b.licenses[l].status, "noncompliant");
    }
  }

  // ---------------------------------------------------------------- room for freezing

  /** Every key table has room for a closing offset, and the affected images can be counted. */
  ghost predicate IndexesFit(b: Batch, vulnerabilities: nat) {
    && |b.images| < MAX_U32 && |b.packages| < MAX_U32 && |b.occurrences| < MAX_U32
    && vulnerabilities < MAX_U32 && |b.advisories| < MAX_U32
    && |b.findings| + NoncompliantsIn(b, |b.occurrences|) <= MAX_U32
  }

  /** The vulnerability rows can be packed and all relations can be indexed. */
  ghost predicate Freezes(s: Intake) {
    var rows := AliasTables.TableOf(s.batch.groups);
    PayloadFits(AliasTables.AddRows(s.payload, rows)) && IndexesFit(s.batch, |rows|)
  }

  lemma {:induction false} NoncompliantsAre(store: ReportStore, b: Batch, rows: seq<Vulnerability>, n: nat)
    requires Finished(store, b, rows) && n <= |b.occurrences|
    ensures n <= |store.occurrences| && NoncompliantCount(store, n) == NoncompliantsIn(b, n)
  {
    hide Finished, Noncompliant, NoncompliantIn;
    FinishedSizes(store, b, rows);
    if n > 0 {
      NoncompliantsAre(store, b, rows, n - 1);
      NoncompliantIs(store, b, rows, n - 1);
    }
  }

  /** The plan of a finished batch is too large exactly when its indexes do not fit. */
  lemma PlanFitsExactly(store: ReportStore, b: Batch, rows: seq<Vulnerability>)
    requires Finished(store, b, rows) && TablesFit(store)
    ensures PlanTooLarge(store) <==> !IndexesFit(b, |rows|)
  {
    hide Finished, PlanTooLarge;
    FinishedSizes(store, b, rows);
    NoncompliantsAre(store, b, rows, |b.occurrences|);
    PlanTooLargeExactly(store);
  }

  /** Finalization of the aliases, then the indexes. Without cancellation it succeeds exactly when there
      is room. */
  method Finish(builder: BatchBuilder) returns (r: Result<Frozen>)
    requires builder.Valid() && Batches.Complete(builder.batch)
    modifies builder.payload, builder.forest
    ensures r.Success? ==>
              FrozenFrom(r.value.store, Views(r.value.indexes), builder.batch,
                AliasTables.TableOf(builder.batch.groups))
    ensures r.Success? ==> forall k :: 0 <= k < |r.value.indexes| ==> r.value.indexes[k].Valid()
    ensures r.Success? ==> Freezes(old(builder.State()))
    ensures r.Fail? ==>
              || (r.error == Canceled && builder.ctx.Cancelable?)
              || (r.error == Overflow && !Freezes(old(builder.State())))
  {
    hide BatchBuilder.Valid, Finished, Batches.Complete, TablesFit, RowsLinked, Built, PlanTooLarge, IndexesFit,
      PayloadFits;
    ghost var b, rows := builder.batch, AliasTables.TableOf(builder.batch.groups);
    var store :- builder.FinishAliases();
    FinishedIsLinked(store, b, rows);
    PlanFitsExactly(store, b, rows);
    FinishedPayload(store, b, rows);
    var indexes :- BuildIndexes(builder.ctx, store);
    assert FrozenFrom(store, Views(indexes), b, rows);
    return Success(Frozen(store, indexes));
  }

  lemma FinishedPayload(store: ReportStore, b: Batch, rows: seq<Vulnerability>)
    requires Finished(store, b, rows)
    ensures StoredOnce(store.payload) && PayloadFits(store.payload)
  {
    hide AliasTables.IsTable, IsVulnerabilityRow;
  }

  // ---------------------------------------------------------------- what has room has a frozen form

  /** Packed forms for all values of a table. */
  lemma {:induction false} PackedExists<T(!new), V>(enc: (Payload, T, V) -> bool, p: Payload, values: seq<V>)
    returns (rows: seq<T>)
    requires Rows(enc, p, values)
    ensures Packed(enc, p, rows, values)
  {
    if values == [] {
      rows := [];
    } else {
      var n := |values| - 1;
      forall v | v in values[..n]
        ensures exists t :: enc(p, t, v)
      {
        assert v in values;
      }
      var before := PackedExists(enc, p, values[..n]);
      assert values[n] in values;
      var t :| enc(p, t, values[n]);
      rows := before + [t];
    }
  }

  /** The vulnerability row of every advisory. */
  lemma {:induction false} LinksExist(b: Batch, rows: seq<Vulnerability>, n: nat) returns (linked: seq<nat>)
    requires AliasTables.IsTable(b.groups, rows) && n <= |b.advisories|
    ensures |linked| == n && forall a :: 0 <= a < n ==> IsVulnerabilityRow(b, rows, a, linked[a])
  {
    hide AliasTables.IsRow, Linked, Names;
    if n == 0 {
      linked := [];
    } else {
      linked := LinksExist(b, rows, n - 1);
      var id := b.advisories[n - 1].id;
      if id in Names(b.groups) {
        var i :| 0 <= i < |rows| && Linked(b.groups, rows[i].id, id);
        linked := linked + [i];
      } else {
        linked := linked + [0];
      }
    }
  }

  /** A key's window: its distinct values, increasing. */
  lemma {:induction false} MemberIndexExists(edges: seq<Edge>, size: nat) returns (ix: Index)
    ensures MemberIndex(ix, size, edges)
  {
    if size == 0 {
      ix := Index([0], [], false);
    } else {
      hide ValueSet, ValuesOf, Canonical;
      var before := MemberIndexExists(edges, size - 1);
      var row := Canonical(NatLess(), ValuesOf(edges, size - 1));
      NatLessTotal();
      CanonicalForm(NatLess(), ValuesOf(edges, size - 1));
      ValuesOfElements(edges, size - 1);
      ix := Index(before.offsets + [|before.members| + |row|], before.members + row, false);
      assert ix.members[|before.members|..] == row;
      forall k | 0 <= k < size
        ensures Segment(ix.members, ix.offsets[k], ix.offsets[k + 1], ValueSet(edges, k))
      {
        if k < size - 1 {
          assert Segment(before.members, before.offsets[k], before.offsets[k + 1], ValueSet(edges, k));
          assert ix.members[ix.offsets[k]..ix.offsets[k + 1]]
                 == before.members[before.offsets[k]..before.offsets[k + 1]];
        } else {
          assert ix.members[ix.offsets[k]..ix.offsets[k + 1]] == row;
        }
      }
    }
  }

  lemma RangeIndexExists(edges: seq<Edge>, size: nat) returns (ix: Index)
    ensures RangeIndex(ix, size, edges)
  {
    ix := Index(seq(size + 1, k requires 0 <= k => Below(edges, k)), [], true);
    forall k | 0 <= k < size
      ensures ix.offsets[k] <= ix.offsets[k + 1]
    {
      BelowMonotone(edges, k, k + 1);
    }
  }

  lemma IndexExists(store: ReportStore, rel: Relation) returns (ix: Index)
    requires RowsLinked(store) && !PlanTooLarge(store)
    ensures Built(store, rel, ix) && |ix.members| <= MAX_U32
  {
    hide RowsLinked, Edges, KeyCount, RawGiven;
    var edges := Edges(store, rel);
    if Contiguous(rel) {
      ix := RangeIndexExists(edges, KeyCount(store, rel));
    } else {
      ix := MemberIndexExists(edges, KeyCount(store, rel));
      EdgesInRange(store, rel);
      MembersBounded(ix, KeyCount(store, rel), edges, ValueCount(store, rel));
      EdgesCounted(store, rel);
      assert Raw(store, rel) <= MAX_U32;
    }
  }

  lemma {:induction false} IndexesExist(store: ReportStore, n: nat) returns (indexes: seq<Index>)
    requires RowsLinked(store) && !PlanTooLarge(store) && n <= |RELATIONS|
    ensures |indexes| == n
    ensures forall k :: 0 <= k < n ==> Built(store, RELATIONS[k], indexes[k]) && |indexes[k].members| <= MAX_U32
  {
    hide RowsLinked, PlanTooLarge, Built, RELATIONS;
    if n == 0 {
      indexes := [];
    } else {
      indexes := IndexesExist(store, n - 1);
      var ix := IndexExists(store, RELATIONS[n - 1]);
      indexes := indexes + [ix];
    }
  }

  /** The tables of a state that fits. */
  lemma StoreExists(s: Intake) returns (store: ReportStore)
    requires AllPacked(s) && Fits(s) && PayloadFits(AliasTables.AddRows(s.payload, AliasTables.TableOf(s.batch.groups)))
    ensures TablesFit(store) && Finished(store, s.batch, AliasTables.TableOf(s.batch.groups))
  {
    hide StoredOnce, PayloadFits, Rows, Extends, Encoding, AliasTables.IsTable, AliasTables.RowsPacked,
      AliasTables.TableOf, IsVulnerabilityRow, Names;
    var b := s.batch;
    var rows := AliasTables.TableExists(b.groups, s.names);
    AliasTables.TableIs(b.groups, rows);
    var q := AliasTables.AddRows(s.payload, rows);
    AliasTables.AddRowsGrows(s.payload, rows);
    var stored := AliasTables.RowsNamed(s.payload, rows);
    RowsPackedLength(q, stored, rows);
    RowsStay(s, q);
    var packages := PackedExists(PackageEncoding(), q, b.packages);
    var contexts := PackedExists(ContextEncoding(), q, b.contexts);
    var licenses := PackedExists(LicenseEncoding(), q, b.licenses);
    var advisories := PackedExists(AdvisoryEncoding(), q, b.advisories);
    var fixes := PackedExists(FixEncoding(), q, b.fixes);
    var assessments := PackedExists(AssessmentEncoding(), q, b.assessments);
    var linked := LinksExist(b, rows, |b.advisories|);
    store := ReportStore(b.images, packages, stored, advisories, contexts, assessments, licenses, fixes, b.occurrences,
      b.findings, linked, q);
  }

  lemma RowsPackedLength(p: Payload, stored: seq<StoredVulnerability>, rows: seq<Vulnerability>)
    requires AliasTables.RowsPacked(p, stored, rows)
    ensures |stored| == |rows|
  {
  }

  lemma RowsStay(s: Intake, q: Payload)
    requires AllPacked(s) && Extends(s.payload, q)
    ensures Rows(PackageEncoding(), q, s.batch.packages)
    ensures Rows(ContextEncoding(), q, s.batch.contexts)
    ensures Rows(LicenseEncoding(), q, s.batch.licenses)
    ensures Rows(AdvisoryEncoding(), q, s.batch.advisories)
    ensures Rows(FixEncoding(), q, s.batch.fixes)
    ensures Rows(AssessmentEncoding(), q, s.batch.assessments)
  {
    PackageRowsAgree();
    ContextRowsAgree();
    LicenseRowsAgree();
    AdvisoryRowsAgree();
    FixRowsAgree();
    AssessmentRowsAgree();
    hide StoredOnce, Rows, Extends, Encoding, Names;
    RowsLater(PackageEncoding(), s.payload, q, s.batch.packages);
    RowsLater(ContextEncoding(), s.payload, q, s.batch.contexts);
    RowsLater(LicenseEncoding(), s.payload, q, s.batch.licenses);
    RowsLater(AdvisoryEncoding(), s.payload, q, s.batch.advisories);
    RowsLater(FixEncoding(), s.payload, q, s.batch.fixes);
    RowsLater(AssessmentEncoding(), s.payload, q, s.batch.assessments);
  }

  /** Every state that fits, and has room for freezing, has a frozen form. */
  lemma FrozenExists(s: Intake) returns (store: ReportStore, indexes: seq<Index>)
    requires AllPacked(s) && Fits(s) && Batches.Complete(s.batch) && Freezes(s)
    ensures FrozenFrom(store, indexes, s.batch, AliasTables.TableOf(s.batch.groups))
  {
    hide AllPacked, Fits, Batches.Complete, Finished, TablesFit, PayloadFits, IndexesFit, PlanTooLarge, RowsLinked,
      Built, RELATIONS;
    var rows := AliasTables.TableOf(s.batch.groups);
    store := StoreExists(s);
    FinishedIsLinked(store, s.batch, rows);
    PlanFitsExactly(store, s.batch, rows);
    indexes := IndexesExist(store, |RELATIONS|);
  }

  // ---------------------------------------------------------------- a batch that fits but cannot be indexed

  /** `n` inputs that contribute an image record and nothing else, as failed scans do. */
  lemma {:induction false} ImagesOnly(image: Image, n: nat)
    ensures StreamAll(seq(n, _ => Facts([], image)))
            == EMPTY_INTAKE.(batch := EMPTY_BATCH.(images := seq(n, _ => image)))
  {
    var facts := seq(n, _ => Facts([], image));
    if n > 0 {
      ImagesOnly(image, n - 1);
      assert facts[..n - 1] == seq(n - 1, _ => Facts([], image));
      assert seq(n - 1, _ => image) + [image] == seq(n, _ => image);
    } else {
      assert facts == [];
      assert seq(n, _ => image) == [];
    }
  }

  /** As many failed scans as a `uint32` counts: they can all be taken in, but not indexed. */
  lemma TooManyImages(image: Image)
    ensures var s := StreamAll(seq(0xFFFF_FFFF, _ => Facts([], image)));
            Fits(s) && !Freezes(s)
  {
    ImagesOnly(image, MAX_U32);
  }
}
