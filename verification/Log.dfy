/** The sequential fold, entry by entry: every call that was made has its row, every row comes from a call,
    and rows refer to the values they were made with. */
module Logs {
  import opened Common
  import opened Order
  import opened Interning
  import opened Report
  import opened Batches

  /** A sink call, with the number of the image it was made for. */
  datatype Entry = Entry(image: nat, call: SinkCall)

  /** All calls, image after image. */
  function LogOf(facts: seq<Facts>): seq<Entry> {
    if facts == [] then []
    else
      var n := |facts| - 1;
      LogOf(facts[..n]) + Entries(n, facts[n].calls)
  }

  function Entries(image: nat, calls: seq<SinkCall>): seq<Entry> {
    seq(|calls|, k requires 0 <= k < |calls| => Entry(image, calls[k]))
  }

  /** The numbers of occurrences, findings and unions in a log. */
  datatype Tally = Tally(occurrences: nat, findings: nat, unions: nat)

  function Count(log: seq<Entry>): Tally {
    if log == [] then Tally(0, 0, 0)
    else
      var t := Count(log[..|log| - 1]);
      match log[|log| - 1].call
      case Occurrence(_, _, _) => t.(occurrences := t.occurrences + 1)
      case Finding(_, _, _, _) => t.(findings := t.findings + 1)
      case Union(_) => t.(unions := t.unions + 1)
  }

  // ---------------------------------------------------------------- what a batch holds of a log

  /** The next occurrence row is this call's: it names the image, and its columns lead to the values. */
  ghost predicate HoldsOccurrence(b: Batch, e: Entry, row: nat)
    requires e.call.Occurrence?
  {
    && row < |b.occurrences|
    && var o := b.occurrences[row];
       && o.image == e.image
       && o.pkg < |b.packages| && b.packages[o.pkg] == e.call.pkg
       && o.context < |b.contexts| && b.contexts[o.context] == e.call.context
       && o.license < |b.licenses| && b.licenses[o.license] == e.call.license
  }

  /** The next finding row is this call's, and belongs to the occurrence before it. */
  ghost predicate HoldsFinding(b: Batch, e: Entry, row: nat, occurrences: nat)
    requires e.call.Finding?
  {
    && row < |b.findings|
    && var f := b.findings[row];
       && f.occurrence + 1 == occurrences
       && f.advisory < |b.advisories| && b.advisories[f.advisory] == e.call.advisory
       && f.fix < |b.fixes| && b.fixes[f.fix] == e.call.fix
       && f.assessment < |b.assessments| && b.assessments[f.assessment] == e.call.assessment
  }

  /** Entry `k` has its row, the one after the rows of the entries before it. */
  ghost predicate HoldsEntry(b: Batch, log: seq<Entry>, k: nat)
    requires k < |log|
  {
    var t := Count(log[..k]);
    match log[k].call
    case Occurrence(_, _, _) => HoldsOccurrence(b, log[k], t.occurrences)
    case Finding(_, _, _, _) => HoldsFinding(b, log[k], t.findings, t.occurrences)
    case Union(ids) => t.unions < |b.groups| && b.groups[t.unions] == ids
  }

  ghost predicate HoldsEntries(b: Batch, log: seq<Entry>) {
    && Count(log) == Tally(|b.occurrences|, |b.findings|, |b.groups|)
    && forall k :: 0 <= k < |log| ==> HoldsEntry(b, log, k)
  }

  /** No value is stored twice. */
  ghost predicate StoredOnce(b: Batch) {
    && NoDuplicates(b.packages) && NoDuplicates(b.contexts) && NoDuplicates(b.licenses)
    && NoDuplicates(b.advisories) && NoDuplicates(b.fixes) && NoDuplicates(b.assessments)
  }

  /** Every stored value was in a call. */
  ghost predicate Called(b: Batch, log: seq<Entry>) {
    && (forall x :: x in b.packages ==> exists e :: e in log && e.call.Occurrence? && e.call.pkg == x)
    && (forall x :: x in b.contexts ==> exists e :: e in log && e.call.Occurrence? && e.call.context == x)
    && (forall x :: x in b.licenses ==> exists e :: e in log && e.call.Occurrence? && e.call.license == x)
    && (forall x :: x in b.advisories ==> exists e :: e in log && e.call.Finding? && e.call.advisory == x)
    && (forall x :: x in b.fixes ==> exists e :: e in log && e.call.Finding? && e.call.fix == x)
    && (forall x :: x in b.assessments ==> exists e :: e in log && e.call.Finding? && e.call.assessment == x)
  }

  ghost predicate Holds(b: Batch, log: seq<Entry>) {
    HoldsEntries(b, log) && StoredOnce(b) && Called(b, log)
  }

  // ---------------------------------------------------------------- one more call

  /** Rows, values and groups only ever get more. */
  ghost predicate Grows(b: Batch, c: Batch) {
    && b.occurrences <= c.occurrences && b.findings <= c.findings && b.groups <= c.groups
    && b.packages <= c.packages && b.contexts <= c.contexts && b.licenses <= c.licenses
    && b.advisories <= c.advisories && b.fixes <= c.fixes && b.assessments <= c.assessments
  }

  lemma HeldLater(b: Batch, c: Batch, log: seq<Entry>, e: Entry, k: nat)
    requires k < |log| && HoldsEntry(b, log, k) && Grows(b, c)
    ensures HoldsEntry(c, log + [e], k)
  {
    hide Count;
    var next := log + [e];
    assert next[k] == log[k] && next[..k] == log[..k];
  }

  lemma CountNext(log: seq<Entry>, e: Entry)
    ensures var t := Count(log);
            Count(log + [e]) ==
            match e.call
            case Occurrence(_, _, _) => t.(occurrences := t.occurrences + 1)
            case Finding(_, _, _, _) => t.(findings := t.findings + 1)
            case Union(_) => t.(unions := t.unions + 1)
  {
    assert (log + [e])[..|log|] == log;
  }

  lemma ApplyGrows(b: Batch, call: SinkCall)
    ensures Grows(b, Apply(b, call))
  {
  }

  /** The call's own row. */
  lemma ApplyHolds(b: Batch, log: seq<Entry>, call: SinkCall)
    requires Count(log) == Tally(|b.occurrences|, |b.findings|, |b.groups|)
    requires call.Finding? ==> b.occurrences != []
    ensures HoldsEntry(Apply(b, call), log + [Entry(|b.images|, call)], |log|)
  {
    hide Count, Intern;
    var next := log + [Entry(|b.images|, call)];
    assert next[..|log|] == log;
    match call {
      case Occurrence(pkg, context, license) =>
        InternKeeps(b.packages, pkg);
        InternKeeps(b.contexts, context);
        InternKeeps(b.licenses, license);
      case Finding(_, advisory, fix, assessment) =>
        InternKeeps(b.advisories, advisory);
        InternKeeps(b.fixes, fix);
        InternKeeps(b.assessments, assessment);
      case Union(_) =>
    }
  }

  lemma ApplyEntries(b: Batch, log: seq<Entry>, call: SinkCall)
    requires HoldsEntries(b, log) && (call.Finding? ==> b.occurrences != [])
    ensures HoldsEntries(Apply(b, call), log + [Entry(|b.images|, call)])
  {
    hide Count, HoldsEntry, Intern;
    var e := Entry(|b.images|, call);
    var c, next := Apply(b, call), log + [e];
    CountNext(log, e);
    ApplyHolds(b, log, call);
    forall k | 0 <= k < |next|
      ensures HoldsEntry(c, next, k)
    {
      if k < |log| {
        ApplyGrows(b, call);
        HeldLater(b, c, log, e, k);
      }
    }
  }

  lemma ApplyStoredOnce(b: Batch, call: SinkCall)
    requires StoredOnce(b)
    ensures StoredOnce(Apply(b, call))
  {
  }

  lemma ApplyCalled(b: Batch, log: seq<Entry>, call: SinkCall)
    requires Called(b, log)
    ensures Called(Apply(b, call), log + [Entry(|b.images|, call)])
  {
    var e := Entry(|b.images|, call);
    var next := log + [e];
    assert e in next && forall x :: x in log ==> x in next;
  }

  // ---------------------------------------------------------------- a whole history

  lemma {:induction false} ApplyAllHolds(b: Batch, log: seq<Entry>, calls: seq<SinkCall>)
    requires Holds(b, log) && WellOrdered(calls)
    ensures Holds(ApplyAll(b, calls), log + Entries(|b.images|, calls))
    ensures ApplyAll(b, calls).images == b.images
    ensures (exists j :: 0 <= j < |calls| && calls[j].Occurrence?) ==> ApplyAll(b, calls).occurrences != []
  {
    hide HoldsEntries, StoredOnce, Called;
    if calls == [] {
      assert log + Entries(|b.images|, calls) == log;
    } else {
      var n := |calls| - 1;
      var before := ApplyAll(b, calls[..n]);
      WellOrderedPrefix(calls, n);
      ApplyAllHolds(b, log, calls[..n]);
      assert calls[n].Finding? ==> exists j :: 0 <= j < n && calls[..n][j].Occurrence?;
      var entries := log + Entries(|b.images|, calls[..n]);
      assert log + Entries(|b.images|, calls) == entries + [Entry(|b.images|, calls[n])];
      hide WellOrdered, Intern, Entries;
      ApplyEntries(before, entries, calls[n]);
      ApplyStoredOnce(before, calls[n]);
      ApplyCalled(before, entries, calls[n]);
    }
  }

  lemma NothingHeld()
    ensures Holds(EMPTY_BATCH, [])
  {
  }

  lemma AddImageHolds(b: Batch, log: seq<Entry>, image: Image)
    requires Holds(b, log)
    ensures Holds(b.(images := b.images + [image]), log)
  {
    var c := b.(images := b.images + [image]);
    forall k | 0 <= k < |log|
      ensures HoldsEntry(c, log, k)
    {
      assert HoldsEntry(b, log, k);
    }
  }

  /** The fold of the inputs holds their calls: one row for each, with its values, in order, and nothing else. */
  lemma {:induction false} FoldHolds(facts: seq<Facts>)
    requires forall i :: 0 <= i < |facts| ==> WellOrdered(facts[i].calls)
    ensures Holds(SequentialFold(facts), LogOf(facts)) && |SequentialFold(facts).images| == |facts|
  {
    if facts == [] {
      NothingHeld();
    } else {
      hide Holds, WellOrdered, ApplyAll, Entries;
      var n := |facts| - 1;
      FoldHolds(facts[..n]);
      var before := SequentialFold(facts[..n]);
      ApplyAllHolds(before, LogOf(facts[..n]), facts[n].calls);
      AddImageHolds(ApplyAll(before, facts[n].calls), LogOf(facts), facts[n].image);
    }
  }
}
