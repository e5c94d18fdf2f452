/** Fix evidence: which reported fix versions apply to an installed package. */
module Fixes {
  import opened Common
  import opened Order
  import opened Report

  // ---------------------------------------------------------------- the upstream records

  datatype RangeKind = UnspecifiedRange | GitRange | SemverRange | EcosystemRange

  /** `fixed` is empty for an event of another kind. */
  datatype Event = Event(fixed: string)

  datatype Range = Range(kind: RangeKind, events: seq<Event>)

  datatype Affected = Affected(ecosystem: string, name: string, severities: seq<Severity>, urgency: Option<string>,
                               ranges: seq<Range>)

  datatype Inventory = Inventory(purl: Option<string>, signals: bool, path: string)

  datatype PackageInfo = PackageInfo(
    name: string,
    version: string,
    ecosystem: string,
    commit: string,
    osPackageName: string,
    inventory: Option<Inventory>,
    imageOrigin: Option<int>,
    deprecated: bool)

  /** The upstream version libraries: nothing is assumed about them. `compare(e, v, w)` orders `v`
      against `w` in ecosystem `e`, or fails. */
  datatype Versions = Versions(
    parses: (string, string) -> bool,
    known: (string, string) -> bool,
    compare: (string, string, string) -> Option<int>)

  // ---------------------------------------------------------------- canonical lists

  /** Sorted without duplicates; nil when there is nothing. */
  function Unique(values: seq<string>): List<string> {
    if values == [] then Nil else Items(Canonical(StringLess(), values))
  }

  predicate SeverityLess(a: Severity, b: Severity) {
    Less(a.kind, b.kind) || (a.kind == b.kind &&
      (Less(a.source, b.source) || (a.source == b.source && Less(a.vector, b.vector))))
  }

  function SeverityOrder(): (Severity, Severity) -> bool {
    (a, b) => SeverityLess(a, b)
  }

  lemma SeverityOrderTotal()
    ensures StrictTotal(SeverityOrder())
  {
    StringLessTotal();
    var less := StringLess();
    forall x: string, y: string
      ensures Less(x, y) == less(x, y)
    {
    }
    hide Less;
  }

  function CanonicalSeverities(values: seq<Severity>): List<Severity> {
    if values == [] then Nil else Items(Canonical(SeverityOrder(), values))
  }

  predicate ReferenceLess(a: Reference, b: Reference) {
    Less(a.kind, b.kind) || (a.kind == b.kind && Less(a.url, b.url))
  }

  function ReferenceOrder(): (Reference, Reference) -> bool {
    (a, b) => ReferenceLess(a, b)
  }

  function CanonicalReferences(values: seq<Reference>): List<Reference> {
    if values == [] then Nil else Items(Canonical(ReferenceOrder(), values))
  }

  /** The canonical list of strings depends only on which strings occur. */
  lemma UniqueSame(a: seq<string>, b: seq<string>)
    requires Elements(a) == Elements(b)
    ensures Unique(a) == Unique(b)
  {
    StringLessTotal();
    CanonicalUnique(StringLess(), a, b);
    assert a != [] ==> a[0] in Elements(b);
    assert b != [] ==> b[0] in Elements(a);
  }

  lemma CanonicalSeveritiesSame(a: seq<Severity>, b: seq<Severity>)
    requires Elements(a) == Elements(b)
    ensures CanonicalSeverities(a) == CanonicalSeverities(b)
  {
    SeverityOrderTotal();
    CanonicalUnique(SeverityOrder(), a, b);
    assert a != [] ==> a[0] in Elements(b);
    assert b != [] ==> b[0] in Elements(a);
  }

  // ---------------------------------------------------------------- ecosystems

  /** `s` with every occurrence of the non-empty `pattern` removed, scanning from the left. */
  function RemoveAll(s: string, pattern: string): string
    requires pattern != []
  {
    if s == [] then []
    else if pattern <= s then RemoveAll(s[|pattern|..], pattern)
    else [s[0]] + RemoveAll(s[1..], pattern)
  }

  function Ecosystem(s: string): string {
    if "Ubuntu:" <= s then RemoveAll(RemoveAll(s, ":Pro"), ":LTS") else s
  }

  // ---------------------------------------------------------------- which fixes apply

  predicate InstalledKnown(v: Versions, pkg: PackageInfo) {
    v.parses(pkg.version, Ecosystem(pkg.ecosystem)) && v.known(pkg.version, pkg.ecosystem)
  }

  /** The affected entry is about this package. */
  predicate Matches(pkg: PackageInfo, p: Affected) {
    && Ecosystem(p.ecosystem) == Ecosystem(pkg.ecosystem)
    && (p.name == pkg.name || (pkg.osPackageName != "" && p.name == pkg.osPackageName))
  }

  /** The fix can be ordered against the installed version. */
  predicate Comparable(v: Versions, pkg: PackageInfo, fix: string) {
    && InstalledKnown(v, pkg) && v.known(fix, pkg.ecosystem)
    && v.compare(Ecosystem(pkg.ecosystem), pkg.version, fix).Some?
  }

  /** The installed version is at or above the fix. */
  predicate Obsolete(v: Versions, pkg: PackageInfo, fix: string) {
    Comparable(v, pkg, fix) && v.compare(Ecosystem(pkg.ecosystem), pkg.version, fix).value >= 0
  }

  /** The versions that an event list contributes. */
  function EventVersions(v: Versions, pkg: PackageInfo, events: seq<Event>): seq<string> {
    if events == [] then []
    else
      var fix := events[|events| - 1].fixed;
      EventVersions(v, pkg, events[..|events| - 1]) + if fix == "" || Obsolete(v, pkg, fix) then [] else [fix]
  }

  function RangeVersions(v: Versions, pkg: PackageInfo, ranges: seq<Range>): seq<string> {
    if ranges == [] then []
    else
      var r := ranges[|ranges| - 1];
      RangeVersions(v, pkg, ranges[..|ranges| - 1]) + if r.kind == GitRange then [] else EventVersions(v, pkg, r.events)
  }

  function AffectedVersions(v: Versions, pkg: PackageInfo, affected: seq<Affected>): seq<string> {
    if affected == [] then []
    else
      var p := affected[|affected| - 1];
      AffectedVersions(v, pkg, affected[..|affected| - 1]) + if Matches(pkg, p) then RangeVersions(v, pkg, p.ranges)
        else []
  }

  function AffectedSeverities(pkg: PackageInfo, affected: seq<Affected>): seq<Severity> {
    if affected == [] then []
    else
      var p := affected[|affected| - 1];
      AffectedSeverities(pkg, affected[..|affected| - 1]) + if Matches(pkg, p) then p.severities else []
  }

  function AffectedUrgencies(pkg: PackageInfo, affected: seq<Affected>): seq<string> {
    if affected == [] then []
    else
      var p := affected[|affected| - 1];
      AffectedUrgencies(pkg, affected[..|affected| - 1]) +
      if Matches(pkg, p) && p.urgency.Some? then [p.urgency.value] else []
  }

  /** Some fix cannot be ordered against the installed version. */
  predicate AnyIncomparable(v: Versions, pkg: PackageInfo, events: seq<Event>) {
    exists e :: e in events && e.fixed != "" && !Comparable(v, pkg, e.fixed)
  }

  lemma EventsNext(v: Versions, pkg: PackageInfo, events: seq<Event>, k: nat)
    requires k < |events|
    ensures var fix := events[k].fixed;
            && EventVersions(v, pkg, events[..k + 1]) ==
               EventVersions(v, pkg, events[..k]) + (if fix == "" || Obsolete(v, pkg, fix) then [] else [fix])
            && AnyIncomparable(v, pkg, events[..k + 1]) ==
               (AnyIncomparable(v, pkg, events[..k]) || (fix != "" && !Comparable(v, pkg, fix)))
  {
    hide Comparable, Obsolete;
    assert events[..k + 1][..k] == events[..k];
    SplitLast(events[..k + 1]);
  }

  lemma RangesNext(v: Versions, pkg: PackageInfo, ranges: seq<Range>, j: nat)
    requires j < |ranges|
    ensures var r := ranges[j];
            RangeVersions(v, pkg, ranges[..j + 1]) ==
            RangeVersions(v, pkg, ranges[..j]) + if r.kind == GitRange then [] else EventVersions(v, pkg, r.events)
  {
    hide EventVersions;
    assert ranges[..j + 1][..j] == ranges[..j];
  }

  /** Some fix of the range cannot be ordered, or the range is of a kind without an order. */
  predicate UnknownRange(v: Versions, pkg: PackageInfo, r: Range) {
    r.kind == UnspecifiedRange || r.kind == GitRange || AnyIncomparable(v, pkg, r.events)
  }

  predicate AnyUnknown(v: Versions, pkg: PackageInfo, ranges: seq<Range>) {
    exists r :: r in ranges && UnknownRange(v, pkg, r)
  }

  lemma AnyUnknownNext(v: Versions, pkg: PackageInfo, ranges: seq<Range>, j: nat)
    requires j < |ranges|
    ensures AnyUnknown(v, pkg, ranges[..j + 1]) == (AnyUnknown(v, pkg, ranges[..j]) || UnknownRange(v, pkg, ranges[j]))
  {
    hide UnknownRange;
    assert ranges[..j + 1][..j] == ranges[..j];
    SplitLast(ranges[..j + 1]);
  }

  predicate UnknownOrder(v: Versions, pkg: PackageInfo, affected: seq<Affected>) {
    exists p :: p in affected && Matches(pkg, p) && AnyUnknown(v, pkg, p.ranges)
  }

  predicate Matched(pkg: PackageInfo, affected: seq<Affected>) {
    exists p :: p in affected && Matches(pkg, p)
  }

  /** The fix evidence for one package and one advisory. */
  function FixEvidence(v: Versions, pkg: PackageInfo, affected: seq<Affected>): Fix {
    var versions := Unique(AffectedVersions(v, pkg, affected));
    var status :=
      if !Matched(pkg, affected) || UnknownOrder(v, pkg, affected) then "unknown"
      else if versions.Items? then "reported"
      else "no_reported_fix";
    Fix(versions, status, CanonicalSeverities(AffectedSeverities(pkg, affected)),
      Unique(AffectedUrgencies(pkg, affected)))
  }

  // ---------------------------------------------------------------- the computation

  /** The events of one range. */
  method CollectEvents(v: Versions, pkg: PackageInfo, known: bool, events: seq<Event>)
    returns (versions: seq<string>, unknown: bool)
    requires known == InstalledKnown(v, pkg)
    ensures versions == EventVersions(v, pkg, events)
    ensures unknown == AnyIncomparable(v, pkg, events)
  {
    versions, unknown := [], false;
    for k := 0 to |events|
      invariant versions == EventVersions(v, pkg, events[..k])
      invariant unknown == AnyIncomparable(v, pkg, events[..k])
    {
      hide EventVersions, AnyIncomparable, InstalledKnown, Ecosystem;
      EventsNext(v, pkg, events, k);
      var fix := events[k].fixed;
      if fix == "" {
        continue;
      }
      if !known || !v.known(fix, pkg.ecosystem) {
        unknown := true;
      } else {
        var order := v.compare(Ecosystem(pkg.ecosystem), pkg.version, fix);
        if order.None? {
          unknown := true;
        } else if order.value >= 0 {
          continue;
        }
      }
      versions := versions + [fix];
    }
    assert events[..|events|] == events;
  }

  /** The ranges of one affected entry. */
  method CollectRanges(v: Versions, pkg: PackageInfo, known: bool, ranges: seq<Range>)
    returns (versions: seq<string>, unknown: bool)
    requires known == InstalledKnown(v, pkg)
    ensures versions == RangeVersions(v, pkg, ranges)
    ensures unknown == AnyUnknown(v, pkg, ranges)
  {
    versions, unknown := [], false;
    for j := 0 to |ranges|
      invariant versions == RangeVersions(v, pkg, ranges[..j])
      invariant unknown == AnyUnknown(v, pkg, ranges[..j])
    {
      hide AnyUnknown, AnyIncomparable, InstalledKnown, EventVersions, RangeVersions;
      AnyUnknownNext(v, pkg, ranges, j);
      RangesNext(v, pkg, ranges, j);
      var r := ranges[j];
      if r.kind != EcosystemRange && r.kind != SemverRange {
        unknown := true;
      }
      if r.kind == GitRange {
        unknown := true;
        continue;
      }
      var found, incomparable := CollectEvents(v, pkg, known, r.events);
      versions, unknown := versions + found, unknown || incomparable;
    }
    assert ranges[..|ranges|] == ranges;
  }

  method PackageFixes(v: Versions, pkg: PackageInfo, affected: seq<Affected>) returns (r: Fix)
    ensures r == FixEvidence(v, pkg, affected)
  {
    var known := v.parses(pkg.version, Ecosystem(pkg.ecosystem)) && v.known(pkg.version, pkg.ecosystem);
    var versions: seq<string>, severities: seq<Severity>, urgencies: seq<string> := [], [], [];
    var matched, unknown := false, false;
    for i := 0 to |affected|
      invariant versions == AffectedVersions(v, pkg, affected[..i])
      invariant severities == AffectedSeverities(pkg, affected[..i])
      invariant urgencies == AffectedUrgencies(pkg, affected[..i])
      invariant matched == Matched(pkg, affected[..i])
      invariant unknown == UnknownOrder(v, pkg, affected[..i])
    {
      assert affected[..i + 1] == affected[..i] + [affected[i]];
      var p := affected[i];
      if Ecosystem(p.ecosystem) != Ecosystem(pkg.ecosystem) ||
         (p.name != pkg.name && (pkg.osPackageName == "" || p.name != pkg.osPackageName)) {
        continue;
      }
      matched := true;
      severities := severities + p.severities;
      if p.urgency.Some? {
        urgencies := urgencies + [p.urgency.value];
      }
      var found, unordered := CollectRanges(v, pkg, known, p.ranges);
      versions, unknown := versions + found, unknown || unordered;
    }
    assert affected[..|affected|] == affected;
    var unique := Unique(versions);
    var status := "no_reported_fix";
    if unique.Items? {
      status := "reported";
    }
    if !matched || unknown {
      status := "unknown";
    }
    return Fix(unique, status, CanonicalSeverities(severities), Unique(urgencies));
  }

  // ---------------------------------------------------------------- what the evidence means

  lemma {:induction false} EventVersionsHas(v: Versions, pkg: PackageInfo, events: seq<Event>, x: string)
    ensures x in EventVersions(v, pkg, events) <==> x != "" && Event(x) in events && !Obsolete(v, pkg, x)
  {
    if events != [] {
      var n := |events| - 1;
      EventVersionsHas(v, pkg, events[..n], x);
      assert events == events[..n] + [events[n]];
      assert events[n] == Event(events[n].fixed);
    }
  }

  /** The reported versions of one range. */
  ghost predicate Reports(v: Versions, pkg: PackageInfo, r: Range, x: string) {
    r.kind != GitRange && x != "" && Event(x) in r.events && !Obsolete(v, pkg, x)
  }

  lemma {:induction false} RangeVersionsHas(v: Versions, pkg: PackageInfo, ranges: seq<Range>, x: string)
    ensures x in RangeVersions(v, pkg, ranges) <==> exists r :: r in ranges && Reports(v, pkg, r, x)
  {
    if ranges != [] {
      var n := |ranges| - 1;
      var init, last := ranges[..n], ranges[n];
      RangeVersionsHas(v, pkg, init, x);
      EventVersionsHas(v, pkg, last.events, x);
      SplitLast(ranges);
      assert x in RangeVersions(v, pkg, ranges) <==> x in RangeVersions(v, pkg, init) || Reports(v, pkg, last, x);
      hide RangeVersions, Reports;
    }
  }

  /** The reported versions of one affected entry. */
  ghost predicate EntryReports(v: Versions, pkg: PackageInfo, p: Affected, x: string) {
    Matches(pkg, p) && exists r :: r in p.ranges && Reports(v, pkg, r, x)
  }

  lemma {:induction false} AffectedVersionsHas(v: Versions, pkg: PackageInfo, affected: seq<Affected>, x: string)
    ensures x in AffectedVersions(v, pkg, affected) <==> exists p :: p in affected && EntryReports(v, pkg, p, x)
  {
    if affected != [] {
      var n := |affected| - 1;
      var init, last := affected[..n], affected[n];
      AffectedVersionsHas(v, pkg, init, x);
      RangeVersionsHas(v, pkg, last.ranges, x);
      SplitLast(affected);
      assert x in AffectedVersions(v, pkg, affected) <==>
             x in AffectedVersions(v, pkg, init) || EntryReports(v, pkg, last, x) by {
        hide Reports, Matches, RangeVersions;
      }
      hide AffectedVersions, EntryReports;
    }
  }

  lemma {:induction false} AffectedSeveritiesHas(pkg: PackageInfo, affected: seq<Affected>, x: Severity)
    ensures x in AffectedSeverities(pkg, affected) <==>
              exists p :: p in affected && Matches(pkg, p) && x in p.severities
  {
    if affected != [] {
      hide Matches;
      var n := |affected| - 1;
      AffectedSeveritiesHas(pkg, affected[..n], x);
      assert affected == affected[..n] + [affected[n]];
    }
  }

  lemma {:induction false} AffectedUrgenciesHas(pkg: PackageInfo, affected: seq<Affected>, x: string)
    ensures x in AffectedUrgencies(pkg, affected) <==>
              exists p :: p in affected && Matches(pkg, p) && p.urgency == Some(x)
  {
    if affected != [] {
      hide Matches;
      var n := |affected| - 1;
      AffectedUrgenciesHas(pkg, affected[..n], x);
      assert affected == affected[..n] + [affected[n]];
    }
  }

  lemma UniqueHas(values: seq<string>, x: string)
    ensures Unique(values).Items? && x in Unique(values).values <==> x in values
    ensures Unique(values).Items? ==> Unique(values).values != [] && StrictlySorted(StringLess(), Unique(values).values)
  {
    StringLessTotal();
    CanonicalForm(StringLess(), values);
    var c := Canonical(StringLess(), values);
    assert x in Elements(c) <==> x in Elements(values);
    if values != [] {
      assert values[0] in Elements(values) && values[0] in Elements(c);
    }
  }

  /** Versions are strictly sorted. They are exactly the non-empty fixed versions of matching,
      non-Git ranges, less those that the installed version is known to have reached. */
  lemma EvidenceVersions(v: Versions, pkg: PackageInfo, affected: seq<Affected>, x: string)
    ensures var r := FixEvidence(v, pkg, affected);
            && (r.versions.Items? ==> r.versions.values != [] && StrictlySorted(StringLess(), r.versions.values))
            && ((r.versions.Items? && x in r.versions.values) <==>
               exists p :: p in affected && EntryReports(v, pkg, p, x))
  {
    UniqueHas(AffectedVersions(v, pkg, affected), x);
    AffectedVersionsHas(v, pkg, affected, x);
  }

  /** A reported status promises at least one version, and that every version is strictly above the
      installed one. */
  lemma ReportedIsAbove(v: Versions, pkg: PackageInfo, affected: seq<Affected>)
    requires FixEvidence(v, pkg, affected).status == "reported"
    ensures var versions := FixEvidence(v, pkg, affected).versions;
            && versions.Items? && versions.values != []
            && forall x :: x in versions.values ==>
                 Comparable(v, pkg, x) && v.compare(Ecosystem(pkg.ecosystem), pkg.version, x).value < 0
  {
    var versions := FixEvidence(v, pkg, affected).versions;
    assert "reported" != "unknown" && "reported" != "no_reported_fix" by {
      assert |"reported"| == 8 && |"unknown"| == 7 && |"no_reported_fix"| == 15;
    }
    UniqueHas(AffectedVersions(v, pkg, affected), "");
    forall x | x in versions.values
      ensures Comparable(v, pkg, x) && v.compare(Ecosystem(pkg.ecosystem), pkg.version, x).value < 0
    {
      hide Comparable, Matches;
      EvidenceVersions(v, pkg, affected, x);
      var p :| p in affected && EntryReports(v, pkg, p, x);
      var r :| r in p.ranges && Reports(v, pkg, r, x);
      assert Event(x).fixed == x;
      assert !Comparable(v, pkg, x) ==> UnknownRange(v, pkg, r);
    }
  }

  // ---------------------------------------------------------------- order and repetition do not matter

  ghost predicate SameRange(r: Range, s: Range) {
    r.kind == s.kind && Elements(r.events) == Elements(s.events)
  }

  ghost predicate RangesCovered(rs: seq<Range>, ss: seq<Range>) {
    forall r :: r in rs ==> exists s :: s in ss && SameRange(r, s)
  }

  ghost predicate EntryCovered(p: Affected, q: Affected) {
    && p.ecosystem == q.ecosystem && p.name == q.name && p.urgency == q.urgency
    && Elements(p.severities) == Elements(q.severities)
    && RangesCovered(p.ranges, q.ranges)
  }

  /** Every entry of `a` is also one of `b`, up to the order and repetition of its parts. */
  ghost predicate AffectedCovered(a: seq<Affected>, b: seq<Affected>) {
    forall p :: p in a ==> exists q :: q in b && EntryCovered(p, q)
  }

  lemma RangeCarries(v: Versions, pkg: PackageInfo, r: Range, s: Range)
    requires SameRange(r, s)
    ensures forall x :: Reports(v, pkg, r, x) ==> Reports(v, pkg, s, x)
    ensures UnknownRange(v, pkg, r) ==> UnknownRange(v, pkg, s)
  {
    hide Comparable, Obsolete;
    forall e | e in r.events
      ensures e in s.events
    {
      assert e in Elements(r.events) && e in Elements(s.events);
    }
  }

  lemma EntryCarries(v: Versions, pkg: PackageInfo, p: Affected, q: Affected)
    requires EntryCovered(p, q) && Matches(pkg, p)
    ensures Matches(pkg, q)
    ensures forall x :: EntryReports(v, pkg, p, x) ==> EntryReports(v, pkg, q, x)
    ensures AnyUnknown(v, pkg, p.ranges) ==> AnyUnknown(v, pkg, q.ranges)
  {
    hide Reports, UnknownRange, SameRange;
    forall r | r in p.ranges
      ensures exists s ::
                s in q.ranges && (forall x :: Reports(v, pkg, r, x) ==> Reports(v, pkg, s, x))
                && (UnknownRange(v, pkg, r) ==> UnknownRange(v, pkg, s))
    {
      var s :| s in q.ranges && SameRange(r, s);
      RangeCarries(v, pkg, r, s);
    }
  }

  /** What `p` contributes, `q` contributes too. */
  ghost predicate Carries(v: Versions, pkg: PackageInfo, p: Affected, q: Affected) {
    && (forall x :: EntryReports(v, pkg, p, x) ==> EntryReports(v, pkg, q, x))
    && (AnyUnknown(v, pkg, p.ranges) ==> AnyUnknown(v, pkg, q.ranges))
  }

  lemma EvidenceCarries(v: Versions, pkg: PackageInfo, a: seq<Affected>, b: seq<Affected>)
    requires AffectedCovered(a, b)
    ensures Elements(AffectedVersions(v, pkg, a)) <= Elements(AffectedVersions(v, pkg, b))
    ensures Elements(AffectedSeverities(pkg, a)) <= Elements(AffectedSeverities(pkg, b))
    ensures Elements(AffectedUrgencies(pkg, a)) <= Elements(AffectedUrgencies(pkg, b))
    ensures Matched(pkg, a) ==> Matched(pkg, b)
    ensures UnknownOrder(v, pkg, a) ==> UnknownOrder(v, pkg, b)
  {
    hide Matches, AnyUnknown, AffectedVersions, AffectedSeverities, AffectedUrgencies, RangesCovered, EntryReports;
    forall p | p in a && Matches(pkg, p)
      ensures exists q :: q in b && Matches(pkg, q) && EntryCovered(p, q) && Carries(v, pkg, p, q)
    {
      var q :| q in b && EntryCovered(p, q);
      EntryCarries(v, pkg, p, q);
    }
    forall x | x in AffectedVersions(v, pkg, a)
      ensures x in AffectedVersions(v, pkg, b)
    {
      AffectedVersionsHas(v, pkg, a, x);
      AffectedVersionsHas(v, pkg, b, x);
      var p :| p in a && EntryReports(v, pkg, p, x);
      EntryReportsMatches(v, pkg, p, x);
    }
    forall x | x in AffectedSeverities(pkg, a)
      ensures x in AffectedSeverities(pkg, b)
    {
      AffectedSeveritiesHas(pkg, a, x);
      AffectedSeveritiesHas(pkg, b, x);
      var p :| p in a && Matches(pkg, p) && x in p.severities;
      assert x in Elements(p.severities);
    }
    forall x | x in AffectedUrgencies(pkg, a)
      ensures x in AffectedUrgencies(pkg, b)
    {
      AffectedUrgenciesHas(pkg, a, x);
      AffectedUrgenciesHas(pkg, b, x);
    }
  }

  lemma EntryReportsMatches(v: Versions, pkg: PackageInfo, p: Affected, x: string)
    requires EntryReports(v, pkg, p, x)
    ensures Matches(pkg, p)
  {
  }

  /** Permuting or repeating affected entries, their ranges, events or severities changes nothing. */
  lemma EvidenceUnordered(v: Versions, pkg: PackageInfo, a: seq<Affected>, b: seq<Affected>)
    requires AffectedCovered(a, b) && AffectedCovered(b, a)
    ensures FixEvidence(v, pkg, a) == FixEvidence(v, pkg, b)
  {
    hide AffectedCovered, Matched, UnknownOrder, AffectedVersions, AffectedSeverities, AffectedUrgencies;
    EvidenceCarries(v, pkg, a, b);
    EvidenceCarries(v, pkg, b, a);
    UniqueSame(AffectedVersions(v, pkg, a), AffectedVersions(v, pkg, b));
    UniqueSame(AffectedUrgencies(pkg, a), AffectedUrgencies(pkg, b));
    CanonicalSeveritiesSame(AffectedSeverities(pkg, a), AffectedSeverities(pkg, b));
  }
}
