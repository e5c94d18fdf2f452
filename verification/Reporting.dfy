/** What the facts of a response say, record by record: the packages they report, the names they unite,
    and what each finding carries. Nothing else says the same. */
module Reporting {
  import opened Common
  import opened Order
  import opened Report
  import opened Fixes
  import opened Evidence
  import opened Batches
  import opened Projection

  // ---------------------------------------------------------------- parts of a whole

  lemma FlattenOne<T>(parts: seq<seq<T>>, part: seq<T>)
    ensures Flatten(parts + [part]) == Flatten(parts) + part
  {
    assert (parts + [part])[..|parts|] == parts;
  }

  lemma {:induction false} FlattenConcat<T>(a: seq<seq<T>>, b: seq<seq<T>>)
    ensures Flatten(a + b) == Flatten(a) + Flatten(b)
  {
    if b == [] {
      assert a + b == a;
    } else {
      var n := |b| - 1;
      FlattenConcat(a, b[..n]);
      assert a + b == (a + b[..n]) + [b[n]];
      FlattenOne(a + b[..n], b[n]);
    }
  }

  // ---------------------------------------------------------------- one package

  /** The package is reported: everything is, or it has a vulnerability, a violation, or no license where
      licenses are asked for. */
  ghost predicate Selected(req: Request, pkg: PackageVulns) {
    || req.allPackages || |pkg.vulnerabilities| > 0 || |pkg.violations| > 0
    || (req.allowedLicenses != Nil && |pkg.licenses| == 0)
  }

  ghost predicate IsPackage(p: PackageInfo, r: Package) {
    && r.name == p.name && r.version == p.version && r.ecosystem == p.ecosystem
    && r.commit == p.commit && r.osPackageName == p.osPackageName
    && (forall i :: p.inventory == Some(i) && i.purl.Some? ==> r.purl == i.purl.value)
    && ((p.inventory.None? || p.inventory.value.purl.None?) ==> r.purl == "")
  }

  /** The layer is known exactly when the image has layers and the package names one of them. */
  ghost predicate IsLayer(result: ScanResult, p: PackageInfo, layer: Option<string>) {
    && (forall i: nat, m :: p.imageOrigin == Some(i) && result.metadata == Some(m) && i < |m.layers| ==>
          layer == Some(m.layers[i]))
    && (layer.Some? ==> exists i: nat, m :: p.imageOrigin == Some(i) && result.metadata == Some(m) && i < |m.layers|)
  }

  ghost predicate IsContext(result: ScanResult, source: Source, pkg: PackageVulns, c: PackageContext) {
    && c.sourceType == source.sourceType
    && (forall i :: pkg.package.inventory == Some(i) && |i.path| > 0 ==> c.path == i.path)
    && ((pkg.package.inventory.None? || |pkg.package.inventory.value.path| == 0) ==> c.path == source.path)
    && IsLayer(result, pkg.package, c.layer)
    && Lists(c.dependencyGroups, StringLess(), x => x in pkg.depGroups)
  }

  /** Licenses are evaluated exactly when a policy is given. A package without licenses is unknown then;
      one with licenses is noncompliant or compliant, depending on its violations. */
  ghost predicate IsLicense(req: Request, pkg: PackageVulns, l: License) {
    && l.policy == req.allowedLicenses
    && Lists(l.licenses, StringLess(), x => x in pkg.licenses)
    && Lists(l.violations, StringLess(), x => x in pkg.violations)
    && (req.allowedLicenses == Nil ==> l.status == "not_evaluated")
    && (req.allowedLicenses != Nil && |pkg.licenses| == 0 ==> l.status == "unknown")
    && (req.allowedLicenses != Nil && |pkg.licenses| > 0 && |pkg.violations| > 0 ==> l.status == "noncompliant")
    && (req.allowedLicenses != Nil && |pkg.licenses| > 0 && |pkg.violations| == 0 ==> l.status == "compliant")
  }

  ghost predicate IsOccurrence(req: Request, result: ScanResult, source: Source, pkg: PackageVulns, call: SinkCall) {
    && call.Occurrence? && IsPackage(pkg.package, call.pkg)
    && IsContext(result, source, pkg, call.context) && IsLicense(req, pkg, call.license)
  }

  /** One union per group, of all its identifiers and aliases. */
  ghost predicate AreGroupUnions(groups: seq<Group>, calls: seq<SinkCall>) {
    |calls| == |groups| && forall g :: 0 <= g < |groups| ==> calls[g] == Union(groups[g].ids + groups[g].aliases)
  }

  // ---------------------------------------------------------------- one advisory

  /** An advisory with an identifier. */
  ghost predicate Identified(result: ScanResult, a: Option<nat>) {
    a.Some? && a.value < |result.catalog| && |result.catalog[a.value].id| > 0
  }

  ghost predicate IsAdvisory(osv: OsvVulnerability, a: Advisory) {
    && a.id == osv.id && a.summary == osv.summary
    && a.modified == osv.modified && a.published == osv.published && a.withdrawn == osv.withdrawn
    && a.databaseSeverity == osv.databaseSeverity
    && Lists(a.aliases, StringLess(), x => x in osv.aliases)
    && Lists(a.severities, SeverityOrder(), x => x in osv.severities)
    && Lists(a.references, ReferenceOrder(), x => x in osv.references)
  }

  predicate Nondecreasing(a: seq<nat>) {
    forall i, j :: 0 <= i < j < |a| ==> a[i] <= a[j]
  }

  /** The positions of the groups that list `id`, in order, each as often as it lists it. */
  ghost predicate IsListing(groups: seq<Group>, id: string, positions: seq<nat>) {
    && Nondecreasing(positions) && (forall i :: 0 <= i < |positions| ==> positions[i] < |groups|)
    && forall g :: 0 <= g < |groups| ==> multiset(positions)[g] == multiset(groups[g].ids)[id]
  }

  /** The assessment that a group makes of the advisory. */
  ghost predicate IsAssessment(g: Group, id: string, a: Assessment) {
    && a.maxSeverity == g.maxSeverity
    && (id in g.analysis ==>
       a.called == Some(g.analysis[id].called) && a.unimportant == Some(g.analysis[id].unimportant))
    && (id !in g.analysis ==> a.called == None && a.unimportant == None)
  }

  ghost predicate IsFinding(v: Versions, result: ScanResult, pkg: PackageVulns, pointer: nat, call: SinkCall)
    requires pointer < |result.catalog|
  {
    && call.Finding? && call.pointer == pointer && IsAdvisory(result.catalog[pointer], call.advisory)
    && IsEvidence(v, pkg.package, result.catalog[pointer].affected, call.fix)
  }

  /** The findings of one advisory: one for each time a group lists it, with that group's assessment, or
      else a single one without an assessment. */
  ghost predicate AreFindings(v: Versions, result: ScanResult, pkg: PackageVulns, pointer: nat, positions: seq<nat>,
                              calls: seq<SinkCall>)
    requires pointer < |result.catalog|
  {
    && (forall k :: 0 <= k < |calls| ==> IsFinding(v, result, pkg, pointer, calls[k]))
    && (positions == [] ==> |calls| == 1 && calls[0].assessment == Assessment(None, None, ""))
    && (positions != [] ==>
          && |calls| == |positions|
          && forall k :: 0 <= k < |positions| && positions[k] < |pkg.groups| ==>
               IsAssessment(pkg.groups[positions[k]], result.catalog[pointer].id, calls[k].assessment))
  }

  /** An advisory with an identifier unites it with its aliases, and then is found. */
  ghost predicate AreAdvisoryCalls(v: Versions, result: ScanResult, pkg: PackageVulns, a: Option<nat>,
                                   calls: seq<SinkCall>) {
    if !Identified(result, a) then calls == []
    else
      var osv := result.catalog[a.value];
      && |calls| > 0 && calls[0] == Union([osv.id] + osv.aliases)
      && exists positions ::
           IsListing(pkg.groups, osv.id, positions) && AreFindings(v, result, pkg, a.value, positions, calls[1..])
  }

  /** The calls of several advisories, part by part. */
  ghost predicate AdvisoryParts(v: Versions, result: ScanResult, pkg: PackageVulns, advisories: seq<Option<nat>>,
                                parts: seq<seq<SinkCall>>) {
    |parts| == |advisories| && forall k :: 0 <= k < |parts| ==>
      AreAdvisoryCalls(v, result, pkg, advisories[k], parts[k])
  }

  /** A selected package makes one occurrence, the unions of its groups, and the calls of its advisories,
      in this order. Another makes no call. */
  ghost predicate ArePackageCalls(v: Versions, req: Request, result: ScanResult, source: Source, pkg: PackageVulns,
                                  calls: seq<SinkCall>) {
    if !Selected(req, pkg) then calls == []
    else
      exists occurrence, unions, parts ::
        && calls == [occurrence] + unions + Flatten(parts)
        && IsOccurrence(req, result, source, pkg, occurrence) && AreGroupUnions(pkg.groups, unions)
        && AdvisoryParts(v, result, pkg, pkg.vulnerabilities, parts)
  }

  // ---------------------------------------------------------------- the whole response

  /** All packages of all sources, in order. */
  function PackagesOf(sources: seq<Source>): seq<(Source, PackageVulns)> {
    if sources == [] then []
    else
      var s := sources[|sources| - 1];
      PackagesOf(sources[..|sources| - 1])
      + seq(|s.packages|, k requires 0 <= k < |s.packages| => (s, s.packages[k]))
  }

  ghost predicate PackageParts(v: Versions, req: Request, result: ScanResult, packages: seq<(Source, PackageVulns)>,
                               parts: seq<seq<SinkCall>>) {
    && |parts| == |packages|
    && forall k :: 0 <= k < |parts| ==> ArePackageCalls(v, req, result, packages[k].0, packages[k].1, parts[k])
  }

  /** The calls of a response: those of its packages, one package after the other. */
  ghost predicate AreCalls(v: Versions, req: Request, resp: Response, calls: seq<SinkCall>) {
    if resp.error.Some? then calls == []
    else
      exists parts ::
        calls == Flatten(parts) && PackageParts(v, req, resp.result, PackagesOf(resp.result.sources), parts)
  }

  // ---------------------------------------------------------------- the projection says this

  lemma UniqueLists(values: seq<string>)
    ensures Lists(Unique(values), StringLess(), x => x in values)
  {
    StringLessTotal();
    CanonicalLists(StringLess(), values, x => x in values);
  }

  lemma OccurrenceIs(req: Request, result: ScanResult, source: Source, pkg: PackageVulns)
    ensures IsOccurrence(req, result, source, pkg,
                         Occurrence(ReportedPackage(pkg.package), ReportedContext(result, source, pkg),
                                    ReportedLicense(req, pkg)))
  {
    hide Lists, Unique;
    UniqueLists(pkg.depGroups);
    UniqueLists(pkg.licenses);
    UniqueLists(pkg.violations);
  }

  lemma AdvisoryIs(osv: OsvVulnerability)
    ensures IsAdvisory(osv, ProjectAdvisory(osv))
  {
    UniqueLists(osv.aliases);
    SeverityOrderTotal();
    ReferenceOrderTotal();
    hide Lists, Unique, Canonical, SeverityLess, ReferenceLess;
    CanonicalLists(SeverityOrder(), osv.severities, x => x in osv.severities);
    CanonicalLists(ReferenceOrder(), osv.references, x => x in osv.references);
  }

  lemma {:induction false} RepeatCounts(i: nat, ids: seq<string>, id: string)
    ensures forall k :: 0 <= k < |Repeat(i, ids, id)| ==> Repeat(i, ids, id)[k] == i
    ensures multiset(Repeat(i, ids, id))[i] == multiset(ids)[id]
  {
    if ids != [] {
      RepeatCounts(i, ids[..|ids| - 1], id);
      assert ids == ids[..|ids| - 1] + [ids[|ids| - 1]];
    }
  }

  lemma {:induction false} GroupsOfListing(groups: seq<Group>, id: string)
    ensures IsListing(groups, id, GroupsOf(groups, id))
  {
    if groups != [] {
      var i := |groups| - 1;
      GroupsOfListing(groups[..i], id);
      RepeatCounts(i, groups[i].ids, id);
      RepeatOnly(i, groups[i].ids, id);
      hide Repeat, IsListing;
      ListingMore(groups, id, GroupsOf(groups[..i], id), Repeat(i, groups[i].ids, id));
    }
  }

  lemma ListingMore(groups: seq<Group>, id: string, positions: seq<nat>, more: seq<nat>)
    requires groups != [] && IsListing(groups[..|groups| - 1], id, positions)
    requires forall k :: 0 <= k < |more| ==> more[k] == |groups| - 1
    requires multiset(more)[|groups| - 1] == multiset(groups[|groups| - 1].ids)[id]
    requires forall g :: g != |groups| - 1 ==> multiset(more)[g] == 0
    ensures IsListing(groups, id, positions + more)
  {
    var i := |groups| - 1;
    assert i !in positions;
    forall g | 0 <= g < |groups|
      ensures multiset(positions + more)[g] == multiset(groups[g].ids)[id]
    {
      assert g < i ==> groups[..i][g] == groups[g];
    }
  }

  lemma RepeatOnly(i: nat, ids: seq<string>, id: string)
    ensures forall g :: g != i ==> multiset(Repeat(i, ids, id))[g] == 0
  {
    RepeatCounts(i, ids, id);
    forall g | g != i
      ensures g !in Repeat(i, ids, id)
    {
    }
  }

  lemma {:induction false} LinkedCallsAre(pointer: nat, advisory: Advisory, fix: Fix, groups: seq<Group>,
                                          positions: seq<nat>, n: nat)
    requires n <= |positions|
    ensures var es := LinkedFindings(pointer, advisory, fix, groups, positions);
            && |Calls(es[..n])| == n
            && forall k :: 0 <= k < n ==> Calls(es[..n])[k] == es[k].call
  {
    if n > 0 {
      LinkedCallsAre(pointer, advisory, fix, groups, positions, n - 1);
      CallsNext(LinkedFindings(pointer, advisory, fix, groups, positions), n - 1);
    }
  }

  lemma FindingsAre(v: Versions, result: ScanResult, pkg: PackageVulns, pointer: nat)
    requires pointer < |result.catalog|
    ensures var osv := result.catalog[pointer];
            var positions := GroupsOf(pkg.groups, osv.id);
            var es := FindingEffects(pointer, ProjectAdvisory(osv), FixEvidence(v, pkg.package, osv.affected),
                                     pkg.groups, positions);
            AreFindings(v, result, pkg, pointer, positions, Calls(es))
  {
    var osv := result.catalog[pointer];
    var advisory, fix := ProjectAdvisory(osv), FixEvidence(v, pkg.package, osv.affected);
    AdvisoryIs(osv);
    EvidenceIs(v, pkg.package, osv.affected);
    assert advisory.id == osv.id;
    var positions := GroupsOf(pkg.groups, osv.id);
    hide ProjectAdvisory, FixEvidence, IsAdvisory, IsEvidence, GroupsOf, Calls, AreFindings, FindingEffects;
    if positions != [] {
      LinkedAre(v, result, pkg, pointer, advisory, fix, positions);
    } else {
      UnlinkedIs(v, result, pkg, pointer, advisory, fix);
    }
  }

  lemma LinkedAre(v: Versions, result: ScanResult, pkg: PackageVulns, pointer: nat, advisory: Advisory, fix: Fix,
                  positions: seq<nat>)
    requires pointer < |result.catalog| && IsAdvisory(result.catalog[pointer], advisory) && positions != []
    requires advisory.id == result.catalog[pointer].id
    requires IsEvidence(v, pkg.package, result.catalog[pointer].affected, fix)
    ensures AreFindings(v, result, pkg, pointer, positions,
                        Calls(FindingEffects(pointer, advisory, fix, pkg.groups, positions)))
  {
    hide IsAdvisory, IsEvidence, Calls;
    var es := FindingEffects(pointer, advisory, fix, pkg.groups, positions);
    LinkedCallsAre(pointer, advisory, fix, pkg.groups, positions, |positions|);
    assert es[..|positions|] == es;
  }

  lemma UnlinkedIs(v: Versions, result: ScanResult, pkg: PackageVulns, pointer: nat, advisory: Advisory, fix: Fix)
    requires pointer < |result.catalog| && IsAdvisory(result.catalog[pointer], advisory)
    requires IsEvidence(v, pkg.package, result.catalog[pointer].affected, fix)
    ensures AreFindings(v, result, pkg, pointer, [], Calls(FindingEffects(pointer, advisory, fix, pkg.groups, [])))
  {
    hide IsAdvisory, IsEvidence, Calls;
    var es := FindingEffects(pointer, advisory, fix, pkg.groups, []);
    var d, e := es[0], es[1];
    assert es == [d] + [e];
    CallsConcat([d], [e]);
    NoSinkNoCalls([d]);
    SingleCall(e);
  }

  lemma AdvisoryCallsAre(v: Versions, result: ScanResult, pkg: PackageVulns, a: Option<nat>)
    ensures AreAdvisoryCalls(v, result, pkg, a, Calls(VulnerabilityEffects(v, result, pkg, a)))
  {
    if Identified(result, a) {
      var osv := result.catalog[a.value];
      var positions := GroupsOf(pkg.groups, osv.id);
      var union := Sink(Union([osv.id] + osv.aliases));
      var es := FindingEffects(a.value, ProjectAdvisory(osv), FixEvidence(v, pkg.package, osv.affected), pkg.groups,
        positions);
      GroupsOfListing(pkg.groups, osv.id);
      FindingsAre(v, result, pkg, a.value);
      hide FindingEffects, Calls, AreFindings, IsListing, GroupsOf, ProjectAdvisory, FixEvidence;
      CallsConcat([union], es);
      SingleCall(union);
      var calls := [union.call] + Calls(es);
      assert VulnerabilityEffects(v, result, pkg, a) == [union] + es;
      hide VulnerabilityEffects;
      assert calls[1..] == Calls(es);
    } else {
      NoSinkNoCalls(VulnerabilityEffects(v, result, pkg, a));
    }
  }

  lemma {:induction false} AdvisoriesCallsAre(v: Versions, result: ScanResult, pkg: PackageVulns,
                                              advisories: seq<Option<nat>>)
    returns (parts: seq<seq<SinkCall>>)
    ensures AdvisoryParts(v, result, pkg, advisories, parts)
    ensures Calls(VulnerabilitiesEffects(v, result, pkg, advisories)) == Flatten(parts)
  {
    if advisories == [] {
      parts := [];
    } else {
      hide AreAdvisoryCalls, VulnerabilityEffects, Calls, Flatten, AdvisoryParts;
      var n := |advisories| - 1;
      var init := AdvisoriesCallsAre(v, result, pkg, advisories[..n]);
      AdvisoryCallsAre(v, result, pkg, advisories[n]);
      var es, more := VulnerabilitiesEffects(v, result, pkg, advisories[..n]),
        VulnerabilityEffects(v, result, pkg, advisories[n]);
      CallsConcat(es, more);
      parts := init + [Calls(more)];
      FlattenOne(init, Calls(more));
      AdvisoryPartsNext(v, result, pkg, advisories, init, Calls(more));
    }
  }

  lemma AdvisoryPartsNext(v: Versions, result: ScanResult, pkg: PackageVulns, advisories: seq<Option<nat>>,
                          parts: seq<seq<SinkCall>>, part: seq<SinkCall>)
    requires advisories != [] && AdvisoryParts(v, result, pkg, advisories[..|advisories| - 1], parts)
    requires AreAdvisoryCalls(v, result, pkg, advisories[|advisories| - 1], part)
    ensures AdvisoryParts(v, result, pkg, advisories, parts + [part])
  {
    hide AreAdvisoryCalls;
  }

  lemma {:induction false} GroupUnionsAre(groups: seq<Group>, n: nat)
    requires n <= |groups|
    ensures |Calls(GroupUnions(groups)[..n])| == n
    ensures forall g :: 0 <= g < n ==> Calls(GroupUnions(groups)[..n])[g] == Union(groups[g].ids + groups[g].aliases)
  {
    if n > 0 {
      GroupUnionsAre(groups, n - 1);
      CallsNext(GroupUnions(groups), n - 1);
    }
  }

  lemma AllGroupUnionsAre(groups: seq<Group>)
    ensures AreGroupUnions(groups, Calls(GroupUnions(groups)))
  {
    GroupUnionsAre(groups, |groups|);
    assert GroupUnions(groups)[..|groups|] == GroupUnions(groups);
  }

  lemma PackageCallsAre(v: Versions, req: Request, result: ScanResult, source: Source, pkg: PackageVulns)
    ensures ArePackageCalls(v, req, result, source, pkg, Calls(PackageEffects(v, req, result, source, pkg)))
  {
    DiagnosticsMakeNoCalls(req, result, pkg);
    OccurrenceIs(req, result, source, pkg);
    AllGroupUnionsAre(pkg.groups);
    var parts := AdvisoriesCallsAre(v, result, pkg, pkg.vulnerabilities);
    hide Deprecation, PackageDiagnostics, ReportedPackage, ReportedContext, ReportedLicense, VulnerabilitiesEffects,
      GroupUnions, Calls, IsOccurrence, AreGroupUnions, AdvisoryParts, Flatten;
    assert Selected(req, pkg) <==> !Skipped(req, pkg);
    hide Selected, Skipped;
    if Selected(req, pkg) {
      var occurrence := Sink(Occurrence(ReportedPackage(pkg.package), ReportedContext(result, source, pkg),
        ReportedLicense(req, pkg)));
      var unions, rest := GroupUnions(pkg.groups), VulnerabilitiesEffects(v, result, pkg, pkg.vulnerabilities);
      CallsOfFive(Deprecation(pkg), PackageDiagnostics(req, result, pkg), occurrence, unions, rest);
      assert PackageEffects(v, req, result, source, pkg)
             == Deprecation(pkg) + (PackageDiagnostics(req, result, pkg) + [occurrence] + unions + rest);
    } else {
      assert Deprecation(pkg) + [] == Deprecation(pkg);
    }
  }

  /** The calls of the first `n` packages of a source, package by package. */
  ghost predicate SourceParts(v: Versions, req: Request, result: ScanResult, source: Source, n: nat,
                              parts: seq<seq<SinkCall>>)
    requires n <= |source.packages|
  {
    |parts| == n && forall k :: 0 <= k < n ==> ArePackageCalls(v, req, result, source, source.packages[k], parts[k])
  }

  lemma PackagesEffectsNext(v: Versions, req: Request, result: ScanResult, source: Source, n: nat)
    requires n < |source.packages|
    ensures PackagesEffects(v, req, result, source, source.packages[..n + 1])
            == PackagesEffects(v, req, result, source, source.packages[..n])
               + PackageEffects(v, req, result, source, source.packages[n])
  {
    assert source.packages[..n + 1][..n] == source.packages[..n];
    hide PackageEffects;
  }

  lemma {:induction false} PackagesCallsAre(v: Versions, req: Request, result: ScanResult, source: Source, n: nat)
    returns (parts: seq<seq<SinkCall>>)
    requires n <= |source.packages|
    ensures SourceParts(v, req, result, source, n, parts)
    ensures Flatten(parts) == Calls(PackagesEffects(v, req, result, source, source.packages[..n]))
  {
    hide *;
    if n == 0 {
      parts := [];
      NoPackages(v, req, result, source);
    } else {
      var init := PackagesCallsAre(v, req, result, source, n - 1);
      PackageCallsAre(v, req, result, source, source.packages[n - 1]);
      var es, more := PackagesEffects(v, req, result, source, source.packages[..n - 1]),
        PackageEffects(v, req, result, source, source.packages[n - 1]);
      PackagesEffectsNext(v, req, result, source, n - 1);
      CallsConcat(es, more);
      parts := init + [Calls(more)];
      FlattenOne(init, Calls(more));
      SourcePartsNext(v, req, result, source, n - 1, init, Calls(more));
    }
  }

  lemma NoPackages(v: Versions, req: Request, result: ScanResult, source: Source)
    ensures SourceParts(v, req, result, source, 0, [])
    ensures Flatten<SinkCall>([]) == Calls(PackagesEffects(v, req, result, source, source.packages[..0]))
  {
  }

  lemma SourcePartsNext(v: Versions, req: Request, result: ScanResult, source: Source, n: nat,
                        parts: seq<seq<SinkCall>>, part: seq<SinkCall>)
    requires n < |source.packages| && SourceParts(v, req, result, source, n, parts)
    requires ArePackageCalls(v, req, result, source, source.packages[n], part)
    ensures SourceParts(v, req, result, source, n + 1, parts + [part])
  {
    hide ArePackageCalls;
  }

  lemma SourceCallsAre(v: Versions, req: Request, result: ScanResult, source: Source)
    returns (parts: seq<seq<SinkCall>>)
    ensures SourceParts(v, req, result, source, |source.packages|, parts)
    ensures Flatten(parts) == Calls(SourceEffects(v, req, result, source))
  {
    hide *;
    parts := PackagesCallsAre(v, req, result, source, |source.packages|);
    assert source.packages[..|source.packages|] == source.packages;
    SignalsMakeNoCalls(v, req, result, source);
  }

  lemma SignalsMakeNoCalls(v: Versions, req: Request, result: ScanResult, source: Source)
    ensures Calls(SourceEffects(v, req, result, source))
            == Calls(PackagesEffects(v, req, result, source, source.packages))
  {
    hide PackagesEffects;
    var signals := if source.signals
      then [Diagnose("unsupported_assessment", "Package exploitability signals are not represented")] else [];
    NoSinkNoCalls(signals);
    hide Calls;
    CallsConcat(signals, PackagesEffects(v, req, result, source, source.packages));
  }

  lemma {:induction false} SourcesCallsAre(v: Versions, req: Request, result: ScanResult, sources: seq<Source>)
    returns (parts: seq<seq<SinkCall>>)
    ensures PackageParts(v, req, result, PackagesOf(sources), parts)
    ensures Flatten(parts) == Calls(SourcesEffects(v, req, result, sources))
  {
    if sources == [] {
      parts := [];
    } else {
      hide SourceParts, SourceEffects, Calls, Flatten, PackageParts, PackagesOf;
      var n := |sources| - 1;
      var init := SourcesCallsAre(v, req, result, sources[..n]);
      var last := SourceCallsAre(v, req, result, sources[n]);
      CallsConcat(SourcesEffects(v, req, result, sources[..n]), SourceEffects(v, req, result, sources[n]));
      parts := init + last;
      FlattenConcat(init, last);
      PackagePartsMore(v, req, result, sources, init, last);
    }
  }

  lemma PackagePartsMore(v: Versions, req: Request, result: ScanResult, sources: seq<Source>,
                         parts: seq<seq<SinkCall>>, more: seq<seq<SinkCall>>)
    requires sources != [] && PackageParts(v, req, result, PackagesOf(sources[..|sources| - 1]), parts)
    requires var s := sources[|sources| - 1]; SourceParts(v, req, result, s, |s.packages|, more)
    ensures PackageParts(v, req, result, PackagesOf(sources), parts + more)
  {
    hide ArePackageCalls;
    var packages, all := PackagesOf(sources), parts + more;
    var before := PackagesOf(sources[..|sources| - 1]);
    forall k | 0 <= k < |all|
      ensures ArePackageCalls(v, req, result, packages[k].0, packages[k].1, all[k])
    {
      if k < |parts| {
        assert packages[k] == before[k] && all[k] == parts[k];
      } else {
        assert all[k] == more[k - |parts|];
      }
    }
  }

  /** What a response reports: which packages, united under which names, with which findings. */
  lemma CallsAre(v: Versions, req: Request, resp: Response)
    ensures AreCalls(v, req, resp, FactsOf(v, req, resp).calls)
  {
    if resp.error.None? {
      var result := resp.result;
      var generic := if result.genericFindings
        then [Diagnose("unsupported_findings", "Generic upstream findings are not represented")] else [];
      NoSinkNoCalls(generic);
      CallsConcat(generic, SourcesEffects(v, req, result, result.sources));
      EmitCalls(Output([], []), ResultEffects(v, req, result));
      hide SourcesEffects, Calls, EmitAll, PackageParts, Flatten;
      var parts := SourcesCallsAre(v, req, result, result.sources);
    }
  }

  // ---------------------------------------------------------------- and nothing else says this

  lemma LayerUnique(result: ScanResult, p: PackageInfo, a: Option<string>, b: Option<string>)
    requires IsLayer(result, p, a) && IsLayer(result, p, b)
    ensures a == b
  {
  }

  lemma OccurrenceUnique(req: Request, result: ScanResult, source: Source, pkg: PackageVulns, a: SinkCall, b: SinkCall)
    requires IsOccurrence(req, result, source, pkg, a) && IsOccurrence(req, result, source, pkg, b)
    ensures a == b
  {
    StringLessTotal();
    LayerUnique(result, pkg.package, a.context.layer, b.context.layer);
    hide Lists, IsLayer, Less;
    ListsUnique(a.context.dependencyGroups, b.context.dependencyGroups, StringLess(), x => x in pkg.depGroups);
    ListsUnique(a.license.licenses, b.license.licenses, StringLess(), x => x in pkg.licenses);
    ListsUnique(a.license.violations, b.license.violations, StringLess(), x => x in pkg.violations);
    assert a.pkg == b.pkg by {
      PackageUnique(pkg.package, a.pkg, b.pkg);
    }
  }

  lemma PackageUnique(p: PackageInfo, a: Package, b: Package)
    requires IsPackage(p, a) && IsPackage(p, b)
    ensures a == b
  {
    assert p.inventory.Some? ==> p.inventory == Some(p.inventory.value);
  }

  lemma AdvisoryUnique(osv: OsvVulnerability, a: Advisory, b: Advisory)
    requires IsAdvisory(osv, a) && IsAdvisory(osv, b)
    ensures a == b
  {
    StringLessTotal();
    SeverityOrderTotal();
    ReferenceOrderTotal();
    hide Lists, Less, SeverityLess, ReferenceLess;
    ListsUnique(a.aliases, b.aliases, StringLess(), x => x in osv.aliases);
    ListsUnique(a.severities, b.severities, SeverityOrder(), x => x in osv.severities);
    ListsUnique(a.references, b.references, ReferenceOrder(), x => x in osv.references);
  }

  /** Equal counts in the same order are equal lists. */
  lemma {:induction false} ListedOnce(a: seq<nat>, b: seq<nat>)
    requires Nondecreasing(a) && Nondecreasing(b) && multiset(a) == multiset(b)
    ensures a == b
  {
    SameSize(a, b);
    if a != [] {
      SameFirst(a, b);
      RestNondecreasing(a);
      RestNondecreasing(b);
      hide Nondecreasing;
      ListedOnce(a[1..], b[1..]);
      assert a == [a[0]] + a[1..] && b == [b[0]] + b[1..];
    }
  }

  lemma SameSize(a: seq<nat>, b: seq<nat>)
    requires multiset(a) == multiset(b)
    ensures |a| == |b|
  {
    assert |multiset(a)| == |a| && |multiset(b)| == |b|;
  }

  lemma SameFirst(a: seq<nat>, b: seq<nat>)
    requires Nondecreasing(a) && Nondecreasing(b) && multiset(a) == multiset(b) && a != [] && b != []
    ensures a[0] == b[0] && multiset(a[1..]) == multiset(b[1..])
  {
    RestIs(a);
    RestIs(b);
    FirstIsLeast(a, b[0]);
    FirstIsLeast(b, a[0]);
  }

  lemma RestNondecreasing(a: seq<nat>)
    requires Nondecreasing(a) && a != []
    ensures Nondecreasing(a[1..])
  {
  }

  lemma FirstIsLeast(a: seq<nat>, x: nat)
    requires Nondecreasing(a) && x in multiset(a)
    ensures a[0] <= x
  {
    assert x in a;
  }

  lemma RestIs(a: seq<nat>)
    requires a != []
    ensures multiset(a[1..]) == multiset(a) - multiset{a[0]} && a[0] in multiset(a)
  {
    assert a == [a[0]] + a[1..];
  }

  lemma ListingUnique(groups: seq<Group>, id: string, a: seq<nat>, b: seq<nat>)
    requires IsListing(groups, id, a) && IsListing(groups, id, b)
    ensures a == b
  {
    forall g: nat
      ensures multiset(a)[g] == multiset(b)[g]
    {
      if g < |groups| {
        assert multiset(a)[g] == multiset(groups[g].ids)[id];
      } else {
        assert g !in a && g !in b;
      }
    }
    assert multiset(a) == multiset(b);
    ListedOnce(a, b);
  }

  /** Two findings of an advisory differ at most in their assessments. */
  lemma FindingUnique(v: Versions, result: ScanResult, pkg: PackageVulns, pointer: nat, a: SinkCall, b: SinkCall)
    requires pointer < |result.catalog|
    requires IsFinding(v, result, pkg, pointer, a) && IsFinding(v, result, pkg, pointer, b)
    ensures a == b.(assessment := a.assessment)
  {
    var osv := result.catalog[pointer];
    AdvisoryUnique(osv, a.advisory, b.advisory);
    EvidenceUnique(v, pkg.package, osv.affected, a.fix);
    EvidenceUnique(v, pkg.package, osv.affected, b.fix);
  }

  lemma FindingsUnique(v: Versions, result: ScanResult, pkg: PackageVulns, pointer: nat, positions: seq<nat>,
                       a: seq<SinkCall>, b: seq<SinkCall>)
    requires pointer < |result.catalog| && IsListing(pkg.groups, result.catalog[pointer].id, positions)
    requires AreFindings(v, result, pkg, pointer, positions, a) && AreFindings(v, result, pkg, pointer, positions, b)
    ensures a == b
  {
    hide IsEvidence, IsAdvisory;
    forall k | 0 <= k < |a|
      ensures a[k] == b[k]
    {
      FindingUnique(v, result, pkg, pointer, a[k], b[k]);
      assert positions != [] ==> positions[k] < |pkg.groups|;
    }
  }

  lemma AdvisoryCallsUnique(v: Versions, result: ScanResult, pkg: PackageVulns, adv: Option<nat>,
                            a: seq<SinkCall>, b: seq<SinkCall>)
    requires AreAdvisoryCalls(v, result, pkg, adv, a) && AreAdvisoryCalls(v, result, pkg, adv, b)
    ensures a == b
  {
    if Identified(result, adv) {
      hide AreFindings, IsListing;
      var id := result.catalog[adv.value].id;
      var i :| IsListing(pkg.groups, id, i) && AreFindings(v, result, pkg, adv.value, i, a[1..]);
      var j :| IsListing(pkg.groups, id, j) && AreFindings(v, result, pkg, adv.value, j, b[1..]);
      ListingUnique(pkg.groups, id, i, j);
      FindingsUnique(v, result, pkg, adv.value, i, a[1..], b[1..]);
      assert a == [a[0]] + a[1..] && b == [b[0]] + b[1..];
    }
  }

  lemma AdvisoryPartsUnique(v: Versions, result: ScanResult, pkg: PackageVulns, advisories: seq<Option<nat>>,
                            a: seq<seq<SinkCall>>, b: seq<seq<SinkCall>>)
    requires AdvisoryParts(v, result, pkg, advisories, a) && AdvisoryParts(v, result, pkg, advisories, b)
    ensures a == b
  {
    hide AreAdvisoryCalls;
    forall k | 0 <= k < |a|
      ensures a[k] == b[k]
    {
      AdvisoryCallsUnique(v, result, pkg, advisories[k], a[k], b[k]);
    }
  }

  lemma PackageCallsUnique(v: Versions, req: Request, result: ScanResult, source: Source, pkg: PackageVulns,
                           a: seq<SinkCall>, b: seq<SinkCall>)
    requires ArePackageCalls(v, req, result, source, pkg, a) && ArePackageCalls(v, req, result, source, pkg, b)
    ensures a == b
  {
    hide IsOccurrence, AdvisoryParts, Selected, Flatten;
    if Selected(req, pkg) {
      var o, us, ps :|
        && a == [o] + us + Flatten(ps)
        && IsOccurrence(req, result, source, pkg, o) && AreGroupUnions(pkg.groups, us)
        && AdvisoryParts(v, result, pkg, pkg.vulnerabilities, ps);
      var o', us', ps' :|
        && b == [o'] + us' + Flatten(ps')
        && IsOccurrence(req, result, source, pkg, o') && AreGroupUnions(pkg.groups, us')
        && AdvisoryParts(v, result, pkg, pkg.vulnerabilities, ps');
      OccurrenceUnique(req, result, source, pkg, o, o');
      assert us == us';
      AdvisoryPartsUnique(v, result, pkg, pkg.vulnerabilities, ps, ps');
    }
  }

  /** These statements leave no freedom: they hold of the projected calls and of no others. */
  lemma CallsUnique(v: Versions, req: Request, resp: Response, calls: seq<SinkCall>)
    ensures AreCalls(v, req, resp, calls) <==> calls == FactsOf(v, req, resp).calls
  {
    CallsAre(v, req, resp);
    hide ArePackageCalls, FactsOf, Flatten, PackagesOf;
    if AreCalls(v, req, resp, calls) && resp.error.None? {
      var packages := PackagesOf(resp.result.sources);
      var a :| calls == Flatten(a) && PackageParts(v, req, resp.result, packages, a);
      var b :| FactsOf(v, req, resp).calls == Flatten(b) && PackageParts(v, req, resp.result, packages, b);
      forall k | 0 <= k < |a|
        ensures a[k] == b[k]
      {
        PackageCallsUnique(v, req, resp.result, packages[k].0, packages[k].1, a[k], b[k]);
      }
      assert a == b;
    }
  }
}
