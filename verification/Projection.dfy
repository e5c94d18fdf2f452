/** Projecting one scan response into library-owned facts: the calls made on the sink, in order, and
    the image record with its diagnostics. */
module Projection {
  import opened Common
  import opened Order
  import opened Report
  import opened Fixes
  import opened Batches

  // ---------------------------------------------------------------- the upstream response

  datatype OsvVulnerability = OsvVulnerability(
    id: string,
    aliases: seq<string>,
    summary: string,
    modified: Option<string>,
    published: Option<string>,
    withdrawn: Option<string>,
    severities: seq<Severity>,
    references: seq<Reference>,
    databaseSeverity: Option<string>,
    affected: seq<Affected>)

  datatype Analysis = Analysis(called: bool, unimportant: bool)

  datatype Group = Group(ids: seq<string>, aliases: seq<string>, maxSeverity: string, analysis: map<string, Analysis>)

  /** Vulnerabilities are pointers into the response's catalog; a nil pointer is possible. */
  datatype PackageVulns = PackageVulns(
    package: PackageInfo,
    depGroups: seq<string>,
    licenses: seq<string>,
    violations: seq<string>,
    groups: seq<Group>,
    vulnerabilities: seq<Option<nat>>)

  datatype Source = Source(path: string, sourceType: string, signals: bool, packages: seq<PackageVulns>)

  datatype Metadata = Metadata(os: string, layers: seq<string>)

  datatype ScanResult = ScanResult(metadata: Option<Metadata>, genericFindings: bool, sources: seq<Source>,
                                   catalog: seq<OsvVulnerability>)

  datatype Response = Response(result: ScanResult, error: Option<Diagnostic>)

  datatype Request = Request(image: string, allPackages: bool, allowedLicenses: List<string>)

  /** Every pointer of the response points somewhere. */
  ghost predicate ValidPointers(result: ScanResult) {
    forall s, p, a :: s in result.sources && p in s.packages && a in p.vulnerabilities && a.Some? ==>
      a.value < |result.catalog|
  }

  function ProjectAdvisory(a: OsvVulnerability): Advisory {
    Advisory(a.id, Unique(a.aliases), a.summary, a.modified, a.published, a.withdrawn,
             CanonicalSeverities(a.severities), CanonicalReferences(a.references), a.databaseSeverity)
  }

  // ---------------------------------------------------------------- effects

  /** What the projection does: it calls the sink or records a diagnostic. */
  datatype Effect = Sink(call: SinkCall) | Diagnose(code: string, message: string)

  /** The calls made and the diagnostics recorded so far. */
  datatype Output = Output(calls: seq<SinkCall>, diagnostics: seq<Diagnostic>)

  predicate Diagnosed(diagnostics: seq<Diagnostic>, code: string) {
    exists d :: d in diagnostics && d.code == code
  }

  /** Only the first diagnostic with a code is kept. */
  function Emit(out: Output, e: Effect): Output {
    match e
    case Sink(call) => out.(calls := out.calls + [call])
    case Diagnose(code, message) =>
      if Diagnosed(out.diagnostics, code) then out
      else out.(diagnostics := out.diagnostics + [Diagnostic(code, message)])
  }

  function EmitAll(out: Output, es: seq<Effect>): Output {
    if es == [] then out
    else Emit(EmitAll(out, es[..|es| - 1]), es[|es| - 1])
  }

  lemma EmitOne(out: Output, es: seq<Effect>, e: Effect)
    ensures EmitAll(out, es + [e]) == Emit(EmitAll(out, es), e)
  {
    assert (es + [e])[..|es|] == es;
  }

  lemma {:induction false} EmitConcat(out: Output, es: seq<Effect>, more: seq<Effect>)
    ensures EmitAll(out, es + more) == EmitAll(EmitAll(out, es), more)
  {
    if more == [] {
      assert es + more == es;
    } else {
      var n := |more| - 1;
      EmitConcat(out, es, more[..n]);
      assert es + more == (es + more[..n]) + [more[n]];
      EmitOne(out, es + more[..n], more[n]);
    }
  }

  // ---------------------------------------------------------------- one package

  /** The package has nothing to report under this request. */
  predicate Skipped(req: Request, pkg: PackageVulns) {
    && !req.allPackages && |pkg.vulnerabilities| == 0 && |pkg.violations| == 0
    && !(req.allowedLicenses.Items? && |pkg.licenses| == 0)
  }

  function ReportedPackage(p: PackageInfo): Package {
    Package(p.name, p.version, p.ecosystem, p.commit, p.osPackageName,
            if p.inventory.Some? && p.inventory.value.purl.Some? then p.inventory.value.purl.value else "")
  }

  predicate KnownLayer(result: ScanResult, p: PackageInfo) {
    p.imageOrigin.Some? && result.metadata.Some? && 0 <= p.imageOrigin.value < |result.metadata.value.layers|
  }

  function ReportedContext(result: ScanResult, source: Source, pkg: PackageVulns): PackageContext {
    var p := pkg.package;
    var path := if p.inventory.Some? && p.inventory.value.path != "" then p.inventory.value.path else source.path;
    var layer := if KnownLayer(result, p) then Some(result.metadata.value.layers[p.imageOrigin.value]) else None;
    PackageContext(path, source.sourceType, layer, Unique(pkg.depGroups))
  }

  function LicenseStatus(req: Request, pkg: PackageVulns): string {
    if req.allowedLicenses.Nil? then "not_evaluated"
    else if pkg.licenses == [] then "unknown"
    else if pkg.violations != [] then "noncompliant"
    else "compliant"
  }

  function ReportedLicense(req: Request, pkg: PackageVulns): License {
    License(Unique(pkg.licenses), req.allowedLicenses, Unique(pkg.violations), LicenseStatus(req, pkg))
  }

  function SignalDiagnostics(p: PackageInfo): seq<Effect> {
    if p.inventory.Some? && p.inventory.value.signals
    then [Diagnose("unsupported_assessment", "Package exploitability signals are not represented")]
    else []
  }

  function LayerDiagnostics(result: ScanResult, p: PackageInfo): seq<Effect> {
    if p.imageOrigin.Some? && result.metadata.Some? && !KnownLayer(result, p)
    then [Diagnose("unknown_layer", "Package layer index is unavailable")]
    else []
  }

  function LicenseDiagnostics(req: Request, pkg: PackageVulns): seq<Effect> {
    if req.allowedLicenses.Items? && pkg.licenses == []
    then [Diagnose("unknown_license", "License assessment is incomplete")]
    else []
  }

  function PackageDiagnostics(req: Request, result: ScanResult, pkg: PackageVulns): seq<Effect> {
    SignalDiagnostics(pkg.package) + LayerDiagnostics(result, pkg.package) + LicenseDiagnostics(req, pkg)
  }

  function GroupUnions(groups: seq<Group>): seq<Effect> {
    seq(|groups|, i requires 0 <= i < |groups| => Sink(Union(groups[i].ids + groups[i].aliases)))
  }

  function Repeat(i: nat, ids: seq<string>, id: string): seq<nat> {
    if ids == [] then []
    else Repeat(i, ids[..|ids| - 1], id) + if ids[|ids| - 1] == id then [i] else []
  }

  /** The groups that list `id`, as often as they list it. */
  function GroupsOf(groups: seq<Group>, id: string): seq<nat> {
    if groups == [] then []
    else
      var i := |groups| - 1;
      GroupsOf(groups[..i], id) + Repeat(i, groups[i].ids, id)
  }

  function AssessmentIn(g: Group, id: string): Assessment {
    if id in g.analysis then Assessment(Some(g.analysis[id].called), Some(g.analysis[id].unimportant), g.maxSeverity)
    else Assessment(None, None, g.maxSeverity)
  }

  function LinkedFindings(pointer: nat, advisory: Advisory, fix: Fix, groups: seq<Group>,
                          positions: seq<nat>): seq<Effect> {
    seq(|positions|, i requires 0 <= i < |positions| =>
      Sink(Finding(pointer, advisory, fix,
                   if positions[i] < |groups| then AssessmentIn(groups[positions[i]], advisory.id)
                     else Assessment(None, None, ""))))
  }

  /** One finding per group that lists the advisory, or a single one without an assessment. */
  function FindingEffects(pointer: nat, advisory: Advisory, fix: Fix, groups: seq<Group>,
                          positions: seq<nat>): seq<Effect> {
    if positions != [] then LinkedFindings(pointer, advisory, fix, groups, positions)
    else [Diagnose("missing_assessment", "Advisory has no upstream group assessment"),
          Sink(Finding(pointer, advisory, fix, Assessment(None, None, "")))]
  }

  /** One advisory of the package: its union first, then its findings. */
  function VulnerabilityEffects(v: Versions, result: ScanResult, pkg: PackageVulns, a: Option<nat>): seq<Effect> {
    if a.None? || a.value >= |result.catalog| || result.catalog[a.value].id == "" then
      [Diagnose("unsupported_advisory", "Advisory has no source identifier")]
    else
      var osv := result.catalog[a.value];
      var advisory := ProjectAdvisory(osv);
      var fix := FixEvidence(v, pkg.package, osv.affected);
      var positions := GroupsOf(pkg.groups, osv.id);
      [Sink(Union([osv.id] + osv.aliases))] + FindingEffects(a.value, advisory, fix, pkg.groups, positions)
  }

  function VulnerabilitiesEffects(v: Versions, result: ScanResult, pkg: PackageVulns,
                                  advisories: seq<Option<nat>>): seq<Effect> {
    if advisories == [] then []
    else
      VulnerabilitiesEffects(v, result, pkg, advisories[..|advisories| - 1]) +
      VulnerabilityEffects(v, result, pkg, advisories[|advisories| - 1])
  }

  function Deprecation(pkg: PackageVulns): seq<Effect> {
    if pkg.package.deprecated
    then [Diagnose("unsupported_deprecation", "Package deprecation is outside vulnerability/license reporting")]
    else []
  }

  function PackageEffects(v: Versions, req: Request, result: ScanResult, source: Source,
                          pkg: PackageVulns): seq<Effect> {
    Deprecation(pkg) +
    if Skipped(req, pkg) then []
    else
      PackageDiagnostics(req, result, pkg) +
      [Sink(Occurrence(ReportedPackage(pkg.package), ReportedContext(result, source, pkg),
        ReportedLicense(req, pkg)))] +
      GroupUnions(pkg.groups) +
      VulnerabilitiesEffects(v, result, pkg, pkg.vulnerabilities)
  }

  // ---------------------------------------------------------------- the whole response

  function PackagesEffects(v: Versions, req: Request, result: ScanResult, source: Source,
                           packages: seq<PackageVulns>): seq<Effect> {
    if packages == [] then []
    else
      PackagesEffects(v, req, result, source, packages[..|packages| - 1]) +
      PackageEffects(v, req, result, source, packages[|packages| - 1])
  }

  function SourceEffects(v: Versions, req: Request, result: ScanResult, source: Source): seq<Effect> {
    (if source.signals
     then [Diagnose("unsupported_assessment", "Package exploitability signals are not represented")] else []) +
    PackagesEffects(v, req, result, source, source.packages)
  }

  function SourcesEffects(v: Versions, req: Request, result: ScanResult, sources: seq<Source>): seq<Effect> {
    if sources == [] then []
    else
      SourcesEffects(v, req, result, sources[..|sources| - 1]) +
      SourceEffects(v, req, result, sources[|sources| - 1])
  }

  function ResultEffects(v: Versions, req: Request, result: ScanResult): seq<Effect> {
    (if result.genericFindings
     then [Diagnose("unsupported_findings", "Generic upstream findings are not represented")] else []) +
    SourcesEffects(v, req, result, result.sources)
  }

  /** The facts of a response. A failed scan is an image record with no calls. */
  function FactsOf(v: Versions, req: Request, resp: Response): Facts {
    if resp.error.Some? then Facts([], Image(req.image, None, "failed", [resp.error.value]))
    else
      var out := EmitAll(Output([], []), ResultEffects(v, req, resp.result));
      var os := if resp.result.metadata.Some? then Some(resp.result.metadata.value.os) else None;
      Facts(out.calls, Image(req.image, os, "complete", out.diagnostics))
  }

  // ---------------------------------------------------------------- the computation

  /** What the sink and the diagnostics have seen after the effects `es`. */
  ghost predicate Emitted(out0: Output, out: Output, es: seq<Effect>) {
    out == EmitAll(out0, es)
  }

  lemma EmittedNone(out: Output)
    ensures Emitted(out, out, [])
  {
  }

  lemma EmittedOne(out0: Output, out: Output, es: seq<Effect>, e: Effect)
    requires Emitted(out0, out, es)
    ensures Emitted(out0, Emit(out, e), es + [e])
  {
    EmitOne(out0, es, e);
  }

  lemma EmittedMore(out0: Output, out: Output, out': Output, es: seq<Effect>, more: seq<Effect>)
    requires Emitted(out0, out, es) && Emitted(out, out', more)
    ensures Emitted(out0, out', es + more)
  {
    EmitConcat(out0, es, more);
  }

  function Lookup(byID: map<string, seq<nat>>, id: string): seq<nat> {
    if id in byID then byID[id] else []
  }

  ghost predicate GroupsIndexed(byID: map<string, seq<nat>>, groups: seq<Group>) {
    forall id :: Lookup(byID, id) == GroupsOf(groups, id)
  }

  /** All groups below `i` are indexed, and the first `k` identifiers of group `i`. */
  ghost predicate Indexing(byID: map<string, seq<nat>>, groups: seq<Group>, i: nat, k: nat)
    requires i < |groups| && k <= |groups[i].ids|
  {
    forall id :: Lookup(byID, id) == GroupsOf(groups[..i], id) + Repeat(i, groups[i].ids[..k], id)
  }

  lemma IndexingNext(byID: map<string, seq<nat>>, groups: seq<Group>, i: nat, k: nat)
    requires i < |groups| && k < |groups[i].ids| && Indexing(byID, groups, i, k)
    ensures Indexing(byID[groups[i].ids[k] := Lookup(byID, groups[i].ids[k]) + [i]], groups, i, k + 1)
  {
    var ids := groups[i].ids;
    var byID' := byID[ids[k] := Lookup(byID, ids[k]) + [i]];
    forall id
      ensures Lookup(byID', id) == GroupsOf(groups[..i], id) + Repeat(i, ids[..k + 1], id)
    {
      hide GroupsOf, Repeat;
      assert Lookup(byID, id) == GroupsOf(groups[..i], id) + Repeat(i, ids[..k], id);
      RepeatNext(i, ids, k, id);
    }
  }

  lemma RepeatNext(i: nat, ids: seq<string>, k: nat, id: string)
    requires k < |ids|
    ensures Repeat(i, ids[..k + 1], id) == if ids[k] == id then Repeat(i, ids[..k], id) + [i]
            else Repeat(i, ids[..k], id)
  {
    assert ids[..k + 1][..k] == ids[..k];
  }

  lemma IndexingStarts(byID: map<string, seq<nat>>, groups: seq<Group>, i: nat)
    requires i < |groups| && GroupsIndexed(byID, groups[..i])
    ensures Indexing(byID, groups, i, 0)
  {
  }

  lemma IndexingEnds(byID: map<string, seq<nat>>, groups: seq<Group>, i: nat)
    requires i < |groups| && Indexing(byID, groups, i, |groups[i].ids|)
    ensures GroupsIndexed(byID, groups[..i + 1])
  {
    var ids := groups[i].ids;
    assert ids[..|ids|] == ids && groups[..i + 1][..i] == groups[..i];
  }

  /** The positions of the groups that list each identifier. */
  method IndexGroups(groups: seq<Group>) returns (byID: map<string, seq<nat>>)
    ensures GroupsIndexed(byID, groups)
  {
    byID := map[];
    for i := 0 to |groups|
      invariant GroupsIndexed(byID, groups[..i])
    {
      hide GroupsIndexed, Indexing, Repeat, GroupsOf;
      IndexingStarts(byID, groups, i);
      var ids := groups[i].ids;
      for k := 0 to |ids|
        invariant Indexing(byID, groups, i, k)
      {
        IndexingNext(byID, groups, i, k);
        byID := byID[ids[k] := Lookup(byID, ids[k]) + [i]];
      }
      IndexingEnds(byID, groups, i);
    }
    assert groups[..|groups|] == groups;
  }

  /** Projections of advisories already seen in this image. */
  ghost predicate Memo(local: map<nat, Advisory>, result: ScanResult) {
    forall k :: k in local ==> k < |result.catalog| && local[k] == ProjectAdvisory(result.catalog[k])
  }

  method ProjectLinked(pointer: nat, advisory: Advisory, fix: Fix, groups: seq<Group>, positions: seq<nat>,
                       out0: Output)
    returns (out: Output)
    requires forall i :: 0 <= i < |positions| ==> positions[i] < |groups|
    ensures Emitted(out0, out, LinkedFindings(pointer, advisory, fix, groups, positions))
  {
    ghost var es := LinkedFindings(pointer, advisory, fix, groups, positions);
    out := out0;
    EmittedNone(out0);
    for i := 0 to |positions|
      invariant Emitted(out0, out, es[..i])
    {
      hide Emitted;
      assert es[..i + 1] == es[..i] + [es[i]];
      var g := groups[positions[i]];
      var assess := Assessment(None, None, g.maxSeverity);
      if advisory.id in g.analysis {
        var a := g.analysis[advisory.id];
        assess := assess.(called := Some(a.called), unimportant := Some(a.unimportant));
      }
      EmittedOne(out0, out, es[..i], Sink(Finding(pointer, advisory, fix, assess)));
      out := out.(calls := out.calls + [Finding(pointer, advisory, fix, assess)]);
    }
    assert es[..|positions|] == es;
  }

  lemma {:induction false} RepeatIs(i: nat, ids: seq<string>, id: string)
    ensures forall k :: 0 <= k < |Repeat(i, ids, id)| ==> Repeat(i, ids, id)[k] == i
    ensures Repeat(i, ids, id) == [] <==> id !in ids
  {
    if ids != [] {
      RepeatIs(i, ids[..|ids| - 1], id);
      SplitLast(ids);
    }
  }

  lemma {:induction false} GroupsOfInRange(groups: seq<Group>, id: string)
    ensures forall k :: 0 <= k < |GroupsOf(groups, id)| ==>
              GroupsOf(groups, id)[k] < |groups| && id in groups[GroupsOf(groups, id)[k]].ids
  {
    if groups != [] {
      var i := |groups| - 1;
      GroupsOfInRange(groups[..i], id);
      RepeatIs(i, groups[i].ids, id);
    }
  }

  function Record(out: Output, code: string, message: string): Output {
    Emit(out, Diagnose(code, message))
  }

  method ProjectFindings(pointer: nat, advisory: Advisory, fix: Fix, groups: seq<Group>, positions: seq<nat>,
                         out0: Output)
    returns (out: Output)
    requires forall i :: 0 <= i < |positions| ==> positions[i] < |groups|
    ensures Emitted(out0, out, FindingEffects(pointer, advisory, fix, groups, positions))
  {
    if positions != [] {
      out := ProjectLinked(pointer, advisory, fix, groups, positions, out0);
      return;
    }
    EmittedNone(out0);
    var missing := Diagnose("missing_assessment", "Advisory has no upstream group assessment");
    var finding := Finding(pointer, advisory, fix, Assessment(None, None, ""));
    EmittedOne(out0, out0, [], missing);
    out := Record(out0, "missing_assessment", "Advisory has no upstream group assessment");
    assert [] + [missing] == [missing];
    EmittedOne(out0, out, [missing], Sink(finding));
    out := out.(calls := out.calls + [finding]);
    assert [missing] + [Sink(finding)] == [missing, Sink(finding)];
  }

  method ProjectVulnerability(v: Versions, result: ScanResult, pkg: PackageVulns, byID: map<string, seq<nat>>,
                              local0: map<nat, Advisory>, a: Option<nat>, out0: Output)
    returns (local: map<nat, Advisory>, out: Output)
    requires a.Some? ==> a.value < |result.catalog|
    requires GroupsIndexed(byID, pkg.groups) && Memo(local0, result)
    ensures Memo(local, result)
    ensures Emitted(out0, out, VulnerabilityEffects(v, result, pkg, a))
  {
    hide Emitted, FixEvidence, ProjectAdvisory, FindingEffects, GroupsOf;
    local, out := local0, out0;
    EmittedNone(out0);
    if a.None? || result.catalog[a.value].id == "" {
      var unsupported := Diagnose("unsupported_advisory", "Advisory has no source identifier");
      EmittedOne(out0, out0, [], unsupported);
      assert [] + [unsupported] == [unsupported];
      out := Record(out, "unsupported_advisory", "Advisory has no source identifier");
      return;
    }
    var osv := result.catalog[a.value];
    if a.value !in local {
      local := local[a.value := ProjectAdvisory(osv)];
    }
    var advisory := local[a.value];
    var united := Union([osv.id] + osv.aliases);
    EmittedOne(out0, out0, [], Sink(united));
    assert [] + [Sink(united)] == [Sink(united)];
    ghost var before := out.(calls := out.calls + [united]);
    out := out.(calls := out.calls + [united]);
    var fix := PackageFixes(v, pkg.package, osv.affected);
    var positions := Lookup(byID, osv.id);
    GroupsOfInRange(pkg.groups, osv.id);
    out := ProjectFindings(a.value, advisory, fix, pkg.groups, positions, out);
    EmittedMore(out0, before, out, [Sink(united)], FindingEffects(a.value, advisory, fix, pkg.groups, positions));
  }

  lemma EmitSingle(out: Output, e: Effect)
    ensures EmitAll(out, [e]) == Emit(out, e) && EmitAll(out, []) == out
  {
    assert [e][..0] == [];
  }

  /** The license assessment of a package, with its diagnostic. */
  method ProjectLicense(req: Request, pkg: PackageVulns, out0: Output) returns (lic: License, out: Output)
    ensures lic == ReportedLicense(req, pkg)
    ensures Emitted(out0, out, LicenseDiagnostics(req, pkg))
  {
    EmitSingle(out0, Diagnose("unknown_license", "License assessment is incomplete"));
    out := out0;
    lic := License(Unique(pkg.licenses), req.allowedLicenses, Unique(pkg.violations), "not_evaluated");
    if req.allowedLicenses.Items? {
      lic := lic.(status := "compliant");
      if lic.licenses.Nil? {
        lic := lic.(status := "unknown");
        out := Record(out, "unknown_license", "License assessment is incomplete");
      } else if lic.violations.Items? {
        lic := lic.(status := "noncompliant");
      }
    }
  }

  /** Where the package was found, with its diagnostics. */
  method ProjectContext(result: ScanResult, source: Source, pkg: PackageVulns, out0: Output)
    returns (ctx: PackageContext, out: Output)
    ensures ctx == ReportedContext(result, source, pkg)
    ensures Emitted(out0, out, LayerDiagnostics(result, pkg.package))
  {
    EmitSingle(out0, Diagnose("unknown_layer", "Package layer index is unavailable"));
    var p := pkg.package;
    out := out0;
    ctx := PackageContext(source.path, source.sourceType, None, Unique(pkg.depGroups));
    if p.inventory.Some? && p.inventory.value.path != "" {
      ctx := ctx.(path := p.inventory.value.path);
    }
    if p.imageOrigin.Some? && result.metadata.Some? {
      var li := p.imageOrigin.value;
      if 0 <= li < |result.metadata.value.layers| {
        ctx := ctx.(layer := Some(result.metadata.value.layers[li]));
      } else {
        out := Record(out, "unknown_layer", "Package layer index is unavailable");
      }
    }
  }

  method ProjectRecord(p: PackageInfo, out0: Output) returns (rp: Package, out: Output)
    ensures rp == ReportedPackage(p)
    ensures Emitted(out0, out, SignalDiagnostics(p))
  {
    EmitSingle(out0, Diagnose("unsupported_assessment", "Package exploitability signals are not represented"));
    out := out0;
    rp := Package(p.name, p.version, p.ecosystem, p.commit, p.osPackageName, "");
    if p.inventory.Some? {
      if p.inventory.value.purl.Some? {
        rp := rp.(purl := p.inventory.value.purl.value);
      }
      if p.inventory.value.signals {
        out := Record(out, "unsupported_assessment", "Package exploitability signals are not represented");
      }
    }
  }

  /** The occurrence of a package, after the diagnostics about it. */
  method ProjectOccurrence(req: Request, result: ScanResult, source: Source, pkg: PackageVulns, out0: Output)
    returns (out: Output)
    ensures Emitted(out0, out, PackageDiagnostics(req, result, pkg) +
                               [Sink(Occurrence(ReportedPackage(pkg.package), ReportedContext(result, source, pkg),
                                 ReportedLicense(req, pkg)))])
  {
    hide Emitted, ReportedPackage, ReportedContext, ReportedLicense, SignalDiagnostics, LayerDiagnostics,
      LicenseDiagnostics;
    var rp, out1 := ProjectRecord(pkg.package, out0);
    var ctx, out2 := ProjectContext(result, source, pkg, out1);
    EmittedMore(out0, out1, out2, SignalDiagnostics(pkg.package), LayerDiagnostics(result, pkg.package));
    var lic, out3 := ProjectLicense(req, pkg, out2);
    EmittedMore(out0, out2, out3, SignalDiagnostics(pkg.package) + LayerDiagnostics(result, pkg.package),
      LicenseDiagnostics(req, pkg));
    EmittedOne(out0, out3, PackageDiagnostics(req, result, pkg), Sink(Occurrence(rp, ctx, lic)));
    out := out3.(calls := out3.calls + [Occurrence(rp, ctx, lic)]);
  }

  method ProjectUnions(groups: seq<Group>, out0: Output) returns (out: Output)
    ensures Emitted(out0, out, GroupUnions(groups))
  {
    ghost var es := GroupUnions(groups);
    out := out0;
    EmittedNone(out0);
    for i := 0 to |groups|
      invariant Emitted(out0, out, es[..i])
    {
      hide Emitted;
      assert es[..i + 1] == es[..i] + [es[i]];
      var ids := groups[i].ids + groups[i].aliases;
      EmittedOne(out0, out, es[..i], Sink(Union(ids)));
      out := out.(calls := out.calls + [Union(ids)]);
    }
    assert es[..|groups|] == es;
  }

  lemma VulnerabilitiesNext(v: Versions, result: ScanResult, pkg: PackageVulns, advisories: seq<Option<nat>>, k: nat)
    requires k < |advisories|
    ensures VulnerabilitiesEffects(v, result, pkg, advisories[..k + 1]) ==
            VulnerabilitiesEffects(v, result, pkg, advisories[..k])
              + VulnerabilityEffects(v, result, pkg, advisories[k])
  {
    hide VulnerabilityEffects;
    assert advisories[..k + 1][..k] == advisories[..k];
  }

  method ProjectVulnerabilities(ctx: Context, v: Versions, result: ScanResult, pkg: PackageVulns,
                                local0: map<nat, Advisory>, out0: Output)
    returns (canceled: bool, local: map<nat, Advisory>, out: Output)
    requires forall a :: a in pkg.vulnerabilities && a.Some? ==> a.value < |result.catalog|
    requires Memo(local0, result)
    ensures canceled ==> ctx.Cancelable?
    ensures !canceled ==>
              Memo(local, result) && Emitted(out0, out, VulnerabilitiesEffects(v, result, pkg, pkg.vulnerabilities))
  {
    hide Emitted, Memo, GroupsIndexed, VulnerabilityEffects;
    var byID := IndexGroups(pkg.groups);
    canceled, local, out := false, local0, out0;
    EmittedNone(out0);
    var advisories := pkg.vulnerabilities;
    for k := 0 to |advisories|
      invariant !canceled && Memo(local, result)
      invariant Emitted(out0, out, VulnerabilitiesEffects(v, result, pkg, advisories[..k]))
    {
      hide VulnerabilitiesEffects;
      canceled := CheckContext(ctx);
      if canceled {
        return;
      }
      assert advisories[k] in advisories;
      VulnerabilitiesNext(v, result, pkg, advisories, k);
      ghost var before := out;
      local, out := ProjectVulnerability(v, result, pkg, byID, local, advisories[k], out);
      EmittedMore(out0, before, out, VulnerabilitiesEffects(v, result, pkg, advisories[..k]),
        VulnerabilityEffects(v, result, pkg, advisories[k]));
    }
    assert advisories[..|advisories|] == advisories;
  }

  method ProjectPackage(ctx: Context, v: Versions, req: Request, result: ScanResult, source: Source, pkg: PackageVulns,
                        local0: map<nat, Advisory>, out0: Output)
    returns (canceled: bool, local: map<nat, Advisory>, out: Output)
    requires forall a :: a in pkg.vulnerabilities && a.Some? ==> a.value < |result.catalog|
    requires Memo(local0, result)
    ensures canceled ==> ctx.Cancelable?
    ensures !canceled ==> Memo(local, result) && Emitted(out0, out, PackageEffects(v, req, result, source, pkg))
  {
    hide Memo, VulnerabilitiesEffects, PackageDiagnostics, ReportedContext, ReportedLicense, GroupUnions, EmitAll, Emit;
    local, out := local0, out0;
    canceled := CheckContext(ctx);
    if canceled {
      return;
    }
    var deprecation :=
      Diagnose("unsupported_deprecation", "Package deprecation is outside vulnerability/license reporting");
    ghost var es := Deprecation(pkg);
    EmitSingle(out0, deprecation);
    if pkg.package.deprecated {
      out := Record(out, "unsupported_deprecation", "Package deprecation is outside vulnerability/license reporting");
    }
    assert Emitted(out0, out, es);
    hide Emitted;
    if Skipped(req, pkg) {
      assert es + [] == es;
      return;
    }
    ghost var o := PackageDiagnostics(req, result, pkg) +
                   [Sink(Occurrence(ReportedPackage(pkg.package), ReportedContext(result, source, pkg),
                     ReportedLicense(req, pkg)))];
    ghost var out1 := out;
    out := ProjectOccurrence(req, result, source, pkg, out);
    EmittedMore(out0, out1, out, es, o);
    ghost var out2 := out;
    out := ProjectUnions(pkg.groups, out);
    EmittedMore(out0, out2, out, es + o, GroupUnions(pkg.groups));
    ghost var out3 := out;
    canceled, local, out := ProjectVulnerabilities(ctx, v, result, pkg, local, out);
    if !canceled {
      EmittedMore(out0, out3, out, es + o + GroupUnions(pkg.groups),
        VulnerabilitiesEffects(v, result, pkg, pkg.vulnerabilities));
      assert es + o + GroupUnions(pkg.groups) + VulnerabilitiesEffects(v, result, pkg, pkg.vulnerabilities) ==
             PackageEffects(v, req, result, source, pkg);
    }
  }

  lemma PackagesNext(v: Versions, req: Request, result: ScanResult, source: Source, packages: seq<PackageVulns>, k: nat)
    requires k < |packages|
    ensures PackagesEffects(v, req, result, source, packages[..k + 1]) ==
            PackagesEffects(v, req, result, source, packages[..k]) + PackageEffects(v, req, result, source, packages[k])
  {
    hide PackageEffects;
    assert packages[..k + 1][..k] == packages[..k];
  }

  method ProjectSource(ctx: Context, v: Versions, req: Request, result: ScanResult, source: Source,
                       local0: map<nat, Advisory>, out0: Output)
    returns (canceled: bool, local: map<nat, Advisory>, out: Output)
    requires ValidPointers(result) && source in result.sources && Memo(local0, result)
    ensures canceled ==> ctx.Cancelable?
    ensures !canceled ==> Memo(local, result) && Emitted(out0, out, SourceEffects(v, req, result, source))
  {
    hide Memo, PackageEffects, EmitAll, Emit;
    canceled, local, out := false, local0, out0;
    var signals := Diagnose("unsupported_assessment", "Package exploitability signals are not represented");
    ghost var es := if source.signals then [signals] else [];
    EmitSingle(out0, signals);
    if source.signals {
      out := Record(out, "unsupported_assessment", "Package exploitability signals are not represented");
    }
    assert Emitted(out0, out, es);
    hide Emitted;
    ghost var out1 := out;
    EmittedNone(out1);
    for k := 0 to |source.packages|
      invariant !canceled && Memo(local, result)
      invariant Emitted(out1, out, PackagesEffects(v, req, result, source, source.packages[..k]))
    {
      hide PackagesEffects;
      assert source.packages[k] in source.packages;
      PackagesNext(v, req, result, source, source.packages, k);
      ghost var before := out;
      canceled, local, out := ProjectPackage(ctx, v, req, result, source, source.packages[k], local, out);
      if canceled {
        return;
      }
      EmittedMore(out1, before, out, PackagesEffects(v, req, result, source, source.packages[..k]),
        PackageEffects(v, req, result, source, source.packages[k]));
    }
    assert source.packages[..|source.packages|] == source.packages;
    EmittedMore(out0, out1, out, es, PackagesEffects(v, req, result, source, source.packages));
  }

  lemma SourcesNext(v: Versions, req: Request, result: ScanResult, sources: seq<Source>, k: nat)
    requires k < |sources|
    ensures SourcesEffects(v, req, result, sources[..k + 1]) ==
            SourcesEffects(v, req, result, sources[..k]) + SourceEffects(v, req, result, sources[k])
  {
    hide SourceEffects;
    assert sources[..k + 1][..k] == sources[..k];
  }

  /** The projection of one response. A cancelled projection has no result. */
  method ProjectImage(ctx: Context, v: Versions, req: Request, resp: Response) returns (r: Result<Facts>)
    requires ValidPointers(resp.result)
    ensures r.Success? ==> r.value == FactsOf(v, req, resp)
    ensures r.Fail? ==> r.error == Canceled && ctx.Cancelable?
  {
    hide SourceEffects, EmitAll, Emit, ValidPointers;
    if resp.error.Some? {
      return Success(Facts([], Image(req.image, None, "failed", [resp.error.value])));
    }
    var result := resp.result;
    var os: Option<string> := None;
    if result.metadata.Some? {
      os := Some(result.metadata.value.os);
    }
    var out0 := Output([], []);
    var out := out0;
    var generic := Diagnose("unsupported_findings", "Generic upstream findings are not represented");
    ghost var es := if result.genericFindings then [generic] else [];
    EmitSingle(out0, generic);
    if result.genericFindings {
      out := Record(out, "unsupported_findings", "Generic upstream findings are not represented");
    }
    assert Emitted(out0, out, es);
    ghost var out1 := out;
    EmittedNone(out1);
    var local: map<nat, Advisory> := map[];
    for k := 0 to |result.sources|
      invariant Memo(local, result)
      invariant Emitted(out1, out, SourcesEffects(v, req, result, result.sources[..k]))
    {
      hide SourcesEffects, Emitted, Memo;
      assert result.sources[k] in result.sources;
      SourcesNext(v, req, result, result.sources, k);
      ghost var before := out;
      var canceled;
      canceled, local, out := ProjectSource(ctx, v, req, result, result.sources[k], local, out);
      if canceled {
        return Fail(Canceled);
      }
      EmittedMore(out1, before, out, SourcesEffects(v, req, result, result.sources[..k]),
        SourceEffects(v, req, result, result.sources[k]));
    }
    assert result.sources[..|result.sources|] == result.sources;
    EmittedMore(out0, out1, out, es, SourcesEffects(v, req, result, result.sources));
    return Success(Facts(out.calls, Image(req.image, os, "complete", out.diagnostics)));
  }

  // ---------------------------------------------------------------- what the projection guarantees

  /** The sink calls among the effects. */
  function Calls(es: seq<Effect>): seq<SinkCall> {
    if es == [] then []
    else
      var e := es[|es| - 1];
      Calls(es[..|es| - 1]) + if e.Sink? then [e.call] else []
  }

  lemma {:induction false} EmitCalls(out: Output, es: seq<Effect>)
    ensures EmitAll(out, es).calls == out.calls + Calls(es)
  {
    if es == [] {
      assert out.calls + [] == out.calls;
    } else {
      EmitCalls(out, es[..|es| - 1]);
    }
  }

  lemma {:induction false} CallsConcat(a: seq<Effect>, b: seq<Effect>)
    ensures Calls(a + b) == Calls(a) + Calls(b)
  {
    if b == [] {
      assert a + b == a;
    } else {
      var n := |b| - 1;
      CallsConcat(a, b[..n]);
      assert (a + b)[..|a| + n] == a + b[..n];
    }
  }

  lemma CallsNext(es: seq<Effect>, n: nat)
    requires n < |es|
    ensures Calls(es[..n + 1]) == Calls(es[..n]) + if es[n].Sink? then [es[n].call] else []
  {
    assert es[..n + 1][..n] == es[..n];
  }

  lemma SingleCall(e: Effect)
    requires e.Sink?
    ensures Calls([e]) == [e.call]
  {
    assert [e][..0] == [];
  }

  lemma {:induction false} NoSinkNoCalls(es: seq<Effect>)
    requires forall i :: 0 <= i < |es| ==> !es[i].Sink?
    ensures Calls(es) == []
  {
    if es != [] {
      NoSinkNoCalls(es[..|es| - 1]);
    }
  }

  ghost predicate SourcedCall(result: ScanResult, call: SinkCall) {
    && KnownStatus(call)
    && (call.Finding? ==>
       call.pointer < |result.catalog| && call.advisory == ProjectAdvisory(result.catalog[call.pointer]))
  }

  /** Every status is known, and every finding carries the projection of the catalog entry its pointer names. */
  ghost predicate Sourced(result: ScanResult, calls: seq<SinkCall>) {
    forall i :: 0 <= i < |calls| ==> SourcedCall(result, calls[i])
  }

  ghost predicate Sound(result: ScanResult, calls: seq<SinkCall>) {
    WellOrdered(calls) && Named(calls) && Sourced(result, calls)
  }

  lemma SoundConcat(result: ScanResult, a: seq<SinkCall>, b: seq<SinkCall>)
    requires Sound(result, a) && Sound(result, b)
    ensures Sound(result, a + b)
  {
    NamedConcat(a, b);
    var c := a + b;
    forall i | 0 <= i < |c| && c[i].Finding?
      ensures exists j :: 0 <= j < i && c[j].Occurrence?
    {
      if i < |a| {
        var j :| 0 <= j < i && a[j].Occurrence?;
        assert c[j].Occurrence?;
      } else {
        var j :| 0 <= j < i - |a| && b[j].Occurrence?;
        assert c[|a| + j].Occurrence?;
      }
    }
  }

  lemma NamedConcat(a: seq<SinkCall>, b: seq<SinkCall>)
    requires Named(a) && Named(b)
    ensures Named(a + b)
  {
    var c := a + b;
    forall i | 0 <= i < |c| && c[i].Finding?
      ensures exists j :: 0 <= j < i && c[j].Union? && c[i].advisory.id in c[j].ids
    {
      if i < |a| {
        var j :| 0 <= j < i && a[j].Union? && a[i].advisory.id in a[j].ids;
        assert c[j] == a[j];
      } else {
        var j :| 0 <= j < i - |a| && b[j].Union? && b[i - |a|].advisory.id in b[j].ids;
        assert c[|a| + j] == b[j];
      }
    }
  }

  ghost predicate IsFindingOf(call: SinkCall, pointer: nat, advisory: Advisory, fix: Fix) {
    call.Finding? && call.pointer == pointer && call.advisory == advisory && call.fix == fix
  }

  lemma {:induction false} LinkedCalls(pointer: nat, advisory: Advisory, fix: Fix, groups: seq<Group>,
                                       positions: seq<nat>, n: nat)
    requires n <= |positions|
    ensures var calls := Calls(LinkedFindings(pointer, advisory, fix, groups, positions)[..n]);
            forall i :: 0 <= i < |calls| ==> IsFindingOf(calls[i], pointer, advisory, fix)
  {
    if n > 0 {
      LinkedCalls(pointer, advisory, fix, groups, positions, n - 1);
      CallsNext(LinkedFindings(pointer, advisory, fix, groups, positions), n - 1);
    }
  }

  lemma FindingCallsAre(pointer: nat, advisory: Advisory, fix: Fix, groups: seq<Group>, positions: seq<nat>)
    ensures var calls := Calls(FindingEffects(pointer, advisory, fix, groups, positions));
            forall i :: 0 <= i < |calls| ==> IsFindingOf(calls[i], pointer, advisory, fix)
  {
    var es := FindingEffects(pointer, advisory, fix, groups, positions);
    if positions != [] {
      LinkedCalls(pointer, advisory, fix, groups, positions, |positions|);
      assert es[..|positions|] == es;
    } else {
      var d, e := es[0], es[1];
      assert es == [d] + [e];
      CallsConcat([d], [e]);
      NoSinkNoCalls([d]);
      SingleCall(e);
    }
  }

  lemma UnionThenFindings(result: ScanResult, union: SinkCall, findings: seq<SinkCall>, pointer: nat,
                          advisory: Advisory, fix: Fix)
    requires union.Union? && advisory.id in union.ids && fix.status in STATUS_NAMES
    requires pointer < |result.catalog| && advisory == ProjectAdvisory(result.catalog[pointer])
    requires forall i :: 0 <= i < |findings| ==> IsFindingOf(findings[i], pointer, advisory, fix)
    ensures Named([union] + findings) && Sourced(result, [union] + findings)
  {
    hide ProjectAdvisory;
    var calls := [union] + findings;
    forall i | 1 <= i < |calls|
      ensures IsFindingOf(calls[i], pointer, advisory, fix)
    {
      assert calls[i] == findings[i - 1];
    }
    assert calls[0] == union;
  }

  /** The union of an advisory comes before its findings. */
  lemma VulnerabilityCallsNamed(v: Versions, result: ScanResult, pkg: PackageVulns, a: Option<nat>)
    ensures Named(Calls(VulnerabilityEffects(v, result, pkg, a)))
    ensures Sourced(result, Calls(VulnerabilityEffects(v, result, pkg, a)))
  {
    if a.Some? && a.value < |result.catalog| && result.catalog[a.value].id != "" {
      var osv := result.catalog[a.value];
      var advisory := ProjectAdvisory(osv);
      var fix := FixEvidence(v, pkg.package, osv.affected);
      FixStatusKnown(v, pkg.package, osv.affected);
      var union := Sink(Union([osv.id] + osv.aliases));
      var findings := FindingEffects(a.value, advisory, fix, pkg.groups, GroupsOf(pkg.groups, osv.id));
      hide FixEvidence, FindingEffects, GroupsOf, ProjectAdvisory, Calls, Named, Sourced;
      FindingCallsAre(a.value, advisory, fix, pkg.groups, GroupsOf(pkg.groups, osv.id));
      CallsConcat([union], findings);
      SingleCall(union);
      assert osv.id in [osv.id] + osv.aliases;
      UnionThenFindings(result, union.call, Calls(findings), a.value, advisory, fix);
    } else {
      var es := VulnerabilityEffects(v, result, pkg, a);
      assert es[..0] == [];
      assert Calls(es) == [];
    }
  }

  lemma {:induction false} VulnerabilitiesCallsNamed(v: Versions, result: ScanResult, pkg: PackageVulns,
                                                     advisories: seq<Option<nat>>)
    ensures Named(Calls(VulnerabilitiesEffects(v, result, pkg, advisories)))
    ensures Sourced(result, Calls(VulnerabilitiesEffects(v, result, pkg, advisories)))
  {
    if advisories != [] {
      hide Named, VulnerabilityEffects;
      var n := |advisories| - 1;
      VulnerabilitiesCallsNamed(v, result, pkg, advisories[..n]);
      VulnerabilityCallsNamed(v, result, pkg, advisories[n]);
      var a := VulnerabilitiesEffects(v, result, pkg, advisories[..n]);
      var b := VulnerabilityEffects(v, result, pkg, advisories[n]);
      CallsConcat(a, b);
      NamedConcat(Calls(a), Calls(b));
    }
  }

  lemma {:induction false} GroupUnionsCalls(groups: seq<Group>, n: nat)
    requires n <= |groups|
    ensures forall i :: 0 <= i < |Calls(GroupUnions(groups)[..n])| ==> Calls(GroupUnions(groups)[..n])[i].Union?
  {
    if n > 0 {
      GroupUnionsCalls(groups, n - 1);
      assert GroupUnions(groups)[..n][..n - 1] == GroupUnions(groups)[..n - 1];
    }
  }

  lemma NoFindingsNamed(result: ScanResult, calls: seq<SinkCall>)
    requires forall i :: 0 <= i < |calls| ==> !calls[i].Finding? && KnownStatus(calls[i])
    ensures Named(calls) && Sourced(result, calls)
  {
  }

  lemma SourcedConcat(result: ScanResult, a: seq<SinkCall>, b: seq<SinkCall>)
    requires Sourced(result, a) && Sourced(result, b)
    ensures Sourced(result, a + b)
  {
  }

  lemma OccurrenceFirst(result: ScanResult, occurrence: SinkCall, unions: seq<SinkCall>, rest: seq<SinkCall>)
    requires occurrence.Occurrence? && KnownStatus(occurrence) && forall i :: 0 <= i < |unions| ==> unions[i].Union?
    requires Named(rest) && Sourced(result, rest)
    ensures Sound(result, [occurrence] + unions + rest)
  {
    NoFindingsNamed(result, [occurrence] + unions);
    NamedConcat([occurrence] + unions, rest);
    SourcedConcat(result, [occurrence] + unions, rest);
    assert ([occurrence] + unions + rest)[0].Occurrence?;
  }

  lemma CallsOfFive(a: seq<Effect>, b: seq<Effect>, c: Effect, d: seq<Effect>, e: seq<Effect>)
    requires Calls(a) == [] && Calls(b) == [] && c.Sink?
    ensures Calls(a + (b + [c] + d + e)) == [c.call] + Calls(d) + Calls(e)
  {
    hide Calls;
    CallsConcat(a, b + [c] + d + e);
    CallsConcat(b + [c] + d, e);
    CallsConcat(b + [c], d);
    CallsConcat(b, [c]);
    SingleCall(c);
  }

  lemma DiagnosticsMakeNoCalls(req: Request, result: ScanResult, pkg: PackageVulns)
    ensures Calls(Deprecation(pkg)) == [] && Calls(PackageDiagnostics(req, result, pkg)) == []
  {
    NoSinkNoCalls(Deprecation(pkg));
    NoSinkNoCalls(PackageDiagnostics(req, result, pkg));
  }

  lemma NothingSound(result: ScanResult)
    ensures Sound(result, [])
  {
  }

  lemma AllGroupUnions(groups: seq<Group>)
    ensures forall i :: 0 <= i < |Calls(GroupUnions(groups))| ==> Calls(GroupUnions(groups))[i].Union?
  {
    GroupUnionsCalls(groups, |groups|);
    assert GroupUnions(groups)[..|groups|] == GroupUnions(groups);
  }

  lemma LicenseStatusKnown(req: Request, pkg: PackageVulns)
    ensures ReportedLicense(req, pkg).status in STATUS_NAMES
  {
    var names := STATUS_NAMES;
    assert names[0] in names && names[1] in names && names[2] in names && names[3] in names;
  }

  lemma FixStatusKnown(v: Versions, pkg: PackageInfo, affected: seq<Affected>)
    ensures FixEvidence(v, pkg, affected).status in STATUS_NAMES
  {
    var names := STATUS_NAMES;
    assert names[2] in names && names[4] in names && names[5] in names;
  }

  /** A package makes no call, or its occurrence first. */
  lemma PackageCallsSound(v: Versions, req: Request, result: ScanResult, source: Source, pkg: PackageVulns)
    ensures Sound(result, Calls(PackageEffects(v, req, result, source, pkg)))
  {
    hide Deprecation, PackageDiagnostics, ReportedPackage, ReportedContext, ReportedLicense, VulnerabilitiesEffects,
      GroupUnions, Named, Sourced, Sound, Calls;
    DiagnosticsMakeNoCalls(req, result, pkg);
    var deprecation := Deprecation(pkg);
    if Skipped(req, pkg) {
      assert deprecation + [] == deprecation;
      NothingSound(result);
    } else {
      var diagnostics := PackageDiagnostics(req, result, pkg);
      var occurrence := Sink(Occurrence(ReportedPackage(pkg.package), ReportedContext(result, source, pkg),
        ReportedLicense(req, pkg)));
      var unions, rest := GroupUnions(pkg.groups), VulnerabilitiesEffects(v, result, pkg, pkg.vulnerabilities);
      AllGroupUnions(pkg.groups);
      VulnerabilitiesCallsNamed(v, result, pkg, pkg.vulnerabilities);
      LicenseStatusKnown(req, pkg);
      CallsOfFive(deprecation, diagnostics, occurrence, unions, rest);
      OccurrenceFirst(result, occurrence.call, Calls(unions), Calls(rest));
      assert PackageEffects(v, req, result, source, pkg) == deprecation + (diagnostics + [occurrence] + unions + rest);
    }
  }

  lemma {:induction false} PackagesCallsSound(v: Versions, req: Request, result: ScanResult, source: Source,
                                              packages: seq<PackageVulns>)
    ensures Sound(result, Calls(PackagesEffects(v, req, result, source, packages)))
  {
    if packages != [] {
      hide Sound, PackageEffects;
      var n := |packages| - 1;
      PackagesCallsSound(v, req, result, source, packages[..n]);
      PackageCallsSound(v, req, result, source, packages[n]);
      var a, b := PackagesEffects(v, req, result, source, packages[..n]),
        PackageEffects(v, req, result, source, packages[n]);
      CallsConcat(a, b);
      SoundConcat(result, Calls(a), Calls(b));
    }
  }

  lemma SourceCallsSound(v: Versions, req: Request, result: ScanResult, source: Source)
    ensures Sound(result, Calls(SourceEffects(v, req, result, source)))
  {
    var a := if source.signals
      then [Diagnose("unsupported_assessment", "Package exploitability signals are not represented")] else [];
    NoSinkNoCalls(a);
    CallsConcat(a, PackagesEffects(v, req, result, source, source.packages));
    PackagesCallsSound(v, req, result, source, source.packages);
    SoundConcat(result, [], Calls(PackagesEffects(v, req, result, source, source.packages)));
  }

  lemma {:induction false} SourcesCallsSound(v: Versions, req: Request, result: ScanResult, sources: seq<Source>)
    ensures Sound(result, Calls(SourcesEffects(v, req, result, sources)))
  {
    if sources != [] {
      hide Sound, SourceEffects;
      var n := |sources| - 1;
      SourcesCallsSound(v, req, result, sources[..n]);
      SourceCallsSound(v, req, result, sources[n]);
      var a, b := SourcesEffects(v, req, result, sources[..n]), SourceEffects(v, req, result, sources[n]);
      CallsConcat(a, b);
      SoundConcat(result, Calls(a), Calls(b));
    }
  }

  lemma SoundIsProjected(result: ScanResult, calls: seq<SinkCall>)
    requires Sound(result, calls)
    ensures forall image :: Projected(Facts(calls, image))
  {
  }

  /** For every response: no finding before an occurrence, no finding before a union that names its
      advisory, and one advisory per pointer. */
  lemma FactsAreProjected(v: Versions, req: Request, resp: Response)
    ensures Projected(FactsOf(v, req, resp))
  {
    if resp.error.None? {
      var result := resp.result;
      var a := if result.genericFindings
        then [Diagnose("unsupported_findings", "Generic upstream findings are not represented")] else [];
      NoSinkNoCalls(a);
      CallsConcat(a, SourcesEffects(v, req, result, result.sources));
      SourcesCallsSound(v, req, result, result.sources);
      hide SourcesEffects, Calls, EmitAll, Sound;
      SoundIsProjected(result, Calls(SourcesEffects(v, req, result, result.sources)));
      EmitCalls(Output([], []), ResultEffects(v, req, result));
      var calls := FactsOf(v, req, resp).calls;
      assert calls == Calls(SourcesEffects(v, req, result, result.sources));
    }
  }
}
