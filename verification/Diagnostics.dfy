/** The diagnostics of a projected image: at most one for each of seven codes, so they can always be
    counted. */
module Diagnostics {
  import opened Common
  import opened Order
  import opened Report
  import opened Fixes
  import opened Batches
  import opened Projection
  import opened Reporting

  const CODES: seq<string> := [
    "unsupported_assessment", "unknown_layer", "unknown_license", "missing_assessment",
    "unsupported_advisory", "unsupported_deprecation", "unsupported_findings"]

  /** The message that goes with each code. */
  ghost predicate Worded(code: string, message: string) {
    || (code == "unsupported_assessment" && message == "Package exploitability signals are not represented")
    || (code == "unknown_layer" && message == "Package layer index is unavailable")
    || (code == "unknown_license" && message == "License assessment is incomplete")
    || (code == "missing_assessment" && message == "Advisory has no upstream group assessment")
    || (code == "unsupported_advisory" && message == "Advisory has no source identifier")
    || (code == "unsupported_deprecation"
        && message == "Package deprecation is outside vulnerability/license reporting")
    || (code == "unsupported_findings" && message == "Generic upstream findings are not represented")
  }

  lemma WordedCode(code: string, message: string)
    requires Worded(code, message)
    ensures code in CODES
  {
    assert CODES[0] in CODES && CODES[1] in CODES && CODES[2] in CODES && CODES[3] in CODES;
    assert CODES[4] in CODES && CODES[5] in CODES && CODES[6] in CODES;
  }

  ghost predicate Coded(es: seq<Effect>) {
    forall i :: 0 <= i < |es| && es[i].Diagnose? ==> Worded(es[i].code, es[i].message)
  }

  /** Different codes, each with its message. */
  ghost predicate OnePerCode(diagnostics: seq<Diagnostic>) {
    && (forall i :: 0 <= i < |diagnostics| ==> Worded(diagnostics[i].code, diagnostics[i].message))
    && (forall i, j :: 0 <= i < j < |diagnostics| ==> diagnostics[i].code != diagnostics[j].code)
  }

  lemma {:induction false} EmitOnePerCode(out: Output, es: seq<Effect>)
    requires OnePerCode(out.diagnostics) && Coded(es)
    ensures OnePerCode(EmitAll(out, es).diagnostics)
  {
    if es != [] {
      hide Worded, OnePerCode, Emit;
      var n := |es| - 1;
      EmitOnePerCode(out, es[..n]);
      EmitKeepsCodes(EmitAll(out, es[..n]), es[n]);
    }
  }

  lemma EmitKeepsCodes(out: Output, e: Effect)
    requires OnePerCode(out.diagnostics) && (e.Diagnose? ==> Worded(e.code, e.message))
    ensures OnePerCode(Emit(out, e).diagnostics)
  {
    hide Worded;
  }

  lemma FindingEffectsCoded(pointer: nat, advisory: Advisory, fix: Fix, groups: seq<Group>, positions: seq<nat>)
    ensures Coded(FindingEffects(pointer, advisory, fix, groups, positions))
  {
  }

  lemma VulnerabilityEffectsCoded(v: Versions, result: ScanResult, pkg: PackageVulns, a: Option<nat>)
    ensures Coded(VulnerabilityEffects(v, result, pkg, a))
  {
    hide FindingEffects, FixEvidence, GroupsOf, ProjectAdvisory;
    if a.Some? && a.value < |result.catalog| {
      var osv := result.catalog[a.value];
      FindingEffectsCoded(a.value, ProjectAdvisory(osv), FixEvidence(v, pkg.package, osv.affected), pkg.groups,
        GroupsOf(pkg.groups, osv.id));
    }
  }

  lemma {:induction false} VulnerabilitiesEffectsCoded(v: Versions, result: ScanResult, pkg: PackageVulns,
                                                       advisories: seq<Option<nat>>)
    ensures Coded(VulnerabilitiesEffects(v, result, pkg, advisories))
  {
    hide VulnerabilityEffects;
    if advisories != [] {
      VulnerabilitiesEffectsCoded(v, result, pkg, advisories[..|advisories| - 1]);
      VulnerabilityEffectsCoded(v, result, pkg, advisories[|advisories| - 1]);
    }
  }

  lemma CodedConcat(a: seq<Effect>, b: seq<Effect>)
    requires Coded(a) && Coded(b)
    ensures Coded(a + b)
  {
  }

  lemma SignalsCoded(pkg: PackageVulns)
    ensures Coded(SignalDiagnostics(pkg.package))
  {
  }

  lemma DeprecationCoded(pkg: PackageVulns)
    ensures Coded(Deprecation(pkg))
  {
  }

  lemma LayersCoded(req: Request, result: ScanResult, pkg: PackageVulns)
    ensures Coded(LayerDiagnostics(result, pkg.package)) && Coded(LicenseDiagnostics(req, pkg))
  {
    hide KnownLayer;
  }

  lemma PackageDiagnosticsCoded(req: Request, result: ScanResult, pkg: PackageVulns)
    ensures Coded(PackageDiagnostics(req, result, pkg)) && Coded(Deprecation(pkg))
  {
    hide SignalDiagnostics, LayerDiagnostics, LicenseDiagnostics, Deprecation;
    SignalsCoded(pkg);
    DeprecationCoded(pkg);
    LayersCoded(req, result, pkg);
  }

  lemma PackageEffectsCoded(v: Versions, req: Request, result: ScanResult, source: Source, pkg: PackageVulns)
    ensures Coded(PackageEffects(v, req, result, source, pkg))
  {
    hide VulnerabilitiesEffects, Skipped, ReportedPackage, ReportedContext, ReportedLicense, PackageDiagnostics,
      Deprecation, Worded;
    PackageDiagnosticsCoded(req, result, pkg);
    VulnerabilitiesEffectsCoded(v, result, pkg, pkg.vulnerabilities);
    var occurrence := [Sink(Occurrence(ReportedPackage(pkg.package), ReportedContext(result, source, pkg),
      ReportedLicense(req, pkg)))];
    var unions := GroupUnions(pkg.groups);
    assert Coded(unions);
    var last := VulnerabilitiesEffects(v, result, pkg, pkg.vulnerabilities);
    CodedConcat(PackageDiagnostics(req, result, pkg), occurrence);
    CodedConcat(PackageDiagnostics(req, result, pkg) + occurrence, unions);
    CodedConcat(PackageDiagnostics(req, result, pkg) + occurrence + unions, last);
    CodedConcat(Deprecation(pkg), []);
    CodedConcat(Deprecation(pkg), PackageDiagnostics(req, result, pkg) + occurrence + unions + last);
  }

  lemma {:induction false} PackagesEffectsCoded(v: Versions, req: Request, result: ScanResult, source: Source,
                                                packages: seq<PackageVulns>)
    ensures Coded(PackagesEffects(v, req, result, source, packages))
  {
    hide PackageEffects;
    if packages != [] {
      PackagesEffectsCoded(v, req, result, source, packages[..|packages| - 1]);
      PackageEffectsCoded(v, req, result, source, packages[|packages| - 1]);
    }
  }

  lemma SourceEffectsCoded(v: Versions, req: Request, result: ScanResult, source: Source)
    ensures Coded(SourceEffects(v, req, result, source))
  {
    hide PackagesEffects;
    PackagesEffectsCoded(v, req, result, source, source.packages);
  }

  lemma {:induction false} SourcesEffectsCoded(v: Versions, req: Request, result: ScanResult, sources: seq<Source>)
    ensures Coded(SourcesEffects(v, req, result, sources))
  {
    hide SourceEffects;
    if sources != [] {
      SourcesEffectsCoded(v, req, result, sources[..|sources| - 1]);
      SourceEffectsCoded(v, req, result, sources[|sources| - 1]);
    }
  }

  lemma {:induction false} FewDiagnostics(diagnostics: seq<Diagnostic>, codes: seq<string>)
    requires forall i :: 0 <= i < |diagnostics| ==> diagnostics[i].code in codes
    requires forall i, j :: 0 <= i < j < |diagnostics| ==> diagnostics[i].code != diagnostics[j].code
    ensures |diagnostics| <= |codes|
    decreases |codes|
  {
    if diagnostics != [] {
      assert diagnostics[0].code in codes;
      var n := |codes| - 1;
      assert codes == codes[..n] + [codes[n]];
      if i :| 0 <= i < |diagnostics| && diagnostics[i].code == codes[n] {
        var rest := diagnostics[..i] + diagnostics[i + 1..];
        forall k | 0 <= k < |rest|
          ensures rest[k].code in codes[..n]
        {
          assert rest[k] == diagnostics[if k < i then k else k + 1];
        }
        FewDiagnostics(rest, codes[..n]);
      } else {
        FewDiagnostics(diagnostics, codes[..n]);
      }
    }
  }

  /** A projected image has at most seven diagnostics, with different codes; a failed scan has its
      error as the only one. */
  lemma DiagnosticsAreFew(v: Versions, req: Request, resp: Response)
    ensures var image := FactsOf(v, req, resp).image;
            && |image.diagnostics| <= 7
            && (forall i, j :: 0 <= i < j < |image.diagnostics| ==>
               image.diagnostics[i].code != image.diagnostics[j].code)
            && (image.status == "failed" <==> resp.error.Some?)
            && (resp.error.Some? ==> image.diagnostics == [resp.error.value])
  {
    assert "failed"[0] != "complete"[0];
    if resp.error.None? {
      DiagnosticsCoded(v, req, resp.result);
      hide ResultEffects, EmitAll;
      var diagnostics := FactsOf(v, req, resp).image.diagnostics;
      forall i | 0 <= i < |diagnostics|
        ensures diagnostics[i].code in CODES
      {
        WordedCode(diagnostics[i].code, diagnostics[i].message);
      }
      FewDiagnostics(diagnostics, CODES);
    }
  }

  // ---------------------------------------------------------------- which diagnostics there are

  /** Some effect records a diagnostic with this code. */
  ghost predicate Says(es: seq<Effect>, code: string) {
    exists i :: 0 <= i < |es| && es[i].Diagnose? && es[i].code == code
  }

  lemma SaysConcat(a: seq<Effect>, b: seq<Effect>, code: string)
    ensures Says(a + b, code) <==> Says(a, code) || Says(b, code)
  {
    var c := a + b;
    forall i | 0 <= i < |a|
      ensures c[i] == a[i]
    {
    }
    forall i | 0 <= i < |b|
      ensures c[|a| + i] == b[i]
    {
    }
  }

  lemma SaysOne(e: Effect, code: string)
    ensures Says([e], code) <==> e.Diagnose? && e.code == code
  {
    assert [e][0] == e;
  }

  lemma SaysNothing(es: seq<Effect>, code: string)
    requires forall i :: 0 <= i < |es| ==> es[i].Sink?
    ensures !Says(es, code)
  {
  }

  /** A diagnostic with a code is kept exactly when one was recorded. */
  lemma {:induction false} EmitSays(out: Output, es: seq<Effect>, code: string)
    ensures Diagnosed(EmitAll(out, es).diagnostics, code) <==> Diagnosed(out.diagnostics, code) || Says(es, code)
  {
    if es != [] {
      var n := |es| - 1;
      EmitSays(out, es[..n], code);
      assert es == es[..n] + [es[n]];
      SaysConcat(es[..n], [es[n]], code);
      SaysOne(es[n], code);
      hide Says, EmitAll;
      EmitDiagnosed(EmitAll(out, es[..n]), es[n], code);
      assert EmitAll(out, es) == Emit(EmitAll(out, es[..n]), es[n]) by {
        EmitOne(out, es[..n], es[n]);
      }
    }
  }

  lemma EmitDiagnosed(out: Output, e: Effect, code: string)
    ensures Diagnosed(Emit(out, e).diagnostics, code) <==>
              Diagnosed(out.diagnostics, code) || (e.Diagnose? && e.code == code)
  {
    if e.Diagnose? && !Diagnosed(out.diagnostics, e.code) {
      var d := Diagnostic(e.code, e.message);
      assert d in out.diagnostics + [d];
      forall x | x in out.diagnostics
        ensures x in out.diagnostics + [d]
      {
      }
    }
  }

  /** The diagnostics are the first effects with their codes, in the order of the effects. */
  ghost predicate Firsts(diagnostics: seq<Diagnostic>, es: seq<Effect>, at: seq<nat>) {
    && |at| == |diagnostics| && (forall i, j :: 0 <= i < j < |at| ==> at[i] < at[j])
    && forall i :: 0 <= i < |at| ==>
         at[i] < |es| && es[at[i]] == Diagnose(diagnostics[i].code, diagnostics[i].message)
         && !Says(es[..at[i]], diagnostics[i].code)
  }

  lemma {:induction false} DiagnosticsInOrder(es: seq<Effect>) returns (at: seq<nat>)
    ensures Firsts(EmitAll(Output([], []), es).diagnostics, es, at)
  {
    if es == [] {
      at := [];
    } else {
      var n := |es| - 1;
      at := DiagnosticsInOrder(es[..n]);
      var before := EmitAll(Output([], []), es[..n]);
      if es[n].Diagnose? {
        EmitSays(Output([], []), es[..n], es[n].code);
      }
      hide EmitAll, Says, Diagnosed;
      assert forall i :: 0 <= i < |at| ==> es[..n][..at[i]] == es[..at[i]];
      if es[n].Diagnose? && !Diagnosed(before.diagnostics, es[n].code) {
        at := at + [n];
      }
      assert EmitAll(Output([], []), es) == Emit(before, es[n]) by {
        EmitOne(Output([], []), es[..n], es[n]);
        assert es == es[..n] + [es[n]];
      }
    }
  }

  /** Why an advisory of a package is remarked on. */
  ghost predicate AdvisoryWarrants(result: ScanResult, pkg: PackageVulns, a: Option<nat>, code: string) {
    || (code == "unsupported_advisory" && !Identified(result, a))
    || (code == "missing_assessment" && Identified(result, a)
        && forall g :: g in pkg.groups ==> result.catalog[a.value].id !in g.ids)
  }

  /** Why a package is remarked on. Deprecation is noted even where the package is not selected. */
  ghost predicate PackageWarrants(req: Request, result: ScanResult, pkg: PackageVulns, code: string) {
    || (code == "unsupported_deprecation" && pkg.package.deprecated)
    || (Selected(req, pkg) &&
        (|| (code == "unsupported_assessment" && pkg.package.inventory.Some? && pkg.package.inventory.value.signals)
         || (code == "unknown_layer" && pkg.package.imageOrigin.Some? && result.metadata.Some?
             && !(0 <= pkg.package.imageOrigin.value < |result.metadata.value.layers|))
         || (code == "unknown_license" && req.allowedLicenses != Nil && |pkg.licenses| == 0)
         || exists a :: a in pkg.vulnerabilities && AdvisoryWarrants(result, pkg, a, code)))
  }

  /** Why a scanned image is remarked on. */
  ghost predicate Warrants(req: Request, result: ScanResult, code: string) {
    || (code == "unsupported_findings" && result.genericFindings)
    || (code == "unsupported_assessment" && exists s :: s in result.sources && s.signals)
    || exists s, p :: s in result.sources && p in s.packages && PackageWarrants(req, result, p, code)
  }

  lemma Unlisted(groups: seq<Group>, id: string)
    ensures GroupsOf(groups, id) == [] <==> forall g :: g in groups ==> id !in g.ids
  {
    var positions := GroupsOf(groups, id);
    GroupsOfListing(groups, id);
    if positions == [] {
      forall g | g in groups
        ensures id !in g.ids
      {
        var i :| 0 <= i < |groups| && groups[i] == g;
        assert multiset(positions)[i] == 0;
      }
    } else {
      assert positions[0] in multiset(positions);
      assert id in groups[positions[0]].ids;
    }
  }

  lemma AdvisorySays(v: Versions, result: ScanResult, pkg: PackageVulns, a: Option<nat>, code: string)
    ensures Says(VulnerabilityEffects(v, result, pkg, a), code) <==> AdvisoryWarrants(result, pkg, a, code)
  {
    if Identified(result, a) {
      var osv := result.catalog[a.value];
      var advisory, fix := ProjectAdvisory(osv), FixEvidence(v, pkg.package, osv.affected);
      var positions, union := GroupsOf(pkg.groups, osv.id), Sink(Union([osv.id] + osv.aliases));
      Unlisted(pkg.groups, osv.id);
      FindingsSay(a.value, advisory, fix, pkg.groups, positions, code);
      assert VulnerabilityEffects(v, result, pkg, a)
             == [union] + FindingEffects(a.value, advisory, fix, pkg.groups, positions);
      hide VulnerabilityEffects, FindingEffects, GroupsOf, ProjectAdvisory, FixEvidence, Says;
      SaysConcat([union], FindingEffects(a.value, advisory, fix, pkg.groups, positions), code);
      SaysOne(union, code);
    } else {
      SaysOne(Diagnose("unsupported_advisory", "Advisory has no source identifier"), code);
    }
  }

  lemma FindingsSay(pointer: nat, advisory: Advisory, fix: Fix, groups: seq<Group>, positions: seq<nat>, code: string)
    ensures Says(FindingEffects(pointer, advisory, fix, groups, positions), code) <==>
              positions == [] && code == "missing_assessment"
  {
    var es := FindingEffects(pointer, advisory, fix, groups, positions);
    if positions == [] {
      assert es == [es[0]] + [es[1]];
      SaysConcat([es[0]], [es[1]], code);
      SaysOne(es[0], code);
      SaysOne(es[1], code);
    }
  }

  lemma {:induction false} AdvisoriesSay(v: Versions, result: ScanResult, pkg: PackageVulns,
                                         advisories: seq<Option<nat>>, code: string)
    ensures Says(VulnerabilitiesEffects(v, result, pkg, advisories), code) <==>
              exists a :: a in advisories && AdvisoryWarrants(result, pkg, a, code)
  {
    if advisories != [] {
      hide Says, VulnerabilityEffects, AdvisoryWarrants;
      var n := |advisories| - 1;
      AdvisoriesSay(v, result, pkg, advisories[..n], code);
      AdvisorySays(v, result, pkg, advisories[n], code);
      SaysConcat(VulnerabilitiesEffects(v, result, pkg, advisories[..n]),
        VulnerabilityEffects(v, result, pkg, advisories[n]), code);
      SplitLast(advisories);
    }
  }

  lemma PackageSays(v: Versions, req: Request, result: ScanResult, source: Source, pkg: PackageVulns, code: string)
    ensures Says(PackageEffects(v, req, result, source, pkg), code) <==> PackageWarrants(req, result, pkg, code)
  {
    AdvisoriesSay(v, result, pkg, pkg.vulnerabilities, code);
    DiagnosticsSay(req, result, pkg, code);
    PackageSaysParts(v, req, result, source, pkg, code);
    hide PackageEffects, AdvisoryWarrants, Says, VulnerabilitiesEffects, Deprecation, PackageDiagnostics, Selected;
  }

  lemma PackageSaysParts(v: Versions, req: Request, result: ScanResult, source: Source, pkg: PackageVulns, code: string)
    ensures Says(PackageEffects(v, req, result, source, pkg), code) <==>
              || Says(Deprecation(pkg), code)
              || (Selected(req, pkg) &&
                  (Says(PackageDiagnostics(req, result, pkg), code)
                   || Says(VulnerabilitiesEffects(v, result, pkg, pkg.vulnerabilities), code)))
  {
    assert Selected(req, pkg) <==> !Skipped(req, pkg);
    hide Says, VulnerabilitiesEffects, Deprecation, PackageDiagnostics, Selected, Skipped, ReportedPackage,
      ReportedContext, ReportedLicense;
    if Selected(req, pkg) {
      var occurrence := Sink(Occurrence(ReportedPackage(pkg.package), ReportedContext(result, source, pkg),
        ReportedLicense(req, pkg)));
      SaysOfFive(Deprecation(pkg), PackageDiagnostics(req, result, pkg), occurrence, GroupUnions(pkg.groups),
        VulnerabilitiesEffects(v, result, pkg, pkg.vulnerabilities), code);
    } else {
      assert Deprecation(pkg) + [] == Deprecation(pkg);
    }
  }

  lemma SaysOfFive(a: seq<Effect>, b: seq<Effect>, c: Effect, d: seq<Effect>, e: seq<Effect>, code: string)
    requires c.Sink? && forall i :: 0 <= i < |d| ==> d[i].Sink?
    ensures Says(a + (b + [c] + d + e), code) <==> Says(a, code) || Says(b, code) || Says(e, code)
  {
    SaysNothing(d, code);
    SaysOne(c, code);
    hide Says;
    SaysConcat(b, [c], code);
    SaysConcat(b + [c], d, code);
    SaysConcat(b + [c] + d, e, code);
    SaysConcat(a, b + [c] + d + e, code);
  }

  lemma DiagnosticsSay(req: Request, result: ScanResult, pkg: PackageVulns, code: string)
    ensures Says(Deprecation(pkg), code) <==> code == "unsupported_deprecation" && pkg.package.deprecated
    ensures Says(PackageDiagnostics(req, result, pkg), code) <==>
              || (code == "unsupported_assessment" && pkg.package.inventory.Some?
                 && pkg.package.inventory.value.signals)
              || (code == "unknown_layer" && pkg.package.imageOrigin.Some? && result.metadata.Some?
                  && !(0 <= pkg.package.imageOrigin.value < |result.metadata.value.layers|))
              || (code == "unknown_license" && req.allowedLicenses != Nil && |pkg.licenses| == 0)
  {
    hide Says, SignalDiagnostics, LayerDiagnostics, LicenseDiagnostics, Deprecation;
    var a, b := SignalDiagnostics(pkg.package), LayerDiagnostics(result, pkg.package);
    SaysConcat(a + b, LicenseDiagnostics(req, pkg), code);
    SaysConcat(a, b, code);
    DeprecationSays(pkg, code);
    SignalsSay(pkg.package, code);
    LayersSay(result, pkg.package, code);
    LicensesSay(req, pkg, code);
  }

  lemma DeprecationSays(pkg: PackageVulns, code: string)
    ensures Says(Deprecation(pkg), code) <==> code == "unsupported_deprecation" && pkg.package.deprecated
  {
    if pkg.package.deprecated {
      SaysOne(Deprecation(pkg)[0], code);
    }
  }

  lemma SignalsSay(p: PackageInfo, code: string)
    ensures Says(SignalDiagnostics(p), code) <==>
              code == "unsupported_assessment" && p.inventory.Some? && p.inventory.value.signals
  {
    if p.inventory.Some? && p.inventory.value.signals {
      SaysOne(SignalDiagnostics(p)[0], code);
    }
  }

  lemma LayersSay(result: ScanResult, p: PackageInfo, code: string)
    ensures Says(LayerDiagnostics(result, p), code) <==>
              && code == "unknown_layer" && p.imageOrigin.Some? && result.metadata.Some?
              && !(0 <= p.imageOrigin.value < |result.metadata.value.layers|)
  {
    if p.imageOrigin.Some? && result.metadata.Some? && !KnownLayer(result, p) {
      SaysOne(LayerDiagnostics(result, p)[0], code);
    }
  }

  lemma LicensesSay(req: Request, pkg: PackageVulns, code: string)
    ensures Says(LicenseDiagnostics(req, pkg), code) <==>
              code == "unknown_license" && req.allowedLicenses != Nil && |pkg.licenses| == 0
  {
    if req.allowedLicenses.Items? && |pkg.licenses| == 0 {
      SaysOne(LicenseDiagnostics(req, pkg)[0], code);
    }
  }

  lemma {:induction false} PackagesSay(v: Versions, req: Request, result: ScanResult, source: Source,
                                       packages: seq<PackageVulns>, code: string)
    ensures Says(PackagesEffects(v, req, result, source, packages), code) <==>
              exists p :: p in packages && PackageWarrants(req, result, p, code)
  {
    if packages != [] {
      hide Says, PackageEffects, PackageWarrants;
      var n := |packages| - 1;
      PackagesSay(v, req, result, source, packages[..n], code);
      PackageSays(v, req, result, source, packages[n], code);
      SaysConcat(PackagesEffects(v, req, result, source, packages[..n]),
        PackageEffects(v, req, result, source, packages[n]), code);
      SplitLast(packages);
    }
  }

  /** Why a source is remarked on. */
  ghost predicate SourceWarrants(req: Request, result: ScanResult, s: Source, code: string) {
    || (code == "unsupported_assessment" && s.signals)
    || exists p :: p in s.packages && PackageWarrants(req, result, p, code)
  }

  lemma SourceSays(v: Versions, req: Request, result: ScanResult, source: Source, code: string)
    ensures Says(SourceEffects(v, req, result, source), code) <==> SourceWarrants(req, result, source, code)
  {
    var signals := if source.signals
      then [Diagnose("unsupported_assessment", "Package exploitability signals are not represented")] else [];
    PackagesSay(v, req, result, source, source.packages, code);
    SaysConcat(signals, PackagesEffects(v, req, result, source, source.packages), code);
    if source.signals {
      SaysOne(signals[0], code);
    }
    hide PackagesEffects, PackageWarrants;
  }

  lemma {:induction false} SourcesSay(v: Versions, req: Request, result: ScanResult, sources: seq<Source>, code: string)
    ensures Says(SourcesEffects(v, req, result, sources), code) <==>
              exists s :: s in sources && SourceWarrants(req, result, s, code)
  {
    if sources != [] {
      hide Says, SourceEffects, SourceWarrants;
      var n := |sources| - 1;
      SourcesSay(v, req, result, sources[..n], code);
      SourceSays(v, req, result, sources[n], code);
      SaysConcat(SourcesEffects(v, req, result, sources[..n]), SourceEffects(v, req, result, sources[n]), code);
      SplitLast(sources);
    }
  }

  lemma ResultSays(v: Versions, req: Request, result: ScanResult, code: string)
    ensures Says(ResultEffects(v, req, result), code) <==> Warrants(req, result, code)
  {
    var generic := if result.genericFindings
      then [Diagnose("unsupported_findings", "Generic upstream findings are not represented")] else [];
    SourcesSay(v, req, result, result.sources, code);
    SaysConcat(generic, SourcesEffects(v, req, result, result.sources), code);
    if result.genericFindings {
      SaysOne(generic[0], code);
    }
    hide SourcesEffects, PackageWarrants;
  }

  /** The diagnostics of a scanned image: one for each reason there is, with its message. */
  ghost predicate AreDiagnostics(req: Request, result: ScanResult, diagnostics: seq<Diagnostic>) {
    OnePerCode(diagnostics) && forall code :: Diagnosed(diagnostics, code) <==> Warrants(req, result, code)
  }

  /** The record of an image: what was requested, its operating system, its status, and its diagnostics. A
      failed scan has its error as the only one. */
  ghost predicate IsImage(req: Request, resp: Response, image: Image) {
    && image.requested == req.image
    && (resp.error.Some? ==>
          image.status == "failed" && image.os == None && image.diagnostics == [resp.error.value])
    && (resp.error.None? ==>
          && image.status == "complete"
          && (resp.result.metadata.None? ==> image.os == None)
          && (forall m :: resp.result.metadata == Some(m) ==> image.os == Some(m.os))
          && AreDiagnostics(req, resp.result, image.diagnostics))
  }

  lemma ImageIs(v: Versions, req: Request, resp: Response)
    ensures IsImage(req, resp, FactsOf(v, req, resp).image)
  {
    if resp.error.None? {
      var diagnostics := FactsOf(v, req, resp).image.diagnostics;
      assert diagnostics == EmitAll(Output([], []), ResultEffects(v, req, resp.result)).diagnostics;
      DiagnosticsCoded(v, req, resp.result);
      hide ResultEffects, Warrants, Says, EmitAll, OnePerCode;
      forall code
        ensures Diagnosed(diagnostics, code) <==> Warrants(req, resp.result, code)
      {
        ResultSays(v, req, resp.result, code);
        EmitSays(Output([], []), ResultEffects(v, req, resp.result), code);
      }
    }
  }

  lemma DiagnosticsCoded(v: Versions, req: Request, result: ScanResult)
    ensures OnePerCode(EmitAll(Output([], []), ResultEffects(v, req, result)).diagnostics)
  {
    SourcesEffectsCoded(v, req, result, result.sources);
    hide SourcesEffects, EmitAll;
    assert Coded(ResultEffects(v, req, result));
    EmitOnePerCode(Output([], []), ResultEffects(v, req, result));
  }
}
