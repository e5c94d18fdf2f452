/** The records of a report: the logical values that ingestion projects, and the compact rows that
    the finished store retains. */
module Report {
  import opened Common

  // ---------------------------------------------------------------- logical records

  datatype Package = Package(name: string, version: string, ecosystem: string, commit: string, osPackageName: string,
                             purl: string)

  datatype Severity = Severity(kind: string, source: string, vector: string)

  datatype Reference = Reference(kind: string, url: string)

  datatype Advisory = Advisory(
    id: string,
    aliases: List<string>,
    summary: string,
    modified: Option<string>,
    published: Option<string>,
    withdrawn: Option<string>,
    severities: List<Severity>,
    references: List<Reference>,
    databaseSeverity: Option<string>)

  datatype Vulnerability = Vulnerability(id: string, aliases: List<string>)

  datatype PackageContext = PackageContext(path: string, sourceType: string, layer: Option<string>,
                                           dependencyGroups: List<string>)

  datatype Assessment = Assessment(called: Option<bool>, unimportant: Option<bool>, maxSeverity: string)

  datatype License = License(licenses: List<string>, policy: List<string>, violations: List<string>, status: string)

  datatype Fix = Fix(versions: List<string>, status: string, severities: List<Severity>, urgencies: List<string>)

  datatype Diagnostic = Diagnostic(code: string, message: string)

  datatype Image = Image(requested: string, os: Option<string>, status: string, diagnostics: seq<Diagnostic>)

  const STATUS_NAMES: seq<string> :=
    ["not_evaluated", "compliant", "unknown", "noncompliant", "no_reported_fix", "reported"]

  const NONCOMPLIANT: nat := 3

  // ---------------------------------------------------------------- compact rows

  datatype Span = Span(start: nat, count: nat)

  /** No stored list starts here, so it marks the nil list. */
  const NIL_SPAN_START: nat := MAX_U32

  datatype StoredPackage = StoredPackage(name: nat, version: nat, ecosystem: nat, commit: nat, osPackageName: nat,
                                         purl: nat)

  datatype StoredAdvisory = StoredAdvisory(
    id: nat,
    aliases: Span,
    summary: nat,
    modified: nat,
    published: nat,
    withdrawn: nat,
    severities: Span,
    references: Span,
    databaseSeverity: nat)

  datatype StoredVulnerability = StoredVulnerability(id: nat, aliases: Span)

  datatype StoredContext = StoredContext(path: nat, sourceType: nat, layer: nat, dependencyGroups: Span)

  datatype StoredAssessment = StoredAssessment(called: nat, unimportant: nat, maxSeverity: nat)

  datatype StoredLicense = StoredLicense(licenses: Span, policy: Span, violations: Span, status: nat)

  datatype StoredFix = StoredFix(versions: Span, status: nat, severities: Span, urgencies: Span)

  datatype OccurrenceRow = OccurrenceRow(image: nat, pkg: nat, context: nat, license: nat)

  datatype FindingRow = FindingRow(occurrence: nat, advisory: nat, fix: nat, assessment: nat)

  /** Strings and words that stored rows point into. `spans` are the stored lists, in the order in
      which they were first seen. */
  datatype Payload = Payload(strings: seq<string>, words: seq<nat>, spans: seq<Span>)

  /** The tables of a finished report. The relationship indexes are kept beside it. */
  datatype ReportStore = ReportStore(
    images: seq<Image>,
    packages: seq<StoredPackage>,
    vulnerabilities: seq<StoredVulnerability>,
    advisorySources: seq<StoredAdvisory>,
    contexts: seq<StoredContext>,
    assessments: seq<StoredAssessment>,
    licenses: seq<StoredLicense>,
    fixes: seq<StoredFix>,
    occurrences: seq<OccurrenceRow>,
    findings: seq<FindingRow>,
    advisoryVulnerabilities: seq<nat>,
    payload: Payload)

  /** Every table has a `uint32` number of rows. */
  ghost predicate TablesFit(s: ReportStore) {
    && |s.images| <= MAX_U32
    && |s.packages| <= MAX_U32
    && |s.vulnerabilities| <= MAX_U32
    && |s.advisorySources| <= MAX_U32
    && |s.occurrences| <= MAX_U32
    && |s.findings| <= MAX_U32
  }
}
