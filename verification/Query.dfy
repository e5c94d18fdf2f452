/** Reading a finished report: one native value per object kind, row, field and index. */
module Query {
  import opened Common
  import opened Report
  import opened Payloads
  import opened Records
  import opened Indexes

  /** What crosses the boundary: nothing, a text, a truth value, a reference to an object, or the
      length of a collection. */
  datatype Native =
    | Absent
    | Text(text: string)
    | Truth(value: bool)
    | Ref(kind: nat, row: nat, sub: nat)
    | Count(n: nat)

  /** The low 32 bits. */
  function Low32(n: int): nat {
    n % 0x1_0000_0000
  }

  function Invalid(): Result<Native> {
    Fail(Internal)
  }

  function SeqValue(n: nat): Result<Native> {
    var count := Checked(n);
    if count.Success? then Success(Count(count.value)) else Fail(count.error)
  }

  function TextAt(s: ReportStore, id: nat): Result<Native> {
    var text := StringAt(s.payload, id);
    if text.Success? then Success(Text(text.value)) else Fail(text.error)
  }

  function OptionalText(s: ReportStore, id: nat): Result<Native> {
    if id == 0 then Success(Absent) else TextAt(s, id)
  }

  function OptionalTruth(tag: nat): Result<Native> {
    Success(if tag == 0 then Absent else Truth(tag == 2))
  }

  function StatusText(id: nat): Result<Native> {
    var name :- StatusName(id);
    Success(Text(name))
  }

  function WordText(s: ReportStore, i: nat): Result<Native> {
    if i < |s.payload.words| then TextAt(s, s.payload.words[i]) else Invalid()
  }

  function StringList(s: ReportStore, span: Span, index: int): Result<Native> {
    if index < 0 then SeqValue(span.count)
    else if index >= span.count then Invalid()
    else WordText(s, span.start + index)
  }

  /** A collection of `n` objects that belong to `row`. */
  function RecordList(n: nat, kind: nat, row: nat, index: int): Result<Native> {
    if index < 0 then SeqValue(n)
    else if index >= n then Invalid()
    else Success(Ref(kind, row, Low32(index)))
  }

  /** All rows of a table. */
  function RowList(n: nat, kind: nat, index: int): Result<Native> {
    if index < 0 then SeqValue(n)
    else if index >= n then Invalid()
    else Success(Ref(kind, Low32(index), 0))
  }

  /** A field of record `sub` in a list of records of `width` words. */
  function RecordText(s: ReportStore, span: Span, width: nat, sub: nat, field: nat): Result<Native>
    requires width > 0
  {
    if sub >= span.count / width || field < 1 || field > width then Invalid()
    else WordText(s, span.start + sub * width + field - 1)
  }

  /** A member of a relation, through its index. */
  function IndexValue(indexes: seq<Index>, id: nat, row: nat, kind: nat, index: int): Result<Native> {
    if id >= |indexes| || row + 1 >= |indexes[id].offsets| then Invalid()
    else
      var ix := indexes[id];
      var start, stop := ix.offsets[row], ix.offsets[row + 1];
      var n := Low32(stop - start);
      if index < 0 then SeqValue(n)
      else if index >= n then Invalid()
      else
        var member := Low32(start + index);
        if ix.range then Success(Ref(kind, member, 0))
        else if member < |ix.members| then Success(Ref(kind, ix.members[member], 0))
        else Invalid()
  }

  function BatchValue(s: ReportStore, field: nat, index: int): Result<Native> {
    match field
    case 1 => RowList(|s.images|, 2, index)
    case 2 => RowList(|s.packages|, 3, index)
    case 3 => RowList(|s.vulnerabilities|, 4, index)
    case 4 => RowList(|s.advisorySources|, 5, index)
    case 5 => RowList(|s.findings|, 7, index)
    case _ => Invalid()
  }

  function ImageValue(s: ReportStore, indexes: seq<Index>, row: nat, field: nat, index: int): Result<Native> {
    if row >= |s.images| then Invalid()
    else
      var v := s.images[row];
      match field
      case 1 => Success(Text(v.requested))
      case 2 => Success(if v.os.None? then Absent else Text(v.os.value))
      case 3 => Success(Text(v.status))
      case 5 => RecordList(|v.diagnostics|, 13, row, index)
      case 6 => IndexValue(indexes, 0, row, 6, index)
      case 7 => IndexValue(indexes, 1, row, 7, index)
      case 8 => IndexValue(indexes, 3, row, 3, index)
      case 9 => IndexValue(indexes, 4, row, 3, index)
      case 10 => IndexValue(indexes, 5, row, 3, index)
      case 11 => IndexValue(indexes, 6, row, 4, index)
      case _ => Invalid()
  }

  function PackageValue(s: ReportStore, indexes: seq<Index>, row: nat, field: nat, index: int): Result<Native> {
    if row >= |s.packages| then Invalid()
    else
      var v := s.packages[row];
      match field
      case 1 => TextAt(s, v.name)
      case 2 => TextAt(s, v.version)
      case 3 => TextAt(s, v.ecosystem)
      case 4 => TextAt(s, v.commit)
      case 5 => TextAt(s, v.osPackageName)
      case 6 => TextAt(s, v.purl)
      case 7 => IndexValue(indexes, 7, row, 2, index)
      case 8 => IndexValue(indexes, 8, row, 2, index)
      case 9 => IndexValue(indexes, 9, row, 2, index)
      case 10 => IndexValue(indexes, 10, row, 2, index)
      case 11 => IndexValue(indexes, 15, row, 7, index)
      case _ => Invalid()
  }

  function VulnerabilityValue(s: ReportStore, indexes: seq<Index>, row: nat, field: nat, index: int): Result<Native> {
    if row >= |s.vulnerabilities| then Invalid()
    else
      var v := s.vulnerabilities[row];
      match field
      case 1 => TextAt(s, v.id)
      case 2 => StringList(s, v.aliases, index)
      case 3 => IndexValue(indexes, 11, row, 2, index)
      case 4 => IndexValue(indexes, 13, row, 7, index)
      case _ => Invalid()
  }

  function AdvisoryValue(s: ReportStore, indexes: seq<Index>, row: nat, field: nat, index: int): Result<Native> {
    if row >= |s.advisorySources| then Invalid()
    else
      var v := s.advisorySources[row];
      match field
      case 1 => TextAt(s, v.id)
      case 2 => StringList(s, v.aliases, index)
      case 3 => TextAt(s, v.summary)
      case 4 => OptionalText(s, v.modified)
      case 5 => OptionalText(s, v.published)
      case 6 => OptionalText(s, v.withdrawn)
      case 7 => OptionalText(s, v.databaseSeverity)
      case 8 => RecordList(v.severities.count / 3, 14, row, index)
      case 9 => RecordList(v.references.count / 2, 15, row, index)
      case 10 => IndexValue(indexes, 12, row, 2, index)
      case 11 => IndexValue(indexes, 14, row, 7, index)
      case _ => Invalid()
  }

  function OccurrenceValue(s: ReportStore, indexes: seq<Index>, row: nat, field: nat, index: int): Result<Native> {
    if row >= |s.occurrences| then Invalid()
    else
      var v := s.occurrences[row];
      match field
      case 1 => Success(Ref(2, v.image, 0))
      case 2 => Success(Ref(3, v.pkg, 0))
      case 3 => Success(Ref(8, v.context, 0))
      case 4 => Success(Ref(10, v.license, 0))
      case 5 => IndexValue(indexes, 2, row, 7, index)
      case _ => Invalid()
  }

  function FindingValue(s: ReportStore, row: nat, field: nat): Result<Native> {
    if row >= |s.findings| then Invalid()
    else
      var v := s.findings[row];
      match field
      case 1 => Success(Ref(6, v.occurrence, 0))
      case 2 => Success(Ref(5, v.advisory, 0))
      case 3 => Success(Ref(11, v.fix, 0))
      case 4 => Success(Ref(9, v.assessment, 0))
      case 5 =>
        if v.advisory < |s.advisoryVulnerabilities| then Success(Ref(4, s.advisoryVulnerabilities[v.advisory], 0))
        else Invalid()
      case _ => Invalid()
  }

  function ContextValue(s: ReportStore, row: nat, field: nat, index: int): Result<Native> {
    if row >= |s.contexts| then Invalid()
    else
      var v := s.contexts[row];
      match field
      case 1 => TextAt(s, v.path)
      case 2 => TextAt(s, v.sourceType)
      case 3 => OptionalText(s, v.layer)
      case 4 => StringList(s, v.dependencyGroups, index)
      case _ => Invalid()
  }

  function AssessmentValue(s: ReportStore, row: nat, field: nat): Result<Native> {
    if row >= |s.assessments| then Invalid()
    else
      var v := s.assessments[row];
      match field
      case 1 => OptionalTruth(v.called)
      case 2 => OptionalTruth(v.unimportant)
      case 3 => TextAt(s, v.maxSeverity)
      case _ => Invalid()
  }

  /** An unset policy is told apart from an empty one. */
  function LicenseValue(s: ReportStore, row: nat, field: nat, index: int): Result<Native> {
    if row >= |s.licenses| then Invalid()
    else
      var v := s.licenses[row];
      match field
      case 1 => StringList(s, v.licenses, index)
      case 2 => if v.policy.start == NIL_SPAN_START then Success(Absent) else StringList(s, v.policy, index)
      case 3 => StringList(s, v.violations, index)
      case 4 => StatusText(v.status)
      case _ => Invalid()
  }

  function FixValue(s: ReportStore, row: nat, field: nat, index: int): Result<Native> {
    if row >= |s.fixes| then Invalid()
    else
      var v := s.fixes[row];
      match field
      case 1 => StringList(s, v.versions, index)
      case 2 => StatusText(v.status)
      case 3 => RecordList(v.severities.count / 3, 16, row, index)
      case 4 => StringList(s, v.urgencies, index)
      case _ => Invalid()
  }

  function DiagnosticValue(s: ReportStore, row: nat, sub: nat, field: nat): Result<Native> {
    if row >= |s.images| || sub >= |s.images[row].diagnostics| then Invalid()
    else
      var v := s.images[row].diagnostics[sub];
      match field
      case 1 => Success(Text(v.code))
      case 2 => Success(Text(v.message))
      case _ => Invalid()
  }

  /** One read. A negative index asks for the length of a collection. */
  function Value(s: ReportStore, indexes: seq<Index>, kind: nat, row: nat, sub: nat, field: nat,
                 index: int): Result<Native> {
    match kind
    case 1 => BatchValue(s, field, index)
    case 2 => ImageValue(s, indexes, row, field, index)
    case 3 => PackageValue(s, indexes, row, field, index)
    case 4 => VulnerabilityValue(s, indexes, row, field, index)
    case 5 => AdvisoryValue(s, indexes, row, field, index)
    case 6 => OccurrenceValue(s, indexes, row, field, index)
    case 7 => FindingValue(s, row, field)
    case 8 => ContextValue(s, row, field, index)
    case 9 => AssessmentValue(s, row, field)
    case 10 => LicenseValue(s, row, field, index)
    case 11 => FixValue(s, row, field, index)
    case 13 => DiagnosticValue(s, row, sub, field)
    case 14 => if row < |s.advisorySources| then RecordText(s, s.advisorySources[row].severities, 3, sub, field)
      else Invalid()
    case 15 => if row < |s.advisorySources| then RecordText(s, s.advisorySources[row].references, 2, sub, field)
      else Invalid()
    case 16 => if row < |s.fixes| then RecordText(s, s.fixes[row].severities, 3, sub, field) else Invalid()
    case _ => Invalid()
  }
}
