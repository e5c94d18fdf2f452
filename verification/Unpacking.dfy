/** Decoding complete records, and the proof that whatever was packed decodes to itself, when it was
    packed and at any later time. */
module Unpacking {
  import opened Common
  import opened Report
  import opened Payloads
  import opened Records

  // ---------------------------------------------------------------- decoding

  function UnpackOptional(p: Payload, id: nat): Result<Option<string>> {
    if id == 0 then Success(None)
    else
      var s :- StringAt(p, id);
      Success(Some(s))
  }

  function UnpackBool(tag: nat): Option<bool> {
    if tag == 0 then None else Some(tag == 2)
  }

  function UnpackList(p: Payload, span: Span): Result<List<string>> {
    if Readable(p, span) then Success(UnpackStrings(p, span)) else Fail(Internal)
  }

  function Triples(s: seq<string>): seq<Severity> {
    seq(|s| / 3, i requires 0 <= i < |s| / 3 => Severity(s[3 * i], s[3 * i + 1], s[3 * i + 2]))
  }

  function Pairs(s: seq<string>): seq<Reference> {
    seq(|s| / 2, i requires 0 <= i < |s| / 2 => Reference(s[2 * i], s[2 * i + 1]))
  }

  function UnpackSeverities(p: Payload, span: Span): Result<List<Severity>> {
    var strings :- UnpackList(p, span);
    Success(if strings.Nil? then Nil else Items(Triples(strings.values)))
  }

  function UnpackReferences(p: Payload, span: Span): Result<List<Reference>> {
    var strings :- UnpackList(p, span);
    Success(if strings.Nil? then Nil else Items(Pairs(strings.values)))
  }

  function UnpackPackage(p: Payload, t: StoredPackage): Result<Package> {
    var name :- StringAt(p, t.name);
    var version :- StringAt(p, t.version);
    var ecosystem :- StringAt(p, t.ecosystem);
    var commit :- StringAt(p, t.commit);
    var osPackageName :- StringAt(p, t.osPackageName);
    var purl :- StringAt(p, t.purl);
    Success(Package(name, version, ecosystem, commit, osPackageName, purl))
  }

  function UnpackAdvisory(p: Payload, t: StoredAdvisory): Result<Advisory> {
    var id :- StringAt(p, t.id);
    var aliases :- UnpackList(p, t.aliases);
    var summary :- StringAt(p, t.summary);
    var modified :- UnpackOptional(p, t.modified);
    var published :- UnpackOptional(p, t.published);
    var withdrawn :- UnpackOptional(p, t.withdrawn);
    var severities :- UnpackSeverities(p, t.severities);
    var references :- UnpackReferences(p, t.references);
    var databaseSeverity :- UnpackOptional(p, t.databaseSeverity);
    Success(Advisory(id, aliases, summary, modified, published, withdrawn, severities, references, databaseSeverity))
  }

  function UnpackVulnerability(p: Payload, t: StoredVulnerability): Result<Vulnerability> {
    var id :- StringAt(p, t.id);
    var aliases :- UnpackList(p, t.aliases);
    Success(Vulnerability(id, aliases))
  }

  function UnpackContext(p: Payload, t: StoredContext): Result<PackageContext> {
    var path :- StringAt(p, t.path);
    var sourceType :- StringAt(p, t.sourceType);
    var layer :- UnpackOptional(p, t.layer);
    var dependencyGroups :- UnpackList(p, t.dependencyGroups);
    Success(PackageContext(path, sourceType, layer, dependencyGroups))
  }

  function UnpackAssessment(p: Payload, t: StoredAssessment): Result<Assessment> {
    var maxSeverity :- StringAt(p, t.maxSeverity);
    Success(Assessment(UnpackBool(t.called), UnpackBool(t.unimportant), maxSeverity))
  }

  function UnpackLicense(p: Payload, t: StoredLicense): Result<License> {
    var licenses :- UnpackList(p, t.licenses);
    var policy :- UnpackList(p, t.policy);
    var violations :- UnpackList(p, t.violations);
    var status :- StatusName(t.status);
    Success(License(licenses, policy, violations, status))
  }

  function UnpackFix(p: Payload, t: StoredFix): Result<Fix> {
    var versions :- UnpackList(p, t.versions);
    var status :- StatusName(t.status);
    var severities :- UnpackSeverities(p, t.severities);
    var urgencies :- UnpackList(p, t.urgencies);
    Success(Fix(versions, status, severities, urgencies))
  }

  // ---------------------------------------------------------------- round trips

  lemma SeveritiesDecode(p: Payload, span: Span, v: List<Severity>)
    requires StoredOnce(p) && IsSeverities(p, span, v)
    ensures UnpackSeverities(p, span) == Success(v)
  {
    hide StoredOnce, IsStrings, Readable, UnpackStrings;
    NamesDecode(p, span, if v.Nil? then Nil else Items(SeverityStrings(v.values)));
    if v.Items? {
      TriplesDecode(v.values);
    }
  }

  lemma TriplesDecode(v: seq<Severity>)
    ensures Triples(SeverityStrings(v)) == v
  {
    var s := SeverityStrings(v);
    SeverityStringsAt(v);
    forall i | 0 <= i < |v|
      ensures Triples(s)[i] == v[i]
    {
      assert s[3 * i..3 * i + 3] == [v[i].kind, v[i].source, v[i].vector];
      assert s[3 * i..3 * i + 3][0] == s[3 * i] && s[3 * i..3 * i + 3][1] == s[3 * i + 1]
             && s[3 * i..3 * i + 3][2] == s[3 * i + 2];
    }
  }

  lemma ReferencesDecode(p: Payload, span: Span, v: List<Reference>)
    requires StoredOnce(p) && IsReferences(p, span, v)
    ensures UnpackReferences(p, span) == Success(v)
  {
    hide StoredOnce, IsStrings, Readable, UnpackStrings;
    NamesDecode(p, span, if v.Nil? then Nil else Items(ReferenceStrings(v.values)));
    if v.Items? {
      PairsDecode(v.values);
    }
  }

  lemma PairsDecode(v: seq<Reference>)
    ensures Pairs(ReferenceStrings(v)) == v
  {
    var s := ReferenceStrings(v);
    ReferenceStringsAt(v);
    forall i | 0 <= i < |v|
      ensures Pairs(s)[i] == v[i]
    {
      assert s[2 * i..2 * i + 2] == [v[i].kind, v[i].url];
      assert s[2 * i..2 * i + 2][0] == s[2 * i] && s[2 * i..2 * i + 2][1] == s[2 * i + 1];
    }
  }

  /** Names that were given out decode, now and after the payload has grown. */
  lemma NamesDecodeLater(p: Payload, q: Payload)
    requires Extends(p, q) && StoredOnce(q)
    ensures forall id, s :: IsString(p, id, s) ==> StringAt(q, id) == Success(s)
    ensures forall id, s :: IsOptional(p, id, s) ==> UnpackOptional(q, id) == Success(s)
    ensures forall t, v :: IsStrings(p, t, v) ==> UnpackList(q, t) == Success(v)
    ensures forall t, v :: IsSeverities(p, t, v) ==> UnpackSeverities(q, t) == Success(v)
    ensures forall t, v :: IsReferences(p, t, v) ==> UnpackReferences(q, t) == Success(v)
  {
    GrowthLaws();
    hide Extends, StoredOnce, IsString, IsStrings, IsSeverities, IsReferences, Readable, UnpackStrings,
      UnpackSeverities, UnpackReferences;
    forall id, s | IsString(p, id, s)
      ensures StringAt(q, id) == Success(s)
    {
      StringDecodes(q, id, s);
    }
    forall t, v | IsStrings(p, t, v)
      ensures UnpackList(q, t) == Success(v)
    {
      NamesDecode(q, t, v);
    }
    forall t, v | IsSeverities(p, t, v)
      ensures UnpackSeverities(q, t) == Success(v)
    {
      SeveritiesDecode(q, t, v);
    }
    forall t, v | IsReferences(p, t, v)
      ensures UnpackReferences(q, t) == Success(v)
    {
      ReferencesDecode(q, t, v);
    }
  }

  lemma StringDecodes(p: Payload, id: nat, s: string)
    requires IsString(p, id, s)
    ensures StringAt(p, id) == Success(s)
  {
  }

  /** Records of every kind round-trip: what was packed into `p` still decodes to itself in every
      later payload `q`. */
  lemma RecordsDecodeLater(p: Payload, q: Payload)
    requires Extends(p, q) && StoredOnce(q)
    ensures forall t, v :: IsPackage(p, t, v) ==> UnpackPackage(q, t) == Success(v)
    ensures forall t, v :: IsAdvisory(p, t, v) ==> UnpackAdvisory(q, t) == Success(v)
    ensures forall t, v :: IsVulnerability(p, t, v) ==> UnpackVulnerability(q, t) == Success(v)
    ensures forall t, v :: IsContext(p, t, v) ==> UnpackContext(q, t) == Success(v)
    ensures forall t, v :: IsAssessment(p, t, v) ==> UnpackAssessment(q, t) == Success(v)
    ensures forall t, v :: IsLicense(p, t, v) ==> UnpackLicense(q, t) == Success(v)
    ensures forall t, v :: IsFix(p, t, v) ==> UnpackFix(q, t) == Success(v)
  {
    NamesDecodeLater(p, q);
    hide Extends, StoredOnce, IsString, IsOptional, IsStrings, IsSeverities, IsReferences, StringAt, UnpackOptional,
      UnpackList, UnpackSeverities, UnpackReferences;
  }
}
