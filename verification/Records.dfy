/** Packing logical records into compact rows. `Is...` says which row stands for which record; the
    lemmas show that a row keeps its meaning, decodes to its record, and is unique to it. */
module Records {
  import opened Common
  import opened Report
  import opened Payloads
  import opened Interning

  // ---------------------------------------------------------------- which row stands for which record

  ghost predicate IsPackage(p: Payload, t: StoredPackage, v: Package) {
    && IsString(p, t.name, v.name)
    && IsString(p, t.version, v.version)
    && IsString(p, t.ecosystem, v.ecosystem)
    && IsString(p, t.commit, v.commit)
    && IsString(p, t.osPackageName, v.osPackageName)
    && IsString(p, t.purl, v.purl)
  }

  ghost predicate IsAdvisory(p: Payload, t: StoredAdvisory, v: Advisory) {
    && IsString(p, t.id, v.id)
    && IsStrings(p, t.aliases, v.aliases)
    && IsString(p, t.summary, v.summary)
    && IsOptional(p, t.modified, v.modified)
    && IsOptional(p, t.published, v.published)
    && IsOptional(p, t.withdrawn, v.withdrawn)
    && IsSeverities(p, t.severities, v.severities)
    && IsReferences(p, t.references, v.references)
    && IsOptional(p, t.databaseSeverity, v.databaseSeverity)
  }

  ghost predicate IsVulnerability(p: Payload, t: StoredVulnerability, v: Vulnerability) {
    IsString(p, t.id, v.id) && IsStrings(p, t.aliases, v.aliases)
  }

  ghost predicate IsContext(p: Payload, t: StoredContext, v: PackageContext) {
    && IsString(p, t.path, v.path)
    && IsString(p, t.sourceType, v.sourceType)
    && IsOptional(p, t.layer, v.layer)
    && IsStrings(p, t.dependencyGroups, v.dependencyGroups)
  }

  /** Absent, false and true have different tags. */
  function OptionalBool(b: Option<bool>): (tag: nat)
    ensures tag <= 2
    ensures tag == 0 <==> b.None?
    ensures tag == 2 <==> b == Some(true)
  {
    if b.None? then 0 else if b.value then 2 else 1
  }

  ghost predicate IsAssessment(p: Payload, t: StoredAssessment, v: Assessment) {
    && t.called == OptionalBool(v.called)
    && t.unimportant == OptionalBool(v.unimportant)
    && IsString(p, t.maxSeverity, v.maxSeverity)
  }

  /** The name of a status number; any other number panics. */
  function StatusName(id: nat): Result<string> {
    if id < |STATUS_NAMES| then Success(STATUS_NAMES[id]) else Fail(Internal)
  }

  ghost predicate IsStatus(id: nat, s: string) {
    id < |STATUS_NAMES| && STATUS_NAMES[id] == s
  }

  ghost predicate IsLicense(p: Payload, t: StoredLicense, v: License) {
    && IsStrings(p, t.licenses, v.licenses)
    && IsStrings(p, t.policy, v.policy)
    && IsStrings(p, t.violations, v.violations)
    && IsStatus(t.status, v.status)
  }

  ghost predicate IsFix(p: Payload, t: StoredFix, v: Fix) {
    && IsStrings(p, t.versions, v.versions)
    && IsStatus(t.status, v.status)
    && IsSeverities(p, t.severities, v.severities)
    && IsStrings(p, t.urgencies, v.urgencies)
  }

  // ---------------------------------------------------------------- names are kept

  /** Growth is transitive, and whatever is named stays named. */
  lemma GrowthLaws()
    ensures forall p, q, r :: Extends(p, q) && Extends(q, r) ==> Extends(p, r)
    ensures forall p, q, id, s :: Extends(p, q) && IsString(p, id, s) ==> IsString(q, id, s)
    ensures forall p, q, id, s :: Extends(p, q) && IsOptional(p, id, s) ==> IsOptional(q, id, s)
    ensures forall p, q, t, v :: Extends(p, q) && IsStrings(p, t, v) ==> IsStrings(q, t, v)
    ensures forall p, q, t, v :: Extends(p, q) && IsSeverities(p, t, v) ==> IsSeverities(q, t, v)
    ensures forall p, q, t, v :: Extends(p, q) && IsReferences(p, t, v) ==> IsReferences(q, t, v)
  {
    forall p, q, t, v | Extends(p, q) && IsStrings(p, t, v)
      ensures IsStrings(q, t, v)
    {
      NamesKept(p, q, t, v);
    }
  }

  lemma StatusNamesAgree(a: nat, b: nat, s: string, t: string)
    requires IsStatus(a, s) && IsStatus(b, t)
    ensures a == b <==> s == t
  {
    var names := STATUS_NAMES;
    assert |names[0]| == 13 && |names[1]| == 9 && |names[2]| == 7 && |names[3]| == 12 && |names[4]| == 15
           && |names[5]| == 8;
  }

  // ---------------------------------------------------------------- packing

  /** The position of a status in the fixed list of names; anything else panics. */
  method StatusID(s: string) returns (r: Result<nat>)
    ensures r.Success? ==> IsStatus(r.value, s)
    ensures r.Fail? <==> s !in STATUS_NAMES
    ensures r.Fail? ==> r.error == Internal
  {
    for i := 0 to |STATUS_NAMES|
      invariant s !in STATUS_NAMES[..i]
    {
      if s == STATUS_NAMES[i] {
        return Success(i);
      }
    }
    return Fail(Internal);
  }

  // What packing a record adds to the payload: its fields in declaration order.

  ghost function AddPackage(p: Payload, v: Package): Payload {
    var p1 := AddString(AddString(AddString(p, v.name), v.version), v.ecosystem);
    AddString(AddString(AddString(p1, v.commit), v.osPackageName), v.purl)
  }

  ghost function AddDates(p: Payload, v: Advisory): Payload {
    AddOptional(AddOptional(AddOptional(p, v.modified), v.published), v.withdrawn)
  }

  ghost function AddEvidence(p: Payload, v: Advisory): Payload {
    AddList(AddList(p, SeverityList(v.severities)), ReferenceList(v.references))
  }

  ghost function AddAdvisory(p: Payload, v: Advisory): Payload {
    var p1 := AddString(AddList(AddString(p, v.id), v.aliases), v.summary);
    AddOptional(AddEvidence(AddDates(p1, v), v), v.databaseSeverity)
  }

  ghost function AddVulnerability(p: Payload, v: Vulnerability): Payload {
    AddList(AddString(p, v.id), v.aliases)
  }

  ghost function AddContext(p: Payload, v: PackageContext): Payload {
    AddList(AddOptional(AddString(AddString(p, v.path), v.sourceType), v.layer), v.dependencyGroups)
  }

  ghost function AddAssessment(p: Payload, v: Assessment): Payload {
    AddString(p, v.maxSeverity)
  }

  ghost function AddLicense(p: Payload, v: License): Payload {
    AddList(AddList(AddList(p, v.licenses), v.policy), v.violations)
  }

  ghost function AddFix(p: Payload, v: Fix): Payload {
    AddList(AddList(AddList(p, v.versions), SeverityList(v.severities)), v.urgencies)
  }

  // A packer overflows exactly when what it adds does not fit.

  method PackPackage(b: PayloadBuilder, v: Package) returns (r: Result<StoredPackage>)
    requires b.Valid()
    modifies b
    ensures b.Valid()
    ensures r.Success? ==> IsPackage(b.View(), r.value, v) && b.View() == AddPackage(old(b.View()), v)
    ensures r.Fail? ==> r.error == Overflow && !PayloadFits(AddPackage(old(b.View()), v))
  {
    GrowthLaws();
    PackingGrows();
    hide PayloadBuilder.Valid, PayloadBuilder.View, IsString, IsOptional, IsStrings, IsSeverities, IsReferences,
      StoredOnce, Extends, PayloadFits, AddString, AddOptional, AddList;
    var name :- b.StringID(v.name);
    var version :- b.StringID(v.version);
    var ecosystem :- b.StringID(v.ecosystem);
    var commit :- b.StringID(v.commit);
    var osPackageName :- b.StringID(v.osPackageName);
    var purl :- b.StringID(v.purl);
    return Success(StoredPackage(name, version, ecosystem, commit, osPackageName, purl));
  }

  method PackDates(b: PayloadBuilder, v: Advisory) returns (r: Result<(nat, nat, nat)>)
    requires b.Valid()
    modifies b
    ensures b.Valid()
    ensures r.Success? ==> IsOptional(b.View(), r.value.0, v.modified)
    ensures r.Success? ==> IsOptional(b.View(), r.value.1, v.published)
    ensures r.Success? ==> IsOptional(b.View(), r.value.2, v.withdrawn)
    ensures r.Success? ==> b.View() == AddDates(old(b.View()), v)
    ensures r.Fail? ==> r.error == Overflow && !PayloadFits(AddDates(old(b.View()), v))
  {
    GrowthLaws();
    PackingGrows();
    hide PayloadBuilder.Valid, PayloadBuilder.View, IsString, IsOptional, IsStrings, IsSeverities, IsReferences,
      StoredOnce, Extends, PayloadFits, AddString, AddOptional, AddList;
    var modified :- b.OptionalString(v.modified);
    var published :- b.OptionalString(v.published);
    var withdrawn :- b.OptionalString(v.withdrawn);
    return Success((modified, published, withdrawn));
  }

  method PackEvidence(b: PayloadBuilder, v: Advisory) returns (r: Result<(Span, Span)>)
    requires b.Valid()
    modifies b
    ensures b.Valid()
    ensures r.Success? ==> IsSeverities(b.View(), r.value.0, v.severities)
    ensures r.Success? ==> IsReferences(b.View(), r.value.1, v.references)
    ensures r.Success? ==> b.View() == AddEvidence(old(b.View()), v)
    ensures r.Fail? ==> r.error == Overflow && !PayloadFits(AddEvidence(old(b.View()), v))
  {
    GrowthLaws();
    PackingGrows();
    hide PayloadBuilder.Valid, PayloadBuilder.View, IsString, IsOptional, IsStrings, IsSeverities, IsReferences,
      StoredOnce, Extends, PayloadFits, AddString, AddOptional, AddList;
    var severities :- b.PackSeverities(v.severities);
    var references :- b.PackReferences(v.references);
    return Success((severities, references));
  }

  method PackAdvisory(b: PayloadBuilder, v: Advisory) returns (r: Result<StoredAdvisory>)
    requires b.Valid()
    modifies b
    ensures b.Valid()
    ensures r.Success? ==> IsAdvisory(b.View(), r.value, v) && b.View() == AddAdvisory(old(b.View()), v)
    ensures r.Fail? ==> r.error == Overflow && !PayloadFits(AddAdvisory(old(b.View()), v))
  {
    GrowthLaws();
    PackingGrows();
    hide PayloadBuilder.Valid, PayloadBuilder.View, IsString, IsOptional, IsStrings, IsSeverities, IsReferences,
      StoredOnce, Extends, PayloadFits, AddString, AddOptional, AddList, AddDates, AddEvidence;
    PackingAdvisoryGrows();
    var id :- b.StringID(v.id);
    var aliases :- b.PackStrings(v.aliases);
    var summary :- b.StringID(v.summary);
    var dates :- PackDates(b, v);
    var evidence :- PackEvidence(b, v);
    var databaseSeverity :- b.OptionalString(v.databaseSeverity);
    return Success(StoredAdvisory(id, aliases, summary, dates.0, dates.1, dates.2, evidence.0, evidence.1,
      databaseSeverity));
  }

  method PackVulnerability(b: PayloadBuilder, v: Vulnerability) returns (r: Result<StoredVulnerability>)
    requires b.Valid()
    modifies b
    ensures b.Valid()
    ensures r.Success? ==> IsVulnerability(b.View(), r.value, v) && b.View() == AddVulnerability(old(b.View()), v)
    ensures r.Fail? ==> r.error == Overflow && !PayloadFits(AddVulnerability(old(b.View()), v))
  {
    GrowthLaws();
    PackingGrows();
    hide PayloadBuilder.Valid, PayloadBuilder.View, IsString, IsOptional, IsStrings, IsSeverities, IsReferences,
      StoredOnce, Extends, PayloadFits, AddString, AddOptional, AddList;
    var id :- b.StringID(v.id);
    var aliases :- b.PackStrings(v.aliases);
    return Success(StoredVulnerability(id, aliases));
  }

  method PackContext(b: PayloadBuilder, v: PackageContext) returns (r: Result<StoredContext>)
    requires b.Valid()
    modifies b
    ensures b.Valid()
    ensures r.Success? ==> IsContext(b.View(), r.value, v) && b.View() == AddContext(old(b.View()), v)
    ensures r.Fail? ==> r.error == Overflow && !PayloadFits(AddContext(old(b.View()), v))
  {
    GrowthLaws();
    PackingGrows();
    hide PayloadBuilder.Valid, PayloadBuilder.View, IsString, IsOptional, IsStrings, IsSeverities, IsReferences,
      StoredOnce, Extends, PayloadFits, AddString, AddOptional, AddList;
    var path :- b.StringID(v.path);
    var sourceType :- b.StringID(v.sourceType);
    var layer :- b.OptionalString(v.layer);
    var dependencyGroups :- b.PackStrings(v.dependencyGroups);
    return Success(StoredContext(path, sourceType, layer, dependencyGroups));
  }

  method PackAssessment(b: PayloadBuilder, v: Assessment) returns (r: Result<StoredAssessment>)
    requires b.Valid()
    modifies b
    ensures b.Valid()
    ensures r.Success? ==> IsAssessment(b.View(), r.value, v) && b.View() == AddAssessment(old(b.View()), v)
    ensures r.Fail? ==> r.error == Overflow && !PayloadFits(AddAssessment(old(b.View()), v))
  {
    GrowthLaws();
    PackingGrows();
    hide PayloadBuilder.Valid, PayloadBuilder.View, IsString, IsOptional, IsStrings, IsSeverities, IsReferences,
      StoredOnce, Extends, PayloadFits, AddString, AddOptional, AddList;
    var maxSeverity :- b.StringID(v.maxSeverity);
    return Success(StoredAssessment(OptionalBool(v.called), OptionalBool(v.unimportant), maxSeverity));
  }

  method PackLicense(b: PayloadBuilder, v: License) returns (r: Result<StoredLicense>)
    requires b.Valid()
    modifies b
    ensures b.Valid()
    ensures r.Success? ==> IsLicense(b.View(), r.value, v) && b.View() == AddLicense(old(b.View()), v)
    ensures r == Fail(Internal) ==> v.status !in STATUS_NAMES
    ensures r.Success? ==> v.status in STATUS_NAMES
    ensures r.Fail? && r.error != Internal ==> r.error == Overflow && !PayloadFits(AddLicense(old(b.View()), v))
  {
    GrowthLaws();
    PackingGrows();
    hide PayloadBuilder.Valid, PayloadBuilder.View, IsString, IsOptional, IsStrings, IsSeverities, IsReferences,
      StoredOnce, Extends, PayloadFits, AddString, AddOptional, AddList;
    var licenses :- b.PackStrings(v.licenses);
    var policy :- b.PackStrings(v.policy);
    var violations :- b.PackStrings(v.violations);
    var status :- StatusID(v.status);
    return Success(StoredLicense(licenses, policy, violations, status));
  }

  method PackFix(b: PayloadBuilder, v: Fix) returns (r: Result<StoredFix>)
    requires b.Valid()
    modifies b
    ensures b.Valid()
    ensures r.Success? ==> IsFix(b.View(), r.value, v) && b.View() == AddFix(old(b.View()), v)
    ensures r == Fail(Internal) ==> v.status !in STATUS_NAMES
    ensures r.Success? ==> v.status in STATUS_NAMES
    ensures r.Fail? && r.error != Internal ==> r.error == Overflow && !PayloadFits(AddFix(old(b.View()), v))
  {
    GrowthLaws();
    PackingGrows();
    hide PayloadBuilder.Valid, PayloadBuilder.View, IsString, IsOptional, IsStrings, IsSeverities, IsReferences,
      StoredOnce, Extends, PayloadFits, AddString, AddOptional, AddList;
    var versions :- b.PackStrings(v.versions);
    var status :- StatusID(v.status);
    var severities :- b.PackSeverities(v.severities);
    var urgencies :- b.PackStrings(v.urgencies);
    return Success(StoredFix(versions, status, severities, urgencies));
  }

  lemma PackingAdvisoryGrows()
    ensures forall p, v :: Extends(p, AddDates(p, v))
    ensures forall p, v :: Extends(p, AddEvidence(p, v))
  {
    GrowthLaws();
    PackingGrows();
    hide Extends, AddOptional, AddList;
  }

  /** Packing any record only appends to the payload. */
  lemma PackingRecordsGrows()
    ensures forall p, v :: Extends(p, AddPackage(p, v))
    ensures forall p, v :: Extends(p, AddAdvisory(p, v))
    ensures forall p, v :: Extends(p, AddVulnerability(p, v))
    ensures forall p, v :: Extends(p, AddContext(p, v))
    ensures forall p, v :: Extends(p, AddAssessment(p, v))
    ensures forall p, v :: Extends(p, AddLicense(p, v))
    ensures forall p, v :: Extends(p, AddFix(p, v))
  {
    GrowthLaws();
    PackingGrows();
    PackingAdvisoryGrows();
    hide Extends, AddString, AddOptional, AddList, AddDates, AddEvidence;
  }

  // ---------------------------------------------------------------- every record that fits has a row

  lemma StringNamed(p: Payload, s: string) returns (id: nat)
    requires StoredOnce(p) && PayloadFits(AddString(p, s))
    ensures StoredOnce(AddString(p, s)) && IsString(AddString(p, s), id, s)
  {
    StringStored(p, s);
    id := RowOf(AddString(p, s).strings, s) + 1;
  }

  lemma OptionalNamed(p: Payload, s: Option<string>) returns (id: nat)
    requires StoredOnce(p) && PayloadFits(AddOptional(p, s))
    ensures StoredOnce(AddOptional(p, s)) && IsOptional(AddOptional(p, s), id, s)
  {
    if s.None? {
      id := 0;
    } else {
      id := StringNamed(p, s.value);
    }
  }

  lemma StatusNamed(s: string) returns (id: nat)
    requires s in STATUS_NAMES
    ensures IsStatus(id, s)
  {
    id :| id < |STATUS_NAMES| && STATUS_NAMES[id] == s;
  }

  lemma PackageNamed(p: Payload, v: Package) returns (t: StoredPackage)
    requires StoredOnce(p) && PayloadFits(AddPackage(p, v))
    ensures StoredOnce(AddPackage(p, v)) && IsPackage(AddPackage(p, v), t, v)
  {
    GrowthLaws();
    PackingGrows();
    hide StoredOnce, Extends, PayloadFits, IsString, IsOptional, IsStrings, IsSeverities, IsReferences, AddString,
      AddOptional, AddList;
    var name := StringNamed(p, v.name);
    var p1 := AddString(p, v.name);
    var version := StringNamed(p1, v.version);
    var p2 := AddString(p1, v.version);
    var ecosystem := StringNamed(p2, v.ecosystem);
    var p3 := AddString(p2, v.ecosystem);
    var commit := StringNamed(p3, v.commit);
    var p4 := AddString(p3, v.commit);
    var osPackageName := StringNamed(p4, v.osPackageName);
    var p5 := AddString(p4, v.osPackageName);
    var purl := StringNamed(p5, v.purl);
    t := StoredPackage(name, version, ecosystem, commit, osPackageName, purl);
  }

  lemma VulnerabilityNamed(p: Payload, v: Vulnerability) returns (t: StoredVulnerability)
    requires StoredOnce(p) && PayloadFits(AddVulnerability(p, v))
    ensures StoredOnce(AddVulnerability(p, v)) && IsVulnerability(AddVulnerability(p, v), t, v)
  {
    GrowthLaws();
    PackingGrows();
    hide StoredOnce, Extends, PayloadFits, IsString, IsOptional, IsStrings, IsSeverities, IsReferences, AddString,
      AddOptional, AddList;
    var id := StringNamed(p, v.id);
    var p1 := AddString(p, v.id);
    var aliases := ListNamed(p1, v.aliases);
    t := StoredVulnerability(id, aliases);
  }

  lemma ContextNamed(p: Payload, v: PackageContext) returns (t: StoredContext)
    requires StoredOnce(p) && PayloadFits(AddContext(p, v))
    ensures StoredOnce(AddContext(p, v)) && IsContext(AddContext(p, v), t, v)
  {
    GrowthLaws();
    PackingGrows();
    hide StoredOnce, Extends, PayloadFits, IsString, IsOptional, IsStrings, IsSeverities, IsReferences, AddString,
      AddOptional, AddList;
    var path := StringNamed(p, v.path);
    var p1 := AddString(p, v.path);
    var sourceType := StringNamed(p1, v.sourceType);
    var p2 := AddString(p1, v.sourceType);
    var layer := OptionalNamed(p2, v.layer);
    var p3 := AddOptional(p2, v.layer);
    var dependencyGroups := ListNamed(p3, v.dependencyGroups);
    t := StoredContext(path, sourceType, layer, dependencyGroups);
  }

  lemma AssessmentNamed(p: Payload, v: Assessment) returns (t: StoredAssessment)
    requires StoredOnce(p) && PayloadFits(AddAssessment(p, v))
    ensures StoredOnce(AddAssessment(p, v)) && IsAssessment(AddAssessment(p, v), t, v)
  {
    GrowthLaws();
    PackingGrows();
    hide StoredOnce, Extends, PayloadFits, IsString, IsOptional, IsStrings, IsSeverities, IsReferences, AddString,
      AddOptional, AddList;
    var maxSeverity := StringNamed(p, v.maxSeverity);
    t := StoredAssessment(OptionalBool(v.called), OptionalBool(v.unimportant), maxSeverity);
  }

  lemma LicenseNamed(p: Payload, v: License) returns (t: StoredLicense)
    requires StoredOnce(p) && PayloadFits(AddLicense(p, v)) && v.status in STATUS_NAMES
    ensures StoredOnce(AddLicense(p, v)) && IsLicense(AddLicense(p, v), t, v)
  {
    GrowthLaws();
    PackingGrows();
    hide StoredOnce, Extends, PayloadFits, IsString, IsOptional, IsStrings, IsSeverities, IsReferences, AddString,
      AddOptional, AddList;
    var status := StatusNamed(v.status);
    var licenses := ListNamed(p, v.licenses);
    var p1 := AddList(p, v.licenses);
    var policy := ListNamed(p1, v.policy);
    var p2 := AddList(p1, v.policy);
    var violations := ListNamed(p2, v.violations);
    t := StoredLicense(licenses, policy, violations, status);
  }

  /** Lists of severities and references are named as the lists of their strings. */
  lemma SeverityNames()
    ensures forall p, t, v :: IsStrings(p, t, SeverityList(v)) <==> IsSeverities(p, t, v)
    ensures forall p, t, v :: IsStrings(p, t, ReferenceList(v)) <==> IsReferences(p, t, v)
  {
  }

  lemma FixNamed(p: Payload, v: Fix) returns (t: StoredFix)
    requires StoredOnce(p) && PayloadFits(AddFix(p, v)) && v.status in STATUS_NAMES
    ensures StoredOnce(AddFix(p, v)) && IsFix(AddFix(p, v), t, v)
  {
    GrowthLaws();
    PackingGrows();
    hide StoredOnce, Extends, PayloadFits, IsString, IsOptional, IsStrings, IsSeverities, IsReferences, AddString,
      AddOptional, AddList;
    SeverityNames();
    var status := StatusNamed(v.status);
    var versions := ListNamed(p, v.versions);
    var p1 := AddList(p, v.versions);
    var severities := ListNamed(p1, SeverityList(v.severities));
    var p2 := AddList(p1, SeverityList(v.severities));
    var urgencies := ListNamed(p2, v.urgencies);
    t := StoredFix(versions, status, severities, urgencies);
  }

  lemma DatesNamed(p: Payload, v: Advisory) returns (t: (nat, nat, nat))
    requires StoredOnce(p) && PayloadFits(AddDates(p, v))
    ensures StoredOnce(AddDates(p, v))
    ensures IsOptional(AddDates(p, v), t.0, v.modified)
    ensures IsOptional(AddDates(p, v), t.1, v.published)
    ensures IsOptional(AddDates(p, v), t.2, v.withdrawn)
  {
    GrowthLaws();
    PackingGrows();
    hide StoredOnce, Extends, PayloadFits, IsString, IsOptional, IsStrings, IsSeverities, IsReferences, AddString,
      AddOptional, AddList;
    var modified := OptionalNamed(p, v.modified);
    var p1 := AddOptional(p, v.modified);
    var published := OptionalNamed(p1, v.published);
    var p2 := AddOptional(p1, v.published);
    var withdrawn := OptionalNamed(p2, v.withdrawn);
    t := (modified, published, withdrawn);
  }

  lemma EvidenceNamed(p: Payload, v: Advisory) returns (t: (Span, Span))
    requires StoredOnce(p) && PayloadFits(AddEvidence(p, v))
    ensures StoredOnce(AddEvidence(p, v))
    ensures IsSeverities(AddEvidence(p, v), t.0, v.severities)
    ensures IsReferences(AddEvidence(p, v), t.1, v.references)
  {
    SeverityNames();
    GrowthLaws();
    PackingGrows();
    hide StoredOnce, Extends, PayloadFits, IsString, IsOptional, IsStrings, IsSeverities, IsReferences, AddString,
      AddOptional, AddList;
    var severities := ListNamed(p, SeverityList(v.severities));
    var references := ListNamed(AddList(p, SeverityList(v.severities)), ReferenceList(v.references));
    t := (severities, references);
  }

  lemma AdvisoryNamed(p: Payload, v: Advisory) returns (t: StoredAdvisory)
    requires StoredOnce(p) && PayloadFits(AddAdvisory(p, v))
    ensures StoredOnce(AddAdvisory(p, v)) && IsAdvisory(AddAdvisory(p, v), t, v)
  {
    PackingAdvisoryGrows();
    GrowthLaws();
    PackingGrows();
    hide StoredOnce, Extends, PayloadFits, IsString, IsOptional, IsStrings, IsSeverities, IsReferences, AddString,
      AddOptional, AddList, AddDates, AddEvidence;
    var id := StringNamed(p, v.id);
    var p1 := AddString(p, v.id);
    var aliases := ListNamed(p1, v.aliases);
    var p2 := AddList(p1, v.aliases);
    var summary := StringNamed(p2, v.summary);
    var p3 := AddString(p2, v.summary);
    var dates := DatesNamed(p3, v);
    var p4 := AddDates(p3, v);
    var evidence := EvidenceNamed(p4, v);
    var p5 := AddEvidence(p4, v);
    var databaseSeverity := OptionalNamed(p5, v.databaseSeverity);
    t := StoredAdvisory(id, aliases, summary, dates.0, dates.1, dates.2, evidence.0, evidence.1, databaseSeverity);
  }

  lemma StringKnown(p: Payload, id: nat, s: string)
    requires IsString(p, id, s)
    ensures AddString(p, s) == p
  {
  }

  lemma OptionalKnown(p: Payload, id: nat, s: Option<string>)
    requires IsOptional(p, id, s)
    ensures AddOptional(p, s) == p
  {
  }

  /** Packing an advisory again adds nothing. */
  lemma AdvisoryKnown(p: Payload, t: StoredAdvisory, v: Advisory)
    requires StoredOnce(p) && IsAdvisory(p, t, v)
    ensures AddAdvisory(p, v) == p
  {
    hide StoredOnce, IsString, IsOptional, IsStrings, AddString, AddOptional, AddList;
    StringKnown(p, t.id, v.id);
    ListKnown(p, t.aliases, v.aliases);
    StringKnown(p, t.summary, v.summary);
    OptionalKnown(p, t.modified, v.modified);
    OptionalKnown(p, t.published, v.published);
    OptionalKnown(p, t.withdrawn, v.withdrawn);
    ListKnown(p, t.severities, SeverityList(v.severities));
    ListKnown(p, t.references, ReferenceList(v.references));
    OptionalKnown(p, t.databaseSeverity, v.databaseSeverity);
  }

  // ---------------------------------------------------------------- a row is unique to its record

  /** `enc` ties rows to records so that a row keeps its meaning as the payload grows and two rows
      are the same exactly when their records are. */
  ghost predicate Encoding<T(!new), V(!new)>(enc: (Payload, T, V) -> bool) {
    && (forall p, q, t, v :: Extends(p, q) && enc(p, t, v) ==> enc(q, t, v))
    && (forall p, a, b, v, w :: StoredOnce(p) && enc(p, a, v) && enc(p, b, w) ==> (a == b <==> v == w))
  }

  ghost function PackageEncoding(): (Payload, StoredPackage, Package) -> bool {
    (p, t, v) => IsPackage(p, t, v)
  }

  ghost function AdvisoryEncoding(): (Payload, StoredAdvisory, Advisory) -> bool {
    (p, t, v) => IsAdvisory(p, t, v)
  }

  ghost function ContextEncoding(): (Payload, StoredContext, PackageContext) -> bool {
    (p, t, v) => IsContext(p, t, v)
  }

  ghost function AssessmentEncoding(): (Payload, StoredAssessment, Assessment) -> bool {
    (p, t, v) => IsAssessment(p, t, v)
  }

  ghost function LicenseEncoding(): (Payload, StoredLicense, License) -> bool {
    (p, t, v) => IsLicense(p, t, v)
  }

  ghost function FixEncoding(): (Payload, StoredFix, Fix) -> bool {
    (p, t, v) => IsFix(p, t, v)
  }

  lemma NamesAgree()
    ensures forall p, a, b, s, t :: StoredOnce(p) && IsString(p, a, s) && IsString(p, b, t) ==> (a == b <==> s == t)
    ensures forall p, a, b, s, t :: StoredOnce(p) && IsOptional(p, a, s) && IsOptional(p, b, t) ==> (a == b <==> s == t)
    ensures forall p, a, b, v, w :: StoredOnce(p) && IsStrings(p, a, v) && IsStrings(p, b, w) ==> (a == b <==> v == w)
    ensures forall p, a, b, v, w :: StoredOnce(p) && IsSeverities(p, a, v) && IsSeverities(p, b, w) ==>
              (a == b <==> v == w)
    ensures forall p, a, b, v, w :: StoredOnce(p) && IsReferences(p, a, v) && IsReferences(p, b, w) ==>
              (a == b <==> v == w)
    ensures forall a, b, s, t :: IsStatus(a, s) && IsStatus(b, t) ==> (a == b <==> s == t)
  {
    forall p, a, b, s, t | StoredOnce(p) && IsString(p, a, s) && IsString(p, b, t)
      ensures a == b <==> s == t
    {
      StringNamesAgree(p, a, b, s, t);
    }
    forall p, a, b, s, t | StoredOnce(p) && IsOptional(p, a, s) && IsOptional(p, b, t)
      ensures a == b <==> s == t
    {
      OptionalNamesAgree(p, a, b, s, t);
    }
    forall p, a, b, v, w | StoredOnce(p) && IsStrings(p, a, v) && IsStrings(p, b, w)
      ensures a == b <==> v == w
    {
      ListNamesAgree(p, a, b, v, w);
    }
    forall p, a, b, v, w | StoredOnce(p) && IsSeverities(p, a, v) && IsSeverities(p, b, w)
      ensures a == b <==> v == w
    {
      SeverityNamesAgree(p, a, b, v, w);
    }
    forall p, a, b, v, w | StoredOnce(p) && IsReferences(p, a, v) && IsReferences(p, b, w)
      ensures a == b <==> v == w
    {
      ReferenceNamesAgree(p, a, b, v, w);
    }
    forall a, b, s, t | IsStatus(a, s) && IsStatus(b, t)
      ensures a == b <==> s == t
    {
      StatusNamesAgree(a, b, s, t);
    }
  }

  lemma PackageRowsAgree()
    ensures Encoding(PackageEncoding())
  {
    GrowthLaws();
    NamesAgree();
    hide IsString, IsOptional, IsStrings, IsSeverities, IsReferences, IsStatus, StoredOnce, Extends;
  }

  lemma AdvisoryRowsAgree()
    ensures Encoding(AdvisoryEncoding())
  {
    GrowthLaws();
    NamesAgree();
    hide IsString, IsOptional, IsStrings, IsSeverities, IsReferences, IsStatus, StoredOnce, Extends;
  }

  lemma ContextRowsAgree()
    ensures Encoding(ContextEncoding())
  {
    GrowthLaws();
    NamesAgree();
    hide IsString, IsOptional, IsStrings, IsSeverities, IsReferences, IsStatus, StoredOnce, Extends;
  }

  lemma AssessmentRowsAgree()
    ensures Encoding(AssessmentEncoding())
  {
    GrowthLaws();
    NamesAgree();
    hide IsString, IsOptional, IsStrings, IsSeverities, IsReferences, IsStatus, StoredOnce, Extends;
  }

  lemma LicenseRowsAgree()
    ensures Encoding(LicenseEncoding())
  {
    GrowthLaws();
    NamesAgree();
    hide IsString, IsOptional, IsStrings, IsSeverities, IsReferences, IsStatus, StoredOnce, Extends;
  }

  lemma FixRowsAgree()
    ensures Encoding(FixEncoding())
  {
    GrowthLaws();
    NamesAgree();
    hide IsString, IsOptional, IsStrings, IsSeverities, IsReferences, IsStatus, StoredOnce, Extends;
  }
}
