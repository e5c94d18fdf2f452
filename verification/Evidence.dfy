/** What fix evidence says about a package, entry by entry, and that nothing else says the same. */
module Evidence {
  import opened Common
  import opened Order
  import opened Report
  import opened Fixes

  // ---------------------------------------------------------------- canonical lists

  /** The strictly increasing list of the values that satisfy `has`; nil when there are none. */
  ghost predicate Lists<T(!new)>(list: List<T>, less: (T, T) -> bool, has: T -> bool) {
    && (list.Nil? ==> forall x :: !has(x))
    && (list.Items? ==> list.values != [] && StrictlySorted(less, list.values))
    && (list.Items? ==> forall x :: x in list.values <==> has(x))
  }

  lemma ListsUnique<T(!new)>(a: List<T>, b: List<T>, less: (T, T) -> bool, has: T -> bool)
    requires StrictTotal(less) && Lists(a, less, has) && Lists(b, less, has)
    ensures a == b
  {
    assert a.Items? ==> a.values[0] in a.values && has(a.values[0]);
    assert b.Items? ==> b.values[0] in b.values && has(b.values[0]);
    if a.Items? && b.Items? {
      StrictlySortedUnique(less, a.values, b.values);
    }
  }

  lemma CanonicalLists<T(!new)>(less: (T, T) -> bool, values: seq<T>, has: T -> bool)
    requires StrictTotal(less) && forall x :: x in values <==> has(x)
    ensures Lists(if values == [] then Nil else Items(Canonical(less, values)), less, has)
  {
    CanonicalForm(less, values);
    var c := Canonical(less, values);
    forall x
      ensures x in c <==> x in values
    {
      assert x in Elements(c) <==> x in Elements(values);
    }
    if values != [] {
      assert values[0] in c;
    }
  }

  /** Keys compare by the first key that differs. */
  ghost predicate KeysLess(a: seq<string>, b: seq<string>) {
    exists k :: 0 <= k < |a| && k < |b| && Less(a[k], b[k]) && forall j :: 0 <= j < k ==> a[j] == b[j]
  }

  /** Severities are ordered by type, then source, then vector. */
  lemma SeverityOrderExactly(a: Severity, b: Severity)
    ensures SeverityOrder()(a, b) <==> KeysLess([a.kind, a.source, a.vector], [b.kind, b.source, b.vector])
  {
    var x, y := [a.kind, a.source, a.vector], [b.kind, b.source, b.vector];
    LessTotal(a.kind, a.kind);
    LessTotal(a.source, a.source);
    hide Less;
    if SeverityLess(a, b) {
      var k := if Less(a.kind, b.kind) then 0 else if Less(a.source, b.source) then 1 else 2;
      assert Less(x[k], y[k]) && forall j :: 0 <= j < k ==> x[j] == y[j];
    }
    forall k | 0 <= k < 3 && Less(x[k], y[k]) && forall j :: 0 <= j < k ==> x[j] == y[j]
      ensures SeverityLess(a, b)
    {
      assert k > 0 ==> x[0] == y[0];
      assert k > 1 ==> x[1] == y[1];
    }
  }

  /** References are ordered by type, then address. */
  lemma ReferenceOrderExactly(a: Reference, b: Reference)
    ensures ReferenceOrder()(a, b) <==> KeysLess([a.kind, a.url], [b.kind, b.url])
  {
    var x, y := [a.kind, a.url], [b.kind, b.url];
    LessTotal(a.kind, a.kind);
    hide Less;
    if ReferenceLess(a, b) {
      var k := if Less(a.kind, b.kind) then 0 else 1;
      assert Less(x[k], y[k]) && forall j :: 0 <= j < k ==> x[j] == y[j];
    }
    forall k | 0 <= k < 2 && Less(x[k], y[k]) && forall j :: 0 <= j < k ==> x[j] == y[j]
      ensures ReferenceLess(a, b)
    {
      assert k > 0 ==> x[0] == y[0];
    }
  }

  lemma ReferenceOrderTotal()
    ensures StrictTotal(ReferenceOrder())
  {
    StringLessTotal();
    var less := StringLess();
    forall x: string, y: string
      ensures Less(x, y) == less(x, y)
    {
    }
    hide Less;
  }

  // ---------------------------------------------------------------- ecosystems

  predicate OccursAt(s: string, pattern: string, i: nat) {
    i + |pattern| <= |s| && s[i..i + |pattern|] == pattern
  }

  /** Without an occurrence nothing is removed. */
  lemma {:induction false} RemoveNone(s: string, pattern: string)
    requires pattern != [] && forall i: nat :: !OccursAt(s, pattern, i)
    ensures RemoveAll(s, pattern) == s
  {
    if s != [] {
      assert !OccursAt(s, pattern, 0);
      forall i: nat
        ensures !OccursAt(s[1..], pattern, i)
      {
        var next: nat := i + 1;
        assert OccursAt(s[1..], pattern, i) ==> OccursAt(s, pattern, next);
      }
      RemoveNone(s[1..], pattern);
    }
  }

  /** The first occurrence is removed, and removal goes on behind it. */
  lemma {:induction false} RemoveFirst(a: string, pattern: string, b: string)
    requires pattern != [] && forall i :: 0 <= i < |a| ==> !OccursAt(a + pattern + b, pattern, i)
    ensures RemoveAll(a + pattern + b, pattern) == a + RemoveAll(b, pattern)
  {
    var s := a + pattern + b;
    if a == [] {
      assert s[|pattern|..] == b;
    } else {
      assert pattern <= s ==> OccursAt(s, pattern, 0);
      assert s[1..] == a[1..] + pattern + b;
      forall i | 0 <= i < |a| - 1
        ensures !OccursAt(s[1..], pattern, i)
      {
        var next: nat := i + 1;
        assert OccursAt(s[1..], pattern, i) ==> OccursAt(s, pattern, next);
      }
      RemoveFirst(a[1..], pattern, b);
    }
  }

  /** A pattern that starts with a colon does not begin inside a text without one. */
  lemma {:induction false} RemoveBehind(a: string, s: string, pattern: string)
    requires pattern != [] && pattern[0] == ':' && ':' !in a
    ensures RemoveAll(a + s, pattern) == a + RemoveAll(s, pattern)
  {
    if a == [] {
      assert a + s == s;
    } else {
      assert (a + s)[0] == a[0] && (a + s)[1..] == a[1..] + s;
      RemoveBehind(a[1..], s, pattern);
    }
  }

  /** A release name: without a colon, and not itself one of the suffixes. */
  ghost predicate ReleaseName(r: string) {
    ':' !in r && !("Pro" <= r) && !("LTS" <= r)
  }

  /** What does not begin with `suffix` and goes on with a colon does not begin with it either. */
  lemma NotHere(r: string, rest: string, suffix: string)
    requires ':' !in r && ':' !in suffix && !(suffix <= r) && (rest == [] || rest[0] == ':')
    ensures !(suffix <= r + rest)
  {
    var s := r + rest;
    if |r| < |suffix| && |r| < |s| {
      assert s[|r|] == ':' && suffix[|r|] in suffix;
    } else if |suffix| <= |r| {
      assert s[..|suffix|] == r[..|suffix|];
    }
  }

  /** A character where the pattern does not begin is kept. */
  lemma RemoveKeeps(s: string, pattern: string)
    requires pattern != [] && s != [] && !(pattern <= s)
    ensures RemoveAll(s, pattern) == [s[0]] + RemoveAll(s[1..], pattern)
  {
  }

  lemma RemoveSuffix(r: string, rest: string, suffix: string)
    requires ':' !in r && ':' !in suffix && !(suffix <= r) && (rest == [] || rest[0] == ':')
    ensures RemoveAll(":" + r + rest, ":" + suffix) == ":" + r + RemoveAll(rest, ":" + suffix)
  {
    hide RemoveAll;
    var s, pattern := [':'] + (r + rest), [':'] + suffix;
    NotHere(r, rest, suffix);
    var t := s[1..];
    assert t == r + rest && pattern[1..] == suffix;
    assert pattern <= s ==> suffix <= t;
    RemoveKeeps(s, pattern);
    RemoveBehind(r, rest, pattern);
    assert ":" + r + rest == s && ":" + suffix == pattern;
    var left := RemoveAll(rest, pattern);
    assert ":" + r + left == [':'] + (r + left);
  }

  /** Removing a suffix that is there. */
  lemma RemoveHere(rest: string, pattern: string)
    requires pattern != []
    ensures RemoveAll(pattern + rest, pattern) == RemoveAll(rest, pattern)
  {
    assert (pattern + rest)[|pattern|..] == rest;
  }

  lemma RemoveOther(rest: string)
    ensures RemoveAll(":LTS" + rest, ":Pro") == ":LTS" + RemoveAll(rest, ":Pro")
  {
    var s := ":LTS" + rest;
    assert s[1] == 'L' && ":Pro"[1] == 'P';
    assert s == [':'] + ("LTS" + rest);
    RemoveBehind("LTS", rest, ":Pro");
  }

  /** Long-term support and subscription suffixes do not tell Ubuntu releases apart. */
  lemma UbuntuReleases(r: string)
    requires ReleaseName(r)
    ensures Ecosystem("Ubuntu:" + r) == "Ubuntu:" + r
    ensures Ecosystem("Ubuntu:" + r + ":LTS") == "Ubuntu:" + r
    ensures Ecosystem("Ubuntu:" + r + ":Pro:LTS") == "Ubuntu:" + r
    ensures Ecosystem("Ubuntu:Pro:" + r + ":LTS") == "Ubuntu:" + r
  {
    hide RemoveAll;
    NothingLeft();
    UbuntuRemoves(r, "", "");
    assert "Ubuntu:" + r + "" == "Ubuntu:" + r;
    UbuntuRemoves(r, ":LTS", ":LTS");
    UbuntuRemoves(r, ":Pro:LTS", ":LTS");
    UbuntuSubscribed(r);
  }

  lemma NothingLeft()
    ensures RemoveAll("", ":Pro") == "" && RemoveAll("", ":LTS") == ""
    ensures RemoveAll(":LTS", ":LTS") == "" && RemoveAll(":LTS", ":Pro") == ":LTS"
            && RemoveAll(":Pro:LTS", ":Pro") == ":LTS"
  {
    assert RemoveAll("", ":Pro") == "" && RemoveAll("", ":LTS") == "";
    hide RemoveAll;
    RemoveOther("");
    RemoveHere(":LTS", ":Pro");
    RemoveHere("", ":LTS");
    assert ":LTS" + "" == ":LTS" && ":Pro" + ":LTS" == ":Pro:LTS";
  }

  /** Behind the release name only the suffixes are left to remove. */
  lemma UbuntuRemoves(r: string, rest: string, kept: string)
    requires ReleaseName(r) && (rest == [] || rest[0] == ':') && (kept == [] || kept[0] == ':')
    requires RemoveAll(rest, ":Pro") == kept && RemoveAll(kept, ":LTS") == ""
    ensures Ecosystem("Ubuntu:" + r + rest) == "Ubuntu:" + r
  {
    hide RemoveAll;
    RemoveUbuntu(r, rest, ":Pro");
    RemoveUbuntu(r, kept, ":LTS");
    assert "Ubuntu:" + r + "" == "Ubuntu:" + r;
  }

  lemma RemoveUbuntu(r: string, rest: string, pattern: string)
    requires ReleaseName(r) && (pattern == ":Pro" || pattern == ":LTS") && (rest == [] || rest[0] == ':')
    ensures RemoveAll("Ubuntu:" + r + rest, pattern) == "Ubuntu:" + r + RemoveAll(rest, pattern)
  {
    hide RemoveAll;
    var ubuntu := "Ubuntu";
    var suffix := if pattern == ":Pro" then "Pro" else "LTS";
    assert pattern == ":" + suffix;
    RemoveBehind(ubuntu, ":" + r + rest, pattern);
    RemoveSuffix(r, rest, suffix);
    hide ReleaseName;
    assert "Ubuntu:" + r + rest == ubuntu + (":" + r + rest);
    var left := RemoveAll(rest, pattern);
    assert "Ubuntu:" + r + left == ubuntu + (":" + r + left);
  }

  lemma UbuntuSubscribed(r: string)
    requires ReleaseName(r)
    ensures Ecosystem("Ubuntu:Pro:" + r + ":LTS") == Ecosystem("Ubuntu:" + r + ":LTS")
  {
    hide RemoveAll;
    var rest := ":" + r + ":LTS";
    assert "Ubuntu:Pro:" + r + ":LTS" == "Ubuntu" + (":Pro" + rest);
    assert "Ubuntu:" + r + ":LTS" == "Ubuntu" + rest;
    RemoveBehind("Ubuntu", ":Pro" + rest, ":Pro");
    RemoveBehind("Ubuntu", rest, ":Pro");
    RemoveHere(rest, ":Pro");
  }

  /** Everything that is not an Ubuntu release is its own ecosystem. */
  lemma OtherEcosystems(s: string)
    requires |s| < 7 || s[..7] != "Ubuntu:"
    ensures Ecosystem(s) == s
  {
  }

  // ---------------------------------------------------------------- one package, one advisory

  /** The names under which a package may be affected: its own, and its OS package's if it has one. */
  function AffectedNames(pkg: PackageInfo): set<string> {
    {pkg.name} + if |pkg.osPackageName| > 0 then {pkg.osPackageName} else {}
  }

  /** The entry is about the package. */
  ghost predicate About(pkg: PackageInfo, p: Affected) {
    p.name in AffectedNames(pkg) && Ecosystem(p.ecosystem) == Ecosystem(pkg.ecosystem)
  }

  /** All four upstream questions are answered: both versions are supported, the installed one parses,
      and it compares to the fix as `order` says. */
  ghost predicate Orders(v: Versions, pkg: PackageInfo, fix: string, order: int) {
    && v.parses(pkg.version, Ecosystem(pkg.ecosystem))
    && v.known(pkg.version, pkg.ecosystem) && v.known(fix, pkg.ecosystem)
    && v.compare(Ecosystem(pkg.ecosystem), pkg.version, fix) == Some(order)
  }

  /** A matching entry reports the fix `x`, in a range other than a Git one, and the installed version is
      not known to be there yet. */
  ghost predicate ListsFix(v: Versions, pkg: PackageInfo, affected: seq<Affected>, x: string) {
    && |x| > 0 && (forall order :: Orders(v, pkg, x, order) ==> order < 0)
    && exists p, r :: p in affected && About(pkg, p) && r in p.ranges && r.kind != GitRange && Event(x) in r.events
  }

  /** Some fix of the range has no order, or the range itself has none. */
  ghost predicate Unordered(v: Versions, pkg: PackageInfo, r: Range) {
    || r.kind == UnspecifiedRange || r.kind == GitRange
    || exists e :: e in r.events && |e.fixed| > 0 && forall order :: !Orders(v, pkg, e.fixed, order)
  }

  /** It is not known whether a fix applies. */
  ghost predicate Undecided(v: Versions, pkg: PackageInfo, affected: seq<Affected>) {
    || (forall p :: p in affected ==> !About(pkg, p))
    || exists p, r :: p in affected && About(pkg, p) && r in p.ranges && Unordered(v, pkg, r)
  }

  ghost predicate HasSeverity(pkg: PackageInfo, affected: seq<Affected>, x: Severity) {
    exists p :: p in affected && About(pkg, p) && x in p.severities
  }

  ghost predicate HasUrgency(pkg: PackageInfo, affected: seq<Affected>, x: string) {
    exists p :: p in affected && About(pkg, p) && p.urgency == Some(x)
  }

  /** The evidence for one package in the entries of one advisory. */
  ghost predicate IsEvidence(v: Versions, pkg: PackageInfo, affected: seq<Affected>, fix: Fix) {
    && Lists(fix.versions, StringLess(), x => ListsFix(v, pkg, affected, x))
    && fix.status ==
       (if Undecided(v, pkg, affected) then "unknown"
        else if exists x :: ListsFix(v, pkg, affected, x) then "reported" else "no_reported_fix")
    && Lists(fix.severities, SeverityOrder(), x => HasSeverity(pkg, affected, x))
    && Lists(fix.urgencies, StringLess(), x => HasUrgency(pkg, affected, x))
  }

  lemma AboutMatches(pkg: PackageInfo, p: Affected)
    ensures About(pkg, p) <==> Matches(pkg, p)
  {
  }

  lemma OrdersCompares(v: Versions, pkg: PackageInfo, fix: string)
    ensures Comparable(v, pkg, fix) <==> exists order :: Orders(v, pkg, fix, order)
    ensures !Obsolete(v, pkg, fix) <==> forall order :: Orders(v, pkg, fix, order) ==> order < 0
  {
    var c := v.compare(Ecosystem(pkg.ecosystem), pkg.version, fix);
    if Comparable(v, pkg, fix) {
      assert Orders(v, pkg, fix, c.value);
    }
  }

  lemma ReportsIs(v: Versions, pkg: PackageInfo, affected: seq<Affected>, x: string)
    ensures x in AffectedVersions(v, pkg, affected) <==> ListsFix(v, pkg, affected, x)
  {
    AffectedVersionsHas(v, pkg, affected, x);
    OrdersCompares(v, pkg, x);
    hide Orders, Obsolete, AffectedVersions, Matches, About;
    forall p
      ensures About(pkg, p) <==> Matches(pkg, p)
    {
      AboutMatches(pkg, p);
    }
    if x in AffectedVersions(v, pkg, affected) {
      var p :| p in affected && EntryReports(v, pkg, p, x);
      var r :| r in p.ranges && Reports(v, pkg, r, x);
    }
    if ListsFix(v, pkg, affected, x) {
      var p, r :| p in affected && About(pkg, p) && r in p.ranges && r.kind != GitRange && Event(x) in r.events;
      assert Reports(v, pkg, r, x);
      assert EntryReports(v, pkg, p, x);
    }
  }

  lemma UnorderedIs(v: Versions, pkg: PackageInfo, r: Range)
    ensures Unordered(v, pkg, r) <==> UnknownRange(v, pkg, r)
  {
    hide Comparable, Orders, Obsolete;
    forall e | e in r.events
      ensures Comparable(v, pkg, e.fixed) <==> exists order :: Orders(v, pkg, e.fixed, order)
    {
      OrdersCompares(v, pkg, e.fixed);
    }
  }

  lemma UndecidedIs(v: Versions, pkg: PackageInfo, affected: seq<Affected>)
    ensures Undecided(v, pkg, affected) <==> !Matched(pkg, affected) || UnknownOrder(v, pkg, affected)
  {
    hide About, Matches, Unordered, UnknownRange;
    forall p
      ensures About(pkg, p) <==> Matches(pkg, p)
    {
      AboutMatches(pkg, p);
    }
    forall r
      ensures Unordered(v, pkg, r) <==> UnknownRange(v, pkg, r)
    {
      UnorderedIs(v, pkg, r);
    }
  }

  lemma RecordsAre(pkg: PackageInfo, affected: seq<Affected>)
    ensures forall x :: x in AffectedSeverities(pkg, affected) <==> HasSeverity(pkg, affected, x)
    ensures forall x :: x in AffectedUrgencies(pkg, affected) <==> HasUrgency(pkg, affected, x)
  {
    hide About, Matches, AffectedSeverities, AffectedUrgencies;
    forall p
      ensures About(pkg, p) <==> Matches(pkg, p)
    {
      AboutMatches(pkg, p);
    }
    forall x
      ensures x in AffectedSeverities(pkg, affected) <==> HasSeverity(pkg, affected, x)
    {
      AffectedSeveritiesHas(pkg, affected, x);
    }
    forall x
      ensures x in AffectedUrgencies(pkg, affected) <==> HasUrgency(pkg, affected, x)
    {
      AffectedUrgenciesHas(pkg, affected, x);
    }
  }

  /** What `packageFixes` computes: fixes, status, severities and urgencies, all from the matching entries. */
  lemma EvidenceIs(v: Versions, pkg: PackageInfo, affected: seq<Affected>)
    ensures IsEvidence(v, pkg, affected, FixEvidence(v, pkg, affected))
  {
    var versions := AffectedVersions(v, pkg, affected);
    var severities, urgencies := AffectedSeverities(pkg, affected), AffectedUrgencies(pkg, affected);
    hide ListsFix, Undecided, HasSeverity, HasUrgency, AffectedVersions, AffectedSeverities, AffectedUrgencies, Lists,
      Canonical, Matched, UnknownOrder, SeverityLess, Less;
    forall x
      ensures x in versions <==> ListsFix(v, pkg, affected, x)
    {
      ReportsIs(v, pkg, affected, x);
    }
    assert versions != [] ==> versions[0] in versions;
    UndecidedIs(v, pkg, affected);
    RecordsAre(pkg, affected);
    StringLessTotal();
    SeverityOrderTotal();
    CanonicalLists(StringLess(), versions, x => ListsFix(v, pkg, affected, x));
    CanonicalLists(SeverityOrder(), severities, x => HasSeverity(pkg, affected, x));
    CanonicalLists(StringLess(), urgencies, x => HasUrgency(pkg, affected, x));
  }

  /** No two fixes say all of this. */
  lemma EvidenceUnique(v: Versions, pkg: PackageInfo, affected: seq<Affected>, fix: Fix)
    ensures IsEvidence(v, pkg, affected, fix) <==> fix == FixEvidence(v, pkg, affected)
  {
    EvidenceIs(v, pkg, affected);
    if IsEvidence(v, pkg, affected, fix) {
      var other := FixEvidence(v, pkg, affected);
      hide FixEvidence, ListsFix, Undecided, HasSeverity, HasUrgency, Lists, SeverityLess, Less;
      StringLessTotal();
      SeverityOrderTotal();
      ListsUnique(fix.versions, other.versions, StringLess(), x => ListsFix(v, pkg, affected, x));
      ListsUnique(fix.severities, other.severities, SeverityOrder(), x => HasSeverity(pkg, affected, x));
      ListsUnique(fix.urgencies, other.urgencies, StringLess(), x => HasUrgency(pkg, affected, x));
    }
  }
}
