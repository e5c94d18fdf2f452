/** Planning and running the index builds: exact edge counts, bounds on memory, and an order of
    builds whose peak no other order improves on. */
module Planning {
  import opened Common
  import opened Order
  import opened Report
  import opened Slabs
  import opened Indexes
  import opened Relations

  // ---------------------------------------------------------------- the plan

  /** One planned build: its ABI slot, the edges it visits, an upper bound on its distinct
      memberships, and the construction bytes beyond the retained ones. */
  datatype Build = Build(rel: Relation, slot: nat, size: nat, raw: nat, retained: nat, temporary: nat)

  /** Bytes of the blocks that `n` members occupy. */
  function MemberBytes(n: nat): nat {
    ((n + SLAB_SIZE - 1) / SLAB_SIZE) * SLAB_SIZE * 4
  }

  function NoncompliantCount(s: ReportStore, n: nat): nat
    requires n <= |s.occurrences|
  {
    if n == 0 then 0 else NoncompliantCount(s, n - 1) + if Noncompliant(s, n - 1) then 1 else 0
  }

  /** How many edges a relation visits, given the number of noncompliant occurrences. */
  function RawGiven(s: ReportStore, rel: Relation, noncompliant: nat): nat {
    match rel
    case ImageOccurrences | ImagePackages | PackagePresentImages => |s.occurrences|
    case ImageNoncompliantPackages | PackageNoncompliantImages => noncompliant
    case PackageAffectedImages => |s.findings| + noncompliant
    case _ => |s.findings|
  }

  function Raw(s: ReportStore, rel: Relation): nat {
    RawGiven(s, rel, NoncompliantCount(s, |s.occurrences|))
  }

  /** An upper bound on distinct pairs. */
  function Bound(s: ReportStore, rel: Relation, raw: nat): nat {
    match rel
    case ImageOccurrences | ImagePackages | PackagePresentImages
       | ImageNoncompliantPackages | PackageNoncompliantImages
       | ImageVulnerablePackages | PackageVulnerableImages | PackageAffectedImages => |s.images| * |s.packages|
    case ImageVulnerabilities | VulnerabilityAffectedImages => |s.images| * |s.vulnerabilities|
    case AdvisoryAffectedImages => |s.images| * |s.advisorySources|
    case _ => raw
  }

  lemma MemberBytesMonotone(a: nat, b: nat)
    requires a <= b
    ensures MemberBytes(a) <= MemberBytes(b)
  {
    assert (a + SLAB_SIZE - 1) / SLAB_SIZE <= (b + SLAB_SIZE - 1) / SLAB_SIZE;
  }

  /** The subtraction cannot wrap: what is retained is no more than what is visited. */
  function BuildFor(s: ReportStore, rel: Relation, slot: nat, noncompliant: nat): (b: Build)
    ensures b.rel == rel && b.slot == slot && b.size == KeyCount(s, rel) && b.raw == RawGiven(s, rel, noncompliant)
    ensures b.retained <= b.raw
    ensures Contiguous(rel) ==> b.temporary == 0
    ensures !Contiguous(rel) ==> MemberBytes(b.retained) + b.temporary == MemberBytes(b.raw) + MemberBytes(b.size)
  {
    var raw, size := RawGiven(s, rel, noncompliant), KeyCount(s, rel);
    var retained := Smaller(raw, Bound(s, rel, raw));
    if Contiguous(rel) then Build(rel, slot, size, raw, 0, 0)
    else
      MemberBytesMonotone(retained, raw);
      Build(rel, slot, size, raw, retained, MemberBytes(raw) - MemberBytes(retained) + MemberBytes(size))
  }

  /** One build per relation, by slot. */
  function Plan(s: ReportStore): (plan: seq<Build>)
    ensures |plan| == |RELATIONS|
    ensures forall slot :: 0 <= slot < |plan| ==>
              plan[slot] == BuildFor(s, RELATIONS[slot], slot, NoncompliantCount(s, |s.occurrences|))
  {
    seq(|RELATIONS|, slot requires 0 <= slot < |RELATIONS| =>
      BuildFor(s, RELATIONS[slot], slot, NoncompliantCount(s, |s.occurrences|)))
  }

  /** Whole blocks of 4096 bytes, as few as hold `n` members of four bytes. */
  lemma MemberBytesExactly(n: nat)
    ensures MemberBytes(n) % 4096 == 0 && 4 * n <= MemberBytes(n) < 4 * n + 4096
  {
  }

  /** The number of rows that the index in a slot has a window for. */
  function KeyRows(s: ReportStore, slot: nat): nat {
    if slot == 2 then |s.occurrences|
    else if slot < 7 then |s.images|
    else if slot < 11 || slot == 15 then |s.packages|
    else if slot == 11 || slot == 13 then |s.vulnerabilities|
    else |s.advisorySources|
  }

  /** The number of rows that a pair index in a slot refers to. */
  function ValueRows(s: ReportStore, slot: nat): nat {
    if slot < 6 then |s.packages| else if slot == 6 then |s.vulnerabilities| else |s.images|
  }

  lemma BoundExactly(s: ReportStore, slot: nat, raw: nat)
    requires slot < 16
    ensures KeyCount(s, RELATIONS[slot]) == KeyRows(s, slot)
    ensures Contiguous(RELATIONS[slot]) <==> slot < 3
    ensures 3 <= slot < 13 ==> Bound(s, RELATIONS[slot], raw) == KeyRows(s, slot) * ValueRows(s, slot)
    ensures 13 <= slot ==> Bound(s, RELATIONS[slot], raw) == raw
  {
    assert SlotOf(RELATIONS[slot]) == slot;
  }

  /** What is planned for every slot. The first three indexes are ranges and retain no members. The next ten
      relate images to packages, vulnerabilities or advisories: they retain one member per edge, or one per
      pair where that is less. The last three list findings and retain one member per edge. */
  lemma PlanExactly(s: ReportStore, slot: nat)
    requires slot < 16
    ensures var b, pairs := Plan(s)[slot], KeyRows(s, slot) * ValueRows(s, slot);
            && b.slot == slot && b.size == KeyRows(s, slot) && b.raw == |Edges(s, RELATIONS[slot])|
            && (slot < 3 ==> b.retained == 0 && b.temporary == 0)
            && (3 <= slot < 13 ==> b.retained == if b.raw < pairs then b.raw else pairs)
            && (13 <= slot ==> b.retained == b.raw)
            && (3 <= slot ==> b.temporary == MemberBytes(b.raw) - MemberBytes(b.retained) + MemberBytes(b.size))
  {
    var noncompliant := NoncompliantCount(s, |s.occurrences|);
    EdgesCounted(s, RELATIONS[slot]);
    BoundExactly(s, slot, RawGiven(s, RELATIONS[slot], noncompliant));
    hide Edges, NoncompliantCount, MemberBytes, Bound, KeyRows, ValueRows, KeyCount, RawGiven, RELATIONS, Contiguous;
  }

  /** Most construction surplus first, then most edges, then ABI position. */
  predicate Before(a: Build, b: Build) {
    a.temporary > b.temporary ||
    (a.temporary == b.temporary && (a.raw > b.raw || (a.raw == b.raw && a.slot < b.slot)))
  }

  function BuildOrder(): (Build, Build) -> bool {
    (a, b) => Before(a, b)
  }

  lemma BuildOrderWeak()
    ensures StrictWeak(BuildOrder())
  {
  }

  // ---------------------------------------------------------------- the order is optimal

  /** What a sequence of builds retains, for any way `kept` of accounting for one build. */
  function Total(order: seq<Build>, kept: Build -> nat): nat {
    if order == [] then 0 else Total(order[..|order| - 1], kept) + kept(order[|order| - 1])
  }

  /** The largest amount live at once: everything retained so far, this build included, plus this
      build's temporary bytes. */
  function Peak(order: seq<Build>, kept: Build -> nat): nat {
    if order == [] then 0
    else Larger(Peak(order[..|order| - 1], kept), Total(order, kept) + order[|order| - 1].temporary)
  }

  lemma {:induction false} PeakCovers(order: seq<Build>, kept: Build -> nat, i: nat)
    requires i < |order|
    ensures Total(order[..i + 1], kept) + order[i].temporary <= Peak(order, kept)
  {
    var n := |order| - 1;
    if i < n {
      PeakCovers(order[..n], kept, i);
      assert order[..n][..i + 1] == order[..i + 1];
    } else {
      assert order[..i + 1] == order;
    }
  }

  lemma {:induction false} PeakReached(order: seq<Build>, kept: Build -> nat) returns (i: nat)
    requires order != []
    ensures i < |order| && Peak(order, kept) == Total(order[..i + 1], kept) + order[i].temporary
  {
    var n := |order| - 1;
    assert order[..n + 1] == order;
    if n == 0 || Peak(order, kept) == Total(order, kept) + order[n].temporary {
      i := n;
    } else {
      i := PeakReached(order[..n], kept);
      assert order[..n][..i + 1] == order[..i + 1];
    }
  }

  lemma {:induction false} TotalWithout(b: seq<Build>, kept: Build -> nat, k: nat)
    requires k < |b|
    ensures Total(b, kept) == Total(b[..k] + b[k + 1..], kept) + kept(b[k])
  {
    var n := |b| - 1;
    if k == n {
      assert b[..k] + b[k + 1..] == b[..n];
    } else {
      TotalWithout(b[..n], kept, k);
      var rest := b[..k] + b[k + 1..];
      assert rest[..|rest| - 1] == b[..n][..k] + b[..n][k + 1..];
    }
  }

  /** Fewer builds retain no more. */
  lemma {:induction false} TotalMonotone(a: seq<Build>, b: seq<Build>, kept: Build -> nat)
    requires multiset(a) <= multiset(b)
    ensures Total(a, kept) <= Total(b, kept)
    decreases |a|
  {
    if a != [] {
      var n := |a| - 1;
      var x := a[n];
      assert a == a[..n] + [x];
      assert x in multiset(a) && x in multiset(b);
      var k :| 0 <= k < |b| && b[k] == x;
      var rest := b[..k] + b[k + 1..];
      assert b == b[..k] + [x] + b[k + 1..];
      assert multiset(rest) == multiset(b) - multiset{x};
      TotalMonotone(a[..n], rest, kept);
      TotalWithout(b, kept, k);
    }
  }

  /** In any order, one of the builds of `a` comes last, and by then all of them have been made. */
  lemma {:induction false} LastOf(a: seq<Build>, p: seq<Build>) returns (q: nat)
    requires a != [] && multiset(a) <= multiset(p)
    ensures q < |p| && p[q] in a && multiset(a) <= multiset(p[..q + 1])
    decreases |p|
  {
    assert a[0] in multiset(p);
    var n := |p| - 1;
    assert p == p[..n] + [p[n]];
    if multiset(a) <= multiset(p[..n]) {
      q := LastOf(a, p[..n]);
      assert p[..n][..q + 1] == p[..q + 1];
    } else {
      q := n;
      assert p[..n + 1] == p;
    }
  }

  /** No order of the builds has a smaller peak than descending construction surplus, however the
      retained bytes are accounted for. */
  lemma OrderOptimal(order: seq<Build>, other: seq<Build>, kept: Build -> nat)
    requires Sorted(BuildOrder(), order) && multiset(other) == multiset(order)
    ensures Peak(order, kept) <= Peak(other, kept)
  {
    hide Peak, Total, Sorted, Before;
    if order != [] {
      var i := PeakReached(order, kept);
      var done := order[..i + 1];
      assert order == done + order[i + 1..];
      var q := LastOf(done, other);
      TotalMonotone(done, other[..q + 1], kept);
      PeakCovers(other, kept, q);
      SurplusDescends(order, i, other[q]);
    }
  }

  /** In descending order, nothing done before has a smaller surplus. */
  lemma SurplusDescends(order: seq<Build>, i: nat, b: Build)
    requires Sorted(BuildOrder(), order) && i < |order| && b in order[..i + 1]
    ensures b.temporary >= order[i].temporary
  {
    var j :| 0 <= j <= i && order[j] == b;
    assert j < i ==> !BuildOrder()(order[i], order[j]);
  }

  // ---------------------------------------------------------------- edges are counted exactly

  lemma {:induction false} OccurrenceEdgesSize(s: ReportStore, rel: Relation, n: nat)
    requires n <= |s.occurrences|
    ensures |OccurrenceEdges(s, rel, n)| ==
            match rel
            case ImageOccurrences | ImagePackages | PackagePresentImages => n
            case ImageNoncompliantPackages | PackageNoncompliantImages | PackageAffectedImages =>
              NoncompliantCount(s, n)
            case _ => 0
  {
    hide Noncompliant;
    if n > 0 {
      OccurrenceEdgesSize(s, rel, n - 1);
    }
  }

  lemma {:induction false} FindingEdgesSize(s: ReportStore, rel: Relation, n: nat)
    requires n <= |s.findings|
    ensures |FindingEdges(s, rel, n)| == if VisitsFindings(rel) then n else 0
  {
    hide ImageOf, PackageOf, VulnerabilityOf, AdvisoryOf, OccurrenceOf;
    if n > 0 {
      FindingEdgesSize(s, rel, n - 1);
    }
  }

  /** The planned number of edges is the number visited, for every relation. */
  lemma EdgesCounted(s: ReportStore, rel: Relation)
    ensures |Edges(s, rel)| == Raw(s, rel)
  {
    hide OccurrenceEdges, FindingEdges;
    OccurrenceEdgesSize(s, rel, |s.occurrences|);
    FindingEdgesSize(s, rel, |s.findings|);
  }

  // ---------------------------------------------------------------- memberships are bounded

  lemma {:induction false} DistinctSize(s: seq<nat>)
    requires StrictlySorted(NatLess(), s)
    ensures |Elements(s)| == |s|
  {
    if s != [] {
      var rest, last := s[..|s| - 1], s[|s| - 1];
      DistinctSize(rest);
      assert s == rest + [last];
      assert Elements(s) == Elements(rest) + {last};
      assert last !in Elements(rest);
    } else {
      assert Elements(s) == {};
    }
  }

  lemma {:induction false} ElementsSize(s: seq<nat>)
    ensures |Elements(s)| <= |s|
  {
    if s != [] {
      var rest, last := s[..|s| - 1], s[|s| - 1];
      ElementsSize(rest);
      assert s == rest + [last];
      assert Elements(s) == Elements(rest) + {last};
    } else {
      assert Elements(s) == {};
    }
  }

  /** An increasing list of numbers below `limit` has at most `limit` of them. */
  lemma {:induction false} IncreasingSize(s: seq<nat>, limit: nat)
    requires StrictlySorted(NatLess(), s) && forall x :: x in s ==> x < limit
    ensures |s| <= limit
  {
    if s != [] {
      var last := s[|s| - 1];
      var rest := s[..|s| - 1];
      assert forall i :: 0 <= i < |rest| ==> NatLess()(rest[i], last);
      IncreasingSize(rest, last);
      assert last in s;
    }
  }

  /** A window holds no more members than there are values, nor than its key has edges. */
  lemma SegmentSize(members: seq<nat>, start: nat, stop: nat, edges: seq<Edge>, k: nat, limit: nat)
    requires Segment(members, start, stop, ValueSet(edges, k))
    requires forall e :: e in edges ==> e.value < limit
    ensures stop - start <= limit && stop - start <= |ValuesOf(edges, k)|
  {
    hide ValuesOf;
    var row := members[start..stop];
    forall x | x in row
      ensures x < limit
    {
      assert x in Elements(row);
      assert Elements(row) == ValueSet(edges, k);
      var e :| e in edges && e.key == k && e.value == x;
    }
    IncreasingSize(row, limit);
    DistinctSize(row);
    ValuesOfElements(edges, k);
    ElementsSize(ValuesOf(edges, k));
  }

  lemma {:induction false} OffsetsBounded(ix: Index, size: nat, edges: seq<Edge>, limit: nat, k: nat)
    requires MemberIndex(ix, size, edges) && k <= size
    requires forall e :: e in edges ==> e.value < limit
    ensures ix.offsets[k] <= k * limit && ix.offsets[k] <= Below(edges, k)
  {
    hide Segment, ValuesOf;
    if k > 0 {
      var j := k - 1;
      OffsetsBounded(ix, size, edges, limit, j);
      assert Segment(ix.members, ix.offsets[j], ix.offsets[j + 1], ValueSet(edges, j));
      SegmentSize(ix.members, ix.offsets[j], ix.offsets[j + 1], edges, j, limit);
      assert k * limit == j * limit + limit;
    }
  }

  /** An index stores no more memberships than edges, nor than pairs of a key and a value. */
  lemma MembersBounded(ix: Index, size: nat, edges: seq<Edge>, limit: nat)
    requires MemberIndex(ix, size, edges) && KeysBelow(edges, size)
    requires forall e :: e in edges ==> e.value < limit
    ensures |ix.members| <= |edges| && |ix.members| <= size * limit
  {
    OffsetsBounded(ix, size, edges, limit, size);
    BelowAll(edges, size);
  }

  /** What a finished index stands for. */
  ghost predicate Built(s: ReportStore, rel: Relation, ix: Index) {
    if Contiguous(rel) then RangeIndex(ix, KeyCount(s, rel), Edges(s, rel))
    else MemberIndex(ix, KeyCount(s, rel), Edges(s, rel))
  }

  ghost predicate IndexesBuilt(s: ReportStore, indexes: seq<Index>) {
    |indexes| == |RELATIONS| && forall slot :: 0 <= slot < |RELATIONS| ==> Built(s, RELATIONS[slot], indexes[slot])
  }

  /** The memberships that a build retains never exceed the planned bound. */
  lemma RetainedIsBound(s: ReportStore, slot: nat, ix: Index)
    requires RowsLinked(s) && slot < |RELATIONS| && Built(s, RELATIONS[slot], ix)
    ensures |ix.members| <= Plan(s)[slot].retained
  {
    hide MemberIndex, RowsLinked, Edges;
    var rel := RELATIONS[slot];
    if !Contiguous(rel) {
      EdgesInRange(s, rel);
      MembersBounded(ix, KeyCount(s, rel), Edges(s, rel), ValueCount(s, rel));
      EdgesCounted(s, rel);
      assert KeyCount(s, rel) * ValueCount(s, rel) == Bound(s, rel, Raw(s, rel))
             || Bound(s, rel, Raw(s, rel)) == Raw(s, rel);
    }
  }

  // ---------------------------------------------------------------- live bytes stay within the plan

  /** What the plan says a build retains. */
  function Planned(): Build -> nat {
    (b: Build) => MemberBytes(b.retained)
  }

  /** What a build in fact retains, given the finished indexes by slot. */
  function Actual(indexes: seq<Index>): Build -> nat {
    (b: Build) => if b.slot < |indexes| then MemberBytes(|indexes[b.slot].members|) else 0
  }

  /** Member and cursor blocks allocated while a build fills its members. */
  function Construction(b: Build): nat {
    if Contiguous(b.rel) then 0 else MemberBytes(b.raw) + MemberBytes(b.size)
  }

  lemma {:induction false} TotalWithin(order: seq<Build>, a: Build -> nat, b: Build -> nat)
    requires forall x :: x in order ==> a(x) <= b(x)
    ensures Total(order, a) <= Total(order, b)
  {
    if order != [] {
      assert order[|order| - 1] in order;
      assert forall x :: x in order[..|order| - 1] ==> x in order;
      TotalWithin(order[..|order| - 1], a, b);
    }
  }

  /** While build `i` runs, the members that the earlier builds retained and its own members and
      cursors fit in the planned peak; and so does what is retained once it is done. */
  lemma LiveWithinPlan(s: ReportStore, order: seq<Build>, indexes: seq<Index>, i: nat)
    requires RowsLinked(s) && IndexesBuilt(s, indexes)
    requires multiset(order) == multiset(Plan(s)) && i < |order|
    ensures Total(order[..i], Actual(indexes)) + Construction(order[i]) <= Peak(order, Planned())
    ensures Total(order[..i + 1], Actual(indexes)) <= Peak(order, Planned())
  {
    hide Plan, RowsLinked, Built, Total, Peak, Contiguous;
    forall b | b in order
      ensures Actual(indexes)(b) <= Planned()(b) && Construction(b) <= MemberBytes(b.retained) + b.temporary
    {
      assert b in multiset(order) && b in multiset(Plan(s));
      var slot :| 0 <= slot < |RELATIONS| && Plan(s)[slot] == b;
      RetainedIsBound(s, slot, indexes[slot]);
      MemberBytesMonotone(|indexes[slot].members|, b.retained);
    }
    var upto := order[..i + 1];
    TotalWithin(order[..i], Actual(indexes), Planned());
    TotalWithin(upto, Actual(indexes), Planned());
    PeakCovers(order, Planned(), i);
    TotalStep(order, Planned(), i);
    assert order[i] in order;
  }

  lemma TotalStep(order: seq<Build>, kept: Build -> nat, i: nat)
    requires i < |order|
    ensures Total(order[..i + 1], kept) == Total(order[..i], kept) + kept(order[i])
  {
    assert order[..i + 1][..i] == order[..i];
  }

  /** With tables of at most `MAX_U32` rows every number in the plan fits 64 bits. */
  lemma PlanFits(s: ReportStore, slot: nat)
    requires slot < |RELATIONS| && TablesFit(s)
    ensures Bound(s, RELATIONS[slot], Raw(s, RELATIONS[slot])) < 0x1_0000_0000_0000_0000
    ensures MemberBytes(Plan(s)[slot].raw) + MemberBytes(Plan(s)[slot].size) < 0x1_0000_0000_0000_0000
  {
    CountAtMost(s, |s.occurrences|);
    ProductFits(|s.images|, |s.packages|);
    ProductFits(|s.images|, |s.vulnerabilities|);
    ProductFits(|s.images|, |s.advisorySources|);
  }

  lemma ProductFits(a: nat, b: nat)
    requires a <= MAX_U32 && b <= MAX_U32
    ensures a * b <= MAX_U32 * MAX_U32
  {
    assert a * b <= a * MAX_U32 <= MAX_U32 * MAX_U32;
  }

  lemma {:induction false} CountAtMost(s: ReportStore, n: nat)
    requires n <= |s.occurrences|
    ensures NoncompliantCount(s, n) <= n
  {
    if n > 0 {
      CountAtMost(s, n - 1);
    }
  }

  // ---------------------------------------------------------------- planning

  method CountNoncompliant(ctx: Context, s: ReportStore) returns (r: Result<nat>)
    requires RowsLinked(s)
    ensures r.Success? ==> r.value == NoncompliantCount(s, |s.occurrences|)
    ensures r.Fail? ==> r.error == Canceled && ctx.Cancelable?
  {
    var noncompliant := 0;
    for o := 0 to |s.occurrences|
      invariant noncompliant == NoncompliantCount(s, o)
    {
      if o % 1024 == 0 {
        var canceled := CheckContext(ctx);
        if canceled {
          return Fail(Canceled);
        }
      }
      if s.licenses[s.occurrences[o].license].status == NONCOMPLIANT {
        noncompliant := noncompliant + 1;
      }
    }
    return Success(noncompliant);
  }

  /** Largest surplus first; among equals the one with most edges, and then the one in the lower slot. */
  ghost predicate Ordered(order: seq<Build>) {
    forall i, j :: 0 <= i < j < |order| ==>
      || order[i].temporary > order[j].temporary
      || (order[i].temporary == order[j].temporary && order[i].raw > order[j].raw)
      || (order[i].temporary == order[j].temporary && order[i].raw == order[j].raw && order[i].slot < order[j].slot)
  }

  lemma SlotsOnce(order: seq<Build>, plan: seq<Build>, i: nat, j: nat)
    requires multiset(order) == multiset(plan) && i < j < |order|
    requires forall k :: 0 <= k < |plan| ==> plan[k].slot == k
    ensures order[i].slot != order[j].slot
  {
    assert order[i] in multiset(plan) && order[j] in multiset(plan);
    var a :| 0 <= a < |plan| && plan[a] == order[i];
    var b :| 0 <= b < |plan| && plan[b] == order[j];
    OccursOnce(plan, order[i]);
    if order[i] == order[j] {
      OccursTwice(order, i, j);
    }
  }

  lemma SortedIsOrdered(order: seq<Build>, s: ReportStore)
    requires Sorted(BuildOrder(), order) && multiset(order) == multiset(Plan(s))
    ensures Ordered(order)
  {
    hide Plan, BuildFor;
    forall k | 0 <= k < |Plan(s)|
      ensures Plan(s)[k].slot == k
    {
    }
    forall i, j | 0 <= i < j < |order|
      ensures order[i].slot != order[j].slot && !BuildOrder()(order[j], order[i])
    {
      SlotsOnce(order, Plan(s), i, j);
    }
  }

  /** All builds, each once, in an order that no other improves on; or the overflow panic exactly
      when some relation visits more edges than a `uint32` counts. */
  method IndexBuildOrder(ctx: Context, s: ReportStore) returns (r: Result<seq<Build>>)
    requires RowsLinked(s)
    ensures r.Success? ==> multiset(r.value) == multiset(Plan(s)) && Ordered(r.value)
    ensures r.Success? ==> forall other: seq<Build> :: multiset(other) == multiset(r.value) ==>
              Peak(r.value, Planned()) <= Peak(other, Planned())
    ensures r.Success? ==> forall rel: Relation :: Raw(s, rel) <= MAX_U32
    ensures r.Fail? ==>
              (r.error == Canceled && ctx.Cancelable?)
                || (r.error == Overflow && exists rel: Relation :: Raw(s, rel) > MAX_U32)
  {
    hide RowsLinked, Peak, RawGiven, NoncompliantCount, BuildFor;
    var noncompliant :- CountNoncompliant(ctx, s);
    var order: seq<Build> := [];
    for slot := 0 to |RELATIONS|
      invariant order == Plan(s)[..slot]
      invariant forall k :: 0 <= k < slot ==> Raw(s, RELATIONS[k]) <= MAX_U32
    {
      var canceled := CheckContext(ctx);
      if canceled {
        return Fail(Canceled);
      }
      var build := BuildFor(s, RELATIONS[slot], slot, noncompliant);
      if build.raw > MAX_U32 {
        assert Raw(s, RELATIONS[slot]) > MAX_U32;
        return Fail(Overflow);
      }
      order := order + [build];
    }
    assert order == Plan(s);
    forall rel: Relation
      ensures Raw(s, rel) <= MAX_U32
    {
      assert RELATIONS[SlotOf(rel)] == rel;
    }
    BuildOrderWeak();
    SortSorts(BuildOrder(), order);
    order := Sort(BuildOrder(), order);
    SortedIsOrdered(order, s);
    forall other: seq<Build> | multiset(other) == multiset(order)
      ensures Peak(order, Planned()) <= Peak(other, Planned())
    {
      OrderOptimal(order, other, Planned());
    }
    return Success(order);
  }

  // ---------------------------------------------------------------- building

  /** One replay of the visitor. */
  method Visit(ctx: Context, s: ReportStore, rel: Relation) returns (r: Result<seq<Edge>>)
    requires RowsLinked(s)
    ensures r.Success? ==> r.value == Edges(s, rel)
    ensures r.Fail? ==> r.error == Canceled && ctx.Cancelable?
  {
    hide OccurrenceEdge, FindingEdge, RowsLinked;
    var edges: seq<Edge> := [];
    if VisitsOccurrences(rel) {
      for o := 0 to |s.occurrences|
        invariant edges == OccurrenceEdges(s, rel, o)
      {
        if o % 1024 == 0 {
          var canceled := CheckContext(ctx);
          if canceled {
            return Fail(Canceled);
          }
        }
        var e := OccurrenceEdge(s, rel, o);
        if e.Some? {
          edges := edges + [e.value];
        }
      }
    } else {
      NoOccurrenceEdges(s, rel, |s.occurrences|);
    }
    if !VisitsFindings(rel) {
      NoFindingEdges(s, rel, |s.findings|);
      return Success(edges);
    }
    ghost var first := edges;
    for f := 0 to |s.findings|
      invariant edges == first + FindingEdges(s, rel, f)
    {
      if f % 1024 == 0 {
        var canceled := CheckContext(ctx);
        if canceled {
          return Fail(Canceled);
        }
      }
      var e := FindingEdge(s, rel, f);
      if e.Some? {
        edges := edges + [e.value];
      }
    }
    return Success(edges);
  }

  /** After planning, the only capacity left to exceed is a key table of exactly `MAX_U32` rows,
      which has no room for the closing offset. */
  ghost predicate PlanTooLarge(s: ReportStore) {
    exists rel: Relation :: Raw(s, rel) > MAX_U32 || KeyCount(s, rel) == MAX_U32
  }

  /** A planned build is too large exactly when its key table is full. */
  lemma OnlyKeysOverflow(s: ReportStore, rel: Relation)
    requires RowsLinked(s) && TablesFit(s) && Raw(s, rel) <= MAX_U32
    ensures TooLarge(KeyCount(s, rel), Contiguous(rel), Edges(s, rel)) <==> KeyCount(s, rel) == MAX_U32
  {
    hide Raw, Edges, RowsLinked;
    EdgesCounted(s, rel);
    EdgesInRange(s, rel);
  }

  /** What that means for the tables: one of five tables is full, or the affected images have more
      edges than a `uint32` counts. */
  lemma PlanTooLargeExactly(s: ReportStore)
    requires TablesFit(s)
    ensures PlanTooLarge(s) <==>
            || |s.findings| + NoncompliantCount(s, |s.occurrences|) > MAX_U32
            || |s.images| == MAX_U32 || |s.packages| == MAX_U32 || |s.occurrences| == MAX_U32
            || |s.vulnerabilities| == MAX_U32 || |s.advisorySources| == MAX_U32
  {
    CountAtMost(s, |s.occurrences|);
    if |s.findings| + NoncompliantCount(s, |s.occurrences|) > MAX_U32 {
      assert Raw(s, PackageAffectedImages) > MAX_U32;
    }
    if |s.images| == MAX_U32 {
      assert KeyCount(s, ImagePackages) == MAX_U32;
    }
    if |s.packages| == MAX_U32 {
      assert KeyCount(s, PackageFindings) == MAX_U32;
    }
    if |s.occurrences| == MAX_U32 {
      assert KeyCount(s, OccurrenceFindings) == MAX_U32;
    }
    if |s.vulnerabilities| == MAX_U32 {
      assert KeyCount(s, VulnerabilityFindings) == MAX_U32;
    }
    if |s.advisorySources| == MAX_U32 {
      assert KeyCount(s, AdvisoryFindings) == MAX_U32;
    }
  }

  /** Such a report: as many images as there are, and nothing else. Nothing is wrong with its rows and
      no relation has an edge, and still its indexes overflow. */
  lemma FullKeyTable(image: Image, payload: Payload) returns (s: ReportStore)
    ensures s.images == seq(MAX_U32, _ => image) && s.payload == payload
    ensures RowsLinked(s) && TablesFit(s) && PlanTooLarge(s)
    ensures forall rel: Relation :: Raw(s, rel) == 0
  {
    var images := seq(MAX_U32, _ => image);
    s := ReportStore(images, [], [], [], [], [], [], [], [], [], [], payload);
    assert KeyCount(s, ImagePackages) == MAX_U32;
  }

  /** The indexes made so far: those of the first `n` builds. */
  ghost predicate Filling(s: ReportStore, made: seq<Option<Index>>, order: seq<Build>, n: nat)
    requires n <= |order|
  {
    && |made| == |RELATIONS|
    && (forall j :: 0 <= j < n ==> order[j].slot < |made| && made[order[j].slot].Some?)
    && forall slot :: 0 <= slot < |made| && made[slot].Some? ==>
         Built(s, RELATIONS[slot], made[slot].value) && KeyCount(s, RELATIONS[slot]) < MAX_U32
  }

  method BuildIndexes(ctx: Context, s: ReportStore) returns (r: Result<seq<ReportIndex>>)
    requires RowsLinked(s) && TablesFit(s)
    ensures r.Success? ==> |r.value| == |RELATIONS| && forall slot :: 0 <= slot < |RELATIONS| ==>
              r.value[slot].Valid() && Built(s, RELATIONS[slot], r.value[slot].View())
    ensures r.Success? ==> !PlanTooLarge(s)
    ensures r.Fail? ==> (r.error == Canceled && ctx.Cancelable?) || (r.error == Overflow && PlanTooLarge(s))
  {
    hide RowsLinked, TablesFit, Edges, Raw, Contiguous, Built, Filling, Slabs.Valid, Plan, Peak, KeysBelow, RELATIONS,
      TooLarge, KeyCount, RangeIndex, MemberIndex;
    var order :- IndexBuildOrder(ctx, s);
    var indexes: seq<Option<ReportIndex>> := seq(|order|, _ => None);
    ghost var made: seq<Option<Index>> := seq(|order|, _ => None);
    FillingNone(s, made, order);
    for i := 0 to |order|
      invariant |indexes| == |made| == |order|
      invariant Filling(s, made, order, i)
      invariant forall slot :: 0 <= slot < |indexes| ==> indexes[slot].Some? == made[slot].Some?
      invariant forall slot :: 0 <= slot < |indexes| && indexes[slot].Some? ==>
                  indexes[slot].value.Valid() && indexes[slot].value.View() == made[slot].value
    {
      var d := order[i];
      PlannedBuild(s, order, i);
      var edges :- Visit(ctx, s, d.rel);
      EdgesInRange(s, d.rel);
      var built := MakeIndex(ctx, d.size, Contiguous(d.rel), edges);
      OnlyKeysOverflow(s, d.rel);
      if built.Fail? {
        return Fail(built.error);
      }
      KeysFit(s, d.rel);
      FillingNext(s, made, order, i, built.value.View());
      indexes := indexes[d.slot := Some(built.value)];
      made := made[d.slot := Some(built.value.View())];
    }
    FillingAll(s, made, order);
    return Success(seq(|indexes|, slot requires 0 <= slot < |indexes| && indexes[slot].Some? => indexes[slot].value));
  }

  lemma KeysFit(s: ReportStore, rel: Relation)
    requires TablesFit(s) && KeyCount(s, rel) != MAX_U32
    ensures KeyCount(s, rel) < MAX_U32
  {
  }

  lemma FillingNone(s: ReportStore, made: seq<Option<Index>>, order: seq<Build>)
    requires multiset(order) == multiset(Plan(s))
    requires |made| == |order| && forall slot :: 0 <= slot < |made| ==> made[slot].None?
    ensures |order| == |RELATIONS| && Filling(s, made, order, 0)
  {
    assert |multiset(order)| == |order| && |multiset(Plan(s))| == |Plan(s)|;
  }

  lemma FillingNext(s: ReportStore, made: seq<Option<Index>>, order: seq<Build>, i: nat, ix: Index)
    requires i < |order| && Filling(s, made, order, i)
    requires order[i].slot < |RELATIONS| && RELATIONS[order[i].slot] == order[i].rel
    requires KeyCount(s, order[i].rel) < MAX_U32
    requires Contiguous(order[i].rel) ==> RangeIndex(ix, KeyCount(s, order[i].rel), Edges(s, order[i].rel))
    requires !Contiguous(order[i].rel) ==> MemberIndex(ix, KeyCount(s, order[i].rel), Edges(s, order[i].rel))
    ensures order[i].slot < |made| && Filling(s, made[order[i].slot := Some(ix)], order, i + 1)
  {
    hide Contiguous, RangeIndex, MemberIndex, KeyCount, Edges, RELATIONS;
  }

  /** Every ABI slot is filled exactly once: as many builds as slots, and none left empty. */
  lemma FillingAll(s: ReportStore, made: seq<Option<Index>>, order: seq<Build>)
    requires multiset(order) == multiset(Plan(s)) && Filling(s, made, order, |order|)
    ensures |made| == |RELATIONS| && forall slot :: 0 <= slot < |made| ==>
              made[slot].Some? && Built(s, RELATIONS[slot], made[slot].value)
    ensures forall rel: Relation :: KeyCount(s, rel) < MAX_U32
  {
    hide Plan, Built, KeyCount, RELATIONS;
    forall slot | 0 <= slot < |made|
      ensures made[slot].Some?
    {
      var b := Plan(s)[slot];
      assert b in multiset(Plan(s)) && b in multiset(order);
      var j :| 0 <= j < |order| && order[j] == b;
      assert order[j].slot == slot;
    }
    forall rel: Relation
      ensures KeyCount(s, rel) < MAX_U32
    {
      assert RELATIONS[SlotOf(rel)] == rel;
    }
  }

  lemma PlannedBuild(s: ReportStore, order: seq<Build>, i: nat)
    requires multiset(order) == multiset(Plan(s)) && i < |order|
    ensures order[i].slot < |RELATIONS| && RELATIONS[order[i].slot] == order[i].rel
    ensures order[i].size == KeyCount(s, order[i].rel)
  {
    hide Plan;
    assert order[i] in multiset(order) && order[i] in multiset(Plan(s));
  }
}
