/** Finalization of the aliases: one vulnerability row per component of the alias graph, and the
    vulnerability that each alias belongs to. */
module AliasTables {
  import opened Common
  import opened Order
  import opened Interning
  import opened Indexes
  import opened Aliases
  import opened Report
  import opened Payloads
  import opened Records

  // ---------------------------------------------------------------- the table as a function of the graph

  ghost function Component(groups: seq<seq<string>>, x: string): set<string> {
    set y | y in Names(groups) && Linked(groups, x, y)
  }

  /** `v` describes the component of its identifier: the identifier is the preferred member and the
      aliases are the others, in order. */
  ghost predicate IsRow(groups: seq<seq<string>>, v: Vulnerability) {
    && v.id in Names(groups)
    && (forall y :: y in Component(groups, v.id) && y != v.id ==> Preferred(v.id, y))
    && v.aliases.Items?
    && StrictlySorted(StringLess(), v.aliases.values)
    && Elements(v.aliases.values) == Component(groups, v.id) - {v.id}
  }

  /** The rows are the components, each once, in the order of their identifiers. */
  ghost predicate IsTable(groups: seq<seq<string>>, rows: seq<Vulnerability>) {
    && (forall i :: 0 <= i < |rows| ==> IsRow(groups, rows[i]))
    && (forall i, j :: 0 <= i < j < |rows| ==> Less(rows[i].id, rows[j].id))
    && (forall x :: x in Names(groups) ==> exists i :: 0 <= i < |rows| && Linked(groups, rows[i].id, x))
  }

  ghost predicate Covers(groups: seq<seq<string>>, other: seq<seq<string>>) {
    forall g :: g in groups ==> exists h :: h in other && Elements(g) == Elements(h)
  }

  /** The same groups up to reordering and repetition, of groups and of names within them. */
  ghost predicate Rearranges(groups: seq<seq<string>>, other: seq<seq<string>>) {
    Covers(groups, other) && Covers(other, groups)
  }

  lemma CoveredGraph(groups: seq<seq<string>>, other: seq<seq<string>>)
    requires Covers(groups, other)
    ensures Names(groups) <= Names(other)
    ensures forall x, y :: Linked(groups, x, y) ==> Linked(other, x, y)
  {
    hide Linked;
    forall x | x in Names(groups)
      ensures x in Names(other)
    {
      var g :| g in groups && x in g;
      var h :| h in other && Elements(g) == Elements(h);
      assert x in Elements(g);
    }
    forall g | g in groups
      ensures exists h :: h in other && Elements(g) <= Elements(h)
    {
      var h :| h in other && Elements(g) == Elements(h);
    }
    forall x, y | Linked(groups, x, y)
      ensures Linked(other, x, y)
    {
      LinkedMonotone(groups, other, x, y);
    }
  }

  lemma SameComponent(groups: seq<seq<string>>, x: string, y: string)
    requires Linked(groups, x, y)
    ensures Component(groups, x) == Component(groups, y)
  {
    hide Linked, Names;
    LinkedSymmetric(groups, x, y);
    forall z
      ensures Linked(groups, x, z) <==> Linked(groups, y, z)
    {
      if Linked(groups, x, z) {
        LinkedTransitive(groups, y, x, z);
      }
      if Linked(groups, y, z) {
        LinkedTransitive(groups, x, y, z);
      }
    }
  }

  /** Two rows of the same component are equal. */
  lemma RowUnique(groups: seq<seq<string>>, v: Vulnerability, w: Vulnerability)
    requires IsRow(groups, v) && IsRow(groups, w) && Linked(groups, v.id, w.id)
    ensures v == w
  {
    hide Linked, Names;
    SameComponent(groups, v.id, w.id);
    LinkedSelf(groups, v.id);
    LinkedSelf(groups, w.id);
    assert v.id in Component(groups, w.id) && w.id in Component(groups, v.id);
    PreferredTotal(v.id, w.id);
    StringLessTotal();
    StrictlySortedUnique(StringLess(), v.aliases.values, w.aliases.values);
  }

  ghost function Identifiers(rows: seq<Vulnerability>): seq<string> {
    seq(|rows|, i requires 0 <= i < |rows| => rows[i].id)
  }

  lemma RowNamed(groups: seq<seq<string>>, v: Vulnerability)
    requires IsRow(groups, v)
    ensures v.id in Names(groups)
  {
  }

  lemma IdentifierIn(groups: seq<seq<string>>, rows: seq<Vulnerability>, v: Vulnerability)
    requires IsTable(groups, rows) && IsRow(groups, v)
    ensures exists i :: 0 <= i < |rows| && rows[i] == v
  {
    hide Linked, Names, IsRow;
    assert v.id in Names(groups) by {
      RowNamed(groups, v);
    }
    var i :| 0 <= i < |rows| && Linked(groups, rows[i].id, v.id);
    RowUnique(groups, rows[i], v);
  }

  /** The table depends only on which names are listed together: neither the order of the groups,
      nor the order of names within a group, nor repetitions matter. */
  lemma TableUnique(groups: seq<seq<string>>, other: seq<seq<string>>, rows: seq<Vulnerability>,
                    rows': seq<Vulnerability>)
    requires Rearranges(groups, other)
    requires IsTable(groups, rows) && IsTable(other, rows')
    ensures rows == rows'
  {
    hide Linked, Names, StrictlySorted, IsRow, Covers;
    CoveredGraph(groups, other);
    CoveredGraph(other, groups);
    forall i | 0 <= i < |rows'|
      ensures IsRow(groups, rows'[i])
    {
      RowRearranged(groups, other, rows'[i]);
    }
    TableSame(groups, rows, rows');
  }

  lemma RowRearranged(groups: seq<seq<string>>, other: seq<seq<string>>, v: Vulnerability)
    requires Rearranges(groups, other) && IsRow(other, v)
    ensures IsRow(groups, v)
  {
    hide Linked, Names, Covers;
    CoveredGraph(groups, other);
    CoveredGraph(other, groups);
    assert Component(groups, v.id) == Component(other, v.id);
  }

  lemma TableSame(groups: seq<seq<string>>, rows: seq<Vulnerability>, rows': seq<Vulnerability>)
    requires IsTable(groups, rows)
    requires forall i :: 0 <= i < |rows'| ==> IsRow(groups, rows'[i])
    requires forall i, j :: 0 <= i < j < |rows'| ==> Less(rows'[i].id, rows'[j].id)
    requires forall x :: x in Names(groups) ==> exists i :: 0 <= i < |rows'| && Linked(groups, rows'[i].id, x)
    ensures rows == rows'
  {
    hide Linked, Names, IsRow;
    var a, b := Identifiers(rows), Identifiers(rows');
    forall x
      ensures x in a <==> x in b
    {
      if x in a {
        var i :| 0 <= i < |a| && a[i] == x;
        assert IsTable(groups, rows');
        IdentifierIn(groups, rows', rows[i]);
        var j :| 0 <= j < |rows'| && rows'[j] == rows[i];
        assert b[j] == x;
      }
      if x in b {
        var i :| 0 <= i < |b| && b[i] == x;
        IdentifierIn(groups, rows, rows'[i]);
        var j :| 0 <= j < |rows| && rows[j] == rows'[i];
        assert a[j] == x;
      }
    }
    StringLessTotal();
    StrictlySortedUnique(StringLess(), a, b);
    forall i | 0 <= i < |rows|
      ensures rows[i] == rows'[i]
    {
      assert a[i] == b[i];
      LinkedSelf(groups, rows[i].id);
      RowUnique(groups, rows[i], rows'[i]);
    }
  }

  /** Every row goes by the least CVE number of its component, and by its least name when there is none. */
  lemma IdentifierIsCVE(groups: seq<seq<string>>, rows: seq<Vulnerability>, i: nat)
    requires IsTable(groups, rows) && i < |rows|
    ensures GoesBy(Component(groups, rows[i].id), rows[i].id)
  {
    hide Linked, Names, GoesBy, Preferred;
    LinkedSelf(groups, rows[i].id);
    assert IsRow(groups, rows[i]);
    PreferredIsLeast(Component(groups, rows[i].id), rows[i].id);
  }

  /** The table of an alias graph. */
  ghost function TableOf(groups: seq<seq<string>>): seq<Vulnerability> {
    if rows :| IsTable(groups, rows) then rows else []
  }

  lemma TableIs(groups: seq<seq<string>>, rows: seq<Vulnerability>)
    requires IsTable(groups, rows)
    ensures IsTable(groups, TableOf(groups)) && TableOf(groups) == rows
  {
    hide IsRow, Linked, Names;
    assert IsTable(groups, TableOf(groups)) by {
      hide IsTable;
    }
    TableSame(groups, rows, TableOf(groups));
  }

  // ---------------------------------------------------------------- grouping by counting

  /** Every name, keyed by its root. */
  function RootEdges(rootOf: seq<nat>): seq<Edge> {
    seq(|rootOf|, i requires 0 <= i < |rootOf| => Edge(rootOf[i], i))
  }

  lemma RootEdgesAt(rootOf: seq<nat>)
    ensures |RootEdges(rootOf)| == |rootOf|
    ensures forall i :: 0 <= i < |rootOf| ==> RootEdges(rootOf)[i] == Edge(rootOf[i], i)
  {
  }

  function NameAt(names: seq<string>, i: nat): string {
    if i < |names| then names[i] else ""
  }

  function ByName(names: seq<string>): (nat, nat) -> bool {
    (a: nat, c: nat) => Less(NameAt(names, a), NameAt(names, c))
  }

  lemma ByNameWeak(names: seq<string>)
    ensures StrictWeak(ByName(names))
  {
    StringLessTotal();
    TotalIsWeak(StringLess());
    var less := StringLess();
    forall a, b, c
      ensures ByName(names)(a, b) ==> !ByName(names)(b, a)
      ensures ByName(names)(a, b) && ByName(names)(b, c) ==> ByName(names)(a, c)
      ensures !ByName(names)(a, b) && !ByName(names)(b, c) ==> !ByName(names)(a, c)
    {
      var x, y, z := NameAt(names, a), NameAt(names, b), NameAt(names, c);
      assert less(x, y) == Less(x, y) && less(y, x) == Less(y, x) && less(y, z) == Less(y, z)
             && less(x, z) == Less(x, z);
    }
  }

  ghost predicate CountsAre(counts: seq<nat>, edges: seq<Edge>, i: nat)
    requires i <= |edges|
  {
    |counts| == |edges| && forall k :: 0 <= k < |counts| ==> counts[k] == |ValuesOf(edges[..i], k)|
  }

  lemma CountsNext(counts: seq<nat>, edges: seq<Edge>, i: nat)
    requires i < |edges| && edges[i].key < |edges| && CountsAre(counts, edges, i)
    ensures CountsAre(counts[edges[i].key := counts[edges[i].key] + 1], edges, i + 1)
  {
    hide ValuesOf;
    forall k | 0 <= k < |counts|
      ensures |ValuesOf(edges[..i + 1], k)| == |ValuesOf(edges[..i], k)| + if edges[i].key == k then 1 else 0
    {
      ValuesOfNext(edges, i, k);
    }
  }

  /** `roots` are the roots of the first `i` names, each once. */
  ghost predicate RootsAre(roots: seq<nat>, rootOf: seq<nat>, i: nat)
    requires i <= |rootOf|
  {
    && (forall a, b :: 0 <= a < b < |roots| ==> roots[a] != roots[b])
    && Elements(roots) == Elements(rootOf[..i])
  }

  lemma RootsNext(roots: seq<nat>, rootOf: seq<nat>, i: nat)
    requires i < |rootOf| && RootsAre(roots, rootOf, i)
    ensures var seen := |ValuesOf(RootEdges(rootOf)[..i], rootOf[i])| != 0;
            RootsAre(if seen then roots else roots + [rootOf[i]], rootOf, i + 1)
  {
    hide ValuesOf;
    var r, edges := rootOf[i], RootEdges(rootOf)[..i];
    ValuesOfElements(edges, r);
    var values := ValuesOf(edges, r);
    assert r in roots <==> r in rootOf[..i] by {
      assert r in Elements(roots) <==> r in Elements(rootOf[..i]);
    }
    if r in rootOf[..i] {
      var j :| 0 <= j < i && rootOf[j] == r;
      assert edges[j] in edges && j in ValueSet(edges, r);
      assert j in Elements(values);
    }
    if |values| > 0 {
      assert values[0] in Elements(values);
      var e :| e in edges && e.key == r && e.value == values[0];
      assert rootOf[..i][e.value] == r;
    }
    assert rootOf[..i + 1] == rootOf[..i] + [r];
    assert Elements(rootOf[..i + 1]) == Elements(rootOf[..i]) + {r};
    assert Elements(roots + [r]) == Elements(roots) + {r};
  }

  lemma CountsNone(counts: seq<nat>, edges: seq<Edge>)
    requires |counts| == |edges| && forall k :: 0 <= k < |counts| ==> counts[k] == 0
    ensures CountsAre(counts, edges, 0)
  {
  }

  lemma CountsAt(counts: seq<nat>, edges: seq<Edge>, i: nat, k: nat)
    requires i <= |edges| && CountsAre(counts, edges, i) && k < |counts|
    ensures |counts| == |edges| && counts[k] == |ValuesOf(edges[..i], k)|
  {
  }

  lemma RootsNone(rootOf: seq<nat>)
    ensures RootsAre([], rootOf, 0)
  {
  }

  ghost predicate FlatTo(parent: seq<nat>, rootOf: seq<nat>, i: nat) {
    |parent| == |rootOf| && i <= |rootOf| && forall j :: 0 <= j < i ==> parent[j] == rootOf[j]
  }

  lemma FlatNone(parent: seq<nat>, rootOf: seq<nat>)
    requires |parent| == |rootOf|
    ensures FlatTo(parent, rootOf, 0)
  {
  }

  lemma FlatNext(before: seq<nat>, parent: seq<nat>, rootOf: seq<nat>, i: nat)
    requires FlatTo(before, rootOf, i) && Flatter(before, parent, rootOf) && i < |rootOf| && parent[i] == rootOf[i]
    ensures FlatTo(parent, rootOf, i + 1)
  {
  }

  lemma FlatAll(parent: seq<nat>, rootOf: seq<nat>)
    requires FlatTo(parent, rootOf, |rootOf|)
    ensures parent == rootOf
  {
  }

  /** After the first `i` names: they point at their roots, which are collected and counted. */
  ghost predicate Visited(parent: seq<nat>, roots: seq<nat>, counts: seq<nat>, rootOf: seq<nat>, i: nat) {
    && FlatTo(parent, rootOf, i)
    && CountsAre(counts, RootEdges(rootOf), i)
    && RootsAre(roots, rootOf, i)
  }

  lemma VisitedNone(parent: seq<nat>, rootOf: seq<nat>)
    requires |parent| == |rootOf|
    ensures Visited(parent, [], seq(|rootOf|, _ => 0), rootOf, 0)
  {
    CountsNone(seq(|rootOf|, _ => 0), RootEdges(rootOf));
    RootsNone(rootOf);
    FlatNone(parent, rootOf);
  }

  lemma VisitedNext(before: seq<nat>, parent: seq<nat>, roots: seq<nat>, counts: seq<nat>, rootOf: seq<nat>, i: nat)
    requires Visited(before, roots, counts, rootOf, i) && i < |rootOf|
    requires Flatter(before, parent, rootOf) && parent[i] == rootOf[i] < |rootOf|
    ensures |counts| == |rootOf|
    ensures var root := rootOf[i];
            Visited(parent, if counts[root] == 0 then roots + [root] else roots, counts[root := counts[root] + 1],
              rootOf, i + 1)
  {
    FlatNext(before, parent, rootOf, i);
    RootEdgesAt(rootOf);
    RootsNext(roots, rootOf, i);
    CountsNext(counts, RootEdges(rootOf), i);
    CountsAt(counts, RootEdges(rootOf), i, rootOf[i]);
    hide *;
  }

  lemma VisitedAll(parent: seq<nat>, roots: seq<nat>, counts: seq<nat>, rootOf: seq<nat>)
    requires Visited(parent, roots, counts, rootOf, |rootOf|)
    ensures parent == rootOf && RootsAre(roots, rootOf, |rootOf|) && CountsAre(counts, RootEdges(rootOf), |rootOf|)
  {
    FlatAll(parent, rootOf);
  }

  /** First pass: every name is pointed at its root, and roots are collected and counted. */
  method CountRoots(ctx: Context, f: AliasForest) returns (r: Result<(seq<nat>, seq<nat>)>)
    requires f.Valid()
    modifies f`parent
    ensures f.Valid()
    ensures r.Success? ==> f.parent == f.rootOf && |f.rootOf| == |f.names|
    ensures r.Success? ==> RootsAre(r.value.0, f.rootOf, |f.rootOf|)
    ensures r.Success? ==> CountsAre(r.value.1, RootEdges(f.rootOf), |f.rootOf|)
    ensures r.Fail? ==> r.error == Canceled && ctx.Cancelable?
  {
    hide *;
    var counts := seq(|f.names|, _ => 0);
    var roots: seq<nat> := [];
    f.Sizes();
    VisitedNone(f.parent, f.rootOf);
    for id := 0 to |f.names|
      invariant f.Valid() && |counts| == |f.names| == |f.rootOf|
      invariant Visited(f.parent, roots, counts, f.rootOf, id)
    {
      var canceled := CheckContext(ctx);
      if canceled {
        return Fail(Canceled);
      }
      ghost var before := f.parent;
      var root := f.Compress(id);
      VisitedNext(before, f.parent, roots, counts, f.rootOf, id);
      roots, counts := if counts[root] == 0 then roots + [root] else roots, counts[root := counts[root] + 1];
    }
    VisitedAll(f.parent, roots, counts, f.rootOf);
    return Success((roots, counts));
  }

  /** Offsets up to `id` are known, and counts below `id` have become cursors. */
  ghost predicate Summed(offsets: seq<nat>, counts: seq<nat>, edges: seq<Edge>, id: nat) {
    && id <= |counts| == |edges| && |offsets| == |edges| + 1
    && (forall k :: 0 <= k <= id ==> offsets[k] == Below(edges, k))
    && (forall k :: 0 <= k < id ==> counts[k] == Below(edges, k))
    && (forall k :: id <= k < |edges| ==> counts[k] == |ValuesOf(edges, k)|)
  }

  lemma SummedNone(offsets: seq<nat>, counts: seq<nat>, edges: seq<Edge>)
    requires CountsAre(counts, edges, |edges|) && |offsets| == |edges| + 1 && offsets[0] == 0
    ensures Summed(offsets, counts, edges, 0)
  {
    assert edges[..|edges|] == edges;
  }

  lemma SummedNext(offsets: seq<nat>, counts: seq<nat>, edges: seq<Edge>, id: nat)
    requires Summed(offsets, counts, edges, id) && id < |counts|
    ensures Summed(offsets[id + 1 := offsets[id] + counts[id]], counts[id := offsets[id]], edges, id + 1)
  {
    hide ValuesOf;
  }

  lemma SummedAll(offsets: seq<nat>, counts: seq<nat>, edges: seq<Edge>)
    requires Summed(offsets, counts, edges, |counts|)
    ensures |offsets| == |edges| + 1 && forall k :: 0 <= k <= |edges| ==> offsets[k] == Below(edges, k)
    ensures Cursors(counts, |edges|, edges, 0)
  {
    StartsAreCursors(counts, |edges|, edges);
  }

  /** Counts become offsets, and the counts themselves are reused as write cursors. */
  method OffsetsOf(ctx: Context, counts0: seq<nat>, ghost edges: seq<Edge>) returns (r: Result<(seq<nat>, seq<nat>)>)
    requires KeysBelow(edges, |edges|) && CountsAre(counts0, edges, |edges|)
    ensures r.Success? ==> |r.value.0| == |edges| + 1 && forall k :: 0 <= k <= |edges| ==>
              r.value.0[k] == Below(edges, k)
    ensures r.Success? ==> Cursors(r.value.1, |edges|, edges, 0)
    ensures r.Fail? ==> r.error == Canceled && ctx.Cancelable?
  {
    var counts := counts0;
    var offsets: seq<nat> := seq(|counts| + 1, _ => 0);
    SummedNone(offsets, counts, edges);
    hide *;
    for id := 0 to |counts|
      invariant |offsets| == |edges| + 1 && |counts| == |edges|
      invariant Summed(offsets, counts, edges, id)
    {
      var canceled := CheckContext(ctx);
      if canceled {
        return Fail(Canceled);
      }
      SummedNext(offsets, counts, edges, id);
      offsets := offsets[id + 1 := offsets[id] + counts[id]];
      counts := counts[id := offsets[id]];
    }
    SummedAll(offsets, counts, edges);
    return Success((offsets, counts));
  }

  /** Every name goes where its root's cursor points. */
  method MembersOf(ctx: Context, parent: seq<nat>, cursors: seq<nat>) returns (r: Result<seq<nat>>)
    requires KeysBelow(RootEdges(parent), |parent|) && Cursors(cursors, |parent|, RootEdges(parent), 0)
    ensures r.Success? ==> Untouched(r.value, |parent|, RootEdges(parent), 0)
    ensures r.Fail? ==> r.error == Canceled && ctx.Cancelable?
  {
    ghost var edges := RootEdges(parent);
    var counts := cursors;
    var members: seq<nat> := seq(|parent|, _ => 0);
    RootEdgesAt(parent);
    FilledNone(members, |parent|, edges);
    KeysAt(edges, |parent|);
    hide *;
    for id := 0 to |parent|
      invariant Filled(members, |parent|, edges, id) && Cursors(counts, |parent|, edges, id)
      invariant |counts| == |parent|
    {
      var canceled := CheckContext(ctx);
      if canceled {
        return Fail(Canceled);
      }
      FilledNext(members, counts, |parent|, edges, id);
      var root := parent[id];
      members := members[counts[root] := id];
      counts := counts[root := counts[root] + 1];
    }
    FilledIsUntouched(members, |parent|, edges);
    return Success(members);
  }

  lemma KeysAt(edges: seq<Edge>, size: nat)
    requires KeysBelow(edges, size)
    ensures forall i :: 0 <= i < |edges| ==> edges[i].key < size
  {
    assert forall i :: 0 <= i < |edges| ==> edges[i] in edges;
  }

  lemma KeysOfRoots(rootOf: seq<nat>)
    requires forall i :: 0 <= i < |rootOf| ==> rootOf[i] < |rootOf|
    ensures KeysBelow(RootEdges(rootOf), |rootOf|)
  {
  }

  /** The components: their roots in the order of their names, and every root's members in the order
      in which they were first seen. */
  datatype Groups = Groups(roots: seq<nat>, offsets: seq<nat>, members: seq<nat>) {
    function Members(root: nat): seq<nat>
      requires root + 1 < |offsets| && offsets[root] <= offsets[root + 1] <= |members|
    {
      members[offsets[root]..offsets[root + 1]]
    }
  }

  /** The roots, in the order of their names. */
  ghost predicate RootOrder(roots: seq<nat>, names: seq<string>, rootOf: seq<nat>) {
    && (forall r: nat :: r in roots <==> r in rootOf)
    && (forall a, b :: 0 <= a < b < |roots| ==>
          roots[a] < |names| && roots[b] < |names| && Less(NameAt(names, roots[a]), NameAt(names, roots[b])))
  }

  ghost predicate GroupsAre(g: Groups, names: seq<string>, rootOf: seq<nat>) {
    && |names| == |rootOf| && |g.offsets| == |rootOf| + 1
    && RootOrder(g.roots, names, rootOf)
    && (forall r :: 0 <= r < |rootOf| ==> GroupIs(g, rootOf, r))
  }

  ghost predicate GroupIs(g: Groups, rootOf: seq<nat>, r: nat) {
    && r + 1 < |g.offsets| && g.offsets[r] <= g.offsets[r + 1] <= |g.members|
    && g.Members(r) == ValuesOf(RootEdges(rootOf), r)
  }

  lemma RootsSorted(names: seq<string>, roots: seq<nat>, rootOf: seq<nat>)
    requires RootsAre(roots, rootOf, |rootOf|)
    requires |names| == |rootOf| && forall i :: 0 <= i < |rootOf| ==> rootOf[i] < |names|
    requires forall i, j :: 0 <= i < j < |names| ==> names[i] != names[j]
    ensures RootOrder(Sort<nat>(ByName(names), roots), names, rootOf)
  {
    var sorted := Sort<nat>(ByName(names), roots);
    ByNameWeak(names);
    SortSorts<nat>(ByName(names), roots);
    assert rootOf[..|rootOf|] == rootOf;
    SameMembers(sorted, rootOf);
    SortedRootOrder(names, roots, sorted, rootOf);
  }

  lemma SortedRootOrder(names: seq<string>, roots: seq<nat>, sorted: seq<nat>, rootOf: seq<nat>)
    requires NoDuplicates(roots) && multiset(sorted) == multiset(roots) && Sorted(ByName(names), sorted)
    requires forall r: nat :: r in sorted <==> r in rootOf
    requires |names| == |rootOf| && forall i :: 0 <= i < |rootOf| ==> rootOf[i] < |names|
    requires forall i, j :: 0 <= i < j < |names| ==> names[i] != names[j]
    ensures RootOrder(sorted, names, rootOf)
  {
    hide ByName, Sorted, NoDuplicates, Less, NameAt;
    forall a | 0 <= a < |sorted|
      ensures sorted[a] < |names|
    {
      assert sorted[a] in rootOf;
    }
    forall a, b | 0 <= a < b < |sorted|
      ensures Less(NameAt(names, sorted[a]), NameAt(names, sorted[b]))
    {
      SortedNames(names, roots, sorted, a, b);
    }
  }

  lemma SameMembers(a: seq<nat>, b: seq<nat>)
    requires Elements(a) == Elements(b)
    ensures forall r: nat :: r in a <==> r in b
  {
    forall r
      ensures r in a <==> r in b
    {
      assert r in Elements(a) <==> r in Elements(b);
    }
  }

  lemma SortedNames(names: seq<string>, roots: seq<nat>, sorted: seq<nat>, a: nat, b: nat)
    requires NoDuplicates(roots) && multiset(sorted) == multiset(roots) && Sorted(ByName(names), sorted)
    requires a < b < |sorted| && sorted[a] < |names| && sorted[b] < |names|
    requires forall i, j :: 0 <= i < j < |names| ==> names[i] != names[j]
    ensures Less(NameAt(names, sorted[a]), NameAt(names, sorted[b]))
  {
    if sorted[a] == sorted[b] {
      OccursTwice(sorted, a, b);
      OccursOnce(roots, sorted[a]);
    }
    LessTotal(NameAt(names, sorted[a]), NameAt(names, sorted[b]));
    assert !ByName(names)(sorted[b], sorted[a]);
  }

  lemma GroupsFromSums(g: Groups, rootOf: seq<nat>)
    requires KeysBelow(RootEdges(rootOf), |rootOf|)
    requires |g.offsets| == |rootOf| + 1 && forall k :: 0 <= k <= |rootOf| ==>
               g.offsets[k] == Below(RootEdges(rootOf), k)
    requires Untouched(g.members, |rootOf|, RootEdges(rootOf), 0)
    ensures forall r :: 0 <= r < |rootOf| ==> GroupIs(g, rootOf, r)
  {
    forall r | 0 <= r < |rootOf|
      ensures GroupIs(g, rootOf, r)
    {
      assert FilledAt(g.members, RootEdges(rootOf), |RootEdges(rootOf)|, r);
      WindowIs(g.members, RootEdges(rootOf), r);
    }
  }

  /** The names grouped by root, with a counting sort. */
  method GroupByRoot(ctx: Context, f: AliasForest) returns (r: Result<Groups>)
    requires f.Valid()
    modifies f`parent
    ensures f.Valid()
    ensures r.Success? ==> GroupsAre(r.value, f.names, f.rootOf)
    ensures r.Fail? ==> r.error == Canceled && ctx.Cancelable?
  {
    var pass :- CountRoots(ctx, f);
    f.Sizes();
    f.Meaning();
    assert |RootEdges(f.rootOf)| == |f.rootOf|;
    KeysOfRoots(f.rootOf);
    hide AliasForest.Valid, ValuesOf, Below, RootEdges, CountsAre, RootsAre, RootOrder, KeysBelow, Cursors, Untouched,
      GroupIs;
    RootsSorted(f.names, pass.0, f.rootOf);
    var roots := Sort<nat>(ByName(f.names), pass.0);
    var sums :- OffsetsOf(ctx, pass.1, RootEdges(f.rootOf));
    var members :- MembersOf(ctx, f.parent, sums.1);
    var g := Groups(roots, sums.0, members);
    GroupsFromSums(g, f.rootOf);
    return Success(g);
  }

  // ---------------------------------------------------------------- the rows

  /** The names of `ids` other than `root`, in order. */
  function OtherNames(names: seq<string>, ids: seq<nat>, root: nat): seq<string> {
    if ids == [] then []
    else
      var id := ids[|ids| - 1];
      OtherNames(names, ids[..|ids| - 1], root) + if id != root then [NameAt(names, id)] else []
  }

  /** The row of the component of `root`. */
  function RowFor(names: seq<string>, rootOf: seq<nat>, root: nat): Vulnerability {
    Vulnerability(NameAt(names, root),
      Items(Sort(StringLess(), OtherNames(names, ValuesOf(RootEdges(rootOf), root), root))))
  }

  lemma {:induction false} OtherNamesElements(names: seq<string>, ids: seq<nat>, root: nat)
    requires forall i, j :: 0 <= i < j < |names| ==> names[i] != names[j]
    requires NoDuplicates(ids) && forall i :: 0 <= i < |ids| ==> ids[i] < |names|
    ensures NoDuplicates(OtherNames(names, ids, root))
    ensures forall x :: x in OtherNames(names, ids, root) <==>
              exists i :: 0 <= i < |ids| && ids[i] != root && names[ids[i]] == x
  {
    if ids != [] {
      var n := |ids| - 1;
      var rest := OtherNames(names, ids[..n], root);
      OtherNamesElements(names, ids[..n], root);
      if ids[n] != root {
        forall k | 0 <= k < |rest|
          ensures rest[k] != names[ids[n]]
        {
          assert rest[k] in rest;
          var i :| 0 <= i < n && ids[..n][i] != root && names[ids[..n][i]] == rest[k];
          assert ids[i] != ids[n];
        }
      }
      forall x
        ensures x in OtherNames(names, ids, root) <==>
                  exists i :: 0 <= i < |ids| && ids[i] != root && names[ids[i]] == x
      {
        if i :| 0 <= i < |ids| && ids[i] != root && names[ids[i]] == x {
          assert i < n ==> ids[..n][i] == ids[i];
        }
        if x in rest {
          var i :| 0 <= i < n && ids[..n][i] != root && names[ids[..n][i]] == x;
          assert ids[i] != root && names[ids[i]] == x;
        }
      }
    }
  }

  lemma {:induction false} MembersIncrease(rootOf: seq<nat>, i: nat, root: nat)
    requires i <= |rootOf|
    ensures NoDuplicates(ValuesOf(RootEdges(rootOf)[..i], root))
    ensures forall j: nat :: j in ValuesOf(RootEdges(rootOf)[..i], root) <==> j < i && rootOf[j] == root
  {
    var edges := RootEdges(rootOf);
    if i > 0 {
      MembersIncrease(rootOf, i - 1, root);
      ValuesOfNext(edges, i - 1, root);
      assert edges[i - 1] == Edge(rootOf[i - 1], i - 1);
    }
  }

  lemma MembersOfRoot(rootOf: seq<nat>, root: nat)
    ensures NoDuplicates(ValuesOf(RootEdges(rootOf), root))
    ensures forall j: nat :: j in ValuesOf(RootEdges(rootOf), root) <==> j < |rootOf| && rootOf[j] == root
  {
    assert RootEdges(rootOf)[..|rootOf|] == RootEdges(rootOf);
    MembersIncrease(rootOf, |rootOf|, root);
  }

  /** The row built for a root describes its component. */
  lemma RowForIsRow(groups: seq<seq<string>>, names: seq<string>, rootOf: seq<nat>, root: nat)
    requires Components(groups, names, rootOf) && root < |names| && rootOf[root] == root
    ensures IsRow(groups, RowFor(names, rootOf, root))
  {
    hide Linked, ValuesOf, RootEdges, Sort;
    var ids := ValuesOf(RootEdges(rootOf), root);
    MembersOfRoot(rootOf, root);
    var others := OtherNames(names, ids, root);
    forall i | 0 <= i < |ids|
      ensures ids[i] < |names|
    {
      assert ids[i] in ids;
    }
    OtherNamesElements(names, ids, root);
    StringLessTotal();
    SortStrict(StringLess(), others);
    var v := RowFor(names, rootOf, root);
    forall y
      ensures y in others <==> y in Component(groups, v.id) && y != v.id
    {
      if y in others {
        var i :| 0 <= i < |ids| && ids[i] != root && names[ids[i]] == y;
        assert ids[i] in ids && y in Elements(names);
      }
      if y in Component(groups, v.id) && y != v.id {
        assert y in Elements(names);
        var j :| 0 <= j < |names| && names[j] == y;
        assert j in ids;
        var i :| 0 <= i < |ids| && ids[i] == j;
      }
    }
    assert Elements(others) == Component(groups, v.id) - {v.id};
    assert v.id in Elements(names);
    forall y | y in Component(groups, v.id) && y != v.id
      ensures Preferred(v.id, y)
    {
      var i :| 0 <= i < |ids| && ids[i] != root && names[ids[i]] == y;
      assert ids[i] in ids;
    }
  }

  function RowsFor(names: seq<string>, rootOf: seq<nat>, roots: seq<nat>): seq<Vulnerability> {
    seq(|roots|, i requires 0 <= i < |roots| => RowFor(names, rootOf, roots[i]))
  }

  /** One row per root makes the table. */
  lemma RowsAreTable(groups: seq<seq<string>>, names: seq<string>, rootOf: seq<nat>, roots: seq<nat>)
    requires Components(groups, names, rootOf) && RootOrder(roots, names, rootOf)
    ensures IsTable(groups, RowsFor(names, rootOf, roots))
  {
    hide Linked, RowFor, IsRow;
    var rows := RowsFor(names, rootOf, roots);
    forall i | 0 <= i < |rows|
      ensures IsRow(groups, rows[i]) && rows[i].id == NameAt(names, roots[i])
    {
      RootOfRoots(names, rootOf, roots, groups, i);
      RowForIsRow(groups, names, rootOf, roots[i]);
      RowForId(names, rootOf, roots[i]);
    }
    forall x | x in Names(groups)
      ensures exists i :: 0 <= i < |rows| && Linked(groups, rows[i].id, x)
    {
      assert x in Elements(names);
      var j :| 0 <= j < |names| && names[j] == x;
      assert rootOf[j] in rootOf;
      var i :| 0 <= i < |roots| && roots[i] == rootOf[j];
      assert Linked(groups, names[roots[i]], names[j]);
    }
  }

  lemma RowForId(names: seq<string>, rootOf: seq<nat>, root: nat)
    ensures RowFor(names, rootOf, root).id == NameAt(names, root)
  {
  }

  lemma RootOfRoots(names: seq<string>, rootOf: seq<nat>, roots: seq<nat>, groups: seq<seq<string>>, i: nat)
    requires Components(groups, names, rootOf) && RootOrder(roots, names, rootOf) && i < |roots|
    ensures roots[i] < |names| && rootOf[roots[i]] == roots[i]
  {
    hide Linked;
    assert roots[i] in roots && roots[i] in rootOf;
  }

  /** The rows packed so far decode to `rows`, and every alias of theirs knows its row. */
  ghost predicate RowsPacked(p: Payload, stored: seq<StoredVulnerability>, rows: seq<Vulnerability>) {
    |stored| == |rows| && forall i :: 0 <= i < |rows| ==> IsVulnerability(p, stored[i], rows[i])
  }

  ghost predicate AliasRows(byAlias: seq<nat>, rootOf: seq<nat>, roots: seq<nat>, k: nat) {
    && |byAlias| == |rootOf| && k <= |roots|
    && forall i, id :: 0 <= i < k && 0 <= id < |rootOf| && rootOf[id] == roots[i] ==> byAlias[id] == i
  }

  /** The aliases of one component: all its members are given the row `vi`, and the names of those
      that are not the root are collected. */
  method CollectAliases(ctx: Context, names: seq<string>, ids: seq<nat>, root: nat, vi: nat, byAlias0: seq<nat>)
    returns (r: Result<(seq<string>, seq<nat>)>)
    requires |byAlias0| == |names| && forall i :: 0 <= i < |ids| ==> ids[i] < |names|
    ensures r.Success? ==> r.value.0 == OtherNames(names, ids, root)
    ensures r.Success? ==> |r.value.1| == |byAlias0|
    ensures r.Success? ==> forall id: nat :: id < |byAlias0| ==> r.value.1[id] == if id in ids then vi else byAlias0[id]
    ensures r.Fail? ==> r.error == Canceled && ctx.Cancelable?
  {
    var aliases: seq<string> := [];
    var byAlias := byAlias0;
    for i := 0 to |ids|
      invariant aliases == OtherNames(names, ids[..i], root)
      invariant |byAlias| == |byAlias0|
      invariant forall id: nat :: id < |byAlias0| ==> byAlias[id] == if id in ids[..i] then vi else byAlias0[id]
    {
      assert ids[..i + 1][..i] == ids[..i];
      var canceled := CheckContext(ctx);
      if canceled {
        return Fail(Canceled);
      }
      byAlias := byAlias[ids[i] := vi];
      if ids[i] != root {
        aliases := aliases + [names[ids[i]]];
      }
    }
    assert ids[..|ids|] == ids;
    return Success((aliases, byAlias));
  }

  // ---------------------------------------------------------------- packing the rows

  /** The payload after rows have been packed one after the other. */
  ghost function AddRows(p: Payload, rows: seq<Vulnerability>): Payload {
    if rows == [] then p else AddVulnerability(AddRows(p, rows[..|rows| - 1]), rows[|rows| - 1])
  }

  lemma {:induction false} AddRowsGrows(p: Payload, rows: seq<Vulnerability>)
    ensures Extends(p, AddRows(p, rows))
  {
    GrowthLaws();
    PackingRecordsGrows();
    hide Extends, AddVulnerability;
    if rows != [] {
      AddRowsGrows(p, rows[..|rows| - 1]);
    } else {
      PackingGrows();
      assert Extends(p, AddOptional(p, None));
    }
  }

  /** Where a row does not fit, the table does not fit. */
  lemma {:induction false} AddRowsPrefix(p: Payload, rows: seq<Vulnerability>, k: nat)
    requires k <= |rows|
    ensures PayloadFits(AddRows(p, rows)) ==> PayloadFits(AddRows(p, rows[..k]))
    decreases |rows| - k
  {
    GrowthLaws();
    PackingGrows();
    PackingRecordsGrows();
    hide Extends, AddVulnerability, PayloadFits;
    if k == |rows| {
      assert rows[..k] == rows;
    } else {
      AddRowsPrefix(p, rows, k + 1);
      assert rows[..k + 1][..k] == rows[..k];
    }
  }

  datatype VulnerabilityRows = VulnerabilityRows(rows: seq<StoredVulnerability>, byAlias: seq<nat>)

  lemma AliasRowsNext(names: seq<string>, byAlias: seq<nat>, byAlias': seq<nat>, rootOf: seq<nat>, roots: seq<nat>,
                      k: nat)
    requires AliasRows(byAlias, rootOf, roots, k) && k < |roots| && RootOrder(roots, names, rootOf)
    requires |byAlias'| == |byAlias|
    requires forall id: nat :: id < |byAlias| ==>
               byAlias'[id] == if id in ValuesOf(RootEdges(rootOf), roots[k]) then k else byAlias[id]
    ensures AliasRows(byAlias', rootOf, roots, k + 1)
  {
    hide ValuesOf, RootEdges;
    MembersOfRoot(rootOf, roots[k]);
    forall i, id | 0 <= i < k + 1 && 0 <= id < |rootOf| && rootOf[id] == roots[i]
      ensures byAlias'[id] == i
    {
      if i < k && roots[i] == roots[k] {
        LessTotal(NameAt(names, roots[i]), NameAt(names, roots[k]));
      }
    }
  }

  lemma RowsPackedNext(p: Payload, q: Payload, stored: seq<StoredVulnerability>, rows: seq<Vulnerability>,
                       t: StoredVulnerability, v: Vulnerability)
    requires RowsPacked(p, stored, rows) && Extends(p, q) && IsVulnerability(q, t, v)
    ensures RowsPacked(q, stored + [t], rows + [v])
  {
    GrowthLaws();
    hide Extends, IsString, IsStrings;
  }

  /** The members of one row are in range and include its root. */
  lemma GroupInRange(g: Groups, names: seq<string>, rootOf: seq<nat>, groups: seq<seq<string>>, k: nat)
    requires Components(groups, names, rootOf) && GroupsAre(g, names, rootOf) && k < |g.roots|
    ensures g.roots[k] < |names| && g.roots[k] + 1 < |g.offsets|
    ensures g.offsets[g.roots[k]] <= g.offsets[g.roots[k] + 1] <= |g.members|
    ensures var ids := g.Members(g.roots[k]);
            && ids == ValuesOf(RootEdges(rootOf), g.roots[k]) && g.roots[k] in ids
            && forall i :: 0 <= i < |ids| ==> ids[i] < |names|
  {
    hide ValuesOf, RootEdges, Linked;
    RootOfRoots(names, rootOf, g.roots, groups, k);
    var root := g.roots[k];
    assert GroupIs(g, rootOf, root);
    MembersOfRoot(rootOf, root);
    var ids := g.Members(root);
    forall i | 0 <= i < |ids|
      ensures ids[i] < |names|
    {
      assert ids[i] in ids;
    }
  }

  /** One row: the component of the root at `k` is collected and packed. */
  method BuildRow(ctx: Context, names: seq<string>, g: Groups, k: nat, byAlias0: seq<nat>, payload: PayloadBuilder,
                  ghost rootOf: seq<nat>, ghost groups: seq<seq<string>>)
    returns (r: Result<(StoredVulnerability, seq<nat>)>)
    requires Components(groups, names, rootOf) && GroupsAre(g, names, rootOf) && k < |g.roots|
    requires AliasRows(byAlias0, rootOf, g.roots, k)
    requires payload.Valid()
    modifies payload
    ensures payload.Valid()
    ensures r.Success? ==> payload.View() == AddVulnerability(old(payload.View()), RowFor(names, rootOf, g.roots[k]))
    ensures r.Success? ==> IsVulnerability(payload.View(), r.value.0, RowFor(names, rootOf, g.roots[k]))
    ensures r.Success? ==> AliasRows(r.value.1, rootOf, g.roots, k + 1)
    ensures r.Fail? ==>
              || (r.error == Canceled && ctx.Cancelable?)
              || (r.error == Overflow
                 && !PayloadFits(AddVulnerability(old(payload.View()), RowFor(names, rootOf, g.roots[k]))))
  {
    GroupInRange(g, names, rootOf, groups, k);
    hide ValuesOf, RootEdges, Linked, PayloadBuilder.Valid, StoredOnce, Extends, IsString, IsStrings, AddVulnerability,
      PayloadFits, AliasRows, GroupIs, RootOrder, Components, Sort;
    var root := g.roots[k];
    AliasRowsSize(byAlias0, rootOf, g.roots, k);
    var collected :- CollectAliases(ctx, names, g.Members(root), root, k, byAlias0);
    AliasRowsNext(names, byAlias0, collected.1, rootOf, g.roots, k);
    var row :- PackVulnerability(payload, Vulnerability(names[root], Items(Sort(StringLess(), collected.0))));
    return Success((row, collected.1));
  }

  lemma AliasRowsSize(byAlias: seq<nat>, rootOf: seq<nat>, roots: seq<nat>, k: nat)
    requires AliasRows(byAlias, rootOf, roots, k)
    ensures |byAlias| == |rootOf|
  {
  }

  /** The first `k` rows are packed. */
  ghost predicate RowsBuilt(p0: Payload, p: Payload, rows: seq<StoredVulnerability>, byAlias: seq<nat>,
                            names: seq<string>, rootOf: seq<nat>, roots: seq<nat>, k: nat) {
    && k <= |roots|
    && p == AddRows(p0, RowsFor(names, rootOf, roots)[..k])
    && RowsPacked(p, rows, RowsFor(names, rootOf, roots)[..k])
    && AliasRows(byAlias, rootOf, roots, k)
  }

  lemma RowsBuiltNext(p0: Payload, p: Payload, q: Payload, rows: seq<StoredVulnerability>, row: StoredVulnerability,
                      byAlias: seq<nat>, byAlias': seq<nat>, names: seq<string>, rootOf: seq<nat>, roots: seq<nat>,
                      k: nat)
    requires RowsBuilt(p0, p, rows, byAlias, names, rootOf, roots, k) && k < |roots|
    requires q == AddVulnerability(p, RowFor(names, rootOf, roots[k]))
    requires IsVulnerability(q, row, RowFor(names, rootOf, roots[k]))
    requires AliasRows(byAlias', rootOf, roots, k + 1)
    ensures RowsBuilt(p0, q, rows + [row], byAlias', names, rootOf, roots, k + 1)
  {
    PackingRecordsGrows();
    hide RowFor, IsVulnerability, AddVulnerability, Extends;
    var all := RowsFor(names, rootOf, roots);
    RowsPackedNext(p, q, rows, all[..k], row, RowFor(names, rootOf, roots[k]));
    assert all[..k + 1] == all[..k] + [RowFor(names, rootOf, roots[k])];
    assert all[..k + 1][..k] == all[..k];
  }

  lemma RowsBuiltNone(p: Payload, names: seq<string>, rootOf: seq<nat>, roots: seq<nat>)
    ensures RowsBuilt(p, p, [], seq(|rootOf|, _ => 0), names, rootOf, roots, 0)
  {
    assert RowsFor(names, rootOf, roots)[..0] == [];
  }

  lemma RowsBuiltAll(p0: Payload, p: Payload, rows: seq<StoredVulnerability>, byAlias: seq<nat>, names: seq<string>,
                     rootOf: seq<nat>, roots: seq<nat>)
    requires RowsBuilt(p0, p, rows, byAlias, names, rootOf, roots, |roots|)
    ensures p == AddRows(p0, RowsFor(names, rootOf, roots))
    ensures RowsPacked(p, rows, RowsFor(names, rootOf, roots)) && AliasRows(byAlias, rootOf, roots, |roots|)
  {
    var all := RowsFor(names, rootOf, roots);
    assert all[..|roots|] == all;
  }

  /** Where the row at `k` does not fit, the table does not fit. */
  lemma RowsBuiltFull(p0: Payload, p: Payload, rows: seq<StoredVulnerability>, byAlias: seq<nat>, names: seq<string>,
                      rootOf: seq<nat>, roots: seq<nat>, k: nat)
    requires RowsBuilt(p0, p, rows, byAlias, names, rootOf, roots, k) && k < |roots|
    ensures AliasRows(byAlias, rootOf, roots, k)
    ensures PayloadFits(AddRows(p0, RowsFor(names, rootOf, roots))) ==>
              PayloadFits(AddVulnerability(p, RowFor(names, rootOf, roots[k])))
  {
    hide AddVulnerability, RowFor, PayloadFits;
    var all := RowsFor(names, rootOf, roots);
    AddRowsPrefix(p0, all, k + 1);
    assert all[..k + 1][..k] == all[..k];
  }

  /** All rows, in the order of the roots. */
  method BuildRows(ctx: Context, names: seq<string>, g: Groups, payload: PayloadBuilder,
                   ghost rootOf: seq<nat>, ghost groups: seq<seq<string>>)
    returns (r: Result<VulnerabilityRows>)
    requires Components(groups, names, rootOf) && GroupsAre(g, names, rootOf)
    requires payload.Valid()
    modifies payload
    ensures payload.Valid()
    ensures r.Success? ==> payload.View() == AddRows(old(payload.View()), RowsFor(names, rootOf, g.roots))
    ensures r.Success? ==> RowsPacked(payload.View(), r.value.rows, RowsFor(names, rootOf, g.roots))
    ensures r.Success? ==> AliasRows(r.value.byAlias, rootOf, g.roots, |g.roots|)
    ensures r.Fail? ==>
              || (r.error == Canceled && ctx.Cancelable?)
              || (r.error == Overflow && !PayloadFits(AddRows(old(payload.View()), RowsFor(names, rootOf, g.roots))))
  {
    hide *;
    var rows: seq<StoredVulnerability> := [];
    var byAlias := seq(|names|, _ => 0);
    GroupsSize(g, names, rootOf);
    RowsBuiltNone(payload.View(), names, rootOf, g.roots);
    ghost var p0 := payload.View();
    for k := 0 to |g.roots|
      invariant payload.Valid()
      invariant RowsBuilt(p0, payload.View(), rows, byAlias, names, rootOf, g.roots, k)
    {
      RowsBuiltFull(p0, payload.View(), rows, byAlias, names, rootOf, g.roots, k);
      ghost var p := payload.View();
      var built := BuildRow(ctx, names, g, k, byAlias, payload, rootOf, groups);
      if built.Fail? {
        return Fail(built.error);
      }
      RowsBuiltNext(p0, p, payload.View(), rows, built.value.0, byAlias, built.value.1, names, rootOf, g.roots, k);
      rows, byAlias := rows + [built.value.0], built.value.1;
    }
    RowsBuiltAll(p0, payload.View(), rows, byAlias, names, rootOf, g.roots);
    return Success(VulnerabilityRows(rows, byAlias));
  }

  lemma GroupsSize(g: Groups, names: seq<string>, rootOf: seq<nat>)
    requires GroupsAre(g, names, rootOf)
    ensures |names| == |rootOf| && RootOrder(g.roots, names, rootOf)
  {
  }

  lemma {:induction false} FewerRoots(roots: seq<nat>, n: nat)
    requires NoDuplicates(roots) && forall i :: 0 <= i < |roots| ==> roots[i] < n
    ensures |roots| <= n
  {
    if roots != [] {
      assert roots[0] < n;
      if k :| 0 <= k < |roots| && roots[k] == n - 1 {
        FewerRoots(roots[..k] + roots[k + 1..], n - 1);
      } else {
        FewerRoots(roots, n - 1);
      }
    }
  }

  /** There are no more roots than names. */
  lemma RootsFit(roots: seq<nat>, names: seq<string>, rootOf: seq<nat>)
    requires RootOrder(roots, names, rootOf) && |rootOf| == |names|
    ensures |roots| <= |names|
  {
    if |roots| > 1 {
      forall a, b | 0 <= a < b < |roots|
        ensures roots[a] != roots[b]
      {
        LessTotal(NameAt(names, roots[a]), NameAt(names, roots[b]));
      }
      assert forall a :: 0 <= a < |roots| - 1 ==> Less(NameAt(names, roots[a]), NameAt(names, roots[|roots| - 1]));
      assert Less(NameAt(names, roots[0]), NameAt(names, roots[1]));
      FewerRoots(roots, |names|);
    } else if |roots| == 1 {
      assert roots[0] in rootOf;
    }
  }

  // ---------------------------------------------------------------- every alias graph has its table

  /** Of the first `k` names, `m` is the preferred one among those connected to `i`. */
  ghost predicate Best(groups: seq<seq<string>>, names: seq<string>, i: nat, k: nat, m: nat)
    requires i < |names| && k <= |names|
  {
    && m < |names| && Linked(groups, names[i], names[m])
    && forall j :: 0 <= j < k && Linked(groups, names[i], names[j]) ==> j == m || Preferred(names[m], names[j])
  }

  lemma {:induction false} BestExists(groups: seq<seq<string>>, names: seq<string>, i: nat, k: nat) returns (m: nat)
    requires i < |names| && k <= |names| && forall a, b :: 0 <= a < b < |names| ==> names[a] != names[b]
    ensures Best(groups, names, i, k, m)
  {
    hide Linked, Preferred;
    if k == 0 {
      LinkedSelf(groups, names[i]);
      m := i;
    } else {
      var before := BestExists(groups, names, i, k - 1);
      PreferredTotal(names[before], names[k - 1]);
      if !Linked(groups, names[i], names[k - 1]) || before == k - 1 || Preferred(names[before], names[k - 1]) {
        m := before;
      } else {
        m := k - 1;
        forall j | 0 <= j < k && Linked(groups, names[i], names[j])
          ensures j == m || Preferred(names[m], names[j])
        {
          if j != m && j != before {
            PreferredTransitive(names[m], names[before], names[j]);
          }
        }
      }
    }
  }

  lemma BestUnique(groups: seq<seq<string>>, names: seq<string>, i: nat, j: nat, m: nat, n: nat)
    requires i < |names| && j < |names| && Best(groups, names, i, |names|, m) && Best(groups, names, j, |names|, n)
    ensures m == n <==> Linked(groups, names[i], names[j])
  {
    hide Linked, Preferred;
    if m == n {
      LinkedSymmetric(groups, names[j], names[n]);
      LinkedTransitive(groups, names[i], names[m], names[j]);
    }
    if Linked(groups, names[i], names[j]) {
      LinkedTransitive(groups, names[i], names[j], names[n]);
      LinkedSymmetric(groups, names[i], names[j]);
      LinkedTransitive(groups, names[j], names[i], names[m]);
      PreferredTotal(names[m], names[n]);
    }
  }

  /** Pointing every name at the best one connected to it gives the components. */
  lemma ComponentsExist(groups: seq<seq<string>>, names: seq<string>) returns (rootOf: seq<nat>)
    requires NoDuplicates(names) && Elements(names) == Names(groups)
    ensures Components(groups, names, rootOf)
  {
    hide Linked, Preferred, Names;
    rootOf := BestOf(groups, names, |names|);
    forall i | 0 <= i < |names|
      ensures rootOf[i] < |names| && rootOf[rootOf[i]] == rootOf[i]
      ensures rootOf[i] != i ==> Preferred(names[rootOf[i]], names[i])
    {
      assert Best(groups, names, i, |names|, rootOf[i]);
      BestUnique(groups, names, i, rootOf[i], rootOf[i], rootOf[rootOf[i]]);
      LinkedSelf(groups, names[i]);
    }
    forall i, j | 0 <= i < |names| && 0 <= j < |names|
      ensures rootOf[i] == rootOf[j] <==> Linked(groups, names[i], names[j])
    {
      BestUnique(groups, names, i, j, rootOf[i], rootOf[j]);
    }
  }

  /** The alias graph and the names determine the roots. */
  lemma RootsUnique(groups: seq<seq<string>>, names: seq<string>, rootOf: seq<nat>, other: seq<nat>)
    requires Components(groups, names, rootOf) && Components(groups, names, other)
    ensures rootOf == other
  {
    hide Linked, Preferred, Names;
    forall i | 0 <= i < |names|
      ensures rootOf[i] == other[i]
    {
      RootIsBest(groups, names, rootOf, i);
      RootIsBest(groups, names, other, i);
      LinkedSelf(groups, names[i]);
      BestUnique(groups, names, i, i, rootOf[i], other[i]);
    }
  }

  lemma RootIsBest(groups: seq<seq<string>>, names: seq<string>, rootOf: seq<nat>, i: nat)
    requires Components(groups, names, rootOf) && i < |names|
    ensures Best(groups, names, i, |names|, rootOf[i])
  {
    hide Linked, Preferred, Names;
    assert Linked(groups, names[i], names[rootOf[i]]);
    forall j | 0 <= j < |names| && Linked(groups, names[i], names[j])
      ensures j == rootOf[i] || Preferred(names[rootOf[i]], names[j])
    {
      assert rootOf[i] == rootOf[j];
    }
  }

  lemma {:induction false} BestOf(groups: seq<seq<string>>, names: seq<string>, n: nat) returns (rootOf: seq<nat>)
    requires n <= |names| && NoDuplicates(names)
    ensures |rootOf| == n && forall i :: 0 <= i < n ==> Best(groups, names, i, |names|, rootOf[i])
  {
    hide Best;
    if n == 0 {
      rootOf := [];
    } else {
      rootOf := BestOf(groups, names, n - 1);
      var m := BestExists(groups, names, n - 1, |names|);
      rootOf := rootOf + [m];
    }
  }

  /** Every alias graph has a table, with no more rows than names. */
  lemma TableExists(groups: seq<seq<string>>, names: seq<string>) returns (rows: seq<Vulnerability>)
    requires NoDuplicates(names) && Elements(names) == Names(groups)
    ensures IsTable(groups, rows) && |rows| <= |names|
  {
    hide Linked, Names, IsTable, RootOrder, Preferred, ByName, Sort;
    var rootOf := ComponentsExist(groups, names);
    var roots: seq<nat> := InternAll([], rootOf);
    InternAllHas<nat>([], rootOf);
    assert rootOf[..|rootOf|] == rootOf;
    assert Elements<nat>([]) == {};
    RootsSorted(names, roots, rootOf);
    var sorted := Sort<nat>(ByName(names), roots);
    RowsAreTable(groups, names, rootOf, sorted);
    RootsFit(sorted, names, rootOf);
    rows := RowsFor(names, rootOf, sorted);
  }

  /** The rows of a table, when they fit, have packed forms. */
  lemma {:induction false} RowsNamed(p: Payload, rows: seq<Vulnerability>) returns (stored: seq<StoredVulnerability>)
    requires StoredOnce(p) && PayloadFits(AddRows(p, rows))
    ensures StoredOnce(AddRows(p, rows)) && RowsPacked(AddRows(p, rows), stored, rows)
  {
    hide StoredOnce, AddVulnerability, PayloadFits, IsVulnerability, Extends;
    if rows == [] {
      stored := [];
    } else {
      var n := |rows| - 1;
      AddRowsPrefix(p, rows, n);
      var before := RowsNamed(p, rows[..n]);
      var row := VulnerabilityNamed(AddRows(p, rows[..n]), rows[n]);
      PackingRecordsGrows();
      RowsPackedNext(AddRows(p, rows[..n]), AddRows(p, rows), before, rows[..n], row, rows[n]);
      stored := before + [row];
      assert rows == rows[..n] + [rows[n]];
    }
  }

  lemma RowsPackedSize(p: Payload, stored: seq<StoredVulnerability>, names: seq<string>, rootOf: seq<nat>,
                       roots: seq<nat>)
    requires RowsPacked(p, stored, RowsFor(names, rootOf, roots))
    ensures |stored| == |roots|
  {
  }
}
