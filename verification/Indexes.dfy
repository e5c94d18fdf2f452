/** The frozen relationship index: `offsets` and `members` built from a replayed edge visitor by
    count, prefix sum, fill, per-window sort and in-place compaction. */
module Indexes {
  import opened Common
  import opened Order
  import opened Slabs

  /** One callback of the edge visitor. */
  datatype Edge = Edge(key: nat, value: nat)

  /** Offsets and members as plain sequences: what a built index stands for. */
  datatype Index = Index(offsets: seq<nat>, members: seq<nat>, range: bool)

  datatype ReportIndex = ReportIndex(offsets: Slabs<nat>, members: Slabs<nat>, range: bool) {
    ghost function Repr(): set<object>
      reads offsets, members
    {
      offsets.Repr + members.Repr
    }

    ghost predicate Valid()
      reads {offsets, members} + Repr()
    {
      offsets.Valid() && members.Valid()
    }

    ghost function View(): Index
      reads offsets, members
    {
      Index(offsets.Contents, members.Contents, range)
    }
  }

  function NatLess(): (nat, nat) -> bool {
    (a, b) => a < b
  }

  // ---------------------------------------------------------------- specification

  /** The values paired with `k`, in visiting order. */
  function ValuesOf(edges: seq<Edge>, k: nat): seq<nat> {
    if edges == [] then []
    else
      var e := edges[|edges| - 1];
      ValuesOf(edges[..|edges| - 1], k) + if e.key == k then [e.value] else []
  }

  /** How many edges have a key below `k`: where the window of `k` starts before compaction. */
  function Below(edges: seq<Edge>, k: nat): nat {
    if k == 0 then 0 else Below(edges, k - 1) + |ValuesOf(edges, k - 1)|
  }

  ghost predicate KeysBelow(edges: seq<Edge>, size: nat) {
    forall e :: e in edges ==> e.key < size
  }

  /** The distinct values paired with `k`. */
  ghost function ValueSet(edges: seq<Edge>, k: nat): set<nat> {
    set e | e in edges && e.key == k :: e.value
  }

  ghost predicate WellFormed(ix: Index, size: nat) {
    && |ix.offsets| == size + 1
    && ix.offsets[0] == 0
    && forall k :: 0 <= k < size ==> ix.offsets[k] <= ix.offsets[k + 1]
  }

  /** The segment of `members` between two offsets. */
  ghost predicate Segment(members: seq<nat>, start: nat, stop: nat, values: set<nat>) {
    && start <= stop <= |members|
    && StrictlySorted(NatLess(), members[start..stop])
    && Elements(members[start..stop]) == values
  }

  /** `ix` stores, for every key, the increasing enumeration of its distinct values. */
  ghost predicate MemberIndex(ix: Index, size: nat, edges: seq<Edge>) {
    && WellFormed(ix, size)
    && !ix.range
    && ix.offsets[size] == |ix.members|
    && forall k :: 0 <= k < size ==> Segment(ix.members, ix.offsets[k], ix.offsets[k + 1], ValueSet(edges, k))
  }

  /** `ix` stores only where each key's run of edges starts. */
  ghost predicate RangeIndex(ix: Index, size: nat, edges: seq<Edge>) {
    && WellFormed(ix, size)
    && ix.range
    && ix.members == []
    && forall k :: 0 <= k <= size ==> ix.offsets[k] == Below(edges, k)
  }

  // ---------------------------------------------------------------- lemmas about the specification

  lemma {:induction false} ValuesOfElements(edges: seq<Edge>, k: nat)
    ensures Elements(ValuesOf(edges, k)) == ValueSet(edges, k)
  {
    if edges != [] {
      var rest, e := edges[..|edges| - 1], edges[|edges| - 1];
      ValuesOfElements(rest, k);
      assert edges == rest + [e];
      if e.key == k {
        assert Elements(ValuesOf(rest, k) + [e.value]) == Elements(ValuesOf(rest, k)) + {e.value};
        assert ValueSet(edges, k) == ValueSet(rest, k) + {e.value};
      } else {
        assert ValuesOf(edges, k) == ValuesOf(rest, k);
        assert ValueSet(edges, k) == ValueSet(rest, k);
      }
    }
  }

  /** One more visited edge. */
  lemma ValuesOfNext(edges: seq<Edge>, i: nat, k: nat)
    requires i < |edges|
    ensures ValuesOf(edges[..i + 1], k) ==
            ValuesOf(edges[..i], k) + if edges[i].key == k then [edges[i].value] else []
  {
    assert edges[..i + 1][..i] == edges[..i];
  }

  lemma {:induction false} ValuesOfPrefix(edges: seq<Edge>, i: nat, k: nat)
    requires i <= |edges|
    ensures |ValuesOf(edges[..i], k)| <= |ValuesOf(edges, k)|
    decreases |edges| - i
  {
    if i == |edges| {
      assert edges[..i] == edges;
    } else {
      ValuesOfNext(edges, i, k);
      ValuesOfPrefix(edges, i + 1, k);
    }
  }

  lemma {:induction false} BelowMonotone(edges: seq<Edge>, k: nat, m: nat)
    requires k <= m
    ensures Below(edges, k) <= Below(edges, m)
  {
    if k < m {
      BelowMonotone(edges, k, m - 1);
    }
  }

  lemma {:induction false} BelowNext(edges: seq<Edge>, i: nat, k: nat)
    requires i < |edges|
    ensures Below(edges[..i + 1], k) == Below(edges[..i], k) + if edges[i].key < k then 1 else 0
  {
    if k > 0 {
      BelowNext(edges, i, k - 1);
      ValuesOfNext(edges, i, k - 1);
    }
  }

  lemma {:induction false} BelowEmpty(k: nat)
    ensures Below([], k) == 0
  {
    if k > 0 {
      BelowEmpty(k - 1);
    }
  }

  /** The windows cover all edges: nothing is lost and nothing is counted twice. */
  lemma {:induction false} BelowAll(edges: seq<Edge>, size: nat)
    requires KeysBelow(edges, size)
    ensures Below(edges, size) == |edges|
  {
    if edges == [] {
      BelowEmpty(size);
    } else {
      var i := |edges| - 1;
      assert edges[..i + 1] == edges;
      BelowNext(edges, i, size);
      BelowAll(edges[..i], size);
    }
  }

  /** The fill cursor of a key stays inside the key's own window. */
  lemma CursorRoom(edges: seq<Edge>, size: nat, i: nat)
    requires KeysBelow(edges, size) && i < |edges|
    ensures Below(edges, edges[i].key) + |ValuesOf(edges[..i], edges[i].key)|
            < Below(edges, edges[i].key + 1) <= |edges|
  {
    hide ValuesOf;
    var k := edges[i].key;
    assert edges[i] in edges;
    ValuesOfNext(edges, i, k);
    ValuesOfPrefix(edges, i + 1, k);
    BelowMonotone(edges, k + 1, size);
    BelowAll(edges, size);
  }

  // ---------------------------------------------------------------- construction

  /** `uint32` addition, or the overflow panic. */
  function AddIndexCount(a: nat, b: nat): (r: Result<nat>)
    requires a <= MAX_U32
    ensures r == Checked(a + b)
  {
    if b > MAX_U32 - a then Fail(Overflow) else Success(a + b)
  }

  ghost predicate Counted(offsets: seq<nat>, size: nat, edges: seq<Edge>) {
    |offsets| == size + 1 && offsets[0] == 0 &&
    forall k :: 0 <= k < size ==> offsets[k + 1] == |ValuesOf(edges, k)|
  }

  /** First replay: how often each key occurs. */
  method CountKeys(ctx: Context, offsets: Slabs<nat>, size: nat, edges: seq<Edge>) returns (r: Result<()>)
    requires offsets.Valid() && KeysBelow(edges, size)
    requires offsets.Contents == Zeros(0, size + 1)
    modifies offsets.Repr
    ensures offsets.Valid() && offsets.Repr == old(offsets.Repr)
    ensures r.Success? ==> Counted(offsets.Contents, size, edges) && |edges| <= MAX_U32
    ensures r.Fail? ==> (r.error == Canceled && ctx.Cancelable?) || (r.error == Overflow && |edges| > MAX_U32)
  {
    hide Slabs.Valid, Slabs.At, ValuesOf, Counted;
    CountedNone(offsets.Contents, size);
    var total: nat := 0;
    for i := 0 to |edges|
      invariant offsets.Valid() && offsets.Repr == old(offsets.Repr)
      invariant Counted(offsets.Contents, size, edges[..i])
      invariant total == i <= MAX_U32
    {
      if total % 1024 == 0 {
        var canceled := CheckContext(ctx);
        if canceled {
          return Fail(Canceled);
        }
      }
      var key := edges[i].key;
      assert edges[i] in edges;
      total :- AddIndexCount(total, 1);
      CountedNext(offsets.Contents, size, edges, i);
      var p := offsets.At(key + 1);
      var q := AddIndexCount(p, 1);
      assert q.Success?;
      offsets.Set(key + 1, q.value);
    }
    assert edges[..|edges|] == edges;
    return Success(());
  }

  lemma CountedNone(offsets: seq<nat>, size: nat)
    requires offsets == Zeros(0, size + 1)
    ensures Counted(offsets, size, [])
  {
  }

  lemma CountedNext(offsets: seq<nat>, size: nat, edges: seq<Edge>, i: nat)
    requires i < |edges| && edges[i].key < size && Counted(offsets, size, edges[..i])
    ensures |offsets| == size + 1 && offsets[edges[i].key + 1] <= i
    ensures Counted(offsets[edges[i].key + 1 := offsets[edges[i].key + 1] + 1], size, edges[..i + 1])
  {
    forall k: nat {:trigger ValuesOf(edges[..i + 1], k)} | k < size
      ensures |ValuesOf(edges[..i + 1], k)| == offsets[k + 1] + if edges[i].key == k then 1 else 0
    {
      ValuesOfNext(edges, i, k);
    }
    ValuesOfSize(edges[..i], edges[i].key);
  }

  lemma {:induction false} ValuesOfSize(edges: seq<Edge>, k: nat)
    ensures |ValuesOf(edges, k)| <= |edges|
  {
    if edges != [] {
      ValuesOfSize(edges[..|edges| - 1], k);
    }
  }

  /** Counts become window starts. */
  method PrefixIndexCounts(ctx: Context, offsets: Slabs<nat>, ghost size: nat, ghost edges: seq<Edge>)
    returns (r: Result<()>)
    requires offsets.Valid() && KeysBelow(edges, size) && |edges| <= MAX_U32
    requires Counted(offsets.Contents, size, edges)
    modifies offsets.Repr
    ensures offsets.Valid() && offsets.Repr == old(offsets.Repr)
    ensures r.Success? ==> |offsets.Contents| == size + 1 && forall k :: 0 <= k <= size ==>
              offsets.Contents[k] == Below(edges, k)
    ensures r.Fail? ==> r.error == Canceled && ctx.Cancelable?
  {
    hide Slabs.Valid, Slabs.At, ValuesOf;
    for i := 1 to offsets.Len()
      invariant offsets.Valid() && offsets.Repr == old(offsets.Repr)
      invariant |offsets.Contents| == size + 1
      invariant forall k :: 0 <= k < i ==> offsets.Contents[k] == Below(edges, k)
      invariant forall k :: i <= k <= size ==> offsets.Contents[k] == |ValuesOf(edges, k - 1)|
    {
      var canceled := CheckContext(ctx);
      if canceled {
        return Fail(Canceled);
      }
      BelowMonotone(edges, i, size);
      BelowAll(edges, size);
      var sum := AddIndexCount(offsets.At(i), offsets.At(i - 1));
      assert sum.Success?;
      offsets.Set(i, sum.value);
    }
    return Success(());
  }

  /** `members` holds, at the window of `k`, the values seen for it so far in visiting order. */
  ghost predicate FilledAt(members: seq<nat>, edges: seq<Edge>, i: nat, k: nat)
    requires i <= |edges|
  {
    var seen := ValuesOf(edges[..i], k);
    Below(edges, k) + |seen| <= |members| && members[Below(edges, k)..Below(edges, k) + |seen|] == seen
  }

  ghost predicate Filled(members: seq<nat>, size: nat, edges: seq<Edge>, i: nat)
    requires i <= |edges|
  {
    |members| == |edges| && forall k :: 0 <= k < size ==> FilledAt(members, edges, i, k)
  }

  ghost predicate Cursors(cursor: seq<nat>, size: nat, edges: seq<Edge>, i: nat)
    requires i <= |edges|
  {
    |cursor| == size &&
    forall k :: 0 <= k < size ==> cursor[k] == Below(edges, k) + |ValuesOf(edges[..i], k)|
  }

  lemma FilledNone(members: seq<nat>, size: nat, edges: seq<Edge>)
    requires KeysBelow(edges, size) && |members| == |edges|
    ensures Filled(members, size, edges, 0)
  {
    forall k | 0 <= k < size
      ensures FilledAt(members, edges, 0, k)
    {
      BelowMonotone(edges, k, size);
      BelowAll(edges, size);
    }
  }

  lemma FilledNext(members: seq<nat>, cursor: seq<nat>, size: nat, edges: seq<Edge>, i: nat)
    requires KeysBelow(edges, size) && i < |edges| && edges[i].key < size
    requires Filled(members, size, edges, i) && Cursors(cursor, size, edges, i)
    ensures cursor[edges[i].key] < |members|
    ensures Filled(members[cursor[edges[i].key] := edges[i].value], size, edges, i + 1)
    ensures Cursors(cursor[edges[i].key := cursor[edges[i].key] + 1], size, edges, i + 1)
  {
    hide ValuesOf, Below;
    CursorRoom(edges, size, i);
    forall k | 0 <= k < size
      ensures FilledAt(members[cursor[edges[i].key] := edges[i].value], edges, i + 1, k)
      ensures |ValuesOf(edges[..i + 1], k)| == |ValuesOf(edges[..i], k)| + if edges[i].key == k then 1 else 0
    {
      assert FilledAt(members, edges, i, k);
      FilledNextAt(members, size, edges, i, k);
      ValuesOfNext(edges, i, k);
    }
  }

  lemma FilledNextAt(members: seq<nat>, size: nat, edges: seq<Edge>, i: nat, k: nat)
    requires KeysBelow(edges, size) && i < |edges| && edges[i].key < size && k < size
    requires |members| == |edges| && FilledAt(members, edges, i, k)
    requires Below(edges, edges[i].key) + |ValuesOf(edges[..i], edges[i].key)| < |members|
    ensures FilledAt(members[Below(edges, edges[i].key) + |ValuesOf(edges[..i], edges[i].key)| := edges[i].value],
            edges, i + 1, k)
  {
    hide ValuesOf;
    var key := edges[i].key;
    var at := Below(edges, key) + |ValuesOf(edges[..i], key)|;
    CursorRoom(edges, size, i);
    ValuesOfNext(edges, i, k);
    ValuesOfPrefix(edges, i + 1, k);
    if k < key {
      BelowMonotone(edges, k + 1, key);
    } else if key < k {
      BelowMonotone(edges, key + 1, k);
    } else {
      var b := Below(edges, key);
      assert members[at := edges[i].value][b..at + 1] == members[b..at] + [edges[i].value];
    }
  }

  /** Second replay: every value goes where its key's cursor points. */
  method FillMembers(members: Slabs<nat>, cursor: Slabs<nat>, ghost size: nat, edges: seq<Edge>) returns (r: Result<()>)
    requires members.Valid() && cursor.Valid() && members.Repr !! cursor.Repr
    requires KeysBelow(edges, size)
    requires |members.Contents| == |edges| && Cursors(cursor.Contents, size, edges, 0)
    modifies members.Repr, cursor.Repr
    ensures members.Valid() && members.Repr == old(members.Repr)
    ensures r.Success? ==> Filled(members.Contents, size, edges, |edges|)
    ensures r.Success? <==> forall e :: e in edges ==> e.value <= MAX_U32
    ensures r.Fail? ==> r.error == Overflow
  {
    hide ValuesOf, Below;
    FilledNone(members.Contents, size, edges);
    for i := 0 to |edges|
      invariant members.Valid() && members.Repr == old(members.Repr)
      invariant cursor.Valid() && cursor.Repr == old(cursor.Repr)
      invariant Filled(members.Contents, size, edges, i) && Cursors(cursor.Contents, size, edges, i)
      invariant forall j :: 0 <= j < i ==> edges[j].value <= MAX_U32
    {
      var e := edges[i];
      assert e in edges;
      FilledNext(members.Contents, cursor.Contents, size, edges, i);
      var p := cursor.At(e.key);
      var value :- Checked(e.value);
      members.Set(p, value);
      cursor.Set(e.key, p + 1);
    }
    return Success(());
  }

  // ---------------------------------------------------------------- per-window sort and compaction

  /** Only the order of the elements of one window may have changed. */
  ghost predicate Rearranged(a: seq<nat>, b: seq<nat>, start: nat, stop: nat) {
    && start <= stop <= |a| == |b|
    && a[..start] == b[..start] && a[stop..] == b[stop..]
    && multiset(a[start..stop]) == multiset(b[start..stop])
  }

  /** Sorted from `start` up to `stop`, except that the element at `j` may be too small. */
  ghost predicate SortedBut(s: seq<nat>, start: nat, stop: nat, j: nat) {
    stop <= |s| && forall p, q :: start <= p < q < stop && q != j ==> s[p] <= s[q]
  }

  function Swapped(s: seq<nat>, i: nat, j: nat): (r: seq<nat>)
    requires i < |s| && j < |s|
    ensures |r| == |s|
  {
    s[i := s[j]][j := s[i]]
  }

  lemma SwapKeeps(s: seq<nat>, before: seq<nat>, start: nat, stop: nat, j: nat)
    requires Rearranged(s, before, start, stop) && start < j < stop
    ensures Rearranged(Swapped(s, j, j - 1), before, start, stop)
  {
    var w, k := s[start..stop], j - start;
    assert Swapped(s, j, j - 1)[start..stop] == Swapped(w, k, k - 1);
    assert multiset(Swapped(w, k, k - 1)) == multiset(w);
  }

  lemma SwapImproves(s: seq<nat>, start: nat, stop: nat, j: nat)
    requires SortedBut(s, start, stop, j) && start < j < stop && s[j] < s[j - 1]
    ensures SortedBut(Swapped(s, j, j - 1), start, stop, j - 1)
  {
  }

  lemma InsertStarts(s: seq<nat>, start: nat, stop: nat, i: nat)
    requires SortedBut(s, start, i, i) && start <= i < stop <= |s|
    ensures Rearranged(s, s, start, stop) && SortedBut(s, start, i + 1, i)
  {
  }

  lemma SortedNext(s: seq<nat>, start: nat, stop: nat, j: nat)
    requires SortedBut(s, start, stop, j) && start <= j < stop && (j == start || s[j - 1] <= s[j])
    ensures SortedBut(s, start, stop, stop)
  {
  }

  predicate LessAt(members: Slabs<nat>, i: nat, j: nat): (less: bool)
    reads members, members.Repr
    requires members.Valid() && i < |members.Contents| && j < |members.Contents|
    ensures less == (members.Contents[i] < members.Contents[j])
  {
    members.At(i) < members.At(j)
  }

  method Swap(ctx: Context, members: Slabs<nat>, i: nat, j: nat) returns (canceled: bool)
    requires members.Valid() && i < |members.Contents| && j < |members.Contents|
    modifies members.Repr
    ensures canceled ==> ctx.Cancelable?
    ensures members.Valid() && members.Repr == old(members.Repr)
    ensures members.Contents ==
            if canceled then old(members.Contents)
            else Swapped(old(members.Contents), i, j)
  {
    canceled := CheckContext(ctx);
    if canceled {
      return;
    }
    var a, b := members.At(i), members.At(j);
    members.Set(i, b);
    members.Set(j, a);
  }

  /** Insertion of the element at `i` into the sorted part of the window before it. */
  method InsertInWindow(ctx: Context, members: Slabs<nat>, start: nat, stop: nat, i: nat) returns (canceled: bool)
    requires members.Valid() && start <= i < stop <= |members.Contents|
    requires SortedBut(members.Contents, start, i, i)
    modifies members.Repr
    ensures canceled ==> ctx.Cancelable?
    ensures members.Valid() && members.Repr == old(members.Repr)
    ensures Rearranged(members.Contents, old(members.Contents), start, stop)
    ensures !canceled ==> SortedBut(members.Contents, start, i + 1, i + 1)
  {
    ghost var before, c := members.Contents, members.Contents;
    var j := i;
    InsertStarts(c, start, stop, i);
    hide *;
    while j > start && LessAt(members, j, j - 1)
      invariant members.Valid() && members.Repr == old(members.Repr)
      invariant members.Contents == c
      invariant start <= j <= i < stop <= |c|
      invariant Rearranged(c, before, start, stop)
      invariant SortedBut(c, start, i + 1, j)
    {
      SwapKeeps(c, before, start, stop, j);
      SwapImproves(c, start, i + 1, j);
      canceled := Swap(ctx, members, j, j - 1);
      if canceled {
        return;
      }
      c := Swapped(c, j, j - 1);
      j := j - 1;
    }
    SortedNext(c, start, i + 1, j);
    return false;
  }

  /** Sorting one window through the comparator and swap of the window, in place. */
  method SortWindow(ctx: Context, members: Slabs<nat>, start: nat, stop: nat) returns (canceled: bool)
    requires members.Valid() && start <= stop <= |members.Contents|
    modifies members.Repr
    ensures canceled ==> ctx.Cancelable?
    ensures members.Valid() && members.Repr == old(members.Repr)
    ensures Rearranged(members.Contents, old(members.Contents), start, stop)
    ensures !canceled ==> Sorted(NatLess(), members.Contents[start..stop])
  {
    ghost var before := members.Contents;
    for i := start to stop
      invariant members.Valid() && members.Repr == old(members.Repr)
      invariant Rearranged(members.Contents, before, start, stop)
      invariant SortedBut(members.Contents, start, i, i)
    {
      ghost var current := members.Contents;
      canceled := InsertInWindow(ctx, members, start, stop, i);
      RearrangedTransitive(members.Contents, current, before, start, stop);
      if canceled {
        return;
      }
    }
    return false;
  }

  lemma RearrangedTransitive(a: seq<nat>, b: seq<nat>, c: seq<nat>, start: nat, stop: nat)
    requires Rearranged(a, b, start, stop) && Rearranged(b, c, start, stop)
    ensures Rearranged(a, c, start, stop)
  {
  }

  lemma CompactNext(s: seq<nat>, i: nat)
    requires i < |s|
    ensures Compact(s[..i + 1]) ==
            if i > 0 && s[i] == s[i - 1] then Compact(s[..i]) else Compact(s[..i]) + [s[i]]
    ensures |Compact(s[..i])| <= i
  {
    assert s[..i + 1][..i] == s[..i];
    CompactSize(s[..i]);
  }

  lemma {:induction false} CompactSize(s: seq<nat>)
    ensures |Compact(s)| <= |s|
  {
    if |s| >= 2 {
      CompactSize(s[..|s| - 1]);
    }
  }

  /** The distinct values of `window[..i]` have moved down to `n0..n`; from `j` on, and below `n0`,
      nothing has changed. */
  ghost predicate Compacting(s: seq<nat>, before: seq<nat>, window: seq<nat>, n0: nat, n: nat, j: nat, i: nat) {
    && n0 <= n <= j <= |s| == |before| && i <= |window|
    && s[..n0] == before[..n0]
    && s[n0..n] == Compact(window[..i])
    && s[j..] == before[j..]
  }

  lemma CompactingNone(s: seq<nat>, window: seq<nat>, n: nat, start: nat)
    requires n <= start <= |s|
    ensures Compacting(s, s, window, n, n, start, 0)
  {
    assert s[n..n] == Compact(window[..0]);
  }

  lemma CompactingNext(s: seq<nat>, before: seq<nat>, window: seq<nat>, n0: nat, n: nat, j: nat, i: nat)
    requires Compacting(s, before, window, n0, n, j, i)
    requires j < |s| && i < |window| && window[i] == before[j]
    ensures s[j] == window[i]
    ensures if i == 0 || window[i] != window[i - 1]
            then Compacting(s[n := window[i]], before, window, n0, n + 1, j + 1, i + 1)
            else Compacting(s, before, window, n0, n, j + 1, i + 1)
  {
    CompactNext(window, i);
    assert s[j] == s[j..][0];
    assert before[j..][1..] == before[j + 1..];
    assert s[j..][1..] == s[j + 1..];
    assert s[n := window[i]][n0..n + 1] == s[n0..n] + [window[i]];
    assert s[n := window[i]][j + 1..] == s[j + 1..];
  }

  /** Moving the distinct values of a sorted window down to position `n`, which never lies above
      the position being read. */
  method CompactWindow(ctx: Context, members: Slabs<nat>, n0: nat, start: nat, stop: nat)
    returns (canceled: bool, n: nat)
    requires members.Valid() && n0 <= start <= stop <= |members.Contents|
    modifies members.Repr
    ensures canceled ==> ctx.Cancelable?
    ensures members.Valid() && members.Repr == old(members.Repr)
    ensures !canceled ==>
              var window := old(members.Contents)[start..stop];
              Compacting(members.Contents, old(members.Contents), window, n0, n, stop, stop - start)
  {
    hide Compacting, Slabs.Valid;
    ghost var before := members.Contents;
    ghost var window := before[start..stop];
    n := n0;
    var previous: nat := 0;
    CompactingNone(before, window, n0, start);
    for j := start to stop
      invariant members.Valid() && members.Repr == old(members.Repr)
      invariant Compacting(members.Contents, before, window, n0, n, j, j - start)
      invariant n <= j && |members.Contents| == |before|
      invariant j > start ==> previous == window[j - start - 1]
    {
      if j % 1024 == 0 {
        canceled := CheckContext(ctx);
        if canceled {
          return;
        }
      }
      CompactingNext(members.Contents, before, window, n0, n, j, j - start);
      var value := members.At(j);
      if j == start || value != previous {
        members.Set(n, value);
        n := n + 1;
        previous := value;
      }
    }
    canceled := false;
  }

  // ---------------------------------------------------------------- the pass over the windows

  /** After the windows below `i` are done: `starts` are their new offsets (the last one is the
      write position) and each segment of `s` holds its key's distinct values in order. */
  ghost predicate Done(s: seq<nat>, starts: seq<nat>, edges: seq<Edge>, i: nat) {
    && |starts| == i + 1 && starts[0] == 0
    && forall k :: 0 <= k < i ==> Segment(s, starts[k], starts[k + 1], ValueSet(edges, k))
  }

  /** The windows from `i` on still hold the values as they were filled. */
  ghost predicate Untouched(s: seq<nat>, size: nat, edges: seq<Edge>, i: nat) {
    |s| == |edges| && forall k :: i <= k < size ==> FilledAt(s, edges, |edges|, k)
  }

  lemma NatLessTotal()
    ensures StrictTotal(NatLess())
  {
  }

  /** Sorting and compacting the window of `i` completes it. */
  lemma DoneNext(s: seq<nat>, sorted: seq<nat>, s': seq<nat>, starts: seq<nat>, size: nat, edges: seq<Edge>, i: nat,
                 n: nat, n': nat)
    requires i < size && KeysBelow(edges, size)
    requires Done(s, starts, edges, i) && starts[i] == n <= Below(edges, i) && Untouched(s, size, edges, i)
    requires Below(edges, i) <= Below(edges, i + 1) <= |s|
    requires Rearranged(sorted, s, Below(edges, i), Below(edges, i + 1))
    requires Sorted(NatLess(), sorted[Below(edges, i)..Below(edges, i + 1)])
    requires Compacting(s', sorted, sorted[Below(edges, i)..Below(edges, i + 1)], n, n', Below(edges, i + 1),
             Below(edges, i + 1) - Below(edges, i))
    ensures Done(s', starts + [n'], edges, i + 1)
    ensures Untouched(s', size, edges, i + 1)
  {
    hide ValuesOf, Below, ValueSet;
    var start, stop := Below(edges, i), Below(edges, i + 1);
    var window := sorted[start..stop];
    assert window[..stop - start] == window;
    NatLessTotal();
    CompactStrict(NatLess(), window);
    ValuesOfElements(edges, i);
    WindowIs(s, edges, i);
    SameElements(window, s[start..stop]);
    assert Segment(s', n, n', ValueSet(edges, i));
    forall k | 0 <= k < i
      ensures Segment(s', starts[k], starts[k + 1], ValueSet(edges, k))
    {
      SegmentKept(s, s', starts, edges, i, k, n);
    }
    forall k | i + 1 <= k < size
      ensures FilledAt(s', edges, |edges|, k)
    {
      BelowMonotone(edges, i + 1, k);
      WindowIs(s, edges, k);
      SuffixKept(s', s, stop, Below(edges, k), Below(edges, k + 1));
      WindowIs(s', edges, k);
    }
  }

  lemma WindowIs(s: seq<nat>, edges: seq<Edge>, k: nat)
    ensures Below(edges, k) <= Below(edges, k + 1)
    ensures FilledAt(s, edges, |edges|, k) <==>
            Below(edges, k + 1) <= |s| && s[Below(edges, k)..Below(edges, k + 1)] == ValuesOf(edges, k)
  {
    hide ValuesOf;
    assert edges[..|edges|] == edges;
  }

  lemma SameElements(a: seq<nat>, b: seq<nat>)
    requires multiset(a) == multiset(b)
    ensures Elements(a) == Elements(b)
  {
    forall x
      ensures x in a <==> x in b
    {
      assert x in multiset(a) <==> x in multiset(b);
    }
  }

  lemma SuffixKept(a: seq<nat>, b: seq<nat>, from: nat, start: nat, stop: nat)
    requires |a| == |b| && from <= start <= stop <= |a| && a[from..] == b[from..]
    ensures a[start..stop] == b[start..stop]
  {
    forall t | start <= t < stop
      ensures a[t] == b[t]
    {
      assert a[t] == a[from..][t - from] == b[from..][t - from];
    }
  }

  lemma {:induction false} StartsMonotone(s: seq<nat>, starts: seq<nat>, edges: seq<Edge>, i: nat, k: nat)
    requires Done(s, starts, edges, i) && k <= i
    ensures starts[k] <= starts[i]
    decreases i - k
  {
    hide ValueSet;
    if k < i {
      assert Segment(s, starts[k], starts[k + 1], ValueSet(edges, k));
      StartsMonotone(s, starts, edges, i, k + 1);
    }
  }

  lemma SegmentKept(s: seq<nat>, s': seq<nat>, starts: seq<nat>, edges: seq<Edge>, i: nat, k: nat, n: nat)
    requires Done(s, starts, edges, i) && k < i && starts[i] == n <= |s| == |s'| && s'[..n] == s[..n]
    ensures Segment(s', starts[k], starts[k + 1], ValueSet(edges, k))
  {
    hide ValueSet;
    StartsMonotone(s, starts, edges, i, k + 1);
    assert Segment(s, starts[k], starts[k + 1], ValueSet(edges, k));
    var start, stop := starts[k], starts[k + 1];
    assert s'[start..stop] == s'[..n][start..stop];
    assert s[start..stop] == s[..n][start..stop];
  }

  /** `offsets` while it is overwritten: new starts below `i`, old window starts from `i` on. */
  ghost predicate Overwritten(offsets: seq<nat>, starts: seq<nat>, size: nat, edges: seq<Edge>, i: nat) {
    && i <= size && |offsets| == size + 1 && |starts| == i + 1
    && starts[i] <= Below(edges, i) <= |edges|
    && (forall k :: 0 <= k < i ==> offsets[k] == starts[k])
    && (forall k :: i <= k <= size ==> offsets[k] == Below(edges, k))
  }

  /** What one turn may rely on: the two offsets it reads are still the old ones. */
  lemma OverwrittenRead(offsets: seq<nat>, starts: seq<nat>, size: nat, edges: seq<Edge>, i: nat)
    requires KeysBelow(edges, size) && Overwritten(offsets, starts, size, edges, i) && i < size
    ensures |offsets| == size + 1 && |starts| == i + 1
    ensures offsets[i] == Below(edges, i) && offsets[i + 1] == Below(edges, i + 1)
    ensures starts[i] <= Below(edges, i) <= Below(edges, i + 1) <= |edges|
  {
    hide ValuesOf;
    BelowMonotone(edges, i, i + 1);
    BelowMonotone(edges, i + 1, size);
    BelowAll(edges, size);
  }

  lemma OverwrittenNext(offsets: seq<nat>, starts: seq<nat>, size: nat, edges: seq<Edge>, i: nat, n: nat)
    requires KeysBelow(edges, size) && Overwritten(offsets, starts, size, edges, i) && i < size
    requires n <= Below(edges, i + 1)
    ensures Overwritten(offsets[i := starts[i]], starts + [n], size, edges, i + 1)
  {
    BelowMonotone(edges, i + 1, size);
    BelowAll(edges, size);
  }

  lemma OverwrittenAll(offsets: seq<nat>, starts: seq<nat>, size: nat, edges: seq<Edge>)
    requires KeysBelow(edges, size) && Overwritten(offsets, starts, size, edges, size)
    ensures |offsets| == |starts| == size + 1 && starts[size] <= |edges|
    ensures offsets[size := starts[size]] == starts
  {
  }

  /** The pass over all windows: each is sorted and its distinct values are moved down to the write
      position, while `offsets` is overwritten behind the position it is read at. */
  method SortAndCompact(ctx: Context, offsets: Slabs<nat>, members: Slabs<nat>, size: nat, ghost edges: seq<Edge>)
    returns (r: Result<nat>)
    requires offsets.Valid() && members.Valid() && offsets.Repr !! members.Repr
    requires KeysBelow(edges, size) && |edges| <= MAX_U32
    requires Overwritten(offsets.Contents, [0], size, edges, 0)
    requires Untouched(members.Contents, size, edges, 0)
    modifies offsets.Repr, members.Repr
    ensures offsets.Valid() && offsets.Repr == old(offsets.Repr)
    ensures members.Valid() && members.Repr == old(members.Repr)
    ensures r.Success? ==>
              r.value <= |members.Contents| && |offsets.Contents| == size + 1 && offsets.Contents[size] == r.value
    ensures r.Success? ==> Done(members.Contents, offsets.Contents, edges, size)
    ensures r.Fail? ==> r.error == Canceled && ctx.Cancelable?
  {
    hide Overwritten, Done, Untouched, Rearranged, Compacting, Below, ValuesOf, Sorted, KeysBelow, Slabs.Valid,
      Slabs.At;
    ghost var s, starts, o: seq<nat> := members.Contents, [0], offsets.Contents;
    var n: nat := 0;
    DoneNone(s, edges);
    for i := 0 to size
      invariant offsets.Valid() && offsets.Repr == old(offsets.Repr) && offsets.Contents == o
      invariant members.Valid() && members.Repr == old(members.Repr) && members.Contents == s
      invariant |starts| == i + 1 && starts[i] == n
      invariant Overwritten(o, starts, size, edges, i)
      invariant Done(s, starts, edges, i) && Untouched(s, size, edges, i)
    {
      OverwrittenRead(o, starts, size, edges, i);
      UntouchedSize(s, size, edges, i);
      var canceled := CheckContext(ctx);
      if canceled {
        return Fail(Canceled);
      }
      var start, stop := offsets.At(i), offsets.At(i + 1);
      canceled := SortWindow(ctx, members, start, stop);
      if canceled {
        return Fail(Canceled);
      }
      ghost var sorted := members.Contents;
      RearrangedSize(sorted, s, start, stop);
      var first := Checked(n);
      assert first == Success(n);
      offsets.Set(i, first.value);
      canceled, n := CompactWindow(ctx, members, n, start, stop);
      if canceled {
        return Fail(Canceled);
      }
      CompactingSize(members.Contents, sorted, sorted[start..stop], first.value, n, stop, stop - start);
      DoneNext(s, sorted, members.Contents, starts, size, edges, i, first.value, n);
      OverwrittenNext(o, starts, size, edges, i, n);
      s, starts, o := members.Contents, starts + [n], offsets.Contents;
    }
    OverwrittenAll(o, starts, size, edges);
    UntouchedSize(s, size, edges, size);
    var last := Checked(n);
    assert last == Success(n);
    offsets.Set(size, last.value);
    return Success(n);
  }

  lemma DoneNone(s: seq<nat>, edges: seq<Edge>)
    ensures Done(s, [0], edges, 0)
  {
  }

  lemma UntouchedSize(s: seq<nat>, size: nat, edges: seq<Edge>, i: nat)
    requires Untouched(s, size, edges, i)
    ensures |s| == |edges|
  {
  }

  lemma RearrangedSize(a: seq<nat>, b: seq<nat>, start: nat, stop: nat)
    requires Rearranged(a, b, start, stop)
    ensures |a| == |b|
  {
  }

  lemma CompactingSize(s: seq<nat>, before: seq<nat>, window: seq<nat>, n0: nat, n: nat, j: nat, i: nat)
    requires Compacting(s, before, window, n0, n, j, i)
    ensures n0 <= n <= j <= |s| == |before|
  {
  }

  // ---------------------------------------------------------------- the whole construction

  /** The fill cursors start at the window starts. */
  method StartCursors(offsets: Slabs<nat>, size: nat, ghost edges: seq<Edge>) returns (cursor: Slabs<nat>)
    requires offsets.Valid() && size < MAX_U32 && |offsets.Contents| == size + 1
    requires forall k :: 0 <= k <= size ==> offsets.Contents[k] == Below(edges, k)
    ensures cursor.Valid() && fresh(cursor.Repr) && Cursors(cursor.Contents, size, edges, 0)
  {
    hide Slabs.Valid, Slabs.At, Below, ValuesOf;
    cursor := new Slabs<nat>(0);
    ghost var c := [];
    for i := 0 to size
      invariant cursor.Valid() && fresh(cursor.Repr) && cursor.Contents == c
      invariant |c| == i && forall k :: 0 <= k < i ==> c[k] == Below(edges, k)
    {
      var r := cursor.Append(offsets.At(i));
      assert r.Success?;
      c := c + [Below(edges, i)];
    }
    StartsAreCursors(c, size, edges);
  }

  lemma StartsAreCursors(c: seq<nat>, size: nat, edges: seq<Edge>)
    requires |c| == size && forall k :: 0 <= k < size ==> c[k] == Below(edges, k)
    ensures Cursors(c, size, edges, 0)
  {
  }

  lemma DoneIsMemberIndex(s: seq<nat>, offsets: seq<nat>, size: nat, edges: seq<Edge>, n: nat)
    requires Done(s, offsets, edges, size) && offsets[size] == n <= |s|
    ensures MemberIndex(Index(offsets, s[..n], false), size, edges)
  {
    forall k | 0 <= k < size
      ensures Segment(s[..n], offsets[k], offsets[k + 1], ValueSet(edges, k))
    {
      StartsMonotone(s, offsets, edges, size, k + 1);
      assert Segment(s, offsets[k], offsets[k + 1], ValueSet(edges, k));
      assert s[..n][offsets[k]..offsets[k + 1]] == s[offsets[k]..offsets[k + 1]];
    }
  }

  /** When construction panics with an overflow. */
  ghost predicate TooLarge(size: nat, contiguous: bool, edges: seq<Edge>) {
    || size + 1 > MAX_U32
    || |edges| > MAX_U32
    || (!contiguous && exists e :: e in edges && e.value > MAX_U32)
  }

  /** `edges` is the sequence of callbacks that the visitor makes on either replay. */
  method MakeIndex(ctx: Context, size: nat, contiguous: bool, edges: seq<Edge>) returns (r: Result<ReportIndex>)
    requires KeysBelow(edges, size)
    ensures r.Success? ==> r.value.Valid() && fresh(r.value.Repr()) && !TooLarge(size, contiguous, edges)
    ensures r.Success? && contiguous ==> RangeIndex(r.value.View(), size, edges)
    ensures r.Success? && !contiguous ==> MemberIndex(r.value.View(), size, edges)
    ensures r.Fail? ==>
              (r.error == Canceled && ctx.Cancelable?) || (r.error == Overflow && TooLarge(size, contiguous, edges))
  {
    hide Slabs.Valid, Slabs.At, Below, ValuesOf, ValueSet, Done, Counted, Untouched, Filled, FilledAt, Cursors,
      Overwritten, WellFormed, MemberIndex, RangeIndex, KeysBelow;
    var offsets := new Slabs<nat>(0);
    var _ :- offsets.Resize(size + 1);
    assert offsets.Contents == Zeros(0, size + 1);
    var _ :- CountKeys(ctx, offsets, size, edges);
    var _ :- PrefixIndexCounts(ctx, offsets, size, edges);
    var members := new Slabs<nat>(0);
    StartsAreOffsets(offsets.Contents, size, edges);
    if contiguous {
      return Success(ReportIndex(offsets, members, true));
    }
    var resized := members.Resize(offsets.At(size));
    assert resized.Success?;
    var cursor := StartCursors(offsets, size, edges);
    var _ :- FillMembers(members, cursor, size, edges);
    FilledIsUntouched(members.Contents, size, edges);
    var n :- SortAndCompact(ctx, offsets, members, size, edges);
    DoneIsMemberIndex(members.Contents, offsets.Contents, size, edges, n);
    members.Truncate(n);
    return Success(ReportIndex(offsets, members, false));
  }

  lemma StartsAreOffsets(offsets: seq<nat>, size: nat, edges: seq<Edge>)
    requires KeysBelow(edges, size)
    requires |offsets| == size + 1 && forall k :: 0 <= k <= size ==> offsets[k] == Below(edges, k)
    ensures Overwritten(offsets, [0], size, edges, 0)
    ensures RangeIndex(Index(offsets, [], true), size, edges)
    ensures offsets[size] == |edges|
  {
    BelowAll(edges, size);
    forall k | 0 <= k < size
      ensures offsets[k] <= offsets[k + 1]
    {
      BelowMonotone(edges, k, k + 1);
    }
  }

  lemma FilledIsUntouched(s: seq<nat>, size: nat, edges: seq<Edge>)
    requires Filled(s, size, edges, |edges|)
    ensures Untouched(s, size, edges, 0)
  {
  }

  // ---------------------------------------------------------------- reading an index

  /** The members of `k` as an index stores them: explicit members, or the row numbers of a range. */
  function Row(ix: Index, k: nat): seq<nat>
    requires k + 1 < |ix.offsets| && ix.offsets[k] <= ix.offsets[k + 1]
             && (ix.range || ix.offsets[k + 1] <= |ix.members|)
  {
    if ix.range then seq(ix.offsets[k + 1] - ix.offsets[k], i requires 0 <= i => ix.offsets[k] + i)
    else ix.members[ix.offsets[k]..ix.offsets[k + 1]]
  }

  /** A key's run of edges is where the smaller keys end. */
  lemma {:induction false} RunOfKey(edges: seq<Edge>, n: nat, k: nat)
    requires n <= |edges|
    requires forall i, j :: 0 <= i < j < |edges| ==> edges[i].key <= edges[j].key
    ensures Below(edges[..n], k) <= n
    ensures forall i :: 0 <= i < n ==> (edges[i].key < k <==> i < Below(edges[..n], k))
  {
    if n == 0 {
      BelowEmpty(k);
    } else {
      RunOfKey(edges, n - 1, k);
      BelowNext(edges, n - 1, k);
    }
  }

  /** A range index is sound without stored members: when edge `i` has value `i` and keys never
      decrease, the row numbers between two offsets are exactly the values of the key. */
  lemma RangeIsSound(ix: Index, size: nat, edges: seq<Edge>, k: nat)
    requires RangeIndex(ix, size, edges) && k < size
    requires forall i :: 0 <= i < |edges| ==> edges[i].value == i
    requires forall i, j :: 0 <= i < j < |edges| ==> edges[i].key <= edges[j].key
    ensures StrictlySorted(NatLess(), Row(ix, k))
    ensures Elements(Row(ix, k)) == ValueSet(edges, k)
  {
    hide Below;
    assert edges[..|edges|] == edges;
    RunOfKey(edges, |edges|, k);
    RunOfKey(edges, |edges|, k + 1);
    var row := Row(ix, k);
    forall x
      ensures x in row <==> x in ValueSet(edges, k)
    {
      if x in row {
        var i :| 0 <= i < |row| && row[i] == x;
        assert edges[x] in edges && edges[x].key == k;
      }
      if x in ValueSet(edges, k) {
        var e :| e in edges && e.key == k && e.value == x;
        var i :| 0 <= i < |edges| && edges[i] == e;
        assert i == x && row[x - ix.offsets[k]] == x;
      }
    }
  }

  lemma MemberRowIsSound(ix: Index, size: nat, edges: seq<Edge>, k: nat)
    requires MemberIndex(ix, size, edges) && k < size
    ensures ix.offsets[k + 1] <= |ix.members|
    ensures StrictlySorted(NatLess(), Row(ix, k))
    ensures Elements(Row(ix, k)) == ValueSet(edges, k)
  {
    assert Segment(ix.members, ix.offsets[k], ix.offsets[k + 1], ValueSet(edges, k));
  }
}
