/** Grouping advisory identifiers: the alias graph, and the union-find that computes its connected
    components while choosing each component's preferred name as its root. */
module Aliases {
  import opened Common
  import opened Interning
  import opened Order

  // ---------------------------------------------------------------- preference

  predicate IsCVE(s: string) {
    "CVE-" <= s
  }

  predicate Preferred(a: string, b: string) {
    (IsCVE(a) && !IsCVE(b)) || (IsCVE(a) == IsCVE(b) && Less(a, b))
  }

  function Preference(): (string, string) -> bool {
    (a, b) => Preferred(a, b)
  }

  lemma PreferenceTotal()
    ensures StrictTotal(Preference())
  {
    var less := Preference();
    forall x, y
      ensures less(x, y) ==> !less(y, x)
      ensures x == y || less(x, y) || less(y, x)
    {
      LessTotal(x, y);
    }
    forall x, y, z | less(x, y) && less(y, z)
      ensures less(x, z)
    {
      if Less(x, y) && Less(y, z) {
        LessTransitive(x, y, z);
      }
    }
  }

  lemma PreferredTransitive(a: string, b: string, c: string)
    requires Preferred(a, b) && Preferred(b, c)
    ensures Preferred(a, c)
  {
    PreferenceTotal();
    var less := Preference();
    assert less(a, b) && less(b, c);
  }

  lemma PreferredTotal(a: string, b: string)
    ensures !(Preferred(a, b) && Preferred(b, a))
    ensures a == b || Preferred(a, b) || Preferred(b, a)
  {
    LessTotal(a, b);
  }

  /** The names that begin with the four characters of a CVE number. */
  ghost function CVENames(names: set<string>): set<string> {
    set y | y in names && |y| >= 4 && y[0] == 'C' && y[1] == 'V' && y[2] == 'E' && y[3] == '-'
  }

  ghost predicate Least(names: set<string>, id: string) {
    id in names && forall y :: y in names && y != id ==> Less(id, y)
  }

  /** The least CVE name if there is one, and the least name otherwise. */
  ghost predicate GoesBy(names: set<string>, id: string) {
    Least(if CVENames(names) != {} then CVENames(names) else names, id)
  }

  /** The preference picks exactly that name. */
  lemma PreferredIsLeast(names: set<string>, id: string)
    ensures GoesBy(names, id) <==> id in names && forall y :: y in names && y != id ==> Preferred(id, y)
  {
    hide Less;
    forall y | y in names
      ensures y in CVENames(names) <==> IsCVE(y)
    {
    }
    if GoesBy(names, id) {
      forall y | y in names && y != id
        ensures Preferred(id, y)
      {
      }
    }
    if id in names && forall y :: y in names && y != id ==> Preferred(id, y) {
      if y :| y in CVENames(names) {
        assert y == id || Preferred(id, y);
      }
    }
  }

  // ---------------------------------------------------------------- the alias graph

  /** Two names that some group lists together. */
  ghost predicate Adjacent(groups: seq<seq<string>>, x: string, y: string) {
    exists g :: g in groups && x in g && y in g
  }

  ghost predicate IsPath(groups: seq<seq<string>>, p: seq<string>, x: string, y: string) {
    && p != [] && p[0] == x && p[|p| - 1] == y
    && forall i :: 0 <= i < |p| - 1 ==> Adjacent(groups, p[i], p[i + 1])
  }

  /** Connectedness in the alias graph. */
  ghost predicate Linked(groups: seq<seq<string>>, x: string, y: string) {
    exists p :: IsPath(groups, p, x, y)
  }

  ghost function Names(groups: seq<seq<string>>): set<string> {
    set g, x | g in groups && x in g :: x
  }

  lemma LinkedSelf(groups: seq<seq<string>>, x: string)
    ensures Linked(groups, x, x)
  {
    assert IsPath(groups, [x], x, x);
  }

  lemma LinkedGroup(groups: seq<seq<string>>, g: seq<string>, x: string, y: string)
    requires g in groups && x in g && y in g
    ensures Linked(groups, x, y)
  {
    assert IsPath(groups, [x, y], x, y);
  }

  lemma LinkedTransitive(groups: seq<seq<string>>, x: string, y: string, z: string)
    requires Linked(groups, x, y) && Linked(groups, y, z)
    ensures Linked(groups, x, z)
  {
    var p :| IsPath(groups, p, x, y);
    var q :| IsPath(groups, q, y, z);
    assert IsPath(groups, p + q[1..], x, z);
  }

  lemma LinkedSymmetric(groups: seq<seq<string>>, x: string, y: string)
    requires Linked(groups, x, y)
    ensures Linked(groups, y, x)
  {
    var p :| IsPath(groups, p, x, y);
    var q := seq(|p|, i requires 0 <= i < |p| => p[|p| - 1 - i]);
    forall i | 0 <= i < |q| - 1
      ensures Adjacent(groups, q[i], q[i + 1])
    {
      assert Adjacent(groups, p[|p| - 2 - i], p[|p| - 2 - i + 1]);
    }
    assert IsPath(groups, q, y, x);
  }

  /** More groups, or the same groups in another arrangement, keep every link. */
  lemma LinkedMonotone(groups: seq<seq<string>>, more: seq<seq<string>>, x: string, y: string)
    requires Linked(groups, x, y)
    requires forall g :: g in groups ==> exists h :: h in more && Elements(g) <= Elements(h)
    ensures Linked(more, x, y)
  {
    var p :| IsPath(groups, p, x, y);
    forall i | 0 <= i < |p| - 1
      ensures Adjacent(more, p[i], p[i + 1])
    {
      var g :| g in groups && p[i] in g && p[i + 1] in g;
      var h :| h in more && Elements(g) <= Elements(h);
      assert p[i] in Elements(g) && p[i + 1] in Elements(g);
    }
    assert IsPath(more, p, x, y);
  }

  // ---------------------------------------------------------------- the forest

  /** `parent` is a forest over `names` in which every step goes to a preferred name, and `rootOf`
      gives each element's root. */
  ghost predicate Forest(names: seq<string>, parent: seq<nat>, rootOf: seq<nat>) {
    && |parent| == |names| == |rootOf|
    && (forall i :: 0 <= i < |names| ==> parent[i] < |names| && rootOf[i] < |names|)
    && (forall i :: 0 <= i < |names| ==> rootOf[parent[i]] == rootOf[i])
    && (forall i :: 0 <= i < |names| ==> parent[rootOf[i]] == rootOf[i])
    && (forall i :: 0 <= i < |names| && parent[i] == i ==> rootOf[i] == i)
    && (forall i :: 0 <= i < |names| && parent[i] != i ==> Preferred(names[parent[i]], names[i]))
    && (forall i :: 0 <= i < |names| && rootOf[i] != i ==> Preferred(names[rootOf[i]], names[i]))
  }

  /** No element that pointed at its root is moved away from it. */
  ghost predicate Flatter(before: seq<nat>, parent: seq<nat>, rootOf: seq<nat>) {
    |before| == |parent| == |rootOf| &&
    forall i :: 0 <= i < |parent| && before[i] == rootOf[i] ==> parent[i] == rootOf[i]
  }

  lemma FlatterSelf(parent: seq<nat>, rootOf: seq<nat>)
    requires |parent| == |rootOf|
    ensures Flatter(parent, parent, rootOf)
  {
  }

  lemma FlatterTransitive(a: seq<nat>, b: seq<nat>, c: seq<nat>, rootOf: seq<nat>)
    requires Flatter(a, b, rootOf) && Flatter(b, c, rootOf)
    ensures Flatter(a, c, rootOf)
  {
  }

  /** Two steps up from an element that is not a root. */
  lemma GrandParent(names: seq<string>, parent: seq<nat>, rootOf: seq<nat>, id: nat)
    requires Forest(names, parent, rootOf) && id < |names| && parent[id] != id
    ensures |parent| == |rootOf| == |names| && parent[id] < |names| && parent[parent[id]] < |names|
    ensures rootOf[id] < |names| && rootOf[id] != id && rootOf[parent[parent[id]]] == rootOf[id]
    ensures parent[id] == rootOf[id] ==> parent[parent[id]] == rootOf[id]
    ensures Preferred(names[parent[parent[id]]], names[id])
  {
    hide Preferred;
    var p := parent[id];
    if parent[p] != p {
      PreferredTransitive(names[parent[p]], names[p], names[id]);
    }
    PreferredTotal(names[p], names[id]);
  }

  /** An element that is not a root may point at anything preferred with the same root. */
  lemma ForestRepoint(names: seq<string>, parent: seq<nat>, rootOf: seq<nat>, id: nat, to: nat)
    requires Forest(names, parent, rootOf) && id < |names| && to < |names| && |parent| == |rootOf| == |names|
    requires rootOf[id] != id && rootOf[to] == rootOf[id] && Preferred(names[to], names[id])
    ensures Forest(names, parent[id := to], rootOf)
  {
    hide Preferred;
    PreferredTotal(names[to], names[id]);
  }

  lemma ForestHalve(names: seq<string>, parent: seq<nat>, rootOf: seq<nat>, id: nat)
    requires Forest(names, parent, rootOf) && id < |names| && parent[id] != id
    ensures parent[id] < |names| && parent[parent[id]] < |names|
    ensures Forest(names, parent[id := parent[parent[id]]], rootOf)
    ensures rootOf[parent[parent[id]]] == rootOf[id]
    ensures Flatter(parent, parent[id := parent[parent[id]]], rootOf)
    ensures Preferred(names[parent[parent[id]]], names[id])
  {
    hide Preferred, Forest;
    GrandParent(names, parent, rootOf, id);
    ForestRepoint(names, parent, rootOf, id, parent[parent[id]]);
  }

  lemma ForestCompress(names: seq<string>, parent: seq<nat>, rootOf: seq<nat>, id: nat)
    requires Forest(names, parent, rootOf) && id < |names|
    ensures |parent| == |rootOf| == |names|
    ensures Forest(names, parent[id := rootOf[id]], rootOf)
    ensures Flatter(parent, parent[id := rootOf[id]], rootOf)
  {
    hide Preferred;
    if rootOf[id] != id {
      ForestRepoint(names, parent, rootOf, id, rootOf[id]);
    } else {
      assert parent[id := rootOf[id]] == parent;
    }
  }

  lemma ForestAt(names: seq<string>, parent: seq<nat>, rootOf: seq<nat>, id: nat)
    requires Forest(names, parent, rootOf) && id < |names|
    ensures |parent| == |rootOf| == |names| && parent[id] < |names| && rootOf[id] < |names|
    ensures rootOf[rootOf[id]] == rootOf[id]
    ensures parent[id] == id ==> rootOf[id] == id
  {
  }

  function Joined(rootOf: seq<nat>, a: nat, c: nat): seq<nat> {
    seq(|rootOf|, i requires 0 <= i < |rootOf| => if rootOf[i] == c then a else rootOf[i])
  }

  lemma ForestJoin(names: seq<string>, parent: seq<nat>, rootOf: seq<nat>, a: nat, c: nat)
    requires Forest(names, parent, rootOf) && a < |names| && c < |names|
    requires rootOf[a] == a && rootOf[c] == c
    requires a == c || Preferred(names[a], names[c])
    ensures Forest(names, parent[c := a], Joined(rootOf, a, c))
  {
    forall i | 0 <= i < |names| && rootOf[i] == c
      ensures a == i || Preferred(names[a], names[i])
    {
      if a != c && i != c {
        PreferredTransitive(names[a], names[c], names[i]);
      }
    }
  }

  lemma ForestGrow(names: seq<string>, parent: seq<nat>, rootOf: seq<nat>, name: string)
    requires Forest(names, parent, rootOf)
    ensures Forest(names + [name], parent + [|names|], rootOf + [|names|])
  {
  }

  /** How many names are preferred to that of `id`: a walk towards preferred names is finite. */
  ghost function Rank(names: seq<string>, id: nat): nat
    requires id < |names|
  {
    |set j: nat | j < |names| && Preferred(names[j], names[id])|
  }

  lemma RankDecreases(names: seq<string>, a: nat, b: nat)
    requires a < |names| && b < |names| && Preferred(names[a], names[b])
    ensures Rank(names, a) < Rank(names, b)
  {
    var below := set j: nat | j < |names| && Preferred(names[j], names[a]);
    var above := set j: nat | j < |names| && Preferred(names[j], names[b]);
    forall j | j in below
      ensures j in above
    {
      PreferredTransitive(names[j], names[a], names[b]);
    }
    PreferredTotal(names[a], names[a]);
    assert a in above && a !in below;
    SubsetSize(below, above - {a});
  }

  lemma {:induction false} SubsetSize(a: set<nat>, b: set<nat>)
    requires a <= b
    ensures |a| <= |b|
  {
    if a != {} {
      var x :| x in a;
      SubsetSize(a - {x}, b - {x});
    }
  }

  // ---------------------------------------------------------------- components

  /** `rootOf` partitions `names` into the connected components of the alias graph, and each root
      is the preferred name of its component. */
  ghost predicate Components(groups: seq<seq<string>>, names: seq<string>, rootOf: seq<nat>) {
    && |rootOf| == |names|
    && (forall i, j :: 0 <= i < j < |names| ==> names[i] != names[j])
    && Elements(names) == Names(groups)
    && (forall i :: 0 <= i < |names| ==> rootOf[i] < |names| && rootOf[rootOf[i]] == rootOf[i])
    && (forall i, j :: 0 <= i < |names| && 0 <= j < |names| ==>
          (rootOf[i] == rootOf[j] <==> Linked(groups, names[i], names[j])))
    && (forall i :: 0 <= i < |names| && rootOf[i] != i ==> Preferred(names[rootOf[i]], names[i]))
  }

  /** Every name occurs in a group and is linked to its root. */
  ghost predicate Sound(groups: seq<seq<string>>, names: seq<string>, rootOf: seq<nat>) {
    && |rootOf| == |names|
    && forall i :: 0 <= i < |names| ==>
         rootOf[i] < |names| && names[i] in Names(groups) && Linked(groups, names[i], names[rootOf[i]])
  }

  /** The members of one group are all interned and share their root. */
  ghost predicate OneRoot(g: seq<string>, ids: map<string, nat>, rootOf: seq<nat>, root: nat) {
    forall x :: x in g ==> x in ids && ids[x] < |rootOf| && rootOf[ids[x]] == root
  }

  ghost predicate Complete(groups: seq<seq<string>>, ids: map<string, nat>, rootOf: seq<nat>) {
    forall g :: g in groups ==> exists root: nat :: OneRoot(g, ids, rootOf, root)
  }

  ghost predicate Interned(ids: map<string, nat>, names: seq<string>) {
    && |names| <= MAX_U32
    && (forall x :: x in ids ==> ids[x] < |names| && names[ids[x]] == x)
    && (forall i :: 0 <= i < |names| ==> names[i] in ids && ids[names[i]] == i)
  }

  lemma SoundMore(groups: seq<seq<string>>, g: seq<string>, names: seq<string>, rootOf: seq<nat>)
    requires Sound(groups, names, rootOf)
    ensures Sound(groups + [g], names, rootOf)
  {
    forall i | 0 <= i < |names|
      ensures names[i] in Names(groups + [g]) && Linked(groups + [g], names[i], names[rootOf[i]])
    {
      var h :| h in groups && names[i] in h;
      assert h in groups + [g];
      LinkedMonotone(groups, groups + [g], names[i], names[rootOf[i]]);
    }
  }

  lemma SoundGrow(groups: seq<seq<string>>, names: seq<string>, rootOf: seq<nat>, name: string)
    requires Sound(groups, names, rootOf) && name in Names(groups)
    ensures Sound(groups, names + [name], rootOf + [|names|])
  {
    LinkedSelf(groups, name);
  }

  /** Joining the roots of two linked names keeps every element linked to its root. */
  lemma SoundJoin(groups: seq<seq<string>>, names: seq<string>, rootOf: seq<nat>, a: nat, c: nat)
    requires Sound(groups, names, rootOf) && a < |names| && c < |names|
    requires Linked(groups, names[c], names[a])
    ensures Sound(groups, names, Joined(rootOf, a, c))
  {
    forall i | 0 <= i < |names| && rootOf[i] == c
      ensures Linked(groups, names[i], names[a])
    {
      LinkedTransitive(groups, names[i], names[c], names[a]);
    }
  }

  lemma CompleteGrow(groups: seq<seq<string>>, ids: map<string, nat>, rootOf: seq<nat>, name: string)
    requires Complete(groups, ids, rootOf) && name !in ids
    ensures Complete(groups, ids[name := |rootOf|], rootOf + [|rootOf|])
  {
    var ids', rootOf' := ids[name := |rootOf|], rootOf + [|rootOf|];
    forall g | g in groups
      ensures exists root: nat :: OneRoot(g, ids', rootOf', root)
    {
      var root: nat :| OneRoot(g, ids, rootOf, root);
      assert OneRoot(g, ids', rootOf', root);
    }
  }

  lemma CompleteJoin(groups: seq<seq<string>>, ids: map<string, nat>, rootOf: seq<nat>, a: nat, c: nat)
    requires Complete(groups, ids, rootOf)
    ensures Complete(groups, ids, Joined(rootOf, a, c))
  {
    var rootOf' := Joined(rootOf, a, c);
    forall g | g in groups
      ensures exists root: nat :: OneRoot(g, ids, rootOf', root)
    {
      var root: nat :| OneRoot(g, ids, rootOf, root);
      assert OneRoot(g, ids, rootOf', if root == c then a else root);
    }
  }

  lemma CompleteMore(groups: seq<seq<string>>, g: seq<string>, ids: map<string, nat>, rootOf: seq<nat>, root: nat)
    requires Complete(groups, ids, rootOf) && OneRoot(g, ids, rootOf, root)
    ensures Complete(groups + [g], ids, rootOf)
  {
  }

  /** Linked names share a root: along a path, neighbours share a group and so a root. */
  lemma {:induction false} PathSharesRoot(groups: seq<seq<string>>, ids: map<string, nat>, rootOf: seq<nat>,
                                          p: seq<string>, x: string, y: string)
    requires Complete(groups, ids, rootOf) && IsPath(groups, p, x, y)
    requires x in ids && ids[x] < |rootOf|
    ensures y in ids && ids[y] < |rootOf| && rootOf[ids[y]] == rootOf[ids[x]]
    decreases |p|
  {
    if |p| > 1 {
      assert Adjacent(groups, p[0], p[0 + 1]);
      var g :| g in groups && p[0] in g && p[1] in g;
      var root: nat :| OneRoot(g, ids, rootOf, root);
      forall i | 0 <= i < |p[1..]| - 1
        ensures Adjacent(groups, p[1..][i], p[1..][i + 1])
      {
        assert Adjacent(groups, p[i + 1], p[i + 1 + 1]);
      }
      PathSharesRoot(groups, ids, rootOf, p[1..], p[1], y);
    }
  }

  /** What the invariants of the forest amount to. */
  lemma ForestGivesComponents(groups: seq<seq<string>>, names: seq<string>, ids: map<string, nat>, parent: seq<nat>,
                              rootOf: seq<nat>)
    requires Forest(names, parent, rootOf) && Interned(ids, names)
    requires Sound(groups, names, rootOf) && Complete(groups, ids, rootOf)
    ensures Components(groups, names, rootOf)
  {
    forall i, j | 0 <= i < |names| && 0 <= j < |names|
      ensures rootOf[i] == rootOf[j] <==> Linked(groups, names[i], names[j])
    {
      if rootOf[i] == rootOf[j] {
        LinkedSymmetric(groups, names[j], names[rootOf[j]]);
        LinkedTransitive(groups, names[i], names[rootOf[i]], names[j]);
      }
      if Linked(groups, names[i], names[j]) {
        var p :| IsPath(groups, p, names[i], names[j]);
        PathSharesRoot(groups, ids, rootOf, p, names[i], names[j]);
      }
    }
    forall x
      ensures x in Elements(names) <==> x in Names(groups)
    {
      if x in Names(groups) {
        var g :| g in groups && x in g;
        var root: nat :| OneRoot(g, ids, rootOf, root);
        assert names[ids[x]] == x;
      }
    }
  }

  lemma Losing(ids: map<string, nat>, names: seq<string>, a: nat, c: nat)
    requires Interned(ids, names) && a < |names| && c < |names|
    ensures Preferred(names[c], names[a]) || a == c || Preferred(names[a], names[c])
  {
    PreferredTotal(names[a], names[c]);
  }

  lemma OneRootJoin(done: seq<string>, name: string, ids: map<string, nat>, rootOf: seq<nat>, id: nat, root: nat,
                    a: nat, c: nat)
    requires OneRoot(done, ids, rootOf, root) && id < |rootOf| && name in ids && ids[name] == id
    requires (a == root && c == rootOf[id]) || (c == root && a == rootOf[id])
    ensures OneRoot(done + [name], ids, Joined(rootOf, a, c), a)
  {
  }

  lemma OneRootKept(g: seq<string>, ids: map<string, nat>, rootOf: seq<nat>, ids': map<string, nat>, rootOf': seq<nat>,
                    root: nat)
    requires OneRoot(g, ids, rootOf, root) && rootOf <= rootOf'
    requires forall x :: x in ids ==> x in ids' && ids'[x] == ids[x]
    ensures OneRoot(g, ids', rootOf', root)
  {
  }

  lemma FirstLinked(groups: seq<seq<string>>, names: seq<string>, parent: seq<nat>, rootOf: seq<nat>, g: seq<string>,
                    id: nat)
    requires Forest(names, parent, rootOf) && Sound(groups, names, rootOf) && id < |names| && g != []
             && names[id] == g[0]
    ensures rootOf[id] < |names| && rootOf[rootOf[id]] == rootOf[id]
    ensures exists x :: x in g && Linked(groups, x, names[rootOf[id]])
  {
    assert g[0] in g && Linked(groups, g[0], names[rootOf[id]]);
  }

  /** The roots of two members of one group are linked. */
  lemma RootsLinked(groups: seq<seq<string>>, names: seq<string>, rootOf: seq<nat>, g: seq<string>, name: string,
                    id: nat, root: nat)
    requires Sound(groups, names, rootOf) && id < |names| && root < |names| && names[id] == name
    requires g in groups && name in g && exists x :: x in g && Linked(groups, x, names[root])
    ensures Linked(groups, names[rootOf[id]], names[root]) && Linked(groups, names[root], names[rootOf[id]])
    ensures exists x :: x in g && Linked(groups, x, names[rootOf[id]])
  {
    var x :| x in g && Linked(groups, x, names[root]);
    var c := names[rootOf[id]];
    LinkedSymmetric(groups, name, c);
    LinkedGroup(groups, g, name, x);
    LinkedTransitive(groups, c, name, x);
    LinkedTransitive(groups, c, x, names[root]);
    LinkedSymmetric(groups, c, names[root]);
    assert name in g && Linked(groups, name, c);
  }

  lemma FirstInterned(names: seq<string>, ids: seq<string>)
    requires ids != []
    ensures InternAll(names, ids[..1]) == Intern(names, ids[0]) <= InternAll(names, ids)
  {
    InternAllNext(names, ids, 0);
    InternAllGrows(names, ids, 1);
    assert ids[..0] == [];
  }

  // ---------------------------------------------------------------- the builder's union-find

  class AliasForest {
    var aliasID: map<string, nat>
    var names: seq<string>
    var parent: seq<nat>
    /** The root of every element, and the groups united so far. */
    ghost var rootOf: seq<nat>
    ghost var groups: seq<seq<string>>

    /** The invariant while the groups `seen` are being taken in. */
    ghost predicate Consistent(seen: seq<seq<string>>)
      reads this
    {
      && Interned(aliasID, names)
      && Forest(names, parent, rootOf)
      && Sound(seen, names, rootOf)
      && Complete(groups, aliasID, rootOf)
    }

    ghost predicate Valid()
      reads this
    {
      Consistent(groups)
    }

    constructor ()
      ensures Valid() && groups == [] && names == []
    {
      aliasID, names, parent := map[], [], [];
      rootOf, groups := [], [];
    }

    lemma Meaning()
      requires Valid()
      ensures Components(groups, names, rootOf)
      ensures forall x :: x in aliasID <==> x in Names(groups)
      ensures forall x :: x in aliasID ==> aliasID[x] < |names| && names[aliasID[x]] == x
    {
      ForestGivesComponents(groups, names, aliasID, parent, rootOf);
      forall x
        ensures x in aliasID <==> x in Names(groups)
      {
        assert x in Elements(names) <==> x in Names(groups);
      }
    }

    lemma Sizes()
      requires Valid()
      ensures |names| == |parent| == |rootOf| <= MAX_U32
    {
    }

    method InternAlias(name: string, ghost seen: seq<seq<string>>) returns (r: Result<nat>)
      requires Consistent(seen) && name in Names(seen)
      modifies this
      ensures Consistent(seen) && groups == old(groups)
      ensures |names| == |rootOf|
      ensures r.Success? ==> r.value < |names| && names[r.value] == name && name in aliasID && aliasID[name] == r.value
      ensures r.Success? ==> names == Intern(old(names), name) && old(names) <= names && old(rootOf) <= rootOf
      ensures r.Success? ==> forall x :: x in old(aliasID) ==> x in aliasID && aliasID[x] == old(aliasID)[x]
      ensures r.Fail? <==> |old(names)| == MAX_U32 && name !in old(names)
      ensures r.Fail? ==> r.error == Overflow && |Intern(old(names), name)| > MAX_U32
    {
      assert name in names <==> name in aliasID;
      if name in aliasID {
        return Success(aliasID[name]);
      }
      var _ :- Checked(|names| + 1);
      var id := |names|;
      ForestGrow(names, parent, rootOf, name);
      SoundGrow(seen, names, rootOf, name);
      CompleteGrow(groups, aliasID, rootOf, name);
      aliasID := aliasID[name := id];
      names := names + [name];
      parent := parent + [id];
      rootOf := rootOf + [id];
      return Success(id);
    }

    /** Iterative path halving. Only `parent` changes, and no element changes its root. */
    method Root(id0: nat, ghost seen: seq<seq<string>>) returns (id: nat)
      requires Consistent(seen) && id0 < |names|
      modifies this`parent
      ensures Consistent(seen)
      ensures id == rootOf[id0] && Flatter(old(parent), parent, rootOf)
    {
      hide Forest, Interned, Sound, Complete, Rank, Flatter;
      id := id0;
      ForestAt(names, parent, rootOf, id);
      FlatterSelf(parent, rootOf);
      while parent[id] != id
        invariant Consistent(seen)
        invariant id < |names| == |parent| == |rootOf| && rootOf[id] == rootOf[id0]
        invariant parent[id] == id ==> rootOf[id] == id
        invariant Flatter(old(parent), parent, rootOf)
        decreases Rank(names, id)
      {
        ForestHalve(names, parent, rootOf, id);
        FlatterTransitive(old(parent), parent, parent[id := parent[parent[id]]], rootOf);
        RankDecreases(names, parent[parent[id]], id);
        parent := parent[id := parent[parent[id]]];
        id := parent[id];
        ForestAt(names, parent, rootOf, id);
      }
    }

    /** The root of `id`, which `id` then points at directly. */
    method Compress(id: nat) returns (root: nat)
      requires Valid() && id < |names|
      modifies this`parent
      ensures Valid()
      ensures |parent| == |rootOf| == |names| && root < |names|
      ensures root == rootOf[id] == parent[id] && Flatter(old(parent), parent, rootOf)
    {
      hide Forest, Interned, Sound, Complete, Flatter;
      ForestAt(names, parent, rootOf, id);
      root := Root(id, groups);
      ForestAt(names, parent, rootOf, id);
      ForestCompress(names, parent, rootOf, id);
      FlatterTransitive(old(parent), parent, parent[id := root], rootOf);
      parent := parent[id := root];
    }

    /** One union: the two roots become one, the preferred of the two. `done` are the members of the
        group `g` united so far, all with root `root`. */
    method Attach(name: string, root: nat, ghost g: seq<string>, ghost done: seq<string>, ghost seen: seq<seq<string>>)
      returns (r: Result<nat>)
      requires Consistent(seen) && g in seen && name in g
      requires root < |names| == |rootOf| && rootOf[root] == root && OneRoot(done, aliasID, rootOf, root)
      requires exists x :: x in g && Linked(seen, x, names[root])
      modifies this
      ensures r.Success? ==> Consistent(seen) && groups == old(groups) && names == Intern(old(names), name)
      ensures r.Success? ==> r.value < |names| == |rootOf| && rootOf[r.value] == r.value
      ensures r.Success? ==> OneRoot(done + [name], aliasID, rootOf, r.value)
      ensures r.Success? ==> exists x :: x in g && Linked(seen, x, names[r.value])
      ensures r.Fail? ==> r.error == Overflow && |Intern(old(names), name)| > MAX_U32
    {
      hide Forest, Interned, Sound, Complete, Linked;
      var id :- InternAlias(name, seen);
      OneRootKept(done, old(aliasID), old(rootOf), aliasID, rootOf, root);
      var a := root;
      var c := Root(id, seen);
      ForestAt(names, parent, rootOf, id);
      RootsLinked(seen, names, rootOf, g, name, id, root);
      Losing(aliasID, names, a, c);
      if Preferred(names[c], names[a]) {
        a, c := c, a;
      }
      ForestJoin(names, parent, rootOf, a, c);
      SoundJoin(seen, names, rootOf, a, c);
      CompleteJoin(groups, aliasID, rootOf, a, c);
      OneRootJoin(done, name, aliasID, rootOf, id, root, a, c);
      parent := parent[c := a];
      rootOf := Joined(rootOf, a, c);
      return Success(a);
    }

    method Union(ctx: Context, ids: seq<string>) returns (r: Result<()>)
      requires Valid()
      modifies this
      ensures r.Success? ==> Valid() && groups == old(groups) + [ids] && names == InternAll(old(names), ids)
      ensures r.Fail? ==>
                (r.error == Canceled && ctx.Cancelable?)
                  || (r.error == Overflow && |InternAll(old(names), ids)| > MAX_U32)
    {
      hide Forest, Interned, Sound, Complete, Linked, InternAll, Intern;
      ghost var seen := groups + [ids];
      SoundMore(groups, ids, names, rootOf);
      if |ids| == 0 {
        InternAllNone(names, ids);
        CompleteMore(groups, ids, aliasID, rootOf, 0);
        groups := seen;
        return Success(());
      }
      var canceled := CheckContext(ctx);
      if canceled {
        return Fail(Canceled);
      }
      assert ids in seen && ids[0] in ids;
      ghost var before := names;
      FirstInterned(before, ids);
      var id :- InternAlias(ids[0], seen);
      var a := Root(id, seen);
      FirstLinked(seen, names, parent, rootOf, ids, id);
      for k := 1 to |ids|
        invariant Consistent(seen) && groups == old(groups) && names == InternAll(before, ids[..k])
        invariant 0 <= a < |names| == |rootOf| && rootOf[a] == a
        invariant OneRoot(ids[..k], aliasID, rootOf, a)
        invariant exists x :: x in ids && Linked(seen, x, names[a])
      {
        canceled := CheckContext(ctx);
        if canceled {
          return Fail(Canceled);
        }
        assert ids[..k + 1] == ids[..k] + [ids[k]];
        InternAllStep(before, ids, k);
        a :- Attach(ids[k], a, ids, ids[..k], seen);
      }
      assert ids[..|ids|] == ids;
      CompleteMore(groups, ids, aliasID, rootOf, a);
      groups := seen;
      return Success(());
    }
  }
}
