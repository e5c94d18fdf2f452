/** Interning a value into a list of distinct values: it keeps the place where it is, or is put last. */
module Interning {
  import opened Order

  /** The row of `v`: where it first occurs, or the next free row. */
  function RowOf<V(==)>(rows: seq<V>, v: V): (i: nat)
    ensures i <= |rows|
    ensures i < |rows| ==> rows[i] == v
    ensures i == |rows| <==> v !in rows
  {
    if rows == [] then 0
    else if rows[0] == v then 0
    else 1 + RowOf(rows[1..], v)
  }

  function Intern<V(==)>(rows: seq<V>, v: V): seq<V> {
    if v in rows then rows else rows + [v]
  }

  /** Interning one value after the other. */
  function InternAll<V(==)>(rows: seq<V>, values: seq<V>): seq<V> {
    if values == [] then rows else Intern(InternAll(rows, values[..|values| - 1]), values[|values| - 1])
  }

  lemma {:induction false} RowOfAt<V>(rows: seq<V>, i: nat)
    requires NoDuplicates(rows) && i < |rows|
    ensures RowOf(rows, rows[i]) == i && Intern(rows, rows[i]) == rows
  {
    var k := RowOf(rows, rows[i]);
    assert rows[i] in rows;
    assert rows[k] == rows[i];
  }

  lemma InternKeeps<V>(rows: seq<V>, v: V)
    ensures rows <= Intern(rows, v)
    ensures RowOf(rows, v) < |Intern(rows, v)| && Intern(rows, v)[RowOf(rows, v)] == v
  {
  }

  lemma InternAllNone<V>(rows: seq<V>, values: seq<V>)
    requires values == []
    ensures InternAll(rows, values) == rows
  {
  }

  lemma InternAllNext<V>(rows: seq<V>, values: seq<V>, i: nat)
    requires i < |values|
    ensures InternAll(rows, values[..i + 1]) == Intern(InternAll(rows, values[..i]), values[i])
  {
    assert values[..i + 1][..i] == values[..i];
  }

  /** Rows only ever grow. */
  lemma {:induction false} InternAllGrows<V>(rows: seq<V>, values: seq<V>, i: nat)
    requires i <= |values|
    ensures InternAll(rows, values[..i]) <= InternAll(rows, values)
    decreases |values| - i
  {
    if i == |values| {
      assert values[..i] == values;
    } else {
      InternAllNext(rows, values, i);
      InternAllGrows(rows, values, i + 1);
    }
  }

  lemma InternAllStep<V>(rows: seq<V>, values: seq<V>, i: nat)
    requires i < |values|
    ensures InternAll(rows, values[..i + 1]) == Intern(InternAll(rows, values[..i]), values[i])
            <= InternAll(rows, values)
  {
    InternAllNext(rows, values, i);
    InternAllGrows(rows, values, i + 1);
  }

  /** The rows are what was there and what was interned, each once. */
  lemma {:induction false} InternAllHas<V>(rows: seq<V>, values: seq<V>)
    ensures rows <= InternAll(rows, values)
    ensures Elements(InternAll(rows, values)) == Elements(rows) + Elements(values)
    ensures NoDuplicates(rows) ==> NoDuplicates(InternAll(rows, values))
  {
    if values == [] {
      assert Elements(values) == {};
    } else {
      var init, last := values[..|values| - 1], values[|values| - 1];
      InternAllHas(rows, init);
      assert values == init + [last];
      var before := InternAll(rows, init);
      assert Elements(values) == Elements(init) + {last};
      assert Elements(before + [last]) == Elements(before) + {last};
      assert last in before <==> last in Elements(before);
    }
  }

  /** What is there already is found again. */
  lemma {:induction false} InternAllKnown<V>(rows: seq<V>, values: seq<V>)
    requires forall x :: x in values ==> x in rows
    ensures InternAll(rows, values) == rows
  {
    if values != [] {
      var init, last := values[..|values| - 1], values[|values| - 1];
      assert values == init + [last];
      InternAllKnown(rows, init);
    }
  }

  lemma {:induction false} InternAllConcat<V>(rows: seq<V>, values: seq<V>, more: seq<V>)
    ensures InternAll(rows, values + more) == InternAll(InternAll(rows, values), more)
  {
    if more == [] {
      assert values + more == values;
    } else {
      var n := |more| - 1;
      InternAllConcat(rows, values, more[..n]);
      assert (values + more)[..|values| + n] == values + more[..n];
    }
  }
}
