/** Hash-consed strings and lists. A string is stored once and named by its position plus one; a
    list of words is stored once and named by the span it occupies. */
module Payloads {
  import opened Common
  import opened Order
  import opened Interning
  import opened Report

  // ---------------------------------------------------------------- what stored names mean

  ghost predicate Extends(p: Payload, q: Payload) {
    p.strings <= q.strings && p.words <= q.words && p.spans <= q.spans
  }

  ghost predicate InBounds(p: Payload, s: Span) {
    1 <= s.count && s.start + s.count <= |p.words|
  }

  function WordsAt(p: Payload, s: Span): seq<nat>
    requires s.start + s.count <= |p.words|
  {
    p.words[s.start..s.start + s.count]
  }

  /** Nothing is stored twice, and every stored list is non-empty and in bounds. */
  ghost predicate StoredOnce(p: Payload) {
    && |p.strings| <= MAX_U32 && |p.words| <= MAX_U32
    && (forall i, j :: 0 <= i < j < |p.strings| ==> p.strings[i] != p.strings[j])
    && (forall i :: 0 <= i < |p.spans| ==> InBounds(p, p.spans[i]))
    && (forall i, j :: 0 <= i < j < |p.spans| ==> WordsAt(p, p.spans[i]) != WordsAt(p, p.spans[j]))
  }

  /** `id` is the stored name of `s`. */
  ghost predicate IsString(p: Payload, id: nat, s: string) {
    1 <= id <= |p.strings| && p.strings[id - 1] == s
  }

  /** Zero names the absent string. */
  ghost predicate IsOptional(p: Payload, id: nat, s: Option<string>) {
    if s.None? then id == 0 else IsString(p, id, s.value)
  }

  /** `span` is the stored name of the word list `ws`; nil and empty have reserved names. */
  ghost predicate IsWords(p: Payload, span: Span, ws: List<nat>) {
    match ws
    case Nil => span == Span(NIL_SPAN_START, 0)
    case Items(items) =>
      if items == [] then span == Span(0, 0)
      else span in p.spans && InBounds(p, span) && WordsAt(p, span) == items
  }

  /** `span` is the stored name of the string list `v`. */
  ghost predicate IsStrings(p: Payload, span: Span, v: List<string>) {
    match v
    case Nil => span == Span(NIL_SPAN_START, 0)
    case Items(items) =>
      if items == [] then span == Span(0, 0)
      else
        && span in p.spans && InBounds(p, span) && span.count == |items|
        && forall i :: 0 <= i < |items| ==> IsString(p, p.words[span.start + i], items[i])
  }

  // ---------------------------------------------------------------- decoding

  /** Reading a name that nothing is stored under panics. */
  function StringAt(p: Payload, id: nat): Result<string> {
    if 1 <= id <= |p.strings| then Success(p.strings[id - 1]) else Fail(Internal)
  }

  predicate Readable(p: Payload, span: Span) {
    span.start == NIL_SPAN_START ||
    (span.start + span.count <= |p.words| &&
     forall i :: span.start <= i < span.start + span.count ==> 1 <= p.words[i] <= |p.strings|)
  }

  function UnpackStrings(p: Payload, span: Span): List<string>
    requires Readable(p, span)
  {
    if span.start == NIL_SPAN_START then Nil
    else Items(seq(span.count, i requires 0 <= i < span.count => p.strings[p.words[span.start + i] - 1]))
  }

  // ---------------------------------------------------------------- lemmas about names

  /** A name keeps its meaning when more is stored. */
  lemma NamesKept(p: Payload, q: Payload, span: Span, v: List<string>)
    requires Extends(p, q) && IsStrings(p, span, v)
    ensures IsStrings(q, span, v)
  {
    if v.Items? && v.values != [] {
      forall i | 0 <= i < |v.values|
        ensures IsString(q, q.words[span.start + i], v.values[i])
      {
        assert IsString(p, p.words[span.start + i], v.values[i]);
      }
    }
  }

  /** Decoding a name gives back what was stored under it. */
  lemma NamesDecode(p: Payload, span: Span, v: List<string>)
    requires StoredOnce(p) && IsStrings(p, span, v)
    ensures Readable(p, span) && UnpackStrings(p, span) == v
  {
    if v.Items? && v.values != [] {
      assert span.start < NIL_SPAN_START;
      forall i | span.start <= i < span.start + span.count
        ensures 1 <= p.words[i] <= |p.strings|
      {
        assert IsString(p, p.words[span.start + (i - span.start)], v.values[i - span.start]);
      }
      var decoded := UnpackStrings(p, span).values;
      assert decoded == seq(span.count, i requires 0 <= i < span.count => p.strings[p.words[span.start + i] - 1]);
      forall i | 0 <= i < |v.values|
        ensures decoded[i] == v.values[i]
      {
        assert IsString(p, p.words[span.start + i], v.values[i]);
      }
      assert decoded == v.values;
    }
  }

  lemma StringNamesAgree(p: Payload, a: nat, b: nat, s: string, t: string)
    requires StoredOnce(p) && IsString(p, a, s) && IsString(p, b, t)
    ensures a == b <==> s == t
  {
  }

  lemma OptionalNamesAgree(p: Payload, a: nat, b: nat, s: Option<string>, t: Option<string>)
    requires StoredOnce(p) && IsOptional(p, a, s) && IsOptional(p, b, t)
    ensures a == b <==> s == t
  {
  }

  /** Two lists have the same name exactly when they are equal; nil, empty and non-empty lists
      never share one. */
  lemma ListNamesAgree(p: Payload, a: Span, b: Span, v: List<string>, w: List<string>)
    requires StoredOnce(p) && IsStrings(p, a, v) && IsStrings(p, b, w)
    ensures a == b <==> v == w
  {
    NamesDecode(p, a, v);
    NamesDecode(p, b, w);
    if v == w && v.Items? && v.values != [] {
      forall i | 0 <= i < |v.values|
        ensures WordsAt(p, a)[i] == WordsAt(p, b)[i]
      {
        assert IsString(p, p.words[a.start + i], v.values[i]);
        assert IsString(p, p.words[b.start + i], w.values[i]);
      }
      assert WordsAt(p, a) == WordsAt(p, b);
      var i :| 0 <= i < |p.spans| && p.spans[i] == a;
      var j :| 0 <= j < |p.spans| && p.spans[j] == b;
      assert i == j;
    }
  }

  // ---------------------------------------------------------------- the builder

  /** The counters of strings and words are within their limits. */
  ghost predicate PayloadFits(p: Payload) {
    |p.strings| <= MAX_U32 && |p.words| <= MAX_U32
  }

  /** `ws` are the stored names of the strings `v`, in order. */
  ghost predicate NamesOf(p: Payload, ws: seq<nat>, v: seq<string>) {
    |ws| == |v| && forall i :: 0 <= i < |ws| ==> IsString(p, ws[i], v[i])
  }

  lemma NoNames(p: Payload)
    ensures NamesOf(p, [], [])
  {
  }

  lemma NamesAreStrings(p: Payload, span: Span, ws: seq<nat>, v: seq<string>)
    requires StoredOnce(p) && NamesOf(p, ws, v) && IsWords(p, span, Items(ws))
    ensures IsStrings(p, span, Items(v))
  {
    if v != [] {
      forall i | 0 <= i < |v|
        ensures IsString(p, p.words[span.start + i], v[i])
      {
        assert WordsAt(p, span)[i] == ws[i];
      }
    }
  }

  /** The strings of a severity list, in the order they are packed. */
  function SeverityStrings(v: seq<Severity>): seq<string> {
    if v == [] then []
    else
      var s := v[|v| - 1];
      SeverityStrings(v[..|v| - 1]) + [s.kind, s.source, s.vector]
  }

  function ReferenceStrings(v: seq<Reference>): seq<string> {
    if v == [] then []
    else
      var s := v[|v| - 1];
      ReferenceStrings(v[..|v| - 1]) + [s.kind, s.url]
  }

  ghost predicate IsSeverities(p: Payload, span: Span, v: List<Severity>) {
    IsStrings(p, span, SeverityList(v))
  }

  ghost predicate IsReferences(p: Payload, span: Span, v: List<Reference>) {
    IsStrings(p, span, ReferenceList(v))
  }

  lemma {:induction false} SeverityStringsAt(v: seq<Severity>)
    ensures |SeverityStrings(v)| == 3 * |v|
    ensures forall i :: 0 <= i < |v| ==>
              SeverityStrings(v)[3 * i..3 * i + 3] == [v[i].kind, v[i].source, v[i].vector]
  {
    if v != [] {
      var rest := v[..|v| - 1];
      SeverityStringsAt(rest);
      forall i | 0 <= i < |v|
        ensures SeverityStrings(v)[3 * i..3 * i + 3] == [v[i].kind, v[i].source, v[i].vector]
      {
        if i < |v| - 1 {
          assert SeverityStrings(v)[3 * i..3 * i + 3] == SeverityStrings(rest)[3 * i..3 * i + 3];
        }
      }
    }
  }

  lemma {:induction false} ReferenceStringsAt(v: seq<Reference>)
    ensures |ReferenceStrings(v)| == 2 * |v|
    ensures forall i :: 0 <= i < |v| ==> ReferenceStrings(v)[2 * i..2 * i + 2] == [v[i].kind, v[i].url]
  {
    if v != [] {
      var rest := v[..|v| - 1];
      ReferenceStringsAt(rest);
      forall i | 0 <= i < |v|
        ensures ReferenceStrings(v)[2 * i..2 * i + 2] == [v[i].kind, v[i].url]
      {
        if i < |v| - 1 {
          assert ReferenceStrings(v)[2 * i..2 * i + 2] == ReferenceStrings(rest)[2 * i..2 * i + 2];
        }
      }
    }
  }

  /** Severity lists are told apart by their strings. */
  lemma SeverityStringsInjective(v: seq<Severity>, w: seq<Severity>)
    requires SeverityStrings(v) == SeverityStrings(w)
    ensures v == w
  {
    SeverityStringsAt(v);
    SeverityStringsAt(w);
    forall i | 0 <= i < |v|
      ensures v[i] == w[i]
    {
      var a, b := [v[i].kind, v[i].source, v[i].vector], [w[i].kind, w[i].source, w[i].vector];
      assert a == b;
      assert a[0] == b[0] && a[1] == b[1] && a[2] == b[2];
    }
  }

  lemma ReferenceStringsInjective(v: seq<Reference>, w: seq<Reference>)
    requires ReferenceStrings(v) == ReferenceStrings(w)
    ensures v == w
  {
    ReferenceStringsAt(v);
    ReferenceStringsAt(w);
    forall i | 0 <= i < |v|
      ensures v[i] == w[i]
    {
      var a, b := [v[i].kind, v[i].url], [w[i].kind, w[i].url];
      assert a == b;
      assert a[0] == b[0] && a[1] == b[1];
    }
  }

  lemma SeverityNamesAgree(p: Payload, a: Span, b: Span, v: List<Severity>, w: List<Severity>)
    requires StoredOnce(p) && IsSeverities(p, a, v) && IsSeverities(p, b, w)
    ensures a == b <==> v == w
  {
    var vs, ws := SeverityList(v), SeverityList(w);
    ListNamesAgree(p, a, b, vs, ws);
    if vs == ws && vs.Items? {
      SeverityStringsInjective(v.values, w.values);
    }
  }

  lemma ReferenceNamesAgree(p: Payload, a: Span, b: Span, v: List<Reference>, w: List<Reference>)
    requires StoredOnce(p) && IsReferences(p, a, v) && IsReferences(p, b, w)
    ensures a == b <==> v == w
  {
    var vs, ws := ReferenceList(v), ReferenceList(w);
    ListNamesAgree(p, a, b, vs, ws);
    if vs == ws && vs.Items? {
      ReferenceStringsInjective(v.values, w.values);
    }
  }

  // ---------------------------------------------------------------- the payload as a function of what is packed

  /** The payload after `s` has been interned. */
  ghost function AddString(p: Payload, s: string): Payload {
    p.(strings := Intern(p.strings, s))
  }

  ghost function AddOptional(p: Payload, s: Option<string>): Payload {
    if s.None? then p else AddString(p, s.value)
  }

  ghost function AddStrings(p: Payload, items: seq<string>): Payload {
    p.(strings := InternAll(p.strings, items))
  }

  ghost predicate HasWords(p: Payload, span: Span, ws: seq<nat>) {
    span in p.spans && span.start + span.count <= |p.words| && WordsAt(p, span) == ws
  }

  /** The payload after the word list `ws` has been interned: looked up among all stored lists, with no
      fingerprint involved. */
  ghost function AddWords(p: Payload, ws: seq<nat>): Payload {
    if ws == [] || exists span :: HasWords(p, span, ws) then p
    else p.(words := p.words + ws, spans := p.spans + [Span(|p.words|, |ws|)])
  }

  /** The names that stored strings have. */
  function Numbers(p: Payload, items: seq<string>): seq<nat> {
    seq(|items|, i requires 0 <= i < |items| => RowOf(p.strings, items[i]) + 1)
  }

  /** The payload after a list of strings has been packed: its strings one after the other, then the
      list of their names. */
  ghost function AddList(p: Payload, v: List<string>): Payload {
    if v.Nil? then p
    else
      var q := AddStrings(p, v.values);
      AddWords(q, Numbers(q, v.values))
  }

  function SeverityList(v: List<Severity>): List<string> {
    if v.Nil? then Nil else Items(SeverityStrings(v.values))
  }

  function ReferenceList(v: List<Reference>): List<string> {
    if v.Nil? then Nil else Items(ReferenceStrings(v.values))
  }

  /** Packing only appends, so what does not fit now does not fit later. */
  lemma PackingGrows()
    ensures forall p, s :: Extends(p, AddString(p, s))
    ensures forall p, s :: Extends(p, AddOptional(p, s))
    ensures forall p, v :: Extends(p, AddList(p, v))
    ensures forall p, q :: Extends(p, q) && PayloadFits(q) ==> PayloadFits(p)
  {
    forall p, v
      ensures Extends(p, AddList(p, v))
    {
      if v.Items? {
        InternAllHas(p.strings, v.values);
      }
    }
  }

  /** Stored names are those that the payload gives. */
  lemma NamesAreNumbers(p: Payload, ws: seq<nat>, v: seq<string>)
    requires StoredOnce(p) && NamesOf(p, ws, v)
    ensures ws == Numbers(p, v)
  {
    forall i | 0 <= i < |v|
      ensures ws[i] == Numbers(p, v)[i]
    {
      assert IsString(p, ws[i], v[i]);
    }
  }

  /** What is named in the payload is found when it is packed again. */
  lemma ListKnown(p: Payload, span: Span, v: List<string>)
    requires StoredOnce(p) && IsStrings(p, span, v)
    ensures AddList(p, v) == p
  {
    if v.Items? && v.values != [] {
      forall x | x in v.values
        ensures x in p.strings
      {
        var i :| 0 <= i < |v.values| && v.values[i] == x;
        assert IsString(p, p.words[span.start + i], v.values[i]);
      }
      InternAllKnown(p.strings, v.values);
      var ws := WordsAt(p, span);
      forall i | 0 <= i < |ws|
        ensures IsString(p, ws[i], v.values[i])
      {
        assert IsString(p, p.words[span.start + i], v.values[i]);
      }
      NamesAreNumbers(p, ws, v.values);
      assert HasWords(p, span, ws);
    }
  }

  /** Packing a list gives it a name. */
  lemma ListNamed(p: Payload, v: List<string>) returns (span: Span)
    requires StoredOnce(p) && PayloadFits(AddList(p, v))
    ensures StoredOnce(AddList(p, v)) && IsStrings(AddList(p, v), span, v)
  {
    match v
    case Nil => span := Span(NIL_SPAN_START, 0);
    case Items(items) =>
      var q := AddStrings(p, items);
      StringsStored(p, items);
      var ws := Numbers(q, items);
      if items == [] {
        span := Span(0, 0);
        assert q == p;
      } else {
        InternAllHas(p.strings, items);
        assert forall i :: 0 <= i < |items| ==> items[i] in Elements(q.strings);
        assert NamesOf(q, ws, items);
        span := WordsNamed(q, ws);
        NamesKeptAll(q, AddWords(q, ws), ws, items);
        NamesAreStrings(AddWords(q, ws), span, ws, items);
      }
  }

  lemma {:induction false} StringsStored(p: Payload, items: seq<string>)
    requires StoredOnce(p) && |InternAll(p.strings, items)| <= MAX_U32
    ensures StoredOnce(AddStrings(p, items))
  {
    if items == [] {
      assert AddStrings(p, items) == p;
    } else {
      var init, last := items[..|items| - 1], items[|items| - 1];
      StringsStored(p, init);
      StringStored(AddStrings(p, init), last);
    }
  }

  lemma StringStored(p: Payload, s: string)
    requires StoredOnce(p) && PayloadFits(AddString(p, s))
    ensures StoredOnce(AddString(p, s)) && IsString(AddString(p, s), RowOf(AddString(p, s).strings, s) + 1, s)
  {
    if s !in p.strings {
      StoredOnceString(p, s);
    }
  }

  lemma WordsNamed(p: Payload, ws: seq<nat>) returns (span: Span)
    requires StoredOnce(p) && ws != [] && PayloadFits(AddWords(p, ws))
    ensures StoredOnce(AddWords(p, ws)) && IsWords(AddWords(p, ws), span, Items(ws)) && Extends(p, AddWords(p, ws))
  {
    if found :| HasWords(p, found, ws) {
      span := found;
      assert InBounds(p, found);
    } else {
      span := Span(|p.words|, |ws|);
      forall i | 0 <= i < |p.spans|
        ensures WordsAt(p, p.spans[i]) != ws
      {
        assert InBounds(p, p.spans[i]);
        assert !HasWords(p, p.spans[i], ws);
      }
      StoredOnceWords(p, ws);
    }
  }

  // ---------------------------------------------------------------- collision chains

  lemma NamesKeptAll(p: Payload, q: Payload, ws: seq<nat>, v: seq<string>)
    requires Extends(p, q) && NamesOf(p, ws, v)
    ensures NamesOf(q, ws, v)
  {
    forall i | 0 <= i < |ws|
      ensures IsString(q, ws[i], v[i])
    {
      assert IsString(p, ws[i], v[i]);
    }
  }

  lemma SeverityStringsNone()
    ensures SeverityStrings([]) == []
  {
  }

  lemma SeverityStringsNext(v: seq<Severity>, i: nat)
    requires i < |v|
    ensures SeverityStrings(v[..i + 1]) == SeverityStrings(v[..i]) + [v[i].kind, v[i].source, v[i].vector]
  {
    assert v[..i + 1][..i] == v[..i];
  }

  lemma SeverityStringsSize(v: seq<Severity>)
    ensures |SeverityStrings(v)| == 3 * |v|
  {
    SeverityStringsAt(v);
  }

  lemma ReferenceStringsNone()
    ensures ReferenceStrings([]) == []
  {
  }

  lemma ReferenceStringsNext(v: seq<Reference>, i: nat)
    requires i < |v|
    ensures ReferenceStrings(v[..i + 1]) == ReferenceStrings(v[..i]) + [v[i].kind, v[i].url]
  {
    assert v[..i + 1][..i] == v[..i];
  }

  lemma ReferenceStringsSize(v: seq<Reference>)
    ensures |ReferenceStrings(v)| == 2 * |v|
  {
    ReferenceStringsAt(v);
  }

  lemma {:induction false} SeverityStringsGrow(v: seq<Severity>, i: nat)
    requires i <= |v|
    ensures SeverityStrings(v[..i]) <= SeverityStrings(v)
    decreases |v| - i
  {
    if i == |v| {
      assert v[..i] == v;
    } else {
      SeverityStringsNext(v, i);
      SeverityStringsGrow(v, i + 1);
    }
  }

  lemma {:induction false} ReferenceStringsGrow(v: seq<Reference>, i: nat)
    requires i <= |v|
    ensures ReferenceStrings(v[..i]) <= ReferenceStrings(v)
    decreases |v| - i
  {
    if i == |v| {
      assert v[..i] == v;
    } else {
      ReferenceStringsNext(v, i);
      ReferenceStringsGrow(v, i + 1);
    }
  }

  // ---------------------------------------------------------------- strings one after the other

  lemma AddStringsNone(p: Payload)
    ensures AddStrings(p, []) == p
  {
  }

  lemma AddStringsConcat(p: Payload, items: seq<string>, more: seq<string>)
    ensures AddStrings(p, items + more) == AddStrings(AddStrings(p, items), more)
  {
    InternAllConcat(p.strings, items, more);
  }

  lemma AddStringsPrefix(p: Payload, items: seq<string>, all: seq<string>)
    requires items <= all
    ensures PayloadFits(AddStrings(p, all)) ==> PayloadFits(AddStrings(p, items))
  {
    InternAllGrows(p.strings, all, |items|);
    assert all[..|items|] == items;
  }

  lemma AddStringsNext(p: Payload, items: seq<string>, i: nat)
    requires i < |items|
    ensures AddStrings(p, items[..i + 1]) == AddString(AddStrings(p, items[..i]), items[i])
    ensures PayloadFits(AddStrings(p, items)) ==> PayloadFits(AddStrings(p, items[..i + 1]))
  {
    InternAllNext(p.strings, items, i);
    AddStringsPrefix(p, items[..i + 1], items);
  }

  lemma AddStringsTwo(p: Payload, a: string, b: string)
    ensures AddStrings(p, [a, b]) == AddString(AddString(p, a), b)
    ensures PayloadFits(AddStrings(p, [a, b])) ==> PayloadFits(AddString(p, a))
  {
    AddStringsNext(p, [a, b], 0);
    AddStringsNext(p, [a, b], 1);
    assert [a, b][..0] == [] && [a, b][..1] == [a] && [a, b][..2] == [a, b];
  }

  lemma AddStringsThree(p: Payload, a: string, b: string, c: string)
    ensures AddStrings(p, [a, b, c]) == AddString(AddString(AddString(p, a), b), c)
    ensures PayloadFits(AddStrings(p, [a, b, c])) ==>
              PayloadFits(AddString(p, a)) && PayloadFits(AddString(AddString(p, a), b))
  {
    var items := [a, b, c];
    AddStringsTwo(p, a, b);
    AddStringsNext(p, items, 2);
    AddStringsPrefix(p, [a, b], items);
    assert items[..2] == [a, b] && items[..3] == items;
  }

  /** A list needs room for its strings. */
  lemma ListNeedsStrings(p: Payload, items: seq<string>)
    ensures PayloadFits(AddList(p, Items(items))) ==> PayloadFits(AddStrings(p, items))
  {
  }

  datatype ListEntry = ListEntry(span: Span, next: nat)

  function Spans(entries: seq<ListEntry>): seq<Span> {
    seq(|entries|, i requires 0 <= i < |entries| => entries[i].span)
  }

  ghost function Stored(words: seq<nat>, e: ListEntry): seq<nat> {
    if e.span.start + e.span.count <= |words| then words[e.span.start..e.span.start + e.span.count] else []
  }

  function Head(lists: map<nat, nat>, h: nat): nat {
    if h in lists then lists[h] else 0
  }

  /** The fingerprint of every stored list. */
  ghost function Prints(hash: seq<nat> -> nat, words: seq<nat>, entries: seq<ListEntry>): seq<int> {
    seq(|entries|, i requires 0 <= i < |entries| => hash(Stored(words, entries[i])))
  }

  /** `Head(lists, h)` is the newest entry with fingerprint `h`, and `next` leads to the next older
      entry with the same fingerprint, so links strictly decrease. */
  ghost predicate Chained(prints: seq<int>, entries: seq<ListEntry>, lists: map<nat, nat>) {
    && |prints| == |entries|
    && (forall h :: Head(lists, h) <= |entries|)
    && (forall h :: Head(lists, h) != 0 ==> prints[Head(lists, h) - 1] == h)
    && (forall h, j :: Head(lists, h) <= j < |entries| ==> prints[j] != h)
    && (forall i :: 0 <= i < |entries| ==> entries[i].next <= i)
    && (forall i :: 0 <= i < |entries| && entries[i].next != 0 ==> prints[entries[i].next - 1] == prints[i])
    && (forall i, j :: 0 <= i < |entries| && entries[i].next <= j < i ==> prints[j] != prints[i])
  }

  lemma ChainedAppend(prints: seq<int>, entries: seq<ListEntry>, lists: map<nat, nat>, s: Span, h: nat)
    requires Chained(prints, entries, lists)
    ensures Chained(prints + [h], entries + [ListEntry(s, Head(lists, h))], lists[h := |entries| + 1])
  {
    var lists' := lists[h := |entries| + 1];
    assert Head(lists', h) == |entries| + 1;
    assert forall g :: g != h ==> Head(lists', g) == Head(lists, g);
  }

  /** Equal lists have equal fingerprints. */
  lemma PrintDiffers(hash: seq<nat> -> nat, words: seq<nat>, entries: seq<ListEntry>, ws: seq<nat>)
    ensures forall j :: 0 <= j < |entries| && Prints(hash, words, entries)[j] != hash(ws) ==>
              Stored(words, entries[j]) != ws
  {
  }

  /** The entries from `id` on do not hold `ws`, and the one before, if there is one, has its fingerprint. */
  ghost predicate Searched(hash: seq<nat> -> nat, words: seq<nat>, entries: seq<ListEntry>, ws: seq<nat>, id: nat) {
    && id <= |entries|
    && (forall j :: id <= j < |entries| ==> Stored(words, entries[j]) != ws)
    && (id != 0 ==> hash(Stored(words, entries[id - 1])) == hash(ws))
  }

  lemma SearchStarts(hash: seq<nat> -> nat, words: seq<nat>, entries: seq<ListEntry>, lists: map<nat, nat>,
                     ws: seq<nat>)
    requires Chained(Prints(hash, words, entries), entries, lists)
    ensures Searched(hash, words, entries, ws, Head(lists, hash(ws)))
  {
    PrintDiffers(hash, words, entries, ws);
    hide Stored;
  }

  lemma SearchNext(hash: seq<nat> -> nat, words: seq<nat>, entries: seq<ListEntry>, ws: seq<nat>, lists: map<nat, nat>,
                   id: nat)
    requires Chained(Prints(hash, words, entries), entries, lists) && Searched(hash, words, entries, ws, id) && id != 0
    ensures id <= |entries| && entries[id - 1].next < id
    ensures Stored(words, entries[id - 1]) != ws ==> Searched(hash, words, entries, ws, entries[id - 1].next)
  {
    PrintDiffers(hash, words, entries, ws);
    hide Stored;
    var prints, next := Prints(hash, words, entries), entries[id - 1].next;
    assert prints[id - 1] == hash(ws);
    if next != 0 {
      assert prints[next - 1] == prints[id - 1];
      assert hash(Stored(words, entries[next - 1])) == prints[next - 1];
    }
    forall j | next <= j < |entries| && Stored(words, entries[id - 1]) != ws
      ensures Stored(words, entries[j]) != ws
    {
      assert j < id - 1 ==> prints[j] != prints[id - 1];
    }
  }

  lemma SearchEnds(hash: seq<nat> -> nat, words: seq<nat>, entries: seq<ListEntry>, ws: seq<nat>)
    requires Searched(hash, words, entries, ws, 0)
    ensures forall j :: 0 <= j < |entries| ==> Stored(words, entries[j]) != ws
  {
  }

  lemma PrintsAppend(hash: seq<nat> -> nat, words: seq<nat>, entries: seq<ListEntry>, ws: seq<nat>, next: nat)
    requires forall i :: 0 <= i < |entries| ==> entries[i].span.start + entries[i].span.count <= |words|
    ensures Prints(hash, words + ws, entries + [ListEntry(Span(|words|, |ws|), next)])
            == Prints(hash, words, entries) + [hash(ws)]
  {
    var words', entries' := words + ws, entries + [ListEntry(Span(|words|, |ws|), next)];
    assert Stored(words', entries'[|entries|]) == ws;
    forall i | 0 <= i < |entries|
      ensures Stored(words', entries'[i]) == Stored(words, entries[i])
    {
      var span := entries[i].span;
      assert words'[span.start..span.start + span.count] == words[span.start..span.start + span.count];
    }
  }

  /** The new entry heads the chain of its fingerprint. */
  lemma WordsAppended(hash: seq<nat> -> nat, words: seq<nat>, entries: seq<ListEntry>, lists: map<nat, nat>,
                      ws: seq<nat>)
    requires Chained(Prints(hash, words, entries), entries, lists)
    requires forall i :: 0 <= i < |entries| ==> entries[i].span.start + entries[i].span.count <= |words|
    ensures var entry := ListEntry(Span(|words|, |ws|), Head(lists, hash(ws)));
            && Chained(Prints(hash, words + ws, entries + [entry]), entries + [entry], lists[hash(ws) := |entries| + 1])
            && Spans(entries + [entry]) == Spans(entries) + [entry.span]
  {
    hide Chained, Prints;
    PrintsAppend(hash, words, entries, ws, Head(lists, hash(ws)));
    ChainedAppend(Prints(hash, words, entries), entries, lists, Span(|words|, |ws|), hash(ws));
  }

  lemma StoredOnceString(p: Payload, s: string)
    requires StoredOnce(p) && s !in p.strings && |p.strings| < MAX_U32
    ensures StoredOnce(p.(strings := p.strings + [s]))
  {
    var q := p.(strings := p.strings + [s]);
    assert forall i :: 0 <= i < |p.spans| ==> InBounds(p, p.spans[i]);
    forall i, j | 0 <= i < j < |p.spans|
      ensures WordsAt(q, q.spans[i]) != WordsAt(q, q.spans[j])
    {
      assert WordsAt(p, p.spans[i]) != WordsAt(p, p.spans[j]);
    }
  }

  lemma StoredOnceWords(p: Payload, ws: seq<nat>)
    requires StoredOnce(p) && ws != [] && |p.words| + |ws| <= MAX_U32
    requires forall i :: 0 <= i < |p.spans| ==> WordsAt(p, p.spans[i]) != ws
    ensures StoredOnce(p.(words := p.words + ws, spans := p.spans + [Span(|p.words|, |ws|)]))
  {
    var q := p.(words := p.words + ws, spans := p.spans + [Span(|p.words|, |ws|)]);
    assert WordsAt(q, Span(|p.words|, |ws|)) == ws;
    forall i | 0 <= i < |p.spans|
      ensures WordsAt(q, p.spans[i]) == WordsAt(p, p.spans[i])
    {
    }
  }

  lemma EntriesInBounds(p: Payload, entries: seq<ListEntry>)
    requires StoredOnce(p) && p.spans == Spans(entries)
    ensures forall j :: 0 <= j < |entries| ==> entries[j].span.start + entries[j].span.count <= |p.words|
    ensures forall j :: 0 <= j < |entries| ==> Stored(p.words, entries[j]) == WordsAt(p, p.spans[j])
  {
    forall j | 0 <= j < |entries|
      ensures entries[j].span.start + entries[j].span.count <= |p.words|
    {
      assert InBounds(p, p.spans[j]);
    }
  }

  class PayloadBuilder {
    /** The fingerprint of a word list. Nothing is assumed about it. */
    const hash: seq<nat> -> nat
    var ids: map<string, nat>
    var strings: seq<string>
    var words: seq<nat>
    var lists: map<nat, nat>
    var entries: seq<ListEntry>

    ghost function View(): Payload
      reads this
    {
      Payload(strings, words, Spans(entries))
    }

    ghost predicate Valid()
      reads this
    {
      && StoredOnce(View())
      && (forall s :: s in ids ==> IsString(View(), ids[s], s))
      && (forall i :: 0 <= i < |strings| ==> strings[i] in ids)
      && |entries| <= |words|
      && Chained(Prints(hash, words, entries), entries, lists)
    }

    /** The stored strings and words, as handed over to the report. */
    function Snapshot(): (p: Payload)
      reads this
      ensures p == View()
    {
      Payload(strings, words, Spans(entries))
    }

    lemma Once()
      requires Valid()
      ensures StoredOnce(View())
    {
    }

    constructor (hash: seq<nat> -> nat)
      ensures Valid() && View() == Payload([], [], [])
    {
      this.hash := hash;
      ids, strings, words := map[], [], [];
      lists, entries := map[], [];
    }

    method StringID(s: string) returns (r: Result<nat>)
      requires Valid()
      modifies this
      ensures Valid()
      ensures r.Success? ==> IsString(View(), r.value, s) && View() == AddString(old(View()), s)
      ensures r.Fail? <==> s !in old(View()).strings && |old(View()).strings| == MAX_U32
      ensures r.Fail? ==> r.error == Overflow && View() == old(View()) && !PayloadFits(AddString(View(), s))
    {
      if s in ids {
        assert IsString(View(), ids[s], s);
        return Success(ids[s]);
      }
      assert s !in strings by {
        assert forall i :: 0 <= i < |strings| ==> strings[i] in ids;
      }
      var id :- Checked(|strings| + 1);
      StoredOnceString(View(), s);
      hide StoredOnce;
      strings := strings + [s];
      ids := ids[s := id];
      return Success(id);
    }

    method OptionalString(s: Option<string>) returns (r: Result<nat>)
      requires Valid()
      modifies this
      ensures Valid()
      ensures r.Success? ==> IsOptional(View(), r.value, s) && View() == AddOptional(old(View()), s)
      ensures r.Fail? ==> r.error == Overflow && !PayloadFits(AddOptional(old(View()), s))
    {
      if s.None? {
        return Success(0);
      }
      r := StringID(s.value);
    }

    /** Word by word comparison of a stored list with `ws`. */
    method SameWords(span: Span, ws: seq<nat>) returns (equal: bool)
      requires span.start + span.count <= |words|
      ensures equal == (words[span.start..span.start + span.count] == ws)
    {
      equal := span.count == |ws|;
      if equal {
        for i := 0 to |ws|
          invariant words[span.start..span.start + i] == ws[..i]
        {
          if words[span.start + i] != ws[i] {
            assert words[span.start..span.start + span.count][i] != ws[i];
            return false;
          }
          assert words[span.start..span.start + (i + 1)] == words[span.start..span.start + i] + [words[span.start + i]];
        }
      }
    }

    /** The walk along the collision chain of `h`: full comparison decides, and because equal lists
        have equal fingerprints the walk misses none. */
    method FindWords(ws: seq<nat>, h: nat) returns (found: Option<Span>)
      requires Valid() && ws != [] && h == hash(ws)
      ensures found.Some? ==> HasWords(View(), found.value, ws)
      ensures found.None? ==> forall j :: 0 <= j < |View().spans| ==> WordsAt(View(), View().spans[j]) != ws
    {
      EntriesInBounds(View(), entries);
      SearchStarts(hash, words, entries, lists, ws);
      hide StoredOnce, Stored, Searched, Chained, Prints;
      var id := Head(lists, h);
      while id != 0
        invariant Searched(hash, words, entries, ws, id)
        modifies {}
        decreases id
      {
        SearchNext(hash, words, entries, ws, lists, id);
        var e := entries[id - 1];
        assert View().spans[id - 1] == e.span;
        var equal := SameWords(e.span, ws);
        if equal {
          return Some(e.span);
        }
        id := e.next;
      }
      SearchEnds(hash, words, entries, ws);
      return None;
    }

    /** The fingerprint only selects the chain that is searched. */
    method InternWords(ws: seq<nat>, h: nat) returns (r: Result<Span>)
      requires Valid() && ws != [] && h == hash(ws)
      modifies this
      ensures Valid()
      ensures r.Success? ==> IsWords(View(), r.value, Items(ws)) && View() == AddWords(old(View()), ws)
      ensures r.Fail? <==> |old(View()).words| + |ws| > MAX_U32 && !exists span :: HasWords(old(View()), span, ws)
      ensures r.Fail? ==> r.error == Overflow && View() == old(View()) && !PayloadFits(AddWords(View(), ws))
    {
      hide Prints, Chained, Stored;
      var found := FindWords(ws, h);
      if found.Some? {
        return Success(found.value);
      }
      assert forall span :: !HasWords(View(), span, ws);
      var _ :- Checked(|words| + |ws|);
      var s := Span(|words|, |ws|);
      StoredOnceWords(View(), ws);
      EntriesInBounds(View(), entries);
      WordsAppended(hash, words, entries, lists, ws);
      hide StoredOnce;
      words := words + ws;
      var appended := Checked(|entries| + 1);
      assert appended.Success?;
      entries := entries + [ListEntry(s, Head(lists, h))];
      lists := lists[h := |entries|];
      return Success(s);
    }

    method PackWords(ws: List<nat>) returns (r: Result<Span>)
      requires Valid()
      modifies this
      ensures Valid()
      ensures r.Success? ==> IsWords(View(), r.value, ws)
      ensures r.Success? ==> View() == if ws.Nil? then old(View()) else AddWords(old(View()), ws.values)
      ensures r.Fail? ==> r.error == Overflow && ws.Items? && !PayloadFits(AddWords(old(View()), ws.values))
    {
      if ws.Nil? {
        return Success(Span(NIL_SPAN_START, 0));
      }
      if ws.values == [] {
        return Success(Span(0, 0));
      }
      r := InternWords(ws.values, hash(ws.values));
    }

    /** The name of `s` is put behind `ws`. */
    method AppendID(ws: seq<nat>, s: string, ghost v: seq<string>) returns (r: Result<seq<nat>>)
      requires Valid() && NamesOf(View(), ws, v)
      modifies this
      ensures Valid()
      ensures r.Success? ==> NamesOf(View(), r.value, v + [s]) && View() == AddString(old(View()), s)
      ensures r.Fail? ==> r.error == Overflow && !PayloadFits(AddString(old(View()), s))
    {
      ghost var before := View();
      var id :- StringID(s);
      NamesKeptAll(before, View(), ws, v);
      return Success(ws + [id]);
    }

    method PackStrings(values: List<string>) returns (r: Result<Span>)
      requires Valid()
      modifies this
      ensures Valid()
      ensures r.Success? ==> IsStrings(View(), r.value, values) && View() == AddList(old(View()), values)
      ensures r.Fail? ==> r.error == Overflow && !PayloadFits(AddList(old(View()), values))
    {
      if values.Nil? {
        return Success(Span(NIL_SPAN_START, 0));
      }
      var items := values.values;
      if items == [] {
        return Success(Span(0, 0));
      }
      hide StoredOnce, IsString, NamesOf, IsWords, IsStrings, Valid;
      ListNeedsStrings(View(), items);
      var ws :- StringIDs(items);
      r := PackNamed(ws, items);
    }

    /** The names of strings, in order. */
    method StringIDs(items: seq<string>) returns (r: Result<seq<nat>>)
      requires Valid()
      modifies this
      ensures Valid()
      ensures r.Success? ==> NamesOf(View(), r.value, items) && View() == AddStrings(old(View()), items)
      ensures r.Fail? ==> r.error == Overflow && !PayloadFits(AddStrings(old(View()), items))
    {
      hide StoredOnce, IsString, NamesOf, Valid, View;
      NoNames(View());
      var ws: seq<nat> := [];
      assert View() == AddStrings(View(), []);
      for i := 0 to |items|
        invariant Valid() && NamesOf(View(), ws, items[..i])
        invariant View() == AddStrings(old(View()), items[..i])
      {
        assert items[..i + 1] == items[..i] + [items[i]];
        AddStringsNext(old(View()), items, i);
        ws :- AppendID(ws, items[i], items[..i]);
      }
      assert items[..|items|] == items;
      return Success(ws);
    }

    /** The names `ws` of the strings `v` become a list. */
    method PackNamed(ws: seq<nat>, ghost v: seq<string>) returns (r: Result<Span>)
      requires Valid() && NamesOf(View(), ws, v)
      modifies this
      ensures Valid()
      ensures r.Success? ==>
                IsStrings(View(), r.value, Items(v)) && View() == AddWords(old(View()), Numbers(old(View()), v))
      ensures r.Fail? ==> r.error == Overflow && !PayloadFits(AddWords(old(View()), Numbers(old(View()), v)))
    {
      ghost var before := View();
      NamesAreNumbers(before, ws, v);
      r := PackWords(Items(ws));
      if r.Success? {
        NamesKeptAll(before, View(), ws, v);
        NamesAreStrings(View(), r.value, ws, v);
      }
    }

    method AppendSeverity(ws: seq<nat>, s: Severity, ghost v: seq<string>) returns (r: Result<seq<nat>>)
      requires Valid() && NamesOf(View(), ws, v)
      modifies this
      ensures Valid()
      ensures r.Success? ==> NamesOf(View(), r.value, v + [s.kind, s.source, s.vector])
      ensures r.Success? ==> View() == AddStrings(old(View()), [s.kind, s.source, s.vector])
      ensures r.Fail? ==> r.error == Overflow && !PayloadFits(AddStrings(old(View()), [s.kind, s.source, s.vector]))
    {
      hide NamesOf, StoredOnce, IsString, Valid, View;
      AddStringsThree(View(), s.kind, s.source, s.vector);
      var ws1 :- AppendID(ws, s.kind, v);
      var ws2 :- AppendID(ws1, s.source, v + [s.kind]);
      r := AppendID(ws2, s.vector, v + [s.kind] + [s.source]);
      assert v + [s.kind] + [s.source] + [s.vector] == v + [s.kind, s.source, s.vector];
    }

    method AppendReference(ws: seq<nat>, s: Reference, ghost v: seq<string>) returns (r: Result<seq<nat>>)
      requires Valid() && NamesOf(View(), ws, v)
      modifies this
      ensures Valid()
      ensures r.Success? ==> NamesOf(View(), r.value, v + [s.kind, s.url])
      ensures r.Success? ==> View() == AddStrings(old(View()), [s.kind, s.url])
      ensures r.Fail? ==> r.error == Overflow && !PayloadFits(AddStrings(old(View()), [s.kind, s.url]))
    {
      hide NamesOf, StoredOnce, IsString, Valid, View;
      AddStringsTwo(View(), s.kind, s.url);
      var ws1 :- AppendID(ws, s.kind, v);
      r := AppendID(ws1, s.url, v + [s.kind]);
      assert v + [s.kind] + [s.url] == v + [s.kind, s.url];
    }

    /** The names of the strings of severities, in order. */
    method SeverityIDs(items: seq<Severity>) returns (r: Result<seq<nat>>)
      requires Valid()
      modifies this
      ensures Valid()
      ensures r.Success? ==> NamesOf(View(), r.value, SeverityStrings(items))
      ensures r.Success? ==> View() == AddStrings(old(View()), SeverityStrings(items))
      ensures r.Fail? ==> r.error == Overflow && !PayloadFits(AddStrings(old(View()), SeverityStrings(items)))
    {
      hide StoredOnce, IsString, NamesOf, SeverityStrings, Valid, View, AddStrings;
      SeverityStringsNone();
      NoNames(View());
      AddStringsNone(View());
      var ws: seq<nat> := [];
      for i := 0 to |items|
        invariant Valid() && NamesOf(View(), ws, SeverityStrings(items[..i]))
        invariant View() == AddStrings(old(View()), SeverityStrings(items[..i]))
      {
        var s := items[i];
        SeverityStringsNext(items, i);
        AddStringsConcat(old(View()), SeverityStrings(items[..i]), [s.kind, s.source, s.vector]);
        SeverityStringsGrow(items, i + 1);
        AddStringsPrefix(old(View()), SeverityStrings(items[..i + 1]), SeverityStrings(items));
        ws :- AppendSeverity(ws, s, SeverityStrings(items[..i]));
      }
      assert items[..|items|] == items;
      return Success(ws);
    }

    method PackSeverities(values: List<Severity>) returns (r: Result<Span>)
      requires Valid()
      modifies this
      ensures Valid()
      ensures r.Success? ==>
                IsSeverities(View(), r.value, values) && View() == AddList(old(View()), SeverityList(values))
      ensures r.Fail? ==> r.error == Overflow && !PayloadFits(AddList(old(View()), SeverityList(values)))
    {
      if values.Nil? {
        return Success(Span(NIL_SPAN_START, 0));
      }
      var items := values.values;
      SeverityStringsSize(items);
      if items == [] {
        return Success(Span(0, 0));
      }
      hide StoredOnce, IsString, NamesOf, IsWords, IsStrings, Valid, SeverityStrings;
      ListNeedsStrings(View(), SeverityStrings(items));
      var ws :- SeverityIDs(items);
      r := PackNamed(ws, SeverityStrings(items));
    }

    /** The names of the strings of references, in order. */
    method ReferenceIDs(items: seq<Reference>) returns (r: Result<seq<nat>>)
      requires Valid()
      modifies this
      ensures Valid()
      ensures r.Success? ==> NamesOf(View(), r.value, ReferenceStrings(items))
      ensures r.Success? ==> View() == AddStrings(old(View()), ReferenceStrings(items))
      ensures r.Fail? ==> r.error == Overflow && !PayloadFits(AddStrings(old(View()), ReferenceStrings(items)))
    {
      hide StoredOnce, IsString, NamesOf, ReferenceStrings, Valid, View, AddStrings;
      ReferenceStringsNone();
      NoNames(View());
      AddStringsNone(View());
      var ws: seq<nat> := [];
      for i := 0 to |items|
        invariant Valid() && NamesOf(View(), ws, ReferenceStrings(items[..i]))
        invariant View() == AddStrings(old(View()), ReferenceStrings(items[..i]))
      {
        var s := items[i];
        ReferenceStringsNext(items, i);
        AddStringsConcat(old(View()), ReferenceStrings(items[..i]), [s.kind, s.url]);
        ReferenceStringsGrow(items, i + 1);
        AddStringsPrefix(old(View()), ReferenceStrings(items[..i + 1]), ReferenceStrings(items));
        ws :- AppendReference(ws, s, ReferenceStrings(items[..i]));
      }
      assert items[..|items|] == items;
      return Success(ws);
    }

    method PackReferences(values: List<Reference>) returns (r: Result<Span>)
      requires Valid()
      modifies this
      ensures Valid()
      ensures r.Success? ==>
                IsReferences(View(), r.value, values) && View() == AddList(old(View()), ReferenceList(values))
      ensures r.Fail? ==> r.error == Overflow && !PayloadFits(AddList(old(View()), ReferenceList(values)))
    {
      if values.Nil? {
        return Success(Span(NIL_SPAN_START, 0));
      }
      var items := values.values;
      ReferenceStringsSize(items);
      if items == [] {
        return Success(Span(0, 0));
      }
      hide StoredOnce, IsString, NamesOf, IsWords, IsStrings, Valid, ReferenceStrings;
      ListNeedsStrings(View(), ReferenceStrings(items));
      var ws :- ReferenceIDs(items);
      r := PackNamed(ws, ReferenceStrings(items));
    }
  }
}
