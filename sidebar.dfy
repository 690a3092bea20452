/** The sidebar's document list: documents grouped under the date they were created, the
    per-type counts in the footer, and the tag preview of each entry. The locale-dependent
    date formatting `new Date(createdAt).toLocaleDateString()` is a parameter, `dateKey`. */
module Sidebar {
  import opened Wrappers
  import opened Text
  import opened ContentTypes

  /** A document as the list receives it; `tags` may be missing. */
  datatype Document = Document(id: string, title: string, source: string, contentType: string,
                               tags: Option<seq<string>>, createdAt: string)

  predicate Occurs(dateKey: string -> string, docs: seq<Document>, k: string) {
    exists j :: 0 <= j < |docs| && dateKey(docs[j].createdAt) == k
  }

  // ---------------------------------------------------------------------------------------
  // Grouping by date

  /** The accumulator of the `reduce` after `docs`: each document pushed onto the list of its
      date key, the list created on the key's first use. */
  function Grouped(dateKey: string -> string, docs: seq<Document>): map<string, seq<Document>>
    decreases |docs|
  {
    if docs == [] then map[]
    else
      var g := Grouped(dateKey, docs[..|docs| - 1]);
      var d := docs[|docs| - 1];
      var k := dateKey(d.createdAt);
      g[k := (if k in g then g[k] else []) + [d]]
  }

  /** The accumulator's keys in insertion order: the order `Object.entries` lists them in. */
  function KeyOrder(dateKey: string -> string, docs: seq<Document>): seq<string>
    decreases |docs|
  {
    if docs == [] then []
    else
      var ks := KeyOrder(dateKey, docs[..|docs| - 1]);
      var k := dateKey(docs[|docs| - 1].createdAt);
      if k in ks then ks else ks + [k]
  }

  /** Reference: the documents with date key `k`, in their order in `docs`. */
  function WithKey(dateKey: string -> string, docs: seq<Document>, k: string): (r: seq<Document>)
    ensures forall d :: d in r <==> d in docs && dateKey(d.createdAt) == k
    decreases |docs|
  {
    if docs == [] then []
    else
      var init := docs[..|docs| - 1];
      var d := docs[|docs| - 1];
      assert docs == init + [d];
      WithKey(dateKey, init, k) + (if dateKey(d.createdAt) == k then [d] else [])
  }

  /** The position of the first document with date key `k`. */
  function FirstIndex(dateKey: string -> string, docs: seq<Document>, k: string): (i: nat)
    requires Occurs(dateKey, docs, k)
    ensures i < |docs| && dateKey(docs[i].createdAt) == k
    ensures forall j :: 0 <= j < i ==> dateKey(docs[j].createdAt) != k
  {
    if dateKey(docs[0].createdAt) == k then 0
    else
      assert Occurs(dateKey, docs[1..], k) by {
        var j :| 0 <= j < |docs| && dateKey(docs[j].createdAt) == k;
        assert docs[1..][j - 1] == docs[j];
      }
      1 + FirstIndex(dateKey, docs[1..], k)
  }

  /** The sum of the sizes of the groups listed in `ks`. */
  function SumSizes(g: map<string, seq<Document>>, ks: seq<string>): nat
    decreases |ks|
  {
    if ks == [] then 0
    else SumSizes(g, ks[..|ks| - 1]) + (if ks[|ks| - 1] in g then |g[ks[|ks| - 1]]| else 0)
  }

  predicate Distinct(ks: seq<string>) {
    forall a, b :: 0 <= a < b < |ks| ==> ks[a] != ks[b]
  }

  /** The `documents.reduce(...)` that builds `groupedDocs`, with the insertion order of its keys. */
  method GroupByDate(dateKey: string -> string, documents: seq<Document>)
    returns (groups: map<string, seq<Document>>, order: seq<string>)
    ensures groups == Grouped(dateKey, documents)
    ensures order == KeyOrder(dateKey, documents)
  {
    groups, order := map[], [];
    for i := 0 to |documents|
      invariant groups == Grouped(dateKey, documents[..i])
      invariant order == KeyOrder(dateKey, documents[..i])
      invariant forall k :: k in groups <==> k in order
    {
      var doc := documents[i];
      var date := dateKey(doc.createdAt);
      assert documents[..i + 1][..i] == documents[..i] && documents[..i + 1][i] == doc;
      ghost var g := Grouped(dateKey, documents[..i]);
      assert Grouped(dateKey, documents[..i + 1]) == g[date := (if date in g then g[date] else []) + [doc]];
      if date !in groups {
        groups := groups[date := []];
        order := order + [date];
      }
      groups := groups[date := groups[date] + [doc]];
    }
    assert documents[..|documents|] == documents;
  }

  lemma {:induction false} KeysAreOrdered(dateKey: string -> string, docs: seq<Document>, k: string)
    ensures k in Grouped(dateKey, docs) <==> k in KeyOrder(dateKey, docs)
    decreases |docs|
  {
    if docs != [] {
      KeysAreOrdered(dateKey, docs[..|docs| - 1], k);
    }
  }

  lemma {:induction false} KeysOccur(dateKey: string -> string, docs: seq<Document>, k: string)
    ensures k in Grouped(dateKey, docs) <==> Occurs(dateKey, docs, k)
    decreases |docs|
  {
    if docs != [] {
      var init := docs[..|docs| - 1];
      KeysOccur(dateKey, init, k);
      if Occurs(dateKey, init, k) {
        var j :| 0 <= j < |init| && dateKey(init[j].createdAt) == k;
        assert docs[j] == init[j];
      }
      if Occurs(dateKey, docs, k) && dateKey(docs[|docs| - 1].createdAt) != k {
        var j :| 0 <= j < |docs| && dateKey(docs[j].createdAt) == k;
        assert init[j] == docs[j];
      }
    }
  }

  lemma {:induction false} GroupIsFilter(dateKey: string -> string, docs: seq<Document>, k: string)
    ensures k in Grouped(dateKey, docs) ==> Grouped(dateKey, docs)[k] == WithKey(dateKey, docs, k)
    ensures k !in Grouped(dateKey, docs) ==> WithKey(dateKey, docs, k) == []
    decreases |docs|
  {
    if docs != [] {
      GroupIsFilter(dateKey, docs[..|docs| - 1], k);
    }
  }

  /** The groups are exactly the date keys that occur, in the insertion order: each group
      holds precisely the documents with its key, in their original order. */
  lemma GroupsAreFilters(dateKey: string -> string, docs: seq<Document>, k: string)
    ensures k in Grouped(dateKey, docs) <==> k in KeyOrder(dateKey, docs)
    ensures k in Grouped(dateKey, docs) <==> Occurs(dateKey, docs, k)
    ensures k in Grouped(dateKey, docs) ==> Grouped(dateKey, docs)[k] == WithKey(dateKey, docs, k)
    ensures k !in Grouped(dateKey, docs) ==> WithKey(dateKey, docs, k) == []
  {
    KeysAreOrdered(dateKey, docs, k);
    KeysOccur(dateKey, docs, k);
    GroupIsFilter(dateKey, docs, k);
  }

  /** Every document is filed under its own date key, and in no other group. */
  lemma DocumentInOneGroup(dateKey: string -> string, docs: seq<Document>, i: nat, k: string)
    requires i < |docs|
    ensures dateKey(docs[i].createdAt) in Grouped(dateKey, docs)
    ensures docs[i] in Grouped(dateKey, docs)[dateKey(docs[i].createdAt)]
    ensures k in Grouped(dateKey, docs) && docs[i] in Grouped(dateKey, docs)[k] ==> k == dateKey(docs[i].createdAt)
  {
    GroupsAreFilters(dateKey, docs, dateKey(docs[i].createdAt));
    GroupsAreFilters(dateKey, docs, k);
  }

  lemma {:induction false} SumSizesUpdate(g: map<string, seq<Document>>, ks: seq<string>, k: string, d: Document)
    requires Distinct(ks) && k in ks && k in g
    ensures SumSizes(g[k := g[k] + [d]], ks) == SumSizes(g, ks) + 1
    decreases |ks|
  {
    var last := ks[|ks| - 1];
    var init := ks[..|ks| - 1];
    if last == k {
      assert k !in init;
      SumSizesOther(g, init, k, g[k] + [d]);
    } else {
      assert k in init by {
        var a :| 0 <= a < |ks| && ks[a] == k;
        assert a < |ks| - 1 && init[a] == k;
      }
      SumSizesUpdate(g, init, k, d);
    }
  }

  lemma {:induction false} SumSizesOther(g: map<string, seq<Document>>, ks: seq<string>, k: string, v: seq<Document>)
    requires k !in ks
    ensures SumSizes(g[k := v], ks) == SumSizes(g, ks)
    decreases |ks|
  {
    if ks != [] {
      SumSizesOther(g, ks[..|ks| - 1], k, v);
    }
  }

  /** The group sizes add up to the number of documents, and no key is listed twice. */
  lemma {:induction false} GroupSizesSum(dateKey: string -> string, docs: seq<Document>)
    ensures Distinct(KeyOrder(dateKey, docs))
    ensures SumSizes(Grouped(dateKey, docs), KeyOrder(dateKey, docs)) == |docs|
    decreases |docs|
  {
    if docs != [] {
      var init := docs[..|docs| - 1];
      var d := docs[|docs| - 1];
      var k := dateKey(d.createdAt);
      var g, ks := Grouped(dateKey, init), KeyOrder(dateKey, init);
      GroupSizesSum(dateKey, init);
      GroupsAreFilters(dateKey, init, k);
      if k in ks {
        SumSizesUpdate(g, ks, k, d);
      } else {
        assert k !in g;
        assert [] + [d] == [d];
        assert Grouped(dateKey, docs) == g[k := [d]];
        assert KeyOrder(dateKey, docs) == ks + [k];
        SumSizesOther(g, ks, k, [d]);
        assert (ks + [k])[..|ks|] == ks;
        assert SumSizes(g[k := [d]], ks + [k]) == SumSizes(g[k := [d]], ks) + 1;
      }
    }
  }

  lemma FirstIndexSnoc(dateKey: string -> string, docs: seq<Document>, d: Document, k: string)
    requires Occurs(dateKey, docs, k)
    ensures Occurs(dateKey, docs + [d], k)
    ensures FirstIndex(dateKey, docs + [d], k) == FirstIndex(dateKey, docs, k)
  {
    var i := FirstIndex(dateKey, docs, k);
    assert (docs + [d])[i] == docs[i];
  }

  lemma FirstIndexNew(dateKey: string -> string, init: seq<Document>, d: Document)
    requires !Occurs(dateKey, init, dateKey(d.createdAt))
    ensures Occurs(dateKey, init + [d], dateKey(d.createdAt))
    ensures FirstIndex(dateKey, init + [d], dateKey(d.createdAt)) == |init|
  {
    var docs := init + [d];
    assert docs[|init|] == d;
  }

  lemma KeyOrderSnoc(dateKey: string -> string, init: seq<Document>, d: Document)
    ensures KeyOrder(dateKey, init + [d])
         == var ks := KeyOrder(dateKey, init); if dateKey(d.createdAt) in ks then ks else ks + [dateKey(d.createdAt)]
  {
    assert (init + [d])[..|init|] == init;
  }

  lemma KeysOccurSnoc(dateKey: string -> string, init: seq<Document>, d: Document)
    requires forall k :: k in KeyOrder(dateKey, init) ==> Occurs(dateKey, init, k)
    ensures forall k :: k in KeyOrder(dateKey, init + [d]) ==> Occurs(dateKey, init + [d], k)
  {
    KeyOrderSnoc(dateKey, init, d);
    forall k | k in KeyOrder(dateKey, init + [d])
      ensures Occurs(dateKey, init + [d], k)
    {
      if k in KeyOrder(dateKey, init) {
        FirstIndexSnoc(dateKey, init, d, k);
      } else {
        assert (init + [d])[|init|] == d;
      }
    }
  }

  lemma KeysOrderedSnoc(dateKey: string -> string, init: seq<Document>, d: Document)
    requires forall k :: k in KeyOrder(dateKey, init) ==> Occurs(dateKey, init, k)
    requires forall a, b :: 0 <= a < b < |KeyOrder(dateKey, init)| ==>
      FirstIndex(dateKey, init, KeyOrder(dateKey, init)[a]) < FirstIndex(dateKey, init, KeyOrder(dateKey, init)[b])
    ensures forall k :: k in KeyOrder(dateKey, init + [d]) ==> Occurs(dateKey, init + [d], k)
    ensures forall a, b :: 0 <= a < b < |KeyOrder(dateKey, init + [d])| ==>
      FirstIndex(dateKey, init + [d], KeyOrder(dateKey, init + [d])[a])
        < FirstIndex(dateKey, init + [d], KeyOrder(dateKey, init + [d])[b])
  {
    KeysOccurSnoc(dateKey, init, d);
    KeyOrderSnoc(dateKey, init, d);
    var k := dateKey(d.createdAt);
    var ks := KeyOrder(dateKey, init);
    var ks' := KeyOrder(dateKey, init + [d]);
    if k !in ks {
      KeysAreOrdered(dateKey, init, k);
      KeysOccur(dateKey, init, k);
      FirstIndexNew(dateKey, init, d);
    }
    forall a, b | 0 <= a < b < |ks'|
      ensures FirstIndex(dateKey, init + [d], ks'[a]) < FirstIndex(dateKey, init + [d], ks'[b])
    {
      assert ks'[a] == ks[a] && ks[a] in ks;
      FirstIndexSnoc(dateKey, init, d, ks[a]);
      if b < |ks| {
        assert ks'[b] == ks[b] && ks[b] in ks;
        FirstIndexSnoc(dateKey, init, d, ks[b]);
      }
    }
  }

  /** The groups are listed in the order in which their keys first occur. */
  lemma {:induction false} GroupsInFirstOccurrenceOrder(dateKey: string -> string, docs: seq<Document>)
    ensures forall k :: k in KeyOrder(dateKey, docs) ==> Occurs(dateKey, docs, k)
    ensures forall a, b :: 0 <= a < b < |KeyOrder(dateKey, docs)| ==>
      FirstIndex(dateKey, docs, KeyOrder(dateKey, docs)[a]) < FirstIndex(dateKey, docs, KeyOrder(dateKey, docs)[b])
    decreases |docs|
  {
    if docs != [] {
      var init := docs[..|docs| - 1];
      assert docs == init + [docs[|docs| - 1]];
      GroupsInFirstOccurrenceOrder(dateKey, init);
      KeysOrderedSnoc(dateKey, init, docs[|docs| - 1]);
    }
  }

  // ---------------------------------------------------------------------------------------
  // The footer counts and the tag preview

  /** `documents.filter(d => d.contentType === t).length`. */
  function CountOfType(docs: seq<Document>, t: string): (n: nat)
    ensures n <= |docs|
    decreases |docs|
  {
    if docs == [] then 0
    else CountOfType(docs[..|docs| - 1], t) + (if docs[|docs| - 1].contentType == t then 1 else 0)
  }

  /** Reference: the number of documents whose type the tables name. */
  function CountKnown(docs: seq<Document>): nat
    decreases |docs|
  {
    if docs == [] then 0
    else CountKnown(docs[..|docs| - 1]) + (if docs[|docs| - 1].contentType in KnownTypes then 1 else 0)
  }

  /** The footer: one count per named type, in the tables' order. */
  function TypeCounts(docs: seq<Document>): (r: seq<(string, nat)>)
    ensures |r| == |KnownTypes|
    ensures forall i :: 0 <= i < |r| ==> r[i].0 == KnownTypes[i] && r[i].1 == CountOfType(docs, KnownTypes[i])
  {
    seq(|KnownTypes|, i requires 0 <= i < |KnownTypes| => (KnownTypes[i], CountOfType(docs, KnownTypes[i])))
  }

  /** A type is counted zero times exactly when no document has it. */
  lemma {:induction false} CountZeroIff(docs: seq<Document>, t: string)
    ensures CountOfType(docs, t) == 0 <==> forall j :: 0 <= j < |docs| ==> docs[j].contentType != t
    decreases |docs|
  {
    if docs != [] {
      var init := docs[..|docs| - 1];
      CountZeroIff(init, t);
      assert forall j :: 0 <= j < |init| ==> init[j] == docs[j];
    }
  }

  /** Each document of a named type is counted under exactly that type, and a document of any
      other type is counted nowhere: the five counts add up to the documents of named types. */
  lemma {:induction false} CountsCoverNamedTypes(docs: seq<Document>)
    ensures CountOfType(docs, "document") + CountOfType(docs, "web") + CountOfType(docs, "audio")
          + CountOfType(docs, "text") + CountOfType(docs, "image") == CountKnown(docs)
    ensures CountKnown(docs) <= |docs|
    decreases |docs|
  {
    if docs != [] {
      CountsCoverNamedTypes(docs[..|docs| - 1]);
    }
  }

  /** `doc.tags && doc.tags.length > 0 && doc.tags.slice(0, 2).join(', ')`: shown only for a
      non-empty tag list, and then the first tag, or the first two separated by ", ". */
  function TagPreview(tags: Option<seq<string>>): (r: Option<string>)
    ensures r.Some? <==> tags.Some? && tags.value != []
    ensures r.Some? && |tags.value| == 1 ==> r.value == tags.value[0]
    ensures r.Some? && |tags.value| >= 2 ==> r.value == tags.value[0] + ", " + tags.value[1]
  {
    if tags.Some? && tags.value != [] then
      var shown := if |tags.value| < 2 then tags.value else tags.value[..2];
      assert |shown| == 2 ==> shown[1..] == [shown[1]];
      Some(Join(shown, ", "))
    else None
  }
}
