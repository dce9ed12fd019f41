/**
 * The document store (composables/useDocumentStore.ts): an ordered list of
 * documents with append, removal by id, clearing, and the concatenated
 * contents.
 */
module DocumentStore {
  import opened Subsequences

  datatype Document = Document(id: string, name: string, content: string)

  const SEPARATOR: string := "\n\n"

  /** `docs.filter(doc => doc.id !== id)`: the documents without that id, in order. */
  function Without(docs: seq<Document>, id: string): (r: seq<Document>)
    ensures forall i :: 0 <= i < |r| ==> r[i] in docs && r[i].id != id
    ensures forall i :: 0 <= i < |docs| && docs[i].id != id ==> docs[i] in r
    ensures IsSubsequence(r, docs)
    ensures (forall i :: 0 <= i < |docs| ==> docs[i].id != id) ==> r == docs
  {
    if docs == [] then []
    else
      var rest := Without(docs[1..], id);
      if docs[0].id != id then [docs[0]] + rest else rest
  }

  /** Removal keeps each document with another id as often as it occurs, and none with that id. */
  lemma {:induction false} WithoutCounts(docs: seq<Document>, id: string)
    ensures forall d :: multiset(Without(docs, id))[d] == if d.id != id then multiset(docs)[d] else 0
  {
    if docs != [] {
      assert docs == [docs[0]] + docs[1..];
      WithoutCounts(docs[1..], id);
    }
  }

  /** Removing twice is removing once. */
  lemma {:induction false} WithoutIdempotent(docs: seq<Document>, id: string)
    ensures Without(Without(docs, id), id) == Without(docs, id)
  {
    var r := Without(docs, id);
    assert forall i :: 0 <= i < |r| ==> r[i] in r;
  }

  /** One step of the filter: the head is kept exactly when its id differs. */
  lemma WithoutCons(x: Document, rest: seq<Document>, id: string)
    ensures Without([x] + rest, id) == (if x.id != id then [x] else []) + Without(rest, id)
  {
    assert ([x] + rest)[1..] == rest;
  }

  /** Concatenation is associative. */
  lemma AppendAssociative<T>(x: seq<T>, y: seq<T>, z: seq<T>)
    ensures x + (y + z) == (x + y) + z
  {
  }

  /** Filtering distributes over concatenation. */
  lemma {:induction false} WithoutAppend(a: seq<Document>, b: seq<Document>, id: string)
    ensures Without(a + b, id) == Without(a, id) + Without(b, id)
  {
    if a != [] {
      var t := a[1..];
      assert a == [a[0]] + t && a + b == [a[0]] + (t + b);
      WithoutAppend(t, b, id);
      WithoutConsAppend(a[0], t, b, id);
    } else {
      assert a + b == b;
    }
  }

  /** The inductive step of `WithoutAppend`: putting one document in front of both sides. */
  lemma WithoutConsAppend(x: Document, t: seq<Document>, b: seq<Document>, id: string)
    requires Without(t + b, id) == Without(t, id) + Without(b, id)
    ensures Without([x] + (t + b), id) == Without([x] + t, id) + Without(b, id)
  {
    var head := if x.id != id then [x] else [];
    WithoutCons(x, t + b, id);
    WithoutCons(x, t, id);
    AppendAssociative(head, Without(t, id), Without(b, id));
  }

  /** The ids are pairwise distinct. */
  ghost predicate DistinctIds(docs: seq<Document>) {
    forall i, j :: 0 <= i < j < |docs| ==> docs[i].id != docs[j].id
  }

  /** With a fresh id, appending keeps the ids distinct. */
  lemma AddKeepsIdsDistinct(docs: seq<Document>, d: Document)
    requires DistinctIds(docs)
    requires forall i :: 0 <= i < |docs| ==> docs[i].id != d.id
    ensures DistinctIds(docs + [d])
  {
    var all := docs + [d];
    forall i, j | 0 <= i < j < |all| ensures all[i].id != all[j].id {
      if j < |docs| {
        assert all[i] == docs[i] && all[j] == docs[j];
      } else {
        assert all[i] == docs[i] && all[j] == d;
      }
    }
  }

  /** With a fresh id, removing that id right after the append removes exactly the appended document. */
  lemma {:induction false} AddThenRemove(docs: seq<Document>, d: Document)
    requires forall i :: 0 <= i < |docs| ==> docs[i].id != d.id
    ensures Without(docs + [d], d.id) == docs
  {
    WithoutAppend(docs, [d], d.id);
    assert Without([d], d.id) == [];
  }

  /** The contents of the documents, in order. */
  function Contents(docs: seq<Document>): (cs: seq<string>)
    ensures |cs| == |docs|
    ensures forall i :: 0 <= i < |docs| ==> cs[i] == docs[i].content
  {
    if docs == [] then [] else [docs[0].content] + Contents(docs[1..])
  }

  /** `parts.join(sep)`: the parts in order with `sep` between neighbours. */
  function Join(parts: seq<string>, sep: string): (r: string)
    ensures parts == [] ==> r == ""
    ensures |parts| == 1 ==> r == parts[0]
    ensures |parts| >= 1 ==> parts[0] <= r
  {
    if parts == [] then ""
    else if |parts| == 1 then parts[0]
    else parts[0] + sep + Join(parts[1..], sep)
  }

  /** Joining one more part adds the separator and that part at the end. */
  lemma {:induction false} JoinAppend(parts: seq<string>, x: string, sep: string)
    ensures Join(parts + [x], sep) == if parts == [] then x else Join(parts, sep) + sep + x
  {
    if |parts| > 1 {
      assert (parts + [x])[1..] == parts[1..] + [x];
      JoinAppend(parts[1..], x, sep);
    } else if |parts| == 1 {
      assert (parts + [x])[1..] == [x];
    }
  }

  /** The joined text is as long as the parts plus one separator between each pair of neighbours. */
  lemma {:induction false} JoinLength(parts: seq<string>, sep: string)
    requires parts != []
    ensures |Join(parts, sep)| == TotalLength(parts) + (|parts| - 1) * |sep|
  {
    if |parts| > 1 {
      JoinLength(parts[1..], sep);
    }
  }

  function TotalLength(parts: seq<string>): nat {
    if parts == [] then 0 else |parts[0]| + TotalLength(parts[1..])
  }

  class DocumentStore {
    var documents: seq<Document>

    /** The store starts empty. */
    constructor()
      ensures documents == []
    {
      documents := [];
    }

    /** `addDocument`: appends and returns a document with a new id (the value `uuidv4` gave). */
    method AddDocument(name: string, content: string, freshId: string) returns (doc: Document)
      modifies this
      ensures doc == Document(freshId, name, content)
      ensures documents == old(documents) + [doc]
    {
      doc := Document(freshId, name, content);
      documents := documents + [doc];
    }

    /** `removeDocument`: drops every document with that id. */
    method RemoveDocument(id: string)
      modifies this
      ensures documents == Without(old(documents), id)
    {
      documents := Without(documents, id);
    }

    /** `clearDocuments`: the store becomes empty. */
    method ClearDocuments()
      modifies this
      ensures documents == []
    {
      documents := [];
    }

    /** `getDocumentContent`: the contents joined with a blank line; "" for an empty store. */
    function GetDocumentContent(): (r: string)
      reads this
      ensures documents == [] ==> r == ""
      ensures |documents| == 1 ==> r == documents[0].content
    {
      Join(Contents(documents), SEPARATOR)
    }
  }

  /** After an append, the joined contents are the old ones, a blank line, and the new content. */
  lemma ContentAfterAdd(docs: seq<Document>, d: Document)
    ensures Join(Contents(docs + [d]), SEPARATOR) ==
              if docs == [] then d.content else Join(Contents(docs), SEPARATOR) + SEPARATOR + d.content
  {
    assert Contents(docs + [d]) == Contents(docs) + [d.content];
    JoinAppend(Contents(docs), d.content, SEPARATOR);
  }
}
