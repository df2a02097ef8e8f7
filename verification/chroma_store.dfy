/**
 The local part of `ChromaStore`: flattening the listing files into listings and
 converting them to documents. Embedding, indexing and retrieval are not modelled.
 */
module ChromaStore {
  import opened Wrappers
  import opened Listings
  import Seqs

  /** `ChromaStore.listings_to_documents`: one document per listing, in order. */
  function ListingsToDocuments(listings: seq<Listing>): (docs: seq<Document>)
    ensures |docs| == |listings|
    ensures forall i :: 0 <= i < |listings| ==> docs[i] == ToDocument(listings[i])
  {
    Seqs.MapSeq(ToDocument, listings)
  }

  /** Converting a concatenation converts each part and concatenates the results. */
  lemma ListingsToDocumentsAppend(a: seq<Listing>, b: seq<Listing>)
    ensures ListingsToDocuments(a + b) == ListingsToDocuments(a) + ListingsToDocuments(b)
  {
    Seqs.MapSeqAppend(ToDocument, a, b);
  }

  /** Converting one more listing appends its document. */
  lemma ListingsToDocumentsSnoc(listings: seq<Listing>, l: Listing)
    ensures ListingsToDocuments(listings + [l]) == ListingsToDocuments(listings) + [ToDocument(l)]
  {
    Seqs.MapSeqSnoc(ToDocument, listings, l);
  }

  /** All items of all files, file by file, each file's items in order. */
  function Flatten(files: seq<seq<Json>>): seq<Json>
  {
    if files == [] then [] else Flatten(files[..|files| - 1]) + files[|files| - 1]
  }

  function TotalItems(files: seq<seq<Json>>): nat
  {
    if files == [] then 0 else |files[0]| + TotalItems(files[1..])
  }

  lemma {:induction false} FlattenCount(files: seq<seq<Json>>)
    ensures |Flatten(files)| == TotalItems(files)
    decreases |files|
  {
    if files != [] {
      var last := |files| - 1;
      FlattenCount(files[..last]);
      TotalItemsAppend(files[..last], files[last]);
      assert files[..last] + [files[last]] == files;
    }
  }

  lemma {:induction false} TotalItemsAppend(files: seq<seq<Json>>, f: seq<Json>)
    ensures TotalItems(files + [f]) == TotalItems(files) + |f|
    decreases |files|
  {
    if files != [] {
      assert (files + [f])[1..] == files[1..] + [f];
      TotalItemsAppend(files[1..], f);
    }
  }

  /** Each item validates as the listing at the same position. */
  ghost predicate ParsedAs(items: seq<Json>, listings: seq<Listing>) {
    |items| == |listings| && forall j :: 0 <= j < |items| ==> ParseListing(items[j]) == Some(listings[j])
  }

  /** Every item of every file validates. */
  ghost predicate AllValid(files: seq<seq<Json>>) {
    forall j :: 0 <= j < |Flatten(files)| ==> ParseListing(Flatten(files)[j]).Some?
  }

  /** `docs` holds one document per item of every file, converted from the listing the item validates as. */
  ghost predicate LoadedAll(files: seq<seq<Json>>, docs: seq<Document>) {
    && AllValid(files)
    && |docs| == |Flatten(files)| == TotalItems(files)
    && forall j :: 0 <= j < |Flatten(files)| ==> docs[j] == ToDocument(ParseListing(Flatten(files)[j]).value)
  }

  /** Item `e` of the flattened files is the first that fails validation. */
  ghost predicate FirstInvalidAt(files: seq<seq<Json>>, e: nat) {
    && e < |Flatten(files)|
    && ParseListing(Flatten(files)[e]).None?
    && forall j :: 0 <= j < e ==> ParseListing(Flatten(files)[j]).Some?
  }

  /**
   `ChromaStore.load_listings`: validate every item of every file, in file order
   and item order, and convert the whole list once. The first item that fails
   validation aborts the load; its position in the flattened list is reported.
   */
  method LoadListings(files: seq<seq<Json>>) returns (r: Result<seq<Document>, nat>)
    ensures r.Success? ==> LoadedAll(files, r.value)
    ensures r.Failure? ==> FirstInvalidAt(files, r.error)
  {
    var rawListings: seq<Listing> := [];
    var f := 0;
    while f < |files|
      invariant 0 <= f <= |files|
      invariant ParsedAs(Flatten(files[..f]), rawListings)
    {
      var data := files[f];
      ghost var done := Flatten(files[..f]);
      var i := 0;
      while i < |data|
        invariant 0 <= i <= |data|
        invariant ParsedAs(done + data[..i], rawListings)
      {
        var parsed := ParseListing(data[i]);
        if parsed.None? {
          StopsAt(files, f, i, rawListings);
          return Failure(|rawListings|);
        }
        assert done + data[..i + 1] == (done + data[..i]) + [data[i]];
        rawListings := rawListings + [parsed.value];
        i := i + 1;
      }
      assert data[..i] == data;
      FlattenNext(files, f);
      f := f + 1;
    }
    assert files[..f] == files;
    LoadsAll(files, rawListings);
    return Success(ListingsToDocuments(rawListings));
  }

  /** An invalid item found after all items before it validated is the first invalid one. */
  lemma StopsAt(files: seq<seq<Json>>, f: nat, i: nat, listings: seq<Listing>)
    requires f < |files| && i < |files[f]|
    requires ParsedAs(Flatten(files[..f]) + files[f][..i], listings)
    requires ParseListing(files[f][i]).None?
    ensures FirstInvalidAt(files, |listings|)
  {
    var done := Flatten(files[..f]);
    FlattenNext(files, f);
    FlattenPrefix(files, f + 1);
    assert Flatten(files)[..|done| + i] == done + files[f][..i];
    assert Flatten(files)[|done| + i] == files[f][i];
  }

  /** When every item validated, converting the listings loads every file. */
  lemma LoadsAll(files: seq<seq<Json>>, listings: seq<Listing>)
    requires ParsedAs(Flatten(files), listings)
    ensures LoadedAll(files, ListingsToDocuments(listings))
  {
    FlattenCount(files);
    ConvertParsed(Flatten(files), listings);
  }

  lemma ConvertParsed(items: seq<Json>, listings: seq<Listing>)
    requires ParsedAs(items, listings)
    ensures forall j :: 0 <= j < |items| ==> ParseListing(items[j]).Some?
    ensures forall j :: 0 <= j < |items| ==>
      ListingsToDocuments(listings)[j] == ToDocument(ParseListing(items[j]).value)
  {
  }

  lemma FlattenNext(files: seq<seq<Json>>, f: nat)
    requires f < |files|
    ensures Flatten(files[..f + 1]) == Flatten(files[..f]) + files[f]
  {
    assert files[..f + 1][..f] == files[..f];
  }

  /** The flattening of a prefix of the files is a prefix of the whole flattening. */
  lemma {:induction false} FlattenPrefix(files: seq<seq<Json>>, k: nat)
    requires k <= |files|
    ensures Flatten(files[..k]) <= Flatten(files)
    decreases |files| - k
  {
    if k < |files| {
      FlattenPrefix(files, k + 1);
      assert files[..k + 1][..k] == files[..k];
    } else {
      assert files[..k] == files;
    }
  }
}
