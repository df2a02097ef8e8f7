/**
 The `Listing` record the language model is asked to produce, the LangChain
 `Document` it is indexed as, and the conversion between the two that
 `listings_to_documents` performs for each item.
 */
module Listings {
  import opened Text
  import opened Wrappers

  /** One synthetic real-estate listing; every field is required. */
  datatype Listing = Listing(
    neighborhood: string,
    price: int,
    bedrooms: int,
    bathrooms: int,
    houseSize: string,
    description: string,
    neighborhoodDescription: string)

  /** A value of `model_dump()`: listing fields are strings or integers. */
  datatype Value = StrValue(str: string) | IntValue(num: int)

  /** A LangChain document: the embedded text and its metadata. */
  datatype Document = Document(pageContent: string, metadata: map<string, Value>)

  /** A decoded JSON value, as far as listing files need it. */
  datatype Json = JString(str: string) | JInt(num: int) | JObject(fields: map<string, Json>) | JOther

  const ProseFields: set<string> := {"description", "neighborhood_description"}
  const MetadataFields: set<string> := {"neighborhood", "price", "bedrooms", "bathrooms", "house_size"}
  const ListingFields: set<string> := MetadataFields + ProseFields

  /** Pydantic's `model_dump()`: the record as a field-name map. */
  function ModelDump(l: Listing): (d: map<string, Value>)
    ensures d.Keys == ListingFields
  {
    map[
      "neighborhood" := StrValue(l.neighborhood),
      "price" := IntValue(l.price),
      "bedrooms" := IntValue(l.bedrooms),
      "bathrooms" := IntValue(l.bathrooms),
      "house_size" := StrValue(l.houseSize),
      "description" := StrValue(l.description),
      "neighborhood_description" := StrValue(l.neighborhoodDescription)]
  }

  /** The embedded text: the two stripped prose fields joined by a blank line, stripped again. */
  function PageContent(l: Listing): (text: string)
    ensures NoEdgeSpace(text)
  {
    Strip(Join([Strip(l.description), Strip(l.neighborhoodDescription)], "\n\n"))
  }

  /** The metadata: every dumped field except the two prose fields. */
  function Metadata(l: Listing): (m: map<string, Value>)
    ensures m.Keys == MetadataFields
    ensures m["neighborhood"] == StrValue(l.neighborhood)
    ensures m["price"] == IntValue(l.price)
    ensures m["bedrooms"] == IntValue(l.bedrooms)
    ensures m["bathrooms"] == IntValue(l.bathrooms)
    ensures m["house_size"] == StrValue(l.houseSize)
  {
    var d := ModelDump(l);
    map k | k in d && k !in ProseFields :: d[k]
  }

  /** The per-item body of `listings_to_documents`. */
  function ToDocument(l: Listing): Document {
    Document(PageContent(l), Metadata(l))
  }

  /**
   A document's metadata is the listing's dump minus exactly the two prose
   fields, with every remaining value unchanged.
   */
  lemma ToDocumentMetadata(l: Listing)
    ensures forall k :: k in ToDocument(l).metadata <==> k in ModelDump(l) && k !in ProseFields
    ensures forall k :: k in ToDocument(l).metadata ==> ToDocument(l).metadata[k] == ModelDump(l)[k]
  {
  }

  /**
   The text block, case by case: the outer strip only matters when one of the
   prose fields is blank, and then the blank line disappears with it.
   */
  lemma PageContentCases(l: Listing)
    ensures var d, n := Strip(l.description), Strip(l.neighborhoodDescription);
      PageContent(l) ==
        if d == [] then n
        else if n == [] then d
        else d + "\n\n" + n
  {
    var d, n := Strip(l.description), Strip(l.neighborhoodDescription);
    assert Join([d, n], "\n\n") == d + "\n\n" + n;
    StripAroundBlankLine(d, n);
  }

  lemma StripAroundBlankLine(d: string, n: string)
    requires NoEdgeSpace(d) && NoEdgeSpace(n)
    ensures Strip(d + "\n\n" + n) == if d == [] then n else if n == [] then d else d + "\n\n" + n
  {
    var s := d + "\n\n" + n;
    assert IsSpace('\n');
    if d == [] && n == [] {
      assert AllSpace(s);
    } else if d == [] {
      assert s[2..] == n;
      assert PaddedBy(s, 2, n);
      StripPadded(s, 2, n);
    } else if n == [] {
      assert s[..|d|] == d;
      assert PaddedBy(s, 0, d);
      StripPadded(s, 0, d);
    } else {
      assert PaddedBy(s, 0, s);
      StripPadded(s, 0, s);
    }
  }

  /** The text depends on the prose fields alone. */
  lemma PageContentOnlyFromProse(a: Listing, b: Listing)
    requires a.description == b.description && a.neighborhoodDescription == b.neighborhoodDescription
    ensures ToDocument(a).pageContent == ToDocument(b).pageContent
  {
  }

  /** The metadata agrees exactly when the five non-prose fields agree, whatever the prose. */
  lemma MetadataOnlyFromNonProse(a: Listing, b: Listing)
    ensures ToDocument(a).metadata == ToDocument(b).metadata
      <==> a.neighborhood == b.neighborhood && a.price == b.price && a.bedrooms == b.bedrooms
           && a.bathrooms == b.bathrooms && a.houseSize == b.houseSize
  {
    var ma, mb := Metadata(a), Metadata(b);
    if a.neighborhood == b.neighborhood && a.price == b.price && a.bedrooms == b.bedrooms
       && a.bathrooms == b.bathrooms && a.houseSize == b.houseSize {
      assert forall k :: k in ma ==> ma[k] == mb[k];
    }
  }

  function ValueToJson(v: Value): Json {
    match v
    case StrValue(s) => JString(s)
    case IntValue(i) => JInt(i)
  }

  /** The JSON object `save_listings` writes for a listing (`l.dict()`). */
  function ListingToJson(l: Listing): (j: Json)
    ensures j.JObject? && j.fields.Keys == ListingFields
  {
    var d := ModelDump(l);
    JObject(map k | k in d :: ValueToJson(d[k]))
  }

  /** `item` is a JSON object that carries `l`'s value under each of the seven field names. */
  ghost predicate Describes(item: Json, l: Listing) {
    && item.JObject?
    && forall k :: k in ListingFields ==> k in item.fields && item.fields[k] == ValueToJson(ModelDump(l)[k])
  }

  predicate HasString(fields: map<string, Json>, k: string) {
    k in fields && fields[k].JString?
  }

  predicate HasInt(fields: map<string, Json>, k: string) {
    k in fields && fields[k].JInt?
  }

  /** Every field Pydantic requires is present with a value of its declared type. */
  predicate WellTyped(f: map<string, Json>) {
    && HasString(f, "neighborhood") && HasInt(f, "price") && HasInt(f, "bedrooms")
    && HasInt(f, "bathrooms") && HasString(f, "house_size") && HasString(f, "description")
    && HasString(f, "neighborhood_description")
  }

  /**
   `Listing(**item)`: validation succeeds exactly when some listing is described by
   the item, and that listing is the one returned; keys beyond the seven are ignored.
   */
  function ParseListing(item: Json): (r: Option<Listing>)
    ensures r.Some? ==> Describes(item, r.value)
    ensures r.None? ==> forall l :: !Describes(item, l)
    ensures item.JObject? && !(ListingFields <= item.fields.Keys) ==> r.None?
  {
    if item.JObject? && WellTyped(item.fields) then
      var f := item.fields;
      Some(Listing(f["neighborhood"].str, f["price"].num, f["bedrooms"].num, f["bathrooms"].num,
                   f["house_size"].str, f["description"].str, f["neighborhood_description"].str))
    else
      DescribedIsWellTyped(item);
      None
  }

  lemma DescribedIsWellTyped(item: Json)
    ensures forall l :: Describes(item, l) ==> WellTyped(item.fields)
  {
    forall l | Describes(item, l) ensures WellTyped(item.fields) {
      DescribedFieldValues(item, l);
    }
  }

  lemma DescribedFieldValues(item: Json, l: Listing)
    requires Describes(item, l)
    ensures WellTyped(item.fields)
  {
    var f := item.fields;
    assert f["neighborhood"] == JString(l.neighborhood);
    assert f["price"] == JInt(l.price);
    assert f["bedrooms"] == JInt(l.bedrooms);
    assert f["bathrooms"] == JInt(l.bathrooms);
    assert f["house_size"] == JString(l.houseSize);
    assert f["description"] == JString(l.description);
    assert f["neighborhood_description"] == JString(l.neighborhoodDescription);
  }

  /** A saved listing loads back as the same listing. */
  lemma ParseListingToJson(l: Listing)
    ensures ParseListing(ListingToJson(l)) == Some(l)
  {
    var f := ListingToJson(l).fields;
    assert f["neighborhood"] == JString(l.neighborhood);
    assert f["price"] == JInt(l.price);
    assert f["bedrooms"] == JInt(l.bedrooms);
    assert f["bathrooms"] == JInt(l.bathrooms);
    assert f["house_size"] == JString(l.houseSize);
    assert f["description"] == JString(l.description);
    assert f["neighborhood_description"] == JString(l.neighborhoodDescription);
  }
}
