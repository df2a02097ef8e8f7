/**
 `HomeMatchDisplay._build_query`: the natural-language request sent to the
 search pipeline, built from the values the sidebar collected.
 */
module Display {
  import opened Text
  import opened Wrappers

  /**
   The user controls the query reads. The widgets make the three numbers
   integers; `summary` is absent when the expander was never rendered.
   */
  datatype Controls = Controls(
    bedrooms: int,
    bathrooms: int,
    houseSize: int,
    priceRange: string,
    amenities: seq<string>,
    transportation: seq<string>,
    neighborhoodTraits: seq<string>,
    lifestyle: string,
    summary: Option<string>)

  const Opening: string := "Looking for a "
  const BedroomLabel: string := "-bedroom, "
  const BathroomLabel: string := "-bathroom home, around "
  const SizeLabel: string := " sqft, priced at "
  const AmenitiesLabel: string := ", with amenities like "
  const TraitsLabel: string := ", in a "
  const NearLabel: string := " neighborhood, near "
  const LifestyleLabel: string := ". Ideal for someone with a "
  const Closing: string := " lifestyle."

  /** Python treats the summary as given only when it is present and not the empty string. */
  predicate SummaryGiven(c: Controls) {
    c.summary.Some? && c.summary.value != ""
  }

  /** The pieces of the fallback sentence, in the order the sentence has them. */
  function Segments(c: Controls): (segs: seq<string>)
    ensures |segs| == 17
  {
    [Opening, IntToString(c.bedrooms), BedroomLabel, IntToString(c.bathrooms), BathroomLabel,
     IntToString(c.houseSize), SizeLabel, c.priceRange,
     AmenitiesLabel, Join(c.amenities, ", "),
     TraitsLabel, Join(c.neighborhoodTraits, ", "),
     NearLabel, Join(c.transportation, ", "),
     LifestyleLabel, c.lifestyle, Closing]
  }

  /** The fallback sentence. */
  function Template(c: Controls): string {
    Concat(Segments(c))
  }

  /** Where piece `k` of the fallback sentence starts. */
  function SegmentStart(c: Controls, k: nat): nat
    requires k < 17
  {
    |Concat(Segments(c)[..k])|
  }

  /**
   Reads the bedroom, bathroom and house-size numbers back out of a fallback
   sentence, checking the words between them, and returns the text after
   " sqft, priced at ".
   */
  function ReadCounts(q: string): Option<(int, int, int, string)> {
    if !IsPrefix(Opening, q) then None
    else
      var beds := ReadInt(q[|Opening|..]);
      if beds.None? || !IsPrefix(BedroomLabel, beds.value.1) then None
      else
        var baths := ReadInt(beds.value.1[|BedroomLabel|..]);
        if baths.None? || !IsPrefix(BathroomLabel, baths.value.1) then None
        else
          var size := ReadInt(baths.value.1[|BathroomLabel|..]);
          if size.None? || !IsPrefix(SizeLabel, size.value.1) then None
          else Some((beds.value.0, baths.value.0, size.value.0, size.value.1[|SizeLabel|..]))
  }

  /** The pieces of the fallback sentence after the price label: every remaining value with its words. */
  function TailPieces(c: Controls): seq<string> {
    [c.priceRange, AmenitiesLabel, Join(c.amenities, ", "), TraitsLabel, Join(c.neighborhoodTraits, ", "),
     NearLabel, Join(c.transportation, ", "), LifestyleLabel, c.lifestyle, Closing]
  }

  /** The fallback sentence after the price label. */
  function AfterSize(c: Controls): string {
    Concat(TailPieces(c))
  }

  /**
   `_build_query`: a given summary is the query, whatever it holds, whitespace
   only included; otherwise the fallback sentence, which opens with
   "Looking for a ", carries the three numbers so that they can be read back,
   and continues with the price range, the three option lists and the
   lifestyle, each behind its own words.
   */
  function BuildQuery(c: Controls): (q: string)
    ensures |q| > 0
    ensures SummaryGiven(c) ==> q == c.summary.value
    ensures !SummaryGiven(c) ==> ReadsAsFallback(c, q)
  {
    if SummaryGiven(c) then c.summary.value
    else
      FallbackQuery(c);
      Template(c)
  }

  /**
   `q` reads as the fallback sentence for `c`: it opens with "Looking for a ",
   the three numbers read back, followed by the rest of the sentence from the
   price range on, and it ends with the lifestyle and the closing words.
   */
  predicate ReadsAsFallback(c: Controls, q: string) {
    && |q| > 0 && IsPrefix(Opening, q)
    && ReadCounts(q) == Some((c.bedrooms, c.bathrooms, c.houseSize, AfterSize(c)))
    && |c.lifestyle + Closing| <= |q|
    && q[|q| - |c.lifestyle + Closing|..] == c.lifestyle + Closing
  }

  /** The fallback sentence reads as such. */
  lemma FallbackQuery(c: Controls)
    ensures ReadsAsFallback(c, Template(c))
  {
    TemplateOpens(c);
    TemplateCounts(c);
    TemplateCloses(c);
  }

  lemma TemplateOpens(c: Controls)
    ensures IsPrefix(Opening, Template(c))
  {
    var segs := Segments(c);
    ConcatFrom(segs, 0);
    assert segs[0..] == segs;
  }

  /** The fallback sentence ends with the lifestyle and the closing words. */
  lemma TemplateCloses(c: Controls)
    ensures |c.lifestyle + Closing| <= |Template(c)|
    ensures Template(c)[|Template(c)| - |c.lifestyle + Closing|..] == c.lifestyle + Closing
  {
    var segs := Segments(c);
    assert segs == segs[..15] + [c.lifestyle, Closing];
    ConcatAppend(segs[..15], [c.lifestyle, Closing]);
    ConcatFrom([c.lifestyle, Closing], 0);
    ConcatFrom([c.lifestyle, Closing], 1);
    assert Concat([c.lifestyle, Closing]) == c.lifestyle + Closing;
  }

  /** The text from piece `k` on, with the number in piece `k` read off its front. */
  lemma ReadNumberPiece(segs: seq<string>, k: nat, n: int)
    requires k + 2 < |segs| && segs[k] == IntToString(n)
    requires segs[k + 1] != [] && !IsDigit(segs[k + 1][0])
    ensures ReadInt(Concat(segs[k..])) == Some((n, Concat(segs[k + 1..])))
  {
    ConcatFrom(segs, k);
    ConcatFrom(segs, k + 1);
    ReadIntToString(n, Concat(segs[k + 1..]));
  }

  /** Reading past a fixed label piece leaves the text of the pieces after it. */
  lemma SkipLabelPiece(segs: seq<string>, k: nat, words: string)
    requires k < |segs| && segs[k] == words
    ensures IsPrefix(words, Concat(segs[k..]))
    ensures Concat(segs[k..])[|words|..] == Concat(segs[k + 1..])
  {
    ConcatFrom(segs, k);
  }

  /**
   The three numbers of the fallback sentence read back as they were put in,
   followed by the rest of the sentence from the price range on.
   */
  lemma TemplateCounts(c: Controls)
    ensures ReadCounts(Template(c)) == Some((c.bedrooms, c.bathrooms, c.houseSize, AfterSize(c)))
  {
    var segs := Segments(c);
    ReadCountsOfPieces(segs, c.bedrooms, c.bathrooms, c.houseSize);
    TemplateTail(c);
  }

  /** The pieces from the price range on are the tail pieces. */
  lemma TemplateTail(c: Controls)
    ensures Concat(Segments(c)[7..]) == AfterSize(c)
  {
    assert Segments(c)[7..] == TailPieces(c);
  }

  /**
   Spelled out, the text after the price label is the price range, the three
   joined option lists and the lifestyle, each behind its own words, in order.
   */
  lemma AfterSizeSpelled(c: Controls)
    ensures AfterSize(c) == c.priceRange + (AmenitiesLabel + (Join(c.amenities, ", ") + (TraitsLabel
      + (Join(c.neighborhoodTraits, ", ") + (NearLabel + (Join(c.transportation, ", ")
      + (LifestyleLabel + (c.lifestyle + Closing))))))))
  {
    ConcatTen(c.priceRange, AmenitiesLabel, Join(c.amenities, ", "), TraitsLabel, Join(c.neighborhoodTraits, ", "),
              NearLabel, Join(c.transportation, ", "), LifestyleLabel, c.lifestyle, Closing);
  }

  /** Ten pieces, concatenated, are the first followed by the rest. */
  lemma ConcatTen(a0: string, a1: string, a2: string, a3: string, a4: string,
                  a5: string, a6: string, a7: string, a8: string, a9: string)
    ensures Concat([a0, a1, a2, a3, a4, a5, a6, a7, a8, a9])
      == a0 + (a1 + (a2 + (a3 + (a4 + (a5 + (a6 + (a7 + (a8 + a9))))))))
  {
    var back := [a5] + ([a6] + ([a7] + ([a8] + ([a9] + []))));
    assert [a0] + ([a1] + ([a2] + ([a3] + ([a4] + back)))) == [a0, a1, a2, a3, a4, a5, a6, a7, a8, a9];
    ConcatFive(a5, a6, a7, a8, a9, []);
    ConcatFive(a0, a1, a2, a3, a4, back);
  }

  /** Five pieces in front of `rest` come first, one after another. */
  lemma ConcatFive(a0: string, a1: string, a2: string, a3: string, a4: string, rest: seq<string>)
    ensures Concat([a0] + ([a1] + ([a2] + ([a3] + ([a4] + rest)))))
      == a0 + (a1 + (a2 + (a3 + (a4 + Concat(rest)))))
  {
    ConcatCons(a4, rest);
    ConcatCons(a3, [a4] + rest);
    ConcatCons(a2, [a3] + ([a4] + rest));
    ConcatCons(a1, [a2] + ([a3] + ([a4] + rest)));
    ConcatCons(a0, [a1] + ([a2] + ([a3] + ([a4] + rest))));
  }

  lemma ReadCountsOfPieces(segs: seq<string>, beds: int, baths: int, size: int)
    requires |segs| >= 8
    requires segs[0] == Opening && segs[2] == BedroomLabel && segs[4] == BathroomLabel && segs[6] == SizeLabel
    requires segs[1] == IntToString(beds) && segs[3] == IntToString(baths) && segs[5] == IntToString(size)
    ensures ReadCounts(Concat(segs)) == Some((beds, baths, size, Concat(segs[7..])))
  {
    assert segs[0..] == segs;
    SkipLabelPiece(segs, 0, Opening);
    ReadNumberPiece(segs, 1, beds);
    SkipLabelPiece(segs, 2, BedroomLabel);
    ReadNumberPiece(segs, 3, baths);
    SkipLabelPiece(segs, 4, BathroomLabel);
    ReadNumberPiece(segs, 5, size);
    SkipLabelPiece(segs, 6, SizeLabel);
  }

  /** The options are not split apart by the separator they are joined with. */
  predicate SeparatorFree(options: seq<string>) {
    |options| >= 1 && forall i :: 0 <= i < |options| ==> !Contains(options[i], ", ")
  }

  /**
   The amenities sit in the sentence joined by ", ", in selection order: when no
   amenity contains ", ", splitting that stretch of the sentence gives the
   selection back.
   */
  lemma AmenitiesReadBack(c: Controls)
    requires SeparatorFree(c.amenities)
    ensures SegmentStart(c, 9) + |Join(c.amenities, ", ")| <= |Template(c)|
    ensures Split(Template(c)[SegmentStart(c, 9)..SegmentStart(c, 9) + |Join(c.amenities, ", ")|], ", ") == c.amenities
  {
    JoinedPieceSplits(Segments(c), 9, c.amenities);
  }

  /** The same for the neighbourhood traits. */
  lemma TraitsReadBack(c: Controls)
    requires SeparatorFree(c.neighborhoodTraits)
    ensures SegmentStart(c, 11) + |Join(c.neighborhoodTraits, ", ")| <= |Template(c)|
    ensures Split(Template(c)[SegmentStart(c, 11)..SegmentStart(c, 11) + |Join(c.neighborhoodTraits, ", ")|], ", ")
      == c.neighborhoodTraits
  {
    JoinedPieceSplits(Segments(c), 11, c.neighborhoodTraits);
  }

  /** The same for the transportation options. */
  lemma TransportationReadBack(c: Controls)
    requires SeparatorFree(c.transportation)
    ensures SegmentStart(c, 13) + |Join(c.transportation, ", ")| <= |Template(c)|
    ensures Split(Template(c)[SegmentStart(c, 13)..SegmentStart(c, 13) + |Join(c.transportation, ", ")|], ", ")
      == c.transportation
  {
    JoinedPieceSplits(Segments(c), 13, c.transportation);
  }

  lemma JoinedPieceSplits(segs: seq<string>, k: nat, options: seq<string>)
    requires k < |segs| && segs[k] == Join(options, ", ")
    requires SeparatorFree(options)
    ensures |Concat(segs[..k])| + |segs[k]| <= |Concat(segs)|
    ensures Split(Concat(segs)[|Concat(segs[..k])|..|Concat(segs[..k])| + |segs[k]|], ", ") == options
  {
    PieceAt(segs, k);
    CommaSeparatorsSelfDisjoint();
    JoinSplit(options, ", ");
  }
}
