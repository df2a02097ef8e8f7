/**
 The computations inside `LoadStreamlitUI` that do not depend on Streamlit:
 the page header and the default choices of the three multiselect widgets.
 */
module StreamlitUi {
  import opened Text
  import UiConfig

  /** The house-with-garden emoji, one code point. */
  const House: string := "\U{1F3E1}"

  /** The header: the page title with the house emoji put in front unless it already starts with it. */
  function HeaderText(title: string): (header: string)
    ensures IsPrefix(House, header)
    ensures |header| >= |title| && header[|header| - |title|..] == title
  {
    if IsPrefix(House, title) then title else House + " " + title
  }

  /** The header leaves the title alone exactly when it already starts with the emoji. */
  lemma HeaderKeepsMarkedTitle(title: string)
    ensures HeaderText(title) == title <==> IsPrefix(House, title)
  {
    if !IsPrefix(House, title) {
      assert |HeaderText(title)| == |title| + 2;
    }
  }

  /** Computing the header of a header changes nothing. */
  lemma HeaderIdempotent(title: string)
    ensures HeaderText(HeaderText(title)) == HeaderText(title)
  {
    HeaderKeepsMarkedTitle(HeaderText(title));
  }

  /** Amenities preselected: the first two options, or all of them when there are fewer. */
  function AmenitiesDefault(options: seq<string>): (chosen: seq<string>)
    ensures |chosen| == if |options| >= 2 then 2 else |options|
    ensures chosen <= options
  {
    if |options| >= 2 then options[..2] else options
  }

  /** Transportation and neighbourhood traits preselected: the first option, if there is one. */
  function FirstOptionDefault(options: seq<string>): (chosen: seq<string>)
    ensures |chosen| == if options == [] then 0 else 1
    ensures chosen <= options
  {
    if options != [] then options[..1] else []
  }

  /** Every preselected choice is one of the widget's options. */
  lemma DefaultsAreOptions(options: seq<string>)
    ensures forall x :: x in AmenitiesDefault(options) ==> x in options
    ensures forall x :: x in FirstOptionDefault(options) ==> x in options
  {
    var a, f := AmenitiesDefault(options), FirstOptionDefault(options);
    forall x | x in a ensures x in options {
      var i :| 0 <= i < |a| && a[i] == x;
      assert options[i] == x;
    }
    forall x | x in f ensures x in options {
      assert options[0] == x;
    }
  }

  /**
   With options read from the configuration, which never yields an empty list,
   transportation and traits always start with exactly one choice, and amenities
   start with two exactly when the configured value has a separator.
   */
  lemma ConfiguredDefaults(section: UiConfig.Section)
    ensures |FirstOptionDefault(UiConfig.GetTransportationOptions(section))| == 1
    ensures |FirstOptionDefault(UiConfig.GetNeighborhoodTraits(section))| == 1
    ensures |AmenitiesDefault(UiConfig.GetAmenities(section))| ==
      if MatchCount(UiConfig.Lookup(section, "AMENITIES", ""), ", ") >= 1 then 2 else 1
  {
  }
}
