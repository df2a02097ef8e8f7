/**
 `Config`: the UI settings read from the `DEFAULT` section of `uiconfig.ini`.
 The section is given as the map of its options to their raw values; a missing
 file or option is a missing key.
 */
module UiConfig {
  import opened Text

  /** The options of the `DEFAULT` section and their raw string values. */
  type Section = map<string, string>

  /** `section.get(key, default)`. */
  function Lookup(section: Section, key: string, default: string): string {
    if key in section then section[key] else default
  }

  /** `config["DEFAULT"].get("PAGE_TITLE", "LangGraph")`. */
  function GetPageTitle(section: Section): (title: string)
    ensures "PAGE_TITLE" in section ==> title == section["PAGE_TITLE"]
    ensures "PAGE_TITLE" !in section ==> title == "LangGraph"
  {
    Lookup(section, "PAGE_TITLE", "LangGraph")
  }

  /** The two separators the option lists use. */
  predicate ListSeparator(sep: string) {
    sep == "," || sep == ", "
  }

  /**
   `config["DEFAULT"].get(key, "").split(sep)`: joining the pieces gives back the
   raw value, no piece contains the separator, there is one more piece than there
   are separators, and a missing option reads as one empty piece.
   */
  function OptionList(section: Section, key: string, sep: string): (opts: seq<string>)
    requires ListSeparator(sep)
    ensures Join(opts, sep) == Lookup(section, key, "")
    ensures forall i :: 0 <= i < |opts| ==> !Contains(opts[i], sep)
    ensures |opts| == MatchCount(Lookup(section, key, ""), sep) + 1
    ensures key !in section ==> opts == [""]
  {
    var raw := Lookup(section, key, "");
    CommaSeparatorsSelfDisjoint();
    SplitJoin(raw, sep);
    SplitPiecesLackSeparator(raw, sep);
    SplitCount(raw, sep);
    Split(raw, sep)
  }

  /**
   Writing a list of separator-free options joined by the separator and reading
   it back gives the same list.
   */
  lemma OptionListReadsBack(section: Section, key: string, sep: string, options: seq<string>)
    requires ListSeparator(sep) && |options| >= 1
    requires forall i :: 0 <= i < |options| ==> !Contains(options[i], sep)
    requires key in section && section[key] == Join(options, sep)
    ensures OptionList(section, key, sep) == options
  {
    CommaSeparatorsSelfDisjoint();
    JoinSplit(options, sep);
  }

  function GetLlmOptions(section: Section): (opts: seq<string>)
    ensures Join(opts, ",") == Lookup(section, "LLM_OPTIONS", "")
    ensures forall i :: 0 <= i < |opts| ==> !Contains(opts[i], ",")
    ensures "LLM_OPTIONS" !in section ==> opts == [""]
  {
    OptionList(section, "LLM_OPTIONS", ",")
  }

  function GetGroqModelOptions(section: Section): (opts: seq<string>)
    ensures Join(opts, ",") == Lookup(section, "GROQ_MODEL_OPTIONS", "")
    ensures forall i :: 0 <= i < |opts| ==> !Contains(opts[i], ",")
    ensures "GROQ_MODEL_OPTIONS" !in section ==> opts == [""]
  {
    OptionList(section, "GROQ_MODEL_OPTIONS", ",")
  }

  function GetAmenities(section: Section): (opts: seq<string>)
    ensures Join(opts, ", ") == Lookup(section, "AMENITIES", "")
    ensures forall i :: 0 <= i < |opts| ==> !Contains(opts[i], ", ")
    ensures "AMENITIES" !in section ==> opts == [""]
  {
    OptionList(section, "AMENITIES", ", ")
  }

  function GetTransportationOptions(section: Section): (opts: seq<string>)
    ensures Join(opts, ", ") == Lookup(section, "TRANSPORTATION", "")
    ensures forall i :: 0 <= i < |opts| ==> !Contains(opts[i], ", ")
    ensures "TRANSPORTATION" !in section ==> opts == [""]
  {
    OptionList(section, "TRANSPORTATION", ", ")
  }

  function GetNeighborhoodTraits(section: Section): (opts: seq<string>)
    ensures Join(opts, ", ") == Lookup(section, "NEIGHBORHOOD_TRAITS", "")
    ensures forall i :: 0 <= i < |opts| ==> !Contains(opts[i], ", ")
    ensures "NEIGHBORHOOD_TRAITS" !in section ==> opts == [""]
  {
    OptionList(section, "NEIGHBORHOOD_TRAITS", ", ")
  }
}
