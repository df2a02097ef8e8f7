# HomeMatch core in Dafny

HomeMatch is a retrieval demo. A language model generates synthetic real-estate
listings, the listings are turned into LangChain documents and indexed, and a
Streamlit page turns a buyer's preferences into a query. Almost everything around
that is calls into hosted services. This project models the deterministic routines
in between and proves their properties:

- **The listing-generation loop.** `GenerateListings.generate_listings` runs a
  bounded retry loop per slot, sleeps between retries and after every slot, and
  classifies errors for the log only. It is modelled in `listing_generator.dfy`.
  `ListingGenerator.FillSlot` and `ListingGenerator.GenerateListings` follow the
  Python loops statement by statement. Their results are tied to reference
  definitions stated slot by slot: `SlotCalls`, `TotalCalls` and `Returned`.
- **The listing record and its document form.** The `Listing` record, its
  `model_dump()`, the `Document` conversion, and validation of a JSON item into a
  listing (`Listing(**item)`) are in `listings.dfy`. Python's `str.strip` is in
  `text.dfy`, over the exact set of characters `str.isspace` accepts.
- **The two `listings_to_documents` copies and `load_listings`.** The copy in
  `ChromaStore` is modelled in `chroma_store.dfy`, together with the flattening
  of the listing files. The generator's copy is modelled in `listing_generator.dfy`
  and is proved equal to the `ChromaStore` copy on every input.
- **The validator for `GROQ_API_KEY`.** It is modelled in `settings.dfy`, with
  the case-insensitive lookup of the variable in the process environment.
- **The UI option getters.** The `Config` getters over the `DEFAULT` section of
  `uiconfig.ini` are in `ui_config.dfy`. Python's `str.split`/`str.join` are in
  `text.dfy`, with the split/join round trips.
- **The pure parts of the Streamlit page.**
  - The header text and the default multiselect choices are in `streamlit_ui.dfy`.
  - The fallback query sentence of `_build_query` is in `display.dfy`. The
    bedroom, bathroom and house-size numbers can be read back out of that
    sentence, and each option list can be split back out of it.

The chain is the only source of nondeterminism. It is a parameter
`chain: nat -> Outcome`, where `chain(k)` is the outcome of the k-th `invoke` of
the run (a listing, or an exception with its text). Sleeps are counted rather than
timed. The log is kept as one `LoggedFailure` entry per caught exception. Each
entry holds the slot, the attempt count, the classification, the message and
whether a retry follows.

## Model

| member | source | states |
|---|---|---|
| ListingGenerator.Classify | src/listings/generate_listings.py:66 | a failure is classed as access denied iff both "403" and "Access denied" occur somewhere in its text, in either order; otherwise it is unexpected |
| Text.ContainsOccurs | src/listings/generate_listings.py:66 | Python's `sub in s` holds iff `sub` occurs in `s` at some index |
| ListingGenerator.SlotCalls | src/listings/generate_listings.py:58-80 | a slot makes at most `max_retries + 1` invocations, at least one when that budget is positive, and stops early only right after a success |
| ListingGenerator.TotalCalls | src/listings/generate_listings.py:57-85 | with a positive budget, every slot invokes the chain at least once |
| ListingGenerator.TotalCallsBound | src/listings/generate_listings.py:57-85 | n slots make at most `n * (max_retries + 1)` invocations |
| ListingGenerator.Returned | src/listings/generate_listings.py:61-63 | m invocations return at most m listings |
| ListingGenerator.SlotEndOf | src/listings/generate_listings.py:58-85 | how a slot ends by the reference definitions: filled after 1 to `max_retries + 1` invocations, or skipped after exactly `max_retries + 1` |
| ListingGenerator.FailedEntries | src/listings/generate_listings.py:64-85 | the log of a slot's first failures: the j-th entry carries attempt number j + 1 (the count after the increment), the classification and the text of the slot's j-th invocation, and a retry flag set iff that attempt number is still within `max_retries` |
| ListingGenerator.FailedEntriesWellLogged | src/listings/generate_listings.py:64-85 | every such entry within the budget is logged under its slot, classified by its own text, and marked as retried iff budget remains |
| ListingGenerator.SlotLog | src/listings/generate_listings.py:64-85 | a slot logs one entry per invocation that raised: all of its invocations when skipped, all but the last when filled |
| ListingGenerator.FailingStep | src/listings/generate_listings.py:64-85 | a caught failure is appended to the slot's log as the entry for its attempt number and text; it is followed by a sleep exactly when the attempt count is still within `max_retries` |
| ListingGenerator.FailedStep | src/listings/generate_listings.py:59-64 | after one more failure the slot's remaining invocations shrink by one and nothing has been returned |
| ListingGenerator.LoggedStep | src/listings/generate_listings.py:64-85 | after one more failure the slot's log is the reference log one entry longer, and the retry sleeps are counted |
| ListingGenerator.SucceedsAt | src/listings/generate_listings.py:61-63 | the first success is the slot's last invocation, the slot counts as filled, and its listing is the one appended |
| ListingGenerator.FailingThenSuccess | src/listings/generate_listings.py:61-63 | a success appends its listing and ends the slot after one more invocation |
| ListingGenerator.FailingExhausted | src/listings/generate_listings.py:80-82 | once the budget is spent the slot ends with nothing appended |
| ListingGenerator.FillSlot | src/listings/generate_listings.py:58-85 | one slot makes the reference number of invocations and gets a listing iff its last invocation succeeded, namely the listing that invocation returned. Its log is the reference slot log: the j-th failure is logged with attempt number j + 1, its classification and its own text. It sleeps once per retry, and no exception raised by the chain escapes |
| ListingGenerator.NextSlot | src/listings/generate_listings.py:57-86 | one iteration of `for i in range(n)`, pacing sleep included, keeps the whole-run accounting |
| ListingGenerator.RecordStep | src/listings/generate_listings.py:57-86 | a slot's ending and log, as the slot reports them, extend the run's slot record and log by that slot's reference entries |
| ListingGenerator.SlotStep | src/listings/generate_listings.py:57-86 | appending one slot's report, plus the pacing sleep, keeps the whole-run accounting |
| ListingGenerator.GenerateListings | src/listings/generate_listings.py:46-87 | the run makes the reference number of invocations and returns exactly the listings they produced, in order. Slot j's record is how slot j ends by the reference definitions, within its budget. The log is the slots' logs concatenated in slot order, one entry per failed invocation. Sleeps equal n plus the retries |
| ListingGenerator.EmptyRunAccounted | src/listings/generate_listings.py:55 | before the first slot the run has no listings, invocations, sleeps, slots or log entries |
| ListingGenerator.RunSlotsAt | src/listings/generate_listings.py:57-85 | entry j of the slot record is how slot j ends, its first invocation numbered after all invocations of slots 0 to j - 1 |
| ListingGenerator.AccountedBounds | src/listings/generate_listings.py:57-87 | total invocations are at most `n * (max_retries + 1)`, and at least n when max_retries >= 0; at most n listings are returned |
| ListingGenerator.SlotCallsSameSuccesses | src/listings/generate_listings.py:64-80 | a slot's invocation count does not depend on error messages |
| ListingGenerator.TotalCallsSameSuccesses | src/listings/generate_listings.py:64-80 | the run's invocation count does not depend on error messages |
| ListingGenerator.ReturnedSameSuccesses | src/listings/generate_listings.py:61-64 | the listings returned do not depend on error messages |
| ListingGenerator.SlotFilledSameSuccesses | src/listings/generate_listings.py:59-80 | whether a slot is filled does not depend on error messages |
| ListingGenerator.SlotLogSameShape | src/listings/generate_listings.py:64-85 | a slot's log entries have the same slots, attempt numbers and retry flags whatever the error messages |
| ListingGenerator.RunSameSuccesses | src/listings/generate_listings.py:57-86 | the run's slot record is the same, and its log has the same shape, whatever the error messages |
| ListingGenerator.MessagesOnlyReachTheLog | src/listings/generate_listings.py:66-80 | two chains that succeed at the same invocations with the same listings give the same listings, invocation count, sleep count and slot record. Their logs agree entry by entry on slot, attempt number and retry flag; only each entry's class and text can differ (the 403 / "Access denied" test changes only the log) |
| ListingGenerator.SlotCallsAlwaysFails | src/listings/generate_listings.py:59-80 | a chain that always raises uses the whole budget in every slot |
| ListingGenerator.TotalCallsAlwaysFails | src/listings/generate_listings.py:57-85 | a chain that always raises is invoked exactly `n * (max_retries + 1)` times |
| ListingGenerator.ReturnedAlwaysFails | src/listings/generate_listings.py:61-62 | a chain that always raises returns no listings |
| ListingGenerator.AlwaysFailingRun | src/listings/generate_listings.py:57-85 | if every invocation fails, the result is empty, the chain is invoked `n * (max_retries + 1)` times, every invocation is logged and every slot is skipped |
| ListingGenerator.TotalCallsNeverFails | src/listings/generate_listings.py:57-63 | when max_retries >= 0, a chain that never raises is invoked once per slot |
| ListingGenerator.ReturnedNeverFails | src/listings/generate_listings.py:61-62 | a chain that never raises returns its listings in invocation order |
| ListingGenerator.NeverFailingRun | src/listings/generate_listings.py:57-63 | when max_retries >= 0 and every invocation succeeds, the run returns exactly n listings in invocation order after n invocations, logs nothing, and sleeps n times |
| ListingGenerator.ListingsToDocuments | src/listings/generate_listings.py:89-118 | the generator's copy of the conversion gives the same documents as the `ChromaStore` copy for every input |
| Listings.ModelDump | src/llm_parsers/listing_parser.py:5-16 | the dump has exactly the seven field names as keys |
| Listings.PageContent | src/tools/chromadb/chroma_store.py:75-80 | the embedded text never starts or ends with whitespace |
| Listings.PageContentCases | src/listings/generate_listings.py:97-102 | the text is `strip(description) + "\n\n" + strip(neighborhood_description)`, or only one of the two when the other is blank |
| Listings.Metadata | src/tools/chromadb/chroma_store.py:83-90 | the metadata keys are exactly neighborhood, price, bedrooms, bathrooms and house_size, with the listing's values |
| Listings.ToDocumentMetadata | src/tools/chromadb/chroma_store.py:86-90 | a key is in the metadata iff it is in the dump and is not a prose field, and every value is the dumped value unchanged |
| Listings.PageContentOnlyFromProse | src/tools/chromadb/chroma_store.py:75-80 | listings that agree on the two prose fields get the same text, whatever their other fields |
| Listings.MetadataOnlyFromNonProse | src/tools/chromadb/chroma_store.py:83-90 | two listings get the same metadata iff they agree on the five non-prose fields |
| Listings.ListingToJson | src/listings/generate_listings.py:141-142 | a saved listing is a JSON object with exactly the seven field names |
| Listings.ParseListing | src/llm_parsers/listing_parser.py:5-16 | validation succeeds iff some listing is described by the item, and returns that listing; an item missing a required field is rejected; extra keys are ignored |
| Listings.ParseListingToJson | src/llm_parsers/listing_parser.py:5-16 | a listing written as JSON validates back to the same listing |
| ChromaStore.ListingsToDocuments | src/tools/chromadb/chroma_store.py:66-96 | one document per listing, same length, in the same order |
| ChromaStore.ListingsToDocumentsAppend | src/tools/chromadb/chroma_store.py:73-92 | converting a concatenation is the concatenation of the conversions |
| ChromaStore.FlattenCount | src/tools/chromadb/chroma_store.py:53-59 | the number of items loaded is the sum of the file lengths |
| ChromaStore.FlattenPrefix | src/tools/chromadb/chroma_store.py:53-59 | the items of earlier files come before those of later files, each file's items in order |
| ChromaStore.LoadListings | src/tools/chromadb/chroma_store.py:45-64 | on success, every item of every file validated and there is one document per item, in file then item order; on failure, the reported position is the first item that fails validation |
| ChromaStore.StopsAt | src/tools/chromadb/chroma_store.py:57-59 | an invalid item reached after all earlier items validated is the first invalid item |
| ChromaStore.LoadsAll | src/tools/chromadb/chroma_store.py:61-62 | converting the whole validated list once yields the loaded documents |
| Settings.CheckNotEmpty | src/config.py:30-36 | a value is accepted iff it has a non-whitespace character; it is then returned unchanged, and otherwise refused with `<field> cannot be empty.` |
| Settings.RejectsEmpty | src/config.py:33-35 | the empty string is refused |
| Settings.RejectsBlank | src/config.py:33-35 | a whitespace-only string of any length is refused |
| Settings.RevalidationAccepts | src/config.py:36 | an accepted value is accepted again, unchanged |
| Settings.FieldNameFolds | src/config.py:25-27 | the field name `GROQ_API_KEY` folds to `groq_api_key`, the name the variable is looked up under |
| Settings.FoldedEnvLookup | src/config.py:10-20 | with names folded to lower case, a name is found iff some variable has it up to case, and its value is that of the last such variable |
| Settings.LastNamedExists | src/config.py:10-20 | when some variable has the name up to case, one of them is the last |
| Settings.LoadSettings | src/config.py:25-41 | with no variable named `GROQ_API_KEY` up to case, loading fails with a missing-field error. Otherwise the last such variable decides: settings load iff its value has text, keep that value verbatim, and fail with `GROQ_API_KEY cannot be empty.` otherwise |
| Settings.NameCaseIgnored | src/config.py:10-27 | a variable whose name differs from `GROQ_API_KEY` only in case loads the same settings |
| Text.Strip | src/config.py:33 | the result has no leading or trailing whitespace, is what remains after whitespace runs at both ends are removed, and is empty iff the input is all whitespace |
| Text.StripIdempotent | src/listings/generate_listings.py:97-102 | stripping twice is stripping once |
| Text.SplitJoin | src/frontend/config/uiconfig.py:12 | joining the pieces of a split with the same separator gives the input back |
| Text.SplitPiecesLackSeparator | src/frontend/config/uiconfig.py:12 | no piece of a split contains the separator |
| Text.SplitCount | src/frontend/config/uiconfig.py:18 | for `","` and `", "` a split has one more piece than the input has separator occurrences |
| Text.JoinSplit | src/frontend/config/uiconfig.py:18 | splitting a join of separator-free pieces gives the pieces back |
| Text.NatToStringValue | src/frontend/streamlit/display_streamlit.py:48 | the decimal digits printed for a number have that number as their value |
| Text.ReadIntToString | src/frontend/streamlit/display_streamlit.py:48-50 | an integer formatted into text, followed by a non-digit, reads back as the same integer and the rest of the text |
| UiConfig.GetPageTitle | src/frontend/config/uiconfig.py:8-9 | the stored `PAGE_TITLE` verbatim, or `"LangGraph"` when it is missing |
| UiConfig.OptionList | src/frontend/config/uiconfig.py:11-24 | joining the options gives the raw value back; no option contains the separator; there is one more option than separators; a missing key gives `[""]` |
| UiConfig.OptionListReadsBack | src/frontend/config/uiconfig.py:11-24 | separator-free options written joined read back as the same list |
| UiConfig.GetLlmOptions | src/frontend/config/uiconfig.py:11-12 | the `","` split of `LLM_OPTIONS`: join round trip, separator-free options, `[""]` when missing |
| UiConfig.GetGroqModelOptions | src/frontend/config/uiconfig.py:14-15 | the `","` split of `GROQ_MODEL_OPTIONS`, with the same three properties |
| UiConfig.GetAmenities | src/frontend/config/uiconfig.py:17-18 | the `", "` split of `AMENITIES`, with the same three properties |
| UiConfig.GetTransportationOptions | src/frontend/config/uiconfig.py:20-21 | the `", "` split of `TRANSPORTATION`, with the same three properties |
| UiConfig.GetNeighborhoodTraits | src/frontend/config/uiconfig.py:23-24 | the `", "` split of `NEIGHBORHOOD_TRAITS`, with the same three properties |
| StreamlitUi.HeaderText | src/frontend/streamlit/load_streamlit_ui.py:49 | the header starts with the house emoji and ends with the page title |
| StreamlitUi.HeaderKeepsMarkedTitle | src/frontend/streamlit/load_streamlit_ui.py:49 | the title is left unchanged iff it already starts with the emoji |
| StreamlitUi.HeaderIdempotent | src/frontend/streamlit/load_streamlit_ui.py:49 | computing the header of a header changes nothing |
| StreamlitUi.AmenitiesDefault | src/frontend/streamlit/load_streamlit_ui.py:106 | the preselected amenities are the prefix of the options of length min(2, number of options) |
| StreamlitUi.FirstOptionDefault | src/frontend/streamlit/load_streamlit_ui.py:111 | the preselection is `[options[0]]`, or `[]` when there are no options (line 116 uses the same rule) |
| StreamlitUi.DefaultsAreOptions | src/frontend/streamlit/load_streamlit_ui.py:103-117 | every preselected choice is one of the widget's options |
| StreamlitUi.ConfiguredDefaults | src/frontend/streamlit/load_streamlit_ui.py:34-36 | with options from the configuration, transportation and traits always preselect one choice, and amenities preselect two iff the configured value has a separator |
| Display.BuildQuery | src/frontend/streamlit/display_streamlit.py:45-56 | the query is never empty. A non-empty summary is returned verbatim, whitespace-only included. Otherwise the query opens with "Looking for a ", carries bedrooms, bathrooms and house size so that they read back, then continues with the price range, the three option lists and the lifestyle behind their own words, and ends with the lifestyle and " lifestyle." |
| Display.FallbackQuery | src/frontend/streamlit/display_streamlit.py:47-55 | the fallback sentence opens with its opening words, reads back as the three numbers followed by the rest from the price range on, and ends with the lifestyle |
| Display.TemplateOpens | src/frontend/streamlit/display_streamlit.py:48 | the fallback sentence opens with "Looking for a " |
| Display.TemplateCounts | src/frontend/streamlit/display_streamlit.py:47-55 | bedrooms, bathrooms and house size read back from the sentence, in that order, with the words between them checked; what follows " sqft, priced at " is the rest of the sentence from the price range on |
| Display.TemplateTail | src/frontend/streamlit/display_streamlit.py:50-55 | the pieces from the price range on are the price range, the three joined option lists and the lifestyle, each behind its words |
| Display.AfterSizeSpelled | src/frontend/streamlit/display_streamlit.py:50-55 | that rest is, character for character, `price_range + ", with amenities like " + amenities + ", in a " + traits + " neighborhood, near " + transportation + ". Ideal for someone with a " + lifestyle + " lifestyle."` |
| Display.TemplateCloses | src/frontend/streamlit/display_streamlit.py:55 | the sentence ends with the lifestyle followed by " lifestyle." |
| Display.AmenitiesReadBack | src/frontend/streamlit/display_streamlit.py:52 | the amenities stretch of the sentence splits back on `", "` into the selected amenities, in order, when none contains `", "` |
| Display.TraitsReadBack | src/frontend/streamlit/display_streamlit.py:53 | the same for the neighbourhood traits |
| Display.TransportationReadBack | src/frontend/streamlit/display_streamlit.py:54 | the same for the transportation options |

## Left out

- The language model, the embedding model and the vector store (`ChatGroq`, `with_structured_output`, `HuggingFaceEmbeddings`, `Chroma.from_documents`, `persist`, `as_retriever`). They are remote or third-party services with no local algorithm; `build_retriever` is not modelled.
- The chains and the entry point (`full_chain.py`, `rag_chain.py`, `query_cleaning.py`, `main.py`). They are wiring between services.
- `ListingGenerator.GenerateListings`: the chain is a function from invocation number to outcome, not a list consumed by `invoke`. Every outcome the loop can reach is still a parameter. How the listing prompt is produced is not modelled.
- `ListingGenerator.GenerateListings`: the `logger.error` and `print` texts are collapsed into one `LoggedFailure` entry per caught exception. `time.sleep(pause)` is counted, not timed, and the `tqdm` progress bar is left out. There is no `pause` parameter: it is assumed non-negative and not NaN, since otherwise the first `time.sleep(pause)` (src/listings/generate_listings.py:85-86) raises `ValueError` and the Python function raises where the model returns. An `Err` outcome stands for an `Exception` subclass only; a `BaseException` such as `KeyboardInterrupt` passes through `except Exception` and is not modelled. The `logger.info` calls (src/listings/generate_listings.py:116, src/tools/chromadb/chroma_store.py:94) and the `logger.error` call of the key validator (src/config.py:34) write only to the log and are left out.
- File and JSON input/output. `save_listings` only appears as the `ListingToJson` shape. `os.listdir` and `json.load` are replaced by the given list of files, each a list of decoded items, in the order `os.listdir` returned them. That order is platform-defined and is not modelled. A file that is not valid JSON is not modelled. Each file's top-level value is taken to be a JSON array; a top-level object, string or number is not modelled (iterating it raises, or yields its keys, and `{}` yields nothing).
- `ChromaStore.LoadListings`: on the first invalid item the Python code raises: `ValidationError` for an object item that fails validation, and `TypeError` (`Listing(**item)` needs a mapping) for an item that is not an object. The model returns the position of that item instead of an exception and does not tell the two apart.
- `Listings.ParseListing`: only JSON strings are accepted for string fields and only JSON integers for integer fields. Pydantic's lax mode would also coerce numeric strings, whole floats and booleans (`true` to 1, `false` to 0) to `int`; that coercion is not modelled.
- `Settings.LoadSettings`: the environment is the process environment as a list of (name, value) pairs in iteration order. Names are matched case-insensitively, as pydantic-settings does by default, but only ASCII letters are folded; Python's `str.lower` also folds other characters (the Kelvin sign to `k`, for instance). The `.env` file is not modelled: neither how its values merge with the process environment, nor its refusal of variables that name no field (pydantic-settings forbids extra inputs there). The `SystemExit` raised at import time is not modelled either.
- `UiConfig.GetPageTitle`: the `DEFAULT` section is a map from option name to raw value. configparser folds option names to lower case and interpolates `%` references; neither is modelled. The section must already hold the raw values, and a missing file is an empty section.
- The Streamlit widgets, page layout and session state. The numeric bounds of the `number_input` widgets (bedrooms and bathrooms 0–10, house size 200–10000) are not enforced: the query builder takes any integers.
- The bedroom (1–6) and bathroom (1–4) ranges in the `Listing` field descriptions. The source does not enforce them, so the fields are unconstrained integers.
- `Text.Strip` is defined over the exact set of code points Python's `str.isspace` accepts. It is not an abstract trim.
