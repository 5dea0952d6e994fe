# person-search, the logic around the search calls

person-search finds people in an image dataset by a text description or by a
query image. A FastAPI backend embeds the query with CLIP and asks a Qdrant
collection for the nearest stored images. A Vite/React page and a Streamlit
app show the hits as image cards. This project models, in Dafny, the
deterministic logic that surrounds those library calls, and proves its
properties:

- the search page's `handleSearch` (`frontend/vite/src/pages/Index.tsx`):
  - the guards before any request and the request it sends;
  - the error description of a failed response;
  - the mapping of each backend hit to a card (file name and image URL,
    title, score, metadata defaults);
  - the loading and result state on every exit path;
- the result-count control (`frontend/vite/src/components/ResultCountSlider.tsx`):
  clamping, a pointer position mapped onto `[min, max]`, the minus and plus
  buttons, the typed input, and the dragging flag;
- the Streamlit client (`frontend/streamlit/app.py`):
  - `build_image_url`, `coerce_score` and `map_results`;
  - `render_metadata`, which writes the well-known keys first;
  - `render_results`, which deals the cards into four columns;
- the API (`backend/fast.py`):
  - `_parse_dataset_names`, `_get_required_env_int` and `_format_results`;
  - `_ensure_ready` over the two globals that `lifespan` sets and clears;
  - the checks `search_text` and `search_image` make before they embed
    anything;
- the dataset reader (`backend/dataset.py`): `VirtualPerson.get_dataset_info`,
  one sample per directory entry, with four ids parsed from the file stem.

The built-ins this logic relies on are modelled exactly enough for the
properties to be stated about them:
- Python's `str.split`, `str.strip`, `str.replace`, `int()`, `float()`,
  `str()` and `format(x, ".0f")`;
- JavaScript's `String.prototype.split`, `trim`, `Number()`, `String()`,
  `Math.round` and `??`;
- `encodeURIComponent` and `urllib.parse.quote`, as UTF-8 percent-encoding
  (section 2.1 of RFC 3986);
- JSON values, as `Json` (`json.dfy`). Numbers are exact decimals: `JInt(i)`,
  or `JFloat(m, e)` for m·10^e.

Module layout:

| file | module | models |
|---|---|---|
| wrappers.dfy | Wrappers | `Option`, `Result`, and `Collect`, which stops at the first error |
| text.dfy | Text | split, join, strip, replace, whitespace sets, integer text |
| numbers.dfy | Numbers | `Number()`, `float()`, `int()`, rounding, number display |
| json.dfy | Json | JSON values, dict lookup, JS and Python truthiness, `String()`, `str()` |
| percent.dfy | Percent | UTF-8, `encodeURIComponent`, `quote` |
| search_page.dfy | SearchPage | `Index.tsx` |
| result_count_slider.dfy | ResultCountSlider | `ResultCountSlider.tsx` |
| streamlit_app.dfy | StreamlitApp | `app.py` |
| backend_api.dfy | BackendApi | `fast.py` |
| dataset.dfy | Dataset | `dataset.py` |
| pipeline.dfy | Pipeline | one dataset file followed from the reader, through the stored payload and the API's hit record, to what each client shows |

Inputs that come from outside the logic are parameters:
- the environment is a `map<string, string>`;
- the directory listing is a sequence of entry names;
- the vector database's hits are a datatype;
- what `fetch` delivers is a `FetchOutcome`;
- whether the imaging library opens an upload is a `bool`;
- the embedding dimension is a number passed to `Startup`;
- a failure of the database client is an optional message.

## Model

| member | source | states |
|---|---|---|
| SearchPage.GuardMessage | frontend/vite/src/pages/Index.tsx:22-34 | No guard fires exactly when the base URL is set and non-empty, a text search has text that is not whitespace only, and an image search has a file. |
| SearchPage.Page.constructor | frontend/vite/src/pages/Index.tsx:13-19 | Initial state: text mode, empty query, no image, count 8, no results, not loading, not searched, no toasts. |
| SearchPage.Page.BeginSearch | frontend/vite/src/pages/Index.tsx:22-67 | A failing guard adds its error toast and changes nothing else: no request, loading, searched and results unchanged. Otherwise a request is sent, and loading and searched are set. It is a text request iff the mode is text. A text request posts the query exactly as typed (not trimmed) to `/search_text`. An image request posts the selected file to `/search_image`. Both carry the result count as `top_k`. The inputs are unchanged. |
| SearchPage.Page.CompleteSearch | frontend/vite/src/pages/Index.tsx:69-151 | Results and toast are those of `Complete`. Loading is false afterwards on every path. The query inputs are unchanged. |
| SearchPage.Page.HandleSearch | frontend/vite/src/pages/Index.tsx:21-152 | A request is sent iff no guard fires. When a guard fires, its error toast is appended, and loading, searched and results are unchanged. Otherwise the request sent goes to the mode's endpoint with the untrimmed query or the file and the count. Loading ends false, searched is true, and results and the appended toast are those the outcome completes to. Mode, query, image and count are unchanged. |
| SearchPage.ErrorDescriptionCases | frontend/vite/src/pages/Index.tsx:69-79 | The description is the body's `detail` when the body is JSON and the detail is truthy. Otherwise, including a body that is not JSON, it is "Request failed with status N". |
| SearchPage.CompleteCases | frontend/vite/src/pages/Index.tsx:69-148 | An error toast always comes with empty results. Results are non-empty only for a 2xx JSON body whose mapping succeeds. Each failure path gives empty results and a "Search failed" error toast: a rejected fetch (with the thrown text), a non-2xx status (with the error description), a 2xx body that is not JSON (with the syntax error), and a mapping that throws, such as null data or a null hit (with its message). A successful mapping gives exactly the mapped cards and a "Found n results" toast. |
| SearchPage.FileName | frontend/vite/src/pages/Index.tsx:99 | The name holds neither `/` nor `\` and is a suffix of the path. |
| SearchPage.ImageUrl | frontend/vite/src/pages/Index.tsx:97-103 | The URL is non-empty iff the path is a string whose last segment is non-empty. It is then base + `/images/` + the encoded segment. |
| SearchPage.TrailingSeparatorNoImage | frontend/vite/src/pages/Index.tsx:97-103 | A path ending in `/` or `\` has no image URL. |
| SearchPage.ImageUrlInjective | frontend/vite/src/pages/Index.tsx:101 | Two equal non-empty image URLs come from the same file name. |
| SearchPage.Metadata | frontend/vite/src/pages/Index.tsx:91-95 | Missing or null metadata becomes `{}`. An object or array is kept. Any other value becomes undefined. |
| SearchPage.TitleCases | frontend/vite/src/pages/Index.tsx:105-116 | The title is "Person p (clothes c)" when the metadata defines both ids, and "Result id" otherwise. |
| SearchPage.ScoreNeverNaN | frontend/vite/src/pages/Index.tsx:118-121 | The score is never NaN. Anything `Number` reads as NaN scores 0. |
| SearchPage.MapItem | frontend/vite/src/pages/Index.tsx:88-89 | Mapping fails iff the hit is null, with the TypeError of reading `payload` of null. |
| SearchPage.Card | frontend/vite/src/pages/Index.tsx:123-129 | The card's id is `String(item.id)`. |
| SearchPage.MissingPayloadCard | frontend/vite/src/pages/Index.tsx:89-95 | A missing or null payload counts as `{}`: no image, metadata `{}`, and the fallback title. |
| SearchPage.MapItems | frontend/vite/src/pages/Index.tsx:88-130 | Mapping succeeds iff no hit is null. It then keeps length and order, each card from its own hit. Otherwise it fails with the TypeError. |
| SearchPage.MapResults | frontend/vite/src/pages/Index.tsx:85-88 | A null body throws. `results` that is not an array gives no cards. An array is mapped hit by hit, with length and order kept. |
| ResultCountSlider.Clamp | frontend/vite/src/components/ResultCountSlider.tsx:71-72 | For min ≤ max the result lies in [min, max]. It is the identity in range, min below and max above. |
| ResultCountSlider.ClampNumber | frontend/vite/src/components/ResultCountSlider.tsx:71-72 | A non-NaN number clamps into [min, max]. +Infinity goes to max and -Infinity to min. |
| ResultCountSlider.Fraction | frontend/vite/src/components/ResultCountSlider.tsx:22 | The fraction lies in [0, 1]. It is 0 left of the track and 1 right of it. |
| ResultCountSlider.FractionMonotonic | frontend/vite/src/components/ResultCountSlider.tsx:22 | The fraction grows with the pointer position. |
| ResultCountSlider.PositionInRange | frontend/vite/src/components/ResultCountSlider.tsx:23 | A fraction in [0, 1] rounds to an integer in [min, max], min for 0 and max for 1. |
| ResultCountSlider.PositionMonotonic | frontend/vite/src/components/ResultCountSlider.tsx:23 | A larger fraction never gives a smaller value. |
| ResultCountSlider.CalculateValue | frontend/vite/src/components/ResultCountSlider.tsx:19-24 | Without a track the current value is returned. |
| ResultCountSlider.CalculateValueInRange | frontend/vite/src/components/ResultCountSlider.tsx:19-24 | On a track the value is an integer in [min, max]: min at or left of the left edge, max at or right of the right edge. |
| ResultCountSlider.CalculateValueMonotonic | frontend/vite/src/components/ResultCountSlider.tsx:19-24 | Moving the pointer right never lowers the value. |
| ResultCountSlider.Decrement | frontend/vite/src/components/ResultCountSlider.tsx:105 | `max(min, value - 1)`: never below min, and one less when that is still at least min. |
| ResultCountSlider.Increment | frontend/vite/src/components/ResultCountSlider.tsx:128 | `min(max, value + 1)`: never above max, and one more when that is still at most max. |
| ResultCountSlider.TypedValue | frontend/vite/src/components/ResultCountSlider.tsx:87-98 | Nothing is emitted iff `Number(text)` is NaN. Otherwise the value is within [min, max], and a finite number is clamped, not rounded. |
| ResultCountSlider.EmptyInputIsMin | frontend/vite/src/components/ResultCountSlider.tsx:87-98 | A cleared input reads as 0 and emits min when min is positive. |
| ResultCountSlider.TypedIntegerInRange | frontend/vite/src/components/ResultCountSlider.tsx:87-98 | Typing an integer in range emits exactly that integer. |
| ResultCountSlider.Slider.constructor | frontend/vite/src/components/ResultCountSlider.tsx:10-17 | The bounds and value from the props. Not dragging. |
| ResultCountSlider.Slider.Press | frontend/vite/src/components/ResultCountSlider.tsx:47-57 | Sets dragging and emits the position's value. A value in range stays in range. |
| ResultCountSlider.Slider.Drag | frontend/vite/src/components/ResultCountSlider.tsx:26-64 | Emits the position's value only while dragging, and leaves the flag alone. A value in range stays in range. |
| ResultCountSlider.Slider.Release | frontend/vite/src/components/ResultCountSlider.tsx:32-34 | Clears dragging and emits nothing. |
| ResultCountSlider.Slider.DecrementClick | frontend/vite/src/components/ResultCountSlider.tsx:105 | Emits `Decrement` of the value. A value in range stays in range. |
| ResultCountSlider.Slider.IncrementClick | frontend/vite/src/components/ResultCountSlider.tsx:128 | Emits `Increment` of the value. A value in range stays in range. |
| ResultCountSlider.Slider.Type | frontend/vite/src/components/ResultCountSlider.tsx:87-98 | Emits `TypedValue` of the text. The value changes only when something is emitted. |
| StreamlitApp.FileNameAgrees | frontend/streamlit/app.py:25 | Replacing `\` by `/` and splitting on `/` gives the same last segment as the page's split on both. |
| StreamlitApp.BuildImageUrl | frontend/streamlit/app.py:22-28 | A falsy path gives "". A truthy non-string has no `replace`. A non-empty string gives "" iff its last segment is empty, and else base + `/images/` + the quoted segment. |
| StreamlitApp.TrailingSeparatorNoImage | frontend/streamlit/app.py:25-27 | A path ending in either separator gives "". |
| StreamlitApp.CoerceScore | frontend/streamlit/app.py:31-35 | `float(value)`, with 0.0 for None, a missing score, lists, dicts and unparseable text. |
| StreamlitApp.CoerceIntegerText | frontend/streamlit/app.py:31-35 | A score sent as the text of an integer reads back as that integer. |
| StreamlitApp.PayloadOf | frontend/streamlit/app.py:41 | A missing or falsy payload is `{}`; a truthy one is kept. |
| StreamlitApp.MapItem | frontend/streamlit/app.py:40-54 | A hit that is not a dict raises. The entry's id is `str(item.get("id", ""))` and its score is `coerce_score` of the hit's score. |
| StreamlitApp.MapPayload | frontend/streamlit/app.py:41-53 | A payload that is not a dict raises. Otherwise mapping succeeds iff `build_image_url` does, and the entry carries that URL. The metadata is kept iff it is a dict, else None. |
| StreamlitApp.MissingPayload | frontend/streamlit/app.py:41-45 | A missing or falsy payload maps to an entry with no image and no metadata. |
| StreamlitApp.MapResults | frontend/streamlit/app.py:38-55 | The loop's result is the hits mapped one by one, stopping at the first that raises. |
| StreamlitApp.MapResultsOrder | frontend/streamlit/app.py:38-55 | A successful mapping keeps length and order, each entry from its own hit. |
| StreamlitApp.MapResultsFirstError | frontend/streamlit/app.py:38-55 | The first hit that raises ends the mapping with its error. |
| StreamlitApp.KnownEntries | frontend/streamlit/app.py:59-62 | At most one entry per ordered key, each a key of the list paired with its value in the dict. |
| StreamlitApp.OtherEntries | frontend/streamlit/app.py:63-65 | Only entries of the dict, none of them with an ordered key. |
| StreamlitApp.RenderMetadata | frontend/streamlit/app.py:58-65 | The lines written are those of the known entries, then the other entries. |
| StreamlitApp.WriteKnownLines | frontend/streamlit/app.py:60-62 | The first loop writes one line per ordered key the dict holds, in the key order. |
| StreamlitApp.WriteOtherLines | frontend/streamlit/app.py:63-65 | The second loop appends one line per entry whose key is not ordered, in dict order. |
| StreamlitApp.MetadataEntriesPermutation | frontend/streamlit/app.py:58-65 | Every entry of the dict is written exactly once (a permutation). |
| StreamlitApp.MetadataEntriesOrder | frontend/streamlit/app.py:58-65 | The ordered keys come first, exactly those the dict has, in the fixed order. The rest follow in dict order. |
| StreamlitApp.ScoreLinePercent | frontend/streamlit/app.py:89 | A score of k hundredths shows as "Score: k%". |
| StreamlitApp.ScoreLineRounds | frontend/streamlit/app.py:89 | A non-negative score shows as "Score: k%" for a whole k within half a point of 100 × score. |
| StreamlitApp.RenderCard | frontend/streamlit/app.py:77-92 | An image only for a non-empty URL, the score line, and metadata lines only for a non-empty dict, written in `render_metadata` order. |
| StreamlitApp.Deal | frontend/streamlit/app.py:74-76 | Column `col` holds the elements at indices ≡ col (mod 4), in order: ⌈(n − col)/4⌉ of them, row k being element 4k + col. |
| StreamlitApp.DealPlacement | frontend/streamlit/app.py:75-76 | Result idx lands in column idx % 4, at row idx / 4. |
| StreamlitApp.DealCards | frontend/streamlit/app.py:74-76 | The loop fills the four columns with the four deals of the cards. |
| StreamlitApp.RenderResults | frontend/streamlit/app.py:68-76 | No results shows only "No results.". Otherwise: the header with the count, and the cards dealt into four columns. |
| BackendApi.Kept | backend/fast.py:38 | A piece contributes nothing iff it is whitespace only, else its stripped text. |
| BackendApi.StrippedNamesEmpty | backend/fast.py:38 | The comprehension keeps nothing iff every piece is whitespace only. |
| BackendApi.ParseDatasetNames | backend/fast.py:35-39 | None for an absent or empty parameter, or when every piece is blank. Otherwise the stripped non-blank pieces in order, never an empty list. |
| BackendApi.ParsedNamesClean | backend/fast.py:38 | Every parsed name is non-empty and stripped. |
| BackendApi.ParseJoinedNames | backend/fast.py:35-39 | Joining clean, comma-free names with commas and parsing gives the names back. |
| BackendApi.GetRequiredEnvInt | backend/fast.py:25-32 | An absent variable raises "is required". A value `int` rejects raises "must be an integer". Otherwise the integer. |
| BackendApi.EnvIntRoundTrip | backend/fast.py:29-30 | A variable holding a printed integer yields that integer. |
| BackendApi.BlankEnvIsNotInt | backend/fast.py:29-32 | A whitespace-only variable is rejected as not an integer. |
| BackendApi.IdText | backend/fast.py:61 | A UUID id's text is itself. |
| BackendApi.FormatHit | backend/fast.py:60-64 | The id as text, the score unchanged, and the payload, `{}` when None. |
| BackendApi.IntIdRoundTrip | backend/fast.py:61 | An integer id reads back through `int` from its text. |
| BackendApi.IntIdInjective | backend/fast.py:61 | Distinct integer ids give distinct texts. |
| BackendApi.FormatResults | backend/fast.py:54-66 | One record per hit, in order, whether the hits come as `.points` or as a list. |
| BackendApi.Service.constructor | backend/fast.py:21-22 | Both globals start as None. |
| BackendApi.Service.EnsureReady | backend/fast.py:49-51 | Passes iff both globals are set, else 503 "Service not ready". |
| BackendApi.Service.Startup | backend/fast.py:69-93 | An unset or empty name raises first, then a bad batch size, with the globals unchanged. Otherwise the model is set from the environment, and the database unless its client fails. Success means ready. |
| BackendApi.Service.Shutdown | backend/fast.py:95-96 | Both globals are None again, so the service is not ready. |
| BackendApi.Service.SearchText | backend/fast.py:131-141 | 503 when not ready. 400 "text is required" for text that is whitespace only. Otherwise queries the stripped text with the request's count and names. |
| BackendApi.Service.SearchImage | backend/fast.py:146-164 | 503 when not ready. 400 for a present, non-empty type outside `image/`. 400 "invalid image" for content that does not open. Otherwise queries the content with the parsed names. |
| BackendApi.LifespanReadiness | backend/fast.py:69-96 | Not ready before start-up, ready after it, and not ready after shut-down. |
| Dataset.RFind | backend/dataset.py:29 | The index of the last occurrence, or none iff the character is absent. |
| Dataset.Stem | backend/dataset.py:29 | The stem is a prefix of the name. |
| Dataset.StemOfBaseAndExtension | backend/dataset.py:29 | `base.ext`, with a dot-free extension, has stem `base`. |
| Dataset.SampleOf | backend/dataset.py:29-31 | Succeeds iff the stem has at least four `-` parts, else the IndexError. The path is the entry's. |
| Dataset.SampleOfName | backend/dataset.py:29-30 | `p-l-c-f[-more].ext` gives person p, location l, clothes c and frame f as strings. Later parts are ignored. |
| Dataset.VirtualPerson.constructor | backend/dataset.py:18-24 | Keeps the path and the dataset name. |
| Dataset.VirtualPerson.GetDatasetInfo | backend/dataset.py:25-33 | The loop gives the samples of all entries under the dataset's name, or the first entry's error. |
| Dataset.DatasetInfoOrder | backend/dataset.py:27-32 | One sample per entry, in listing order, each from its own entry. |
| Dataset.DatasetInfoFails | backend/dataset.py:29-30 | The read fails, with the IndexError, iff some stem has fewer than four parts. |
| Pipeline.FileNameOfSamplePath | backend/dataset.py:26-28 | Both clients take a sample path's last segment to be the entry's own name. |
| Pipeline.SampleOfEntry | backend/dataset.py:28-31 | A well-formed file name gives a sample with its path and the four ids. |
| Pipeline.SampleHitLookups | backend/fast.py:59-65 | The API's record of a stored sample has its id, score and payload under their keys. |
| Pipeline.StreamlitShowsSample | frontend/streamlit/app.py:42-45 | A stored sample's payload gives the quoted file name under `/images/` and its ids as the metadata dict. |
| Pipeline.StreamlitMapsSample | frontend/streamlit/app.py:40-54 | A sample's hit maps to an entry with the point id, that image URL, the score and the metadata dict. |
| Pipeline.StreamlitListsIds | frontend/streamlit/app.py:58-65 | A sample's metadata is listed as person, clothes, location, frame. |
| Pipeline.ViteMapsRecord | frontend/vite/src/pages/Index.tsx:88-130 | A record whose path has a non-empty last segment maps to that segment, encoded, under `/images/`, titled with its person and clothes ids. |
| Pipeline.ViteMapsSample | frontend/vite/src/pages/Index.tsx:88-130 | A sample's hit maps to a card with the point id, the encoded file name, "Person p (clothes c)", the score and the metadata. |
| Text.Split | backend/fast.py:38 | At least one piece, and no piece holds a separator. |
| Text.JoinSplit | backend/fast.py:38 | Joining the pieces of a split with the separator gives the text back. |
| Text.SplitJoin | backend/fast.py:38 | Splitting a join of separator-free parts gives the parts back. |
| Text.LastPiece | frontend/vite/src/pages/Index.tsx:99 | The last piece is a separator-free suffix of the text, preceded by a separator when shorter. |
| Text.SplitReplace | frontend/streamlit/app.py:25 | Replacing a by b and splitting on b equals splitting on both. |
| Text.StripShape | backend/fast.py:133 | The stripped text is the middle of the text, with only whitespace cut off at each end and none left at its ends. |
| Text.StripEmpty | backend/fast.py:133-134 | Stripping leaves nothing iff the text is whitespace only. |
| Text.NatText | backend/fast.py:61 | Digits without a leading zero whose value is the number. |
| Text.NatTextInjective | backend/fast.py:61 | Distinct numbers print differently. |
| Numbers.PyStringToInt | backend/fast.py:30 | `int()` rejects whitespace-only text. |
| Numbers.PyIntRoundTrip | backend/fast.py:30 | `int(str(n)) == n`. |
| Numbers.JsStringToNumber | frontend/vite/src/components/ResultCountSlider.tsx:88 | `Number()` of whitespace-only text is 0. |
| Numbers.JsNumberRoundTrip | frontend/vite/src/components/ResultCountSlider.tsx:88 | `Number(String(n)) == n` for an integer n. |
| Numbers.PyStringToFloat | frontend/streamlit/app.py:33 | `float()` rejects whitespace-only text. |
| Numbers.PyFloatOfIntText | frontend/streamlit/app.py:33 | `float(str(n)) == n` for an integer n. |
| Numbers.JsRound | frontend/vite/src/components/ResultCountSlider.tsx:23 | `Math.round(x)` lies in (x − ½, x + ½]. |
| Numbers.RoundHalfEven | frontend/streamlit/app.py:89 | Within ½ of x, and even on a tie. |
| Json.Lookup | frontend/streamlit/app.py:41 | `dict.get` finds nothing iff the key is absent, else a value stored under the key. |
| Json.Coalesce | frontend/vite/src/pages/Index.tsx:89 | `v ?? d`: d for undefined or null, else v. |
| Json.JsString | frontend/vite/src/pages/Index.tsx:110 | `String(v)`: a string is itself, an object `[object Object]`. An integer below 10^21 in magnitude is its decimal digits; one from 10^21 on is written with an exponent. |
| Numbers.JsIntegerText | frontend/vite/src/pages/Index.tsx:124 | `String(i)` of an integer below 10^21 in magnitude is its sign and plain decimal digits. |
| Numbers.JsLargeIntegerText | frontend/vite/src/pages/Index.tsx:124 | `String(i)` of an integer from 10^21 on is in exponent form. |
| Json.JsStringOpt | frontend/vite/src/pages/Index.tsx:124 | `String(v)`: "undefined" when absent; a string is itself. |
| Json.JsToNumber | frontend/vite/src/pages/Index.tsx:121 | `Number(v)`: NaN when undefined, 0 for null, the string's number for a string. |
| Json.PyStr | frontend/streamlit/app.py:49 | `str(v)`: a string is itself, an integer its digits. |
| Percent.Utf8RoundTrip | frontend/vite/src/pages/Index.tsx:101 | The UTF-8 bytes of a character decode back to it. |
| Percent.EncodeKept | frontend/streamlit/app.py:28 | Text made only of ASCII letters, digits and the encoder's safe characters encodes to itself. |
| Percent.EncodeInjective | frontend/vite/src/pages/Index.tsx:101 | Percent-encoding never maps two texts to one. |
| Percent.EncodeUriComponentInjective | frontend/vite/src/pages/Index.tsx:101 | Distinct file names give distinct `encodeURIComponent` output. |
| Percent.QuoteInjective | frontend/streamlit/app.py:28 | Distinct file names give distinct `quote` output. |

## Left out

- HTTP, the toasts and widgets as rendering, `console.error`, Streamlit's page layout and buttons, the CORS middleware, the static `/images` mount, and `/health`. They are I/O or framework wiring; the model keeps only the values the logic computes and the toasts as a list.
- The CLIP model, the embedding computation and the Qdrant search and ranking are foreign libraries and services. They are parameters of the model: no embedding is computed, and the query is what would be sent to the search.
- `_get_embedding_dim` is a call into the model. Its result is the `embeddingDim` parameter of `Startup`.
- `lifespan`'s failure while constructing the CLIP model is not modelled. Only the database client's failure is a parameter.
- The `DATASET_ROOT` check at import time, `load_dotenv`, and Streamlit's own `API_BASE_URL` stop are module start-up I/O.
- `top_k` and `dataset_names` are passed through to the search unchecked, as the API does. pydantic's type validation of the request body and of the query parameters is not modelled.
- Floating point: every number is an exact decimal or real. The following are therefore not modelled:
  - IEEE rounding of parsing, of `* 100` and of position arithmetic;
  - `float()` overflow to infinity and `int()`'s digit limit;
  - Python's `OverflowError` when `float` gets an integer too large for a double;
  - the shortest round-trip digits of `repr` and `String` for non-integral floats.
- ResultCountSlider.Fraction: requires a track of positive width. A zero-width track divides by zero in the source, and its NaN or infinity is not modelled.
- SearchPage.MapItem and StreamlitApp.MapPayload: strings are sequences of Unicode scalar values. A JavaScript string holding a lone UTF-16 surrogate is not modelled. In the source, `encodeURIComponent` (frontend/vite/src/pages/Index.tsx:101) throws a URIError on one, which ends in the error toast with no results. Python's `quote` (frontend/streamlit/app.py:28) raises UnicodeEncodeError on one. "MapItem fails iff the hit is null" and "MapPayload succeeds iff `build_image_url` does" hold for the model's strings only.
- The slider's fill and thumb position, `percent` at line 70, is display only. It is not modelled.
- `Number()`, `float()` and `int()` accept ASCII digits only. Unicode digits, which Python accepts, are not modelled.
- JavaScript property reads see own properties only. Keys such as `toString` inherited from `Object.prototype` are not modelled.
- A JSON object with duplicate keys is a list of pairs in which lookup finds the first. `JSON.parse` and `json` keep the last, so the model's results coincide only for distinct keys, which every record here has.
- The text of a TypeError or AttributeError is V8's and CPython's wording for the one case each that the model raises.
- Python's `repr` inside `str` of containers does not escape quotes or special characters.
- `Path` objects are strings. A sample path is the root, `/train/` and the entry name joined as text. `resolve()` and separator normalisation are not modelled.
- UUIDv5 point ids of the indexer are not modelled. A point id is an integer or an opaque UUID text.
- `tqdm` progress display is I/O.
- Concurrency is not modelled: React's batching of state updates and overlapping searches. `HandleSearch` runs one search from start to end.
