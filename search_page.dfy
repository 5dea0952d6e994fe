/**
 * The Vite search page (frontend/vite/src/pages/Index.tsx): the guards
 * before a search, the request it sends, the error description of a
 * failed response, the mapping of each backend hit to a result card, and
 * the page state across one search.
 */
module SearchPage {
  import opened Wrappers
  import opened Text
  import opened Numbers
  import opened Json
  import opened Percent

  datatype Mode = TextMode | ImageMode

  /** A file picked in the image input; only its presence matters to the page. */
  datatype ImageFile = ImageFile(name: string, mimeType: string, size: nat)

  /** The view model of one result card. */
  datatype SearchResult = SearchResult(
    id: string,
    imageUrl: string,
    title: string,
    score: Number,
    metadata: Option<Json>)

  /** What `fetch` delivered: a rejection, or a response whose body is or is not JSON. */
  datatype Body = NotJson(syntaxError: string) | JsonBody(value: Json)
  datatype FetchOutcome = Rejected(error: Thrown) | Response(status: int, body: Body)

  /** A thrown value: an `Error` with its message, or anything else. */
  datatype Thrown = ErrorObject(message: string) | OtherValue

  /** A toast, with its description when it has one. */
  datatype Toast = ErrorToast(title: string, description: Option<Json>) | SuccessToast(title: string, note: string)

  /**
   * The request a search sends: the text search posts `text`, `top_k` and
   * a null `dataset_names` as JSON; the image search posts the file as form
   * data with `top_k` in the query.
   */
  datatype Request =
    | TextRequest(url: string, text: string, topK: real)
    | ImageRequest(url: string, file: ImageFile, topK: real)

  const MissingBaseUrl := "Missing API base URL. Set VITE_API_BASE_URL in .env."
  const MissingDescription := "Please enter a description before searching."
  const MissingImage := "Please select an image before searching."
  const Unexpected := "An unexpected error occurred"

  /** `!API_BASE_URL`: the variable is unset or empty. */
  predicate BaseUrlMissing(base: Option<string>)
  {
    base.None? || base.value == ""
  }

  /**
   * The message of the guard that stops a search before any request, None
   * when every guard passes.
   */
  function GuardMessage(base: Option<string>, mode: Mode, text: string, image: Option<ImageFile>): (m: Option<string>)
    ensures m.None? <==>
      !BaseUrlMissing(base) &&
      (mode == TextMode ==> !AllIn(text, JsWhitespace)) &&
      (mode == ImageMode ==> image.Some?)
  {
    StripEmpty(text, JsWhitespace);
    if BaseUrlMissing(base) then Some(MissingBaseUrl)
    else if mode == TextMode && Strip(text, JsWhitespace) == "" then Some(MissingDescription)
    else if mode == ImageMode && image.None? then Some(MissingImage)
    else None
  }

  /**
   * What a search sends: a text search posts the query as typed (not
   * trimmed) to `/search_text`, an image search posts the selected file to
   * `/search_image`, and both carry the result count as `top_k`.
   */
  predicate SendsSearch(r: Request, base: string, mode: Mode, text: string, image: Option<ImageFile>, topK: real)
  {
    (r.TextRequest? <==> mode == TextMode) && r.topK == topK &&
    (r.TextRequest? ==> r.url == base + "/search_text" && r.text == text) &&
    (r.ImageRequest? ==> r.url == base + "/search_image" && image == Some(r.file))
  }

  /** The request for a search that passed the guards. */
  function BuildRequest(base: string, mode: Mode, text: string, image: Option<ImageFile>, topK: real): Request
    requires mode == ImageMode ==> image.Some?
  {
    if mode == TextMode then TextRequest(base + "/search_text", text, topK)
    else ImageRequest(base + "/search_image", image.value, topK)
  }

  /** A status outside 200-299 is not `ok`. */
  predicate StatusOk(status: int)
  {
    200 <= status <= 299
  }

  /**
   * The description of a failed search: the body's `detail` when the body
   * is JSON and the detail is truthy, otherwise the status message.
   */
  function ErrorDescription(status: int, body: Body): (d: Json)
  {
    var detail := if body.JsonBody? then Prop(body.value, "detail") else None;
    if JsTruthyOpt(detail) then detail.value
    else JStr("Request failed with status " + IntText(status))
  }

  lemma ErrorDescriptionCases(status: int, body: Body)
    ensures body.JsonBody? && JsTruthyOpt(Prop(body.value, "detail")) ==>
      ErrorDescription(status, body) == Prop(body.value, "detail").value
    ensures !(body.JsonBody? && JsTruthyOpt(Prop(body.value, "detail"))) ==>
      ErrorDescription(status, body) == JStr("Request failed with status " + IntText(status))
  {
  }

  /** The last piece of a path split at `/` and at `\`, as `split(/[/\\]/).pop()`. */
  function FileName(path: string): (f: string)
    ensures NoneIn(f, {'/', '\\'})
    ensures exists i :: 0 <= i <= |path| && path[i..] == f
  {
    LastPiece(path, {'/', '\\'});
    Last(Split(path, {'/', '\\'}))
  }

  /** The image URL of a payload path; "" unless the path is a string whose last piece is not empty. */
  function ImageUrl(base: string, rawPath: Option<Json>): (u: string)
    ensures u != "" <==> rawPath.Some? && rawPath.value.JStr? && FileName(rawPath.value.s) != ""
    ensures u != "" ==> u == base + "/images/" + EncodeUriComponent(FileName(rawPath.value.s))
  {
    if rawPath.Some? && rawPath.value.JStr? && |rawPath.value.s| > 0 then
      var f := FileName(rawPath.value.s);
      if f != "" then base + "/images/" + EncodeUriComponent(f) else ""
    else ""
  }

  /** `metadataRaw && typeof metadataRaw === "object"`: a truthy object or array. */
  function Metadata(payload: Json): (m: Option<Json>)
    ensures m.Some? ==> m.value.JObj? || m.value.JArr?
    ensures Prop(payload, "metadata").None? || Prop(payload, "metadata").value.JNull? ==> m == Some(JObj([]))
    ensures Prop(payload, "metadata").Some? && (Prop(payload, "metadata").value.JObj? || Prop(payload, "metadata").value.JArr?) ==>
      m == Prop(payload, "metadata")
    ensures var raw := Prop(payload, "metadata");
      raw.Some? && !raw.value.JNull? && !raw.value.JObj? && !raw.value.JArr? ==> m.None?
  {
    var raw := Coalesce(Prop(payload, "metadata"), JObj([]));
    if raw.JObj? || raw.JArr? then Some(raw) else None
  }

  /** The card title: the person and clothes ids when both are defined, else the result id. */
  function Title(metadata: Option<Json>, id: Option<Json>): (t: string)
  {
    var person := if metadata.Some? then Prop(metadata.value, "person_id") else None;
    var clothes := if metadata.Some? then Prop(metadata.value, "clothes_id") else None;
    if person.Some? && clothes.Some? then
      "Person " + JsString(person.value) + " (clothes " + JsString(clothes.value) + ")"
    else "Result " + JsStringOpt(id)
  }

  /** `typeof score === "number" ? score : Number(score) || 0`. */
  function Score(score: Option<Json>): (n: Number)
  {
    if score.Some? && (score.value.JInt? || score.value.JFloat?) then NumberValue(score.value)
    else
      var n := JsToNumber(score);
      if n == NaN || n == Finite(0.0) then Finite(0.0) else n
  }

  /** The score of a card is never NaN, and anything `Number` cannot read scores 0. */
  lemma ScoreNeverNaN(score: Option<Json>)
    ensures Score(score) != NaN
    ensures JsToNumber(score) == NaN ==> Score(score) == Finite(0.0)
  {
  }

  /** The V8 message of reading a property of null. */
  function NullRead(key: string): string
  {
    "Cannot read properties of null (reading '" + key + "')"
  }

  /** One backend hit as a card; reading a property of a null hit throws. */
  function MapItem(base: string, item: Json): (r: Result<SearchResult, string>)
    ensures item.JNull? <==> r.Err?
    ensures r.Err? ==> r.error == NullRead("payload")
  {
    if item.JNull? then Err(NullRead("payload")) else Ok(Card(base, item))
  }

  /**
   * The card of a hit that is not null: a missing or null payload counts
   * as `{}`, the id is `String(item.id)`.
   */
  function Card(base: string, item: Json): (c: SearchResult)
    requires !item.JNull?
    ensures c.id == JsStringOpt(Prop(item, "id"))
  {
    var payload := Coalesce(Prop(item, "payload"), JObj([]));
    var metadata := Metadata(payload);
    SearchResult(
      JsStringOpt(Prop(item, "id")),
      ImageUrl(base, Prop(payload, "path")),
      Title(metadata, Prop(item, "id")),
      Score(Prop(item, "score")),
      metadata)
  }

  /** A hit without a payload, or with a null one, has no image, empty metadata and the fallback title. */
  lemma MissingPayloadCard(base: string, item: Json)
    requires !item.JNull?
    requires Prop(item, "payload").None? || Prop(item, "payload").value.JNull?
    ensures Card(base, item).imageUrl == ""
    ensures Card(base, item).metadata == Some(JObj([]))
    ensures Card(base, item).title == "Result " + JsStringOpt(Prop(item, "id"))
  {
  }

  /** A path ending in a separator of either kind has no image. */
  lemma TrailingSeparatorNoImage(base: string, path: string)
    requires path != [] && path[|path| - 1] in {'/', '\\'}
    ensures ImageUrl(base, Some(JStr(path))) == ""
  {
    LastPiece(path, {'/', '\\'});
  }

  /** The title falls back to the result id exactly when the metadata lacks a person or clothes id. */
  lemma TitleCases(base: string, item: Json)
    requires !item.JNull?
    ensures var c := Card(base, item);
      var m := c.metadata;
      var both := m.Some? && Prop(m.value, "person_id").Some? && Prop(m.value, "clothes_id").Some?;
      (both ==> (c.title ==
        "Person " + JsString(Prop(m.value, "person_id").value) + " (clothes " + JsString(Prop(m.value, "clothes_id").value) + ")")) &&
      (!both ==> c.title == "Result " + JsStringOpt(Prop(item, "id")))
  {
  }

  /** Two cards show the same image URL only for the same file name. */
  lemma ImageUrlInjective(base: string, p: Option<Json>, q: Option<Json>)
    requires ImageUrl(base, p) == ImageUrl(base, q) != ""
    ensures FileName(p.value.s) == FileName(q.value.s)
  {
    var prefix := base + "/images/";
    var ep := EncodeUriComponent(FileName(p.value.s));
    var eq := EncodeUriComponent(FileName(q.value.s));
    assert (prefix + ep)[|prefix|..] == ep;
    assert (prefix + eq)[|prefix|..] == eq;
    EncodeUriComponentInjective(FileName(p.value.s), FileName(q.value.s));
  }

  /**
   * `data.results` mapped item by item, or the first TypeError: `data`
   * null throws, and a `results` that is not an array gives no cards.
   */
  function MapResults(base: string, data: Json): (r: Result<seq<SearchResult>, string>)
    ensures data.JNull? ==> r == Err(NullRead("results"))
    ensures !data.JNull? && !(Prop(data, "results").Some? && Prop(data, "results").value.JArr?) ==> r == Ok([])
    ensures Prop(data, "results").Some? && Prop(data, "results").value.JArr? ==>
      var items := Prop(data, "results").value.items;
      (r.Ok? <==> forall i :: 0 <= i < |items| ==> !items[i].JNull?) &&
      (r.Ok? ==> |r.value| == |items| && forall i :: 0 <= i < |items| ==> r.value[i] == Card(base, items[i]))
  {
    if data.JNull? then Err(NullRead("results"))
    else
      var hits := Prop(data, "results");
      if hits.Some? && hits.value.JArr? then MapItems(base, hits.value.items) else Ok([])
  }

  /** Array.prototype.map over the hits, stopping at the first throw. */
  function MapItems(base: string, items: seq<Json>): (r: Result<seq<SearchResult>, string>)
    ensures r.Ok? <==> forall i :: 0 <= i < |items| ==> !items[i].JNull?
    ensures r.Ok? ==> |r.value| == |items|
    ensures r.Ok? ==> forall i :: 0 <= i < |items| ==> r.value[i] == Card(base, items[i])
    ensures r.Err? ==> r.error == NullRead("payload")
  {
    if items == [] then Ok([])
    else
      if items[0].JNull? then Err(NullRead("payload"))
      else
        match MapItems(base, items[1..])
        case Err(e) => Err(e)
        case Ok(rest) => Ok([Card(base, items[0])] + rest)
  }

  /** A thrown value's toast description: the message of an Error, else a fixed text. */
  function ThrownText(t: Thrown): string
  {
    if t.ErrorObject? then t.message else Unexpected
  }

  /** The results and the toast a search ends with. */
  datatype Completion = Completion(results: seq<SearchResult>, toast: Toast)

  /** How a search that sent req ends, given what fetch delivered. */
  function Complete(base: string, req: Request, outcome: FetchOutcome): (c: Completion)
  {
    match outcome
    case Rejected(t) => Completion([], ErrorToast("Search failed", Some(JStr(ThrownText(t)))))
    case Response(status, body) =>
      if !StatusOk(status) then Completion([], ErrorToast("Search failed", Some(ErrorDescription(status, body))))
      else if body.NotJson? then Completion([], ErrorToast("Search failed", Some(JStr(body.syntaxError))))
      else
        match MapResults(base, body.value)
        case Err(msg) => Completion([], ErrorToast("Search failed", Some(JStr(msg))))
        case Ok(cards) =>
          Completion(cards, SuccessToast(
            "Found " + IntText(|cards|) + " results",
            if req.TextRequest? then "Searched for: \"" + req.text + "\"" else "Searched by uploaded image"))
  }

  /** Every failure clears the results and shows an error toast; a success shows the mapped cards. */
  lemma CompleteCases(base: string, req: Request, outcome: FetchOutcome)
    ensures Complete(base, req, outcome).toast.ErrorToast? ==> Complete(base, req, outcome).results == []
    ensures Complete(base, req, outcome).results != [] ==>
      outcome.Response? && StatusOk(outcome.status) && outcome.body.JsonBody? && MapResults(base, outcome.body.value).Ok?
    ensures outcome.Rejected? ==>
      Complete(base, req, outcome) == Completion([], ErrorToast("Search failed", Some(JStr(ThrownText(outcome.error)))))
    ensures outcome.Response? && StatusOk(outcome.status) && outcome.body.NotJson? ==>
      Complete(base, req, outcome) == Completion([], ErrorToast("Search failed", Some(JStr(outcome.body.syntaxError))))
    ensures outcome.Response? && StatusOk(outcome.status) && outcome.body.JsonBody? && MapResults(base, outcome.body.value).Err? ==>
      Complete(base, req, outcome) == Completion([], ErrorToast("Search failed", Some(JStr(MapResults(base, outcome.body.value).error))))
    ensures outcome.Response? && StatusOk(outcome.status) && outcome.body.JsonBody? && MapResults(base, outcome.body.value).Ok? ==>
      Complete(base, req, outcome).toast.SuccessToast? &&
      Complete(base, req, outcome).toast.title == "Found " + IntText(|MapResults(base, outcome.body.value).value|) + " results"
    ensures outcome.Response? && !StatusOk(outcome.status) ==>
      Complete(base, req, outcome) == Completion([], ErrorToast("Search failed", Some(ErrorDescription(outcome.status, outcome.body))))
    ensures outcome.Response? && StatusOk(outcome.status) && outcome.body.JsonBody? && MapResults(base, outcome.body.value).Ok? ==>
      Complete(base, req, outcome).results == MapResults(base, outcome.body.value).value
  {
  }

  /** The page's state and the toasts it has shown. */
  class Page {
    const apiBaseUrl: Option<string>
    var searchMode: Mode
    var textQuery: string
    var selectedImage: Option<ImageFile>
    var resultCount: real
    var results: seq<SearchResult>
    var isLoading: bool
    var hasSearched: bool
    var toasts: seq<Toast>

    /** The state of a freshly rendered page. */
    constructor(apiBaseUrl: Option<string>)
      ensures this.apiBaseUrl == apiBaseUrl
      ensures searchMode == TextMode && textQuery == "" && selectedImage == None && resultCount == 8.0
      ensures results == [] && !isLoading && !hasSearched && toasts == []
    {
      this.apiBaseUrl := apiBaseUrl;
      searchMode := TextMode;
      textQuery := "";
      selectedImage := None;
      resultCount := 8.0;
      results := [];
      isLoading := false;
      hasSearched := false;
      toasts := [];
    }

    /**
     * The synchronous part of handleSearch: a failing guard shows its toast
     * and changes nothing else; otherwise the page is loading and has
     * searched, and the request to send is returned.
     */
    method BeginSearch() returns (req: Option<Request>)
      modifies this
      ensures var g := GuardMessage(apiBaseUrl, searchMode, textQuery, selectedImage);
        if g.Some? then
          req.None? && toasts == old(toasts) + [ErrorToast(g.value, None)] &&
          isLoading == old(isLoading) && hasSearched == old(hasSearched) && results == old(results)
        else
          req.Some? && SendsSearch(req.value, apiBaseUrl.value, searchMode, textQuery, selectedImage, resultCount) &&
          isLoading && hasSearched && toasts == old(toasts) && results == old(results)
      ensures searchMode == old(searchMode) && textQuery == old(textQuery)
      ensures selectedImage == old(selectedImage) && resultCount == old(resultCount)
    {
      var g := GuardMessage(apiBaseUrl, searchMode, textQuery, selectedImage);
      if g.Some? {
        toasts := toasts + [ErrorToast(g.value, None)];
        return None;
      }
      isLoading := true;
      hasSearched := true;
      req := Some(BuildRequest(apiBaseUrl.value, searchMode, textQuery, selectedImage, resultCount));
    }

    /**
     * The part after the request: the results and the toast of Complete,
     * and loading over on every path (the `finally` block).
     */
    method CompleteSearch(req: Request, outcome: FetchOutcome)
      requires !BaseUrlMissing(apiBaseUrl)
      modifies this
      ensures var c := Complete(apiBaseUrl.value, req, outcome);
        results == c.results && toasts == old(toasts) + [c.toast]
      ensures !isLoading && hasSearched == old(hasSearched)
      ensures searchMode == old(searchMode) && textQuery == old(textQuery)
      ensures selectedImage == old(selectedImage) && resultCount == old(resultCount)
    {
      var c := Complete(apiBaseUrl.value, req, outcome);
      results := c.results;
      toasts := toasts + [c.toast];
      isLoading := false;
    }

    /** A whole search whose fetch delivered outcome. */
    method HandleSearch(outcome: FetchOutcome) returns (sent: Option<Request>)
      modifies this
      ensures var g := GuardMessage(apiBaseUrl, old(searchMode), old(textQuery), old(selectedImage));
        if g.Some? then
          sent.None? && toasts == old(toasts) + [ErrorToast(g.value, None)] &&
          isLoading == old(isLoading) && hasSearched == old(hasSearched) && results == old(results)
        else
          sent.Some? && SendsSearch(sent.value, apiBaseUrl.value, old(searchMode), old(textQuery), old(selectedImage), old(resultCount)) &&
          !isLoading && hasSearched &&
          results == Complete(apiBaseUrl.value, sent.value, outcome).results &&
          toasts == old(toasts) + [Complete(apiBaseUrl.value, sent.value, outcome).toast]
      ensures searchMode == old(searchMode) && textQuery == old(textQuery)
      ensures selectedImage == old(selectedImage) && resultCount == old(resultCount)
    {
      sent := BeginSearch();
      if sent.Some? {
        CompleteSearch(sent.value, outcome);
      }
    }
  }
}
