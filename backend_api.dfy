/**
 * The search API's own logic (backend/fast.py): the environment helpers,
 * the dataset-name filter of the image endpoint, the formatting of vector
 * database hits, the readiness check over the two service globals that the
 * lifespan handler sets and clears, and the validation done by the two
 * search endpoints before they embed anything.
 */
module BackendApi {
  import opened Wrappers
  import opened Text
  import opened Numbers
  import opened Json

  /** An `HTTPException`: its status code and its detail text. */
  datatype HttpError = HttpError(status: int, detail: string)

  const NotReady: HttpError := HttpError(503, "Service not ready")
  const TextRequired: HttpError := HttpError(400, "text is required")
  const NotAnImage: HttpError := HttpError(400, "file must be an image")
  const InvalidImage: HttpError := HttpError(400, "invalid image")

  /** The message of the `RuntimeError` the lifespan raises when a required name is unset or empty. */
  const MissingConfig: string := "MODEL_NAME, MODEL_DATASET, and QDRANT_COLLECTION are required. Set them in .env."

  /** Whether a piece of the comma-separated list is whitespace only, so that stripping leaves nothing. */
  predicate Blank(piece: string)
  {
    AllIn(piece, PyWhitespace)
  }

  /** What one piece contributes: its stripped text, unless that is empty. */
  function Kept(piece: string): (r: seq<string>)
    ensures r == [] <==> Blank(piece)
    ensures r != [] ==> r == [Strip(piece, PyWhitespace)]
  {
    StripEmpty(piece, PyWhitespace);
    var s := Strip(piece, PyWhitespace);
    if s == "" then [] else [s]
  }

  /** `[item.strip() for item in pieces if item.strip()]`. */
  function StrippedNames(pieces: seq<string>): (r: seq<string>)
    ensures |r| <= |pieces|
  {
    if pieces == [] then [] else StrippedNames(pieces[..|pieces| - 1]) + Kept(Last(pieces))
  }

  /** No name is kept exactly when every piece is blank. */
  lemma StrippedNamesEmpty(pieces: seq<string>)
    ensures StrippedNames(pieces) == [] <==> forall i :: 0 <= i < |pieces| ==> Blank(pieces[i])
  {
    StrippedNamesNone(pieces);
    AllBlankEvery(pieces);
  }

  /** Every piece is blank, checked from the last piece back. */
  predicate AllBlank(pieces: seq<string>)
  {
    pieces == [] || (AllBlank(pieces[..|pieces| - 1]) && Blank(Last(pieces)))
  }

  /** No name is kept exactly when the pieces are all blank, one by one from the end. */
  lemma {:induction false} StrippedNamesNone(pieces: seq<string>)
    ensures StrippedNames(pieces) == [] <==> AllBlank(pieces)
  {
    if pieces != [] {
      var front := pieces[..|pieces| - 1];
      StrippedNamesNone(front);
      assert StrippedNames(pieces) == StrippedNames(front) + Kept(Last(pieces));
    }
  }

  /** The recursive and the quantified reading of "every piece is blank" agree. */
  lemma {:induction false} AllBlankEvery(pieces: seq<string>)
    ensures AllBlank(pieces) <==> forall i :: 0 <= i < |pieces| ==> Blank(pieces[i])
  {
    if pieces != [] {
      var front := pieces[..|pieces| - 1];
      AllBlankEvery(front);
      assert pieces == front + [Last(pieces)];
      EveryBlankSplit(front, Last(pieces));
    }
  }

  /** One more piece: every piece is blank exactly when the earlier ones are and it is too. */
  lemma EveryBlankSplit(front: seq<string>, piece: string)
    ensures (forall i :: 0 <= i < |front + [piece]| ==> Blank((front + [piece])[i])) <==>
      (forall i :: 0 <= i < |front| ==> Blank(front[i])) && Blank(piece)
  {
    assert forall i :: 0 <= i < |front| ==> (front + [piece])[i] == front[i];
    assert (front + [piece])[|front|] == piece;
  }

  /** A name is kept only if it is non-empty and has no surrounding whitespace. */
  predicate CleanName(name: string)
  {
    name != [] && name[0] !in PyWhitespace && Last(name) !in PyWhitespace
  }

  /** A kept piece is a clean name. */
  lemma KeptClean(piece: string)
    ensures forall i :: 0 <= i < |Kept(piece)| ==> CleanName(Kept(piece)[i])
  {
    var _ := StripShape(piece, PyWhitespace);
  }

  /** Every kept name is a stripped, non-empty piece. */
  lemma {:induction false} StrippedNamesClean(pieces: seq<string>)
    ensures forall i :: 0 <= i < |StrippedNames(pieces)| ==> CleanName(StrippedNames(pieces)[i])
  {
    if pieces != [] {
      var front := pieces[..|pieces| - 1];
      StrippedNamesClean(front);
      KeptClean(Last(pieces));
      var r, k := StrippedNames(front), Kept(Last(pieces));
      assert StrippedNames(pieces) == r + k;
      assert forall i :: 0 <= i < |r + k| ==> (r + k)[i] == if i < |r| then r[i] else k[i - |r|];
    }
  }

  /** A clean name is kept as it is. */
  lemma KeptOfClean(name: string)
    requires CleanName(name)
    ensures Kept(name) == [name]
  {
    StripNoop(name, PyWhitespace);
  }

  /** Names that are already clean pass through unchanged and in order. */
  lemma {:induction false} StrippedNamesOfClean(names: seq<string>)
    requires forall i :: 0 <= i < |names| ==> CleanName(names[i])
    ensures StrippedNames(names) == names
  {
    if names != [] {
      var front := names[..|names| - 1];
      assert names == front + [Last(names)];
      CleanFront(front, Last(names));
      StrippedNamesOfClean(front);
      KeptOfClean(Last(names));
      assert StrippedNames(names) == front + [Last(names)];
    }
  }

  /** Dropping the last of clean names leaves clean names. */
  lemma CleanFront(front: seq<string>, name: string)
    requires forall i :: 0 <= i < |front + [name]| ==> CleanName((front + [name])[i])
    ensures forall i :: 0 <= i < |front| ==> CleanName(front[i])
  {
    assert forall i :: 0 <= i < |front| ==> (front + [name])[i] == front[i];
  }

  /**
   * `_parse_dataset_names`: None for an absent or empty parameter, otherwise
   * the stripped non-blank pieces between commas, or None if there are none.
   */
  function ParseDatasetNames(raw: Option<string>): (r: Option<seq<string>>)
    ensures raw.None? || raw.value == "" ==> r.None?
    ensures raw.Some? ==> (r.None? <==> forall i :: 0 <= i < |Split(raw.value, {','})| ==> Blank(Split(raw.value, {','})[i]))
    ensures r.Some? ==> r.value != [] && r.value == StrippedNames(Split(raw.value, {','}))
  {
    if raw.None? || raw.value == "" then None
    else
      StrippedNamesEmpty(Split(raw.value, {','}));
      var names := StrippedNames(Split(raw.value, {','}));
      if names == [] then None else Some(names)
  }

  /** Every parsed name is non-empty and stripped. */
  lemma ParsedNamesClean(raw: Option<string>)
    requires ParseDatasetNames(raw).Some?
    ensures forall i :: 0 <= i < |ParseDatasetNames(raw).value| ==> CleanName(ParseDatasetNames(raw).value[i])
  {
    StrippedNamesClean(Split(raw.value, {','}));
  }

  /** Joining clean comma-free names with commas and parsing gives the names back. */
  lemma ParseJoinedNames(names: seq<string>)
    requires names != []
    requires forall i :: 0 <= i < |names| ==> CleanName(names[i]) && NoneIn(names[i], {','})
    ensures ParseDatasetNames(Some(Join(names, ","))) == Some(names)
  {
    SplitJoin(names, ',');
    StrippedNamesOfClean(names);
    assert Join(names, [',']) != "" by {
      assert |names[0]| > 0;
      JoinStartsWithFirst(names, ",");
    }
  }

  lemma JoinStartsWithFirst(parts: seq<string>, sep: string)
    requires parts != []
    ensures |Join(parts, sep)| >= |parts[0]|
  {
  }

  /** `_get_required_env_int`: the variable parsed by `int`, or the `RuntimeError` message. */
  function GetRequiredEnvInt(env: map<string, string>, name: string): (r: Result<int, string>)
    ensures name !in env ==> r == Err(name + " is required. Set it in .env.")
    ensures name in env ==> (r.Ok? <==> PyStringToInt(env[name]).Some?)
    ensures name in env && r.Err? ==> r.error == name + " must be an integer."
  {
    if name !in env then Err(name + " is required. Set it in .env.")
    else
      match PyStringToInt(env[name])
      case Some(n) => Ok(n)
      case None => Err(name + " must be an integer.")
  }

  /** A variable holding a printed integer yields that integer. */
  lemma EnvIntRoundTrip(env: map<string, string>, name: string, n: int)
    requires name in env && env[name] == IntText(n)
    ensures GetRequiredEnvInt(env, name) == Ok(n)
  {
    PyIntRoundTrip(n);
  }

  /** A variable set to whitespace only is not an integer. */
  lemma BlankEnvIsNotInt(env: map<string, string>, name: string)
    requires name in env && AllIn(env[name], PyWhitespace)
    ensures GetRequiredEnvInt(env, name) == Err(name + " must be an integer.")
  {
  }

  /** A point id: an unsigned integer or a UUID, held as its text. */
  datatype PointId = IntId(n: nat) | UuidId(text: string)

  /** A scored point from the vector database. */
  datatype ScoredPoint = ScoredPoint(id: PointId, score: real, payload: Option<seq<(string, Json)>>)

  /** What the search returns: a response object with a `points` list, or a plain list of points. */
  datatype SearchHits = Points(points: seq<ScoredPoint>) | PlainList(items: seq<ScoredPoint>)

  /** `results.points` when the object has them, otherwise the results themselves. */
  function HitList(results: SearchHits): seq<ScoredPoint>
  {
    match results
    case Points(ps) => ps
    case PlainList(ps) => ps
  }

  /** One formatted hit: `str(id)`, `float(score)` and the payload, `{}` when None. */
  datatype FormattedHit = FormattedHit(id: string, score: real, payload: seq<(string, Json)>)

  /** `str(item.id)`. */
  function IdText(id: PointId): (s: string)
    ensures id.UuidId? ==> s == id.text
  {
    match id
    case IntId(n) => NatText(n)
    case UuidId(t) => t
  }

  /** The formatted record of one hit. */
  function FormatHit(p: ScoredPoint): (h: FormattedHit)
    ensures h.id == IdText(p.id) && h.score == p.score
    ensures p.payload.None? ==> h.payload == []
    ensures p.payload.Some? ==> h.payload == p.payload.value
  {
    FormattedHit(IdText(p.id), p.score, p.payload.GetOr([]))
  }

  /** An integer id reads back through `int` from its text, so formatting loses no id. */
  lemma IntIdRoundTrip(n: nat)
    ensures PyStringToInt(FormatHit(ScoredPoint(IntId(n), 0.0, None)).id) == Some(n)
  {
    PyIntRoundTrip(n);
  }

  /** Distinct integer ids stay distinct as text. */
  lemma IntIdInjective(m: nat, n: nat)
    requires IdText(IntId(m)) == IdText(IntId(n))
    ensures m == n
  {
    NatTextInjective(m, n);
  }

  /** `_format_results`: one record per hit, in the order of the hits. */
  method FormatResults(results: SearchHits) returns (formatted: seq<FormattedHit>)
    ensures |formatted| == |HitList(results)|
    ensures forall i :: 0 <= i < |formatted| ==> formatted[i] == FormatHit(HitList(results)[i])
  {
    var hits := match results case Points(ps) => ps case PlainList(ps) => ps;
    formatted := [];
    for i := 0 to |hits|
      invariant |formatted| == i
      invariant forall j :: 0 <= j < i ==> formatted[j] == FormatHit(hits[j])
    {
      var item := hits[i];
      formatted := formatted + [FormattedHit(IdText(item.id), item.score, if item.payload.None? then [] else item.payload.value)];
    }
  }

  /** The body of a search response: `{"results": [...]}` with each record as an object. */
  function HitJson(h: FormattedHit, score: Json): Json
  {
    JObj([("id", JStr(h.id)), ("score", score), ("payload", JObj(h.payload))])
  }

  /** The embedding backend as the lifespan configures it. */
  datatype EmbeddingModel = EmbeddingModel(modelName: string, dataset: string, batchSize: int)

  /** The vector database client as the lifespan configures it. */
  datatype VectorDb = VectorDb(collection: string, embeddingDim: nat)

  /** What the text endpoint reads from its JSON body, after validation of its types. */
  datatype SearchTextRequest = SearchTextRequest(text: string, topK: int, datasetNames: Option<seq<string>>)

  /** The query an endpoint puts to the vector database once the embedding is computed. */
  datatype Query = TextQuery(text: string, topK: int, datasetNames: Option<seq<string>>)
                 | ImageQuery(content: seq<bv8>, topK: int, datasetNames: Option<seq<string>>)

  /** `not v` for an environment variable read with `os.getenv`. */
  predicate Unset(env: map<string, string>, name: string)
  {
    name !in env || env[name] == ""
  }

  /** The two module globals of the service and the handlers that read them. */
  class Service {
    var embeddingModel: Option<EmbeddingModel>
    var vectorDb: Option<VectorDb>

    /** Both globals start as None. */
    constructor()
      ensures embeddingModel.None? && vectorDb.None?
    {
      embeddingModel := None;
      vectorDb := None;
    }

    predicate Ready()
      reads this
    {
      embeddingModel.Some? && vectorDb.Some?
    }

    /** `_ensure_ready`: 503 unless both globals are set. */
    function EnsureReady(): (r: Result<(), HttpError>)
      reads this
      ensures r.Ok? <==> Ready()
      ensures r.Err? ==> r.error == NotReady
    {
      if embeddingModel.None? || vectorDb.None? then Err(NotReady) else Ok(())
    }

    /**
     * The start-up half of `lifespan`: the three required names, the batch
     * size, then the model and the database client. The model's dimension
     * and a failure of the database client are given, as they come from the
     * libraries. A failure leaves the globals as they were at that point.
     */
    method Startup(env: map<string, string>, embeddingDim: nat, dbFailure: Option<string>) returns (r: Result<(), string>)
      modifies this
      ensures Unset(env, "MODEL_NAME") || Unset(env, "MODEL_DATASET") || Unset(env, "QDRANT_COLLECTION") ==>
        r == Err(MissingConfig) && embeddingModel == old(embeddingModel) && vectorDb == old(vectorDb)
      ensures !Unset(env, "MODEL_NAME") && !Unset(env, "MODEL_DATASET") && !Unset(env, "QDRANT_COLLECTION") ==>
        match GetRequiredEnvInt(env, "EMBED_BATCH_SIZE")
        case Err(e) => r == Err(e) && embeddingModel == old(embeddingModel) && vectorDb == old(vectorDb)
        case Ok(b) =>
          embeddingModel == Some(EmbeddingModel(env["MODEL_NAME"], env["MODEL_DATASET"], b)) &&
          (dbFailure.Some? ==> r == Err(dbFailure.value) && vectorDb == old(vectorDb)) &&
          (dbFailure.None? ==> r == Ok(()) && vectorDb == Some(VectorDb(env["QDRANT_COLLECTION"], embeddingDim)))
      ensures r.Ok? ==> Ready()
    {
      if Unset(env, "MODEL_NAME") || Unset(env, "MODEL_DATASET") || Unset(env, "QDRANT_COLLECTION") {
        return Err(MissingConfig);
      }
      var batchSize := GetRequiredEnvInt(env, "EMBED_BATCH_SIZE");
      if batchSize.Err? {
        return Err(batchSize.error);
      }
      embeddingModel := Some(EmbeddingModel(env["MODEL_NAME"], env["MODEL_DATASET"], batchSize.value));
      if dbFailure.Some? {
        return Err(dbFailure.value);
      }
      vectorDb := Some(VectorDb(env["QDRANT_COLLECTION"], embeddingDim));
      return Ok(());
    }

    /** The shut-down half of `lifespan`: both globals back to None. */
    method Shutdown()
      modifies this
      ensures embeddingModel.None? && vectorDb.None?
      ensures !Ready()
    {
      embeddingModel := None;
      vectorDb := None;
    }

    /**
     * `search_text` up to the search: not ready gives 503, text that is
     * blank once stripped gives 400, otherwise the stripped text is queried
     * with the request's count and dataset names.
     */
    method SearchText(req: SearchTextRequest) returns (r: Result<Query, HttpError>)
      ensures !Ready() ==> r == Err(NotReady)
      ensures Ready() && AllIn(req.text, PyWhitespace) ==> r == Err(TextRequired)
      ensures Ready() && !AllIn(req.text, PyWhitespace) ==>
        r == Ok(TextQuery(Strip(req.text, PyWhitespace), req.topK, req.datasetNames))
    {
      var ready := EnsureReady();
      if ready.Err? {
        return Err(ready.error);
      }
      var text := Strip(req.text, PyWhitespace);
      StripEmpty(req.text, PyWhitespace);
      if text == "" {
        return Err(TextRequired);
      }
      return Ok(TextQuery(text, req.topK, req.datasetNames));
    }

    /**
     * `search_image` up to the search: not ready gives 503, a content type
     * that is present, non-empty and not under `image/` gives 400, content
     * the imaging library cannot open gives 400, otherwise the content is
     * queried with the parsed dataset names. Whether the content opens is
     * given, as the imaging library decides it.
     */
    method SearchImage(contentType: Option<string>, content: seq<bv8>, opens: bool, topK: int, datasetNames: Option<string>)
      returns (r: Result<Query, HttpError>)
      ensures !Ready() ==> r == Err(NotReady)
      ensures Ready() && contentType.Some? && contentType.value != "" && !IsImageType(contentType.value) ==> r == Err(NotAnImage)
      ensures Ready() && (contentType.None? || contentType.value == "" || IsImageType(contentType.value)) ==>
        r == if opens then Ok(ImageQuery(content, topK, ParseDatasetNames(datasetNames))) else Err(InvalidImage)
    {
      var ready := EnsureReady();
      if ready.Err? {
        return Err(ready.error);
      }
      if contentType.Some? && contentType.value != "" && !IsImageType(contentType.value) {
        return Err(NotAnImage);
      }
      if !opens {
        return Err(InvalidImage);
      }
      return Ok(ImageQuery(content, topK, ParseDatasetNames(datasetNames)));
    }
  }

  /** `content_type.startswith("image/")`. */
  predicate IsImageType(contentType: string)
  {
    |contentType| >= 6 && contentType[..6] == "image/"
  }

  /** After a successful start-up the handlers pass the readiness check, and after shut-down they fail it. */
  method LifespanReadiness(env: map<string, string>, dim: nat) returns (before: bool, during: bool, after: bool)
    requires !Unset(env, "MODEL_NAME") && !Unset(env, "MODEL_DATASET") && !Unset(env, "QDRANT_COLLECTION")
    requires GetRequiredEnvInt(env, "EMBED_BATCH_SIZE").Ok?
    ensures !before && during && !after
  {
    var s := new Service();
    before := s.EnsureReady().Ok?;
    var started := s.Startup(env, dim, None);
    during := s.EnsureReady().Ok?;
    s.Shutdown();
    after := s.EnsureReady().Ok?;
  }
}
