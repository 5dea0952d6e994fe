/**
 * The Streamlit client (frontend/streamlit/app.py): the image URL of a
 * stored path, the score coercion, the mapping of backend hits to result
 * records, the metadata listing with the well-known keys first, and the
 * four-column result grid.
 */
module StreamlitApp {
  import opened Wrappers
  import opened Text
  import opened Numbers
  import opened Json
  import opened Percent
  import SearchPage

  /** Python's type name of a parsed value, as attribute errors show it. */
  function TypeName(v: Json): string
  {
    match v
    case JNull => "NoneType"
    case JBool(_) => "bool"
    case JInt(_) => "int"
    case JFloat(_, _) => "float"
    case JStr(_) => "str"
    case JArr(_) => "list"
    case JObj(_) => "dict"
  }

  /** The AttributeError of calling a method v does not have. */
  function NoAttribute(v: Json, name: string): string
  {
    "AttributeError: '" + TypeName(v) + "' object has no attribute '" + name + "'"
  }

  /** `raw_path.replace("\\", "/").split("/")[-1]`. */
  function FileName(path: string): string
  {
    Last(Split(Replace(path, '\\', '/'), {'/'}))
  }

  /** Both clients take the same last segment of a path. */
  lemma FileNameAgrees(path: string)
    ensures FileName(path) == SearchPage.FileName(path)
  {
    SplitReplace(path, '\\', '/');
    assert {'\\', '/'} == {'/', '\\'};
  }

  /**
   * `build_image_url`: "" for a falsy path or an empty last segment, the
   * quoted segment under `/images/` otherwise; a truthy path that is not a
   * string has no `replace`.
   */
  function BuildImageUrl(base: string, rawPath: Option<Json>): (r: Result<string, string>)
    ensures rawPath.None? || !PyTruthy(rawPath.value) ==> r == Ok("")
    ensures r.Err? <==> rawPath.Some? && PyTruthy(rawPath.value) && !rawPath.value.JStr?
    ensures r.Ok? && r.value != "" ==> r.value == base + "/images/" + Quote(FileName(rawPath.value.s))
    ensures rawPath.Some? && rawPath.value.JStr? && rawPath.value.s != "" ==>
      (r == Ok("") <==> FileName(rawPath.value.s) == "")
  {
    if rawPath.None? || !PyTruthy(rawPath.value) then Ok("")
    else if !rawPath.value.JStr? then Err(NoAttribute(rawPath.value, "replace"))
    else
      var f := FileName(rawPath.value.s);
      if f == "" then Ok("") else Ok(base + "/images/" + Quote(f))
  }

  /** A path ending in a separator of either kind has no image. */
  lemma TrailingSeparatorNoImage(base: string, path: string)
    requires path != [] && path[|path| - 1] in {'/', '\\'}
    ensures BuildImageUrl(base, Some(JStr(path))) == Ok("")
  {
    FileNameAgrees(path);
    LastPiece(path, {'/', '\\'});
  }

  /**
   * `coerce_score`: Python's `float(value)`, with 0.0 where `float` raises
   * a TypeError (None, lists, dicts) or a ValueError (text that is no
   * number).
   */
  function CoerceScore(value: Option<Json>): (n: Number)
    ensures value.None? ==> n == Finite(0.0)
    ensures value.Some? && value.value.JStr? ==>
      n == (match PyStringToFloat(value.value.s) case Some(x) => x case None => Finite(0.0))
    ensures value.Some? && (value.value.JNull? || value.value.JArr? || value.value.JObj?) ==> n == Finite(0.0)
  {
    if value.None? then Finite(0.0)
    else
      match value.value
      case JNull => Finite(0.0)
      case JBool(b) => Finite(if b then 1.0 else 0.0)
      case JInt(i) => Finite(i as real)
      case JFloat(m, e) => Finite(Scaled(m, e))
      case JStr(s) => PyStringToFloat(s).GetOr(Finite(0.0))
      case JArr(_) => Finite(0.0)
      case JObj(_) => Finite(0.0)
  }

  /** A score sent as the text of an integer reads back as that integer. */
  lemma CoerceIntegerText(n: int)
    ensures CoerceScore(Some(JStr(IntText(n)))) == Finite(n as real)
  {
    PyFloatOfIntText(n);
  }

  /** One mapped hit: its id, image URL, score and metadata dict (None unless a dict). */
  datatype Mapped = Mapped(id: string, imageUrl: string, score: Number, metadata: Option<seq<(string, Json)>>)

  /** `str(item.get("id", ""))`. */
  function IdOf(fields: seq<(string, Json)>): string
  {
    match Lookup(fields, "id") case None => "" case Some(v) => PyStr(v)
  }

  /** `item.get("payload") or {}`. */
  function PayloadOf(fields: seq<(string, Json)>): (p: Json)
    ensures Lookup(fields, "payload").None? || !PyTruthy(Lookup(fields, "payload").value) ==> p == JObj([])
    ensures Lookup(fields, "payload").Some? && PyTruthy(Lookup(fields, "payload").value) ==> p == Lookup(fields, "payload").value
  {
    var raw := Lookup(fields, "payload");
    if raw.Some? && PyTruthy(raw.value) then raw.value else JObj([])
  }

  /**
   * One hit as `map_results` maps it: a falsy payload counts as `{}`, a
   * missing id becomes "", a metadata value that is not a dict becomes
   * None. A hit or payload that is not a dict has no `get`.
   */
  function MapItem(base: string, item: Json): (r: Result<Mapped, string>)
    ensures !item.JObj? ==> r == Err(NoAttribute(item, "get"))
    ensures r.Ok? ==> r.value.id == IdOf(item.fields)
    ensures r.Ok? ==> r.value.score == CoerceScore(Lookup(item.fields, "score"))
  {
    if !item.JObj? then Err(NoAttribute(item, "get"))
    else MapPayload(base, IdOf(item.fields), CoerceScore(Lookup(item.fields, "score")), PayloadOf(item.fields))
  }

  /**
   * The rest of the step once the id and the score are read (neither can
   * raise): the payload's metadata if it is a dict and the image URL of
   * its path.
   */
  function MapPayload(base: string, id: string, score: Number, payload: Json): (r: Result<Mapped, string>)
    ensures !payload.JObj? ==> r == Err(NoAttribute(payload, "get"))
    ensures payload.JObj? ==> (r.Ok? <==> BuildImageUrl(base, Lookup(payload.fields, "path")).Ok?)
    ensures r.Ok? ==> r.value.id == id && r.value.score == score
    ensures r.Ok? ==> r.value.imageUrl == BuildImageUrl(base, Lookup(payload.fields, "path")).value
    ensures r.Ok? ==> (r.value.metadata.Some? <==>
      Lookup(payload.fields, "metadata").Some? && Lookup(payload.fields, "metadata").value.JObj?)
    ensures r.Ok? && r.value.metadata.Some? ==> r.value.metadata.value == Lookup(payload.fields, "metadata").value.fields
  {
    if !payload.JObj? then Err(NoAttribute(payload, "get"))
    else
      var md := Lookup(payload.fields, "metadata");
      var metadata := if md.Some? && md.value.JObj? then Some(md.value.fields) else None;
      match BuildImageUrl(base, Lookup(payload.fields, "path"))
      case Err(e) => Err(e)
      case Ok(url) => Ok(Mapped(id, url, score, metadata))
  }

  /** A hit whose payload is missing or falsy maps as if the payload were `{}`: no image and no metadata. */
  lemma MissingPayload(base: string, fields: seq<(string, Json)>)
    requires Lookup(fields, "payload").None? || !PyTruthy(Lookup(fields, "payload").value)
    ensures MapItem(base, JObj(fields)).Ok?
    ensures MapItem(base, JObj(fields)).value.imageUrl == ""
    ensures MapItem(base, JObj(fields)).value.metadata == None
  {
  }

  /** Each hit mapped on its own, in order. */
  function MapEach(base: string, items: seq<Json>): (ms: seq<Result<Mapped, string>>)
    ensures |ms| == |items|
  {
    if items == [] then [] else MapEach(base, items[..|items| - 1]) + [MapItem(base, items[|items| - 1])]
  }

  /** The i-th step is the i-th hit mapped. */
  lemma {:induction false} MapEachAt(base: string, items: seq<Json>, i: nat)
    requires i < |items|
    ensures MapEach(base, items)[i] == MapItem(base, items[i])
  {
    if i < |items| - 1 {
      MapEachAt(base, items[..|items| - 1], i);
    }
  }

  /** `map_results`: one record per hit, in order, appended in a loop; the first failing hit raises. */
  method MapResults(base: string, items: seq<Json>) returns (r: Result<seq<Mapped>, string>)
    ensures r == Collect(MapEach(base, items))
  {
    ghost var ms := MapEach(base, items);
    var mapped: seq<Mapped> := [];
    for i := 0 to |items|
      invariant Collect(ms[..i]) == Ok(mapped)
    {
      var m := MapItem(base, items[i]);
      MapEachAt(base, items, i);
      if m.Err? {
        CollectStops(ms, i);
        return Err(m.error);
      }
      assert ms[i] == m;
      CollectStep(ms, i);
      mapped := mapped + [m.value];
    }
    assert ms[..|items|] == ms;
    return Ok(mapped);
  }

  /** The mapping keeps the number and the order of the hits, each mapped by MapItem. */
  lemma MapResultsOrder(base: string, items: seq<Json>)
    requires Collect(MapEach(base, items)).Ok?
    ensures var out := Collect(MapEach(base, items)).value;
      |out| == |items| && forall i :: 0 <= i < |items| ==> MapItem(base, items[i]) == Ok(out[i])
  {
    forall i | 0 <= i < |items|
      ensures MapItem(base, items[i]) == Ok(Collect(MapEach(base, items)).value[i])
    {
      MapEachAt(base, items, i);
    }
  }

  /** A failing hit ends the mapping with its error once every hit before it mapped. */
  lemma MapResultsFirstError(base: string, items: seq<Json>, i: nat)
    requires i < |items| && MapItem(base, items[i]).Err?
    requires forall j :: 0 <= j < i ==> MapItem(base, items[j]).Ok?
    ensures Collect(MapEach(base, items)) == Err(MapItem(base, items[i]).error)
  {
    var ms := MapEach(base, items);
    forall j | 0 <= j < i
      ensures ms[..i][j].Ok?
    {
      MapEachAt(base, items, j);
    }
    MapEachAt(base, items, i);
    CollectStops(ms, i);
  }

  /** The keys `render_metadata` writes first, in this order. */
  const OrderedKeys: seq<string> := ["person_id", "clothes_id", "location_id", "frame_id"]

  /** The entry a lookup finds, as a list of zero or one entries. */
  function Found(fields: seq<(string, Json)>, k: string): (r: seq<(string, Json)>)
    ensures r == [] <==> k !in Keys(fields)
    ensures r != [] ==> r == [(k, Lookup(fields, k).value)]
  {
    match Lookup(fields, k) case Some(v) => [(k, v)] case None => []
  }

  /** The entries for ks, in the order of ks, skipping keys the dict lacks. */
  function KnownEntries(fields: seq<(string, Json)>, ks: seq<string>): (r: seq<(string, Json)>)
    ensures |r| <= |ks|
    ensures forall i :: 0 <= i < |r| ==> r[i].0 in ks && Lookup(fields, r[i].0) == Some(r[i].1)
  {
    if ks == [] then []
    else
      var front := KnownEntries(fields, ks[..|ks| - 1]);
      EntriesSnoc(fields, ks, front, Found(fields, Last(ks)));
      front + Found(fields, Last(ks))
  }

  /** Found entries for the keys before the last, then those for the last, are found entries for all keys. */
  lemma EntriesSnoc(fields: seq<(string, Json)>, ks: seq<string>, front: seq<(string, Json)>, found: seq<(string, Json)>)
    requires ks != []
    requires forall i :: 0 <= i < |front| ==> front[i].0 in ks[..|ks| - 1] && Lookup(fields, front[i].0) == Some(front[i].1)
    requires forall i :: 0 <= i < |found| ==> found[i].0 == Last(ks) && Lookup(fields, found[i].0) == Some(found[i].1)
    ensures forall i :: 0 <= i < |front + found| ==>
      (front + found)[i].0 in ks && Lookup(fields, (front + found)[i].0) == Some((front + found)[i].1)
  {
    forall i | 0 <= i < |front + found|
      ensures (front + found)[i].0 in ks && Lookup(fields, (front + found)[i].0) == Some((front + found)[i].1)
    {
      if i < |front| {
        assert (front + found)[i] == front[i];
      } else {
        assert (front + found)[i] == found[i - |front|];
      }
    }
  }

  /** The entries whose key is not in ks, in dict order. */
  function OtherEntries(fields: seq<(string, Json)>, ks: seq<string>): (r: seq<(string, Json)>)
    ensures |r| <= |fields|
    ensures forall i :: 0 <= i < |r| ==> r[i].0 !in ks && r[i] in fields
  {
    if fields == [] then []
    else
      var e := Last(fields);
      OtherEntries(fields[..|fields| - 1], ks) + (if e.0 in ks then [] else [e])
  }

  /** The entries in the order `render_metadata` writes them. */
  function MetadataEntries(fields: seq<(string, Json)>): seq<(string, Json)>
  {
    KnownEntries(fields, OrderedKeys) + OtherEntries(fields, OrderedKeys)
  }

  /** `f"{key}: {value}"`. */
  function Line(e: (string, Json)): string
  {
    e.0 + ": " + PyStr(e.1)
  }

  function Lines(es: seq<(string, Json)>): (r: seq<string>)
    ensures |r| == |es|
  {
    if es == [] then [] else Lines(es[..|es| - 1]) + [Line(Last(es))]
  }

  /** `render_metadata`: the lines it writes, the known keys first, then the rest. */
  method RenderMetadata(metadata: seq<(string, Json)>) returns (lines: seq<string>)
    ensures lines == Lines(MetadataEntries(metadata))
  {
    lines := WriteKnownLines(metadata);
    lines := WriteOtherLines(metadata, KnownEntries(metadata, OrderedKeys), lines);
  }

  /** The first loop of `render_metadata`: a line for each ordered key the dict holds. */
  method WriteKnownLines(metadata: seq<(string, Json)>) returns (lines: seq<string>)
    ensures lines == Lines(KnownEntries(metadata, OrderedKeys))
  {
    lines := [];
    for j := 0 to |OrderedKeys|
      invariant lines == Lines(KnownEntries(metadata, OrderedKeys[..j]))
    {
      var key := OrderedKeys[j];
      KnownLinesStep(metadata, OrderedKeys, j);
      var v := Lookup(metadata, key);
      if v.Some? {
        lines := lines + [Line((key, v.value))];
      }
    }
    assert OrderedKeys[..|OrderedKeys|] == OrderedKeys;
  }

  /**
   * The second loop of `render_metadata`: after the lines of the entries
   * already written, a line for each other entry in dict order.
   */
  method WriteOtherLines(metadata: seq<(string, Json)>, ghost written: seq<(string, Json)>, lines0: seq<string>) returns (lines: seq<string>)
    requires lines0 == Lines(written)
    ensures lines == Lines(written + OtherEntries(metadata, OrderedKeys))
  {
    lines := lines0;
    assert written + OtherEntries(metadata[..0], OrderedKeys) == written;
    for i := 0 to |metadata|
      invariant lines == Lines(written + OtherEntries(metadata[..i], OrderedKeys))
    {
      var e := metadata[i];
      OtherLinesStep(metadata, OrderedKeys, written, i);
      if e.0 !in OrderedKeys {
        lines := lines + [Line(e)];
      }
    }
    assert metadata[..|metadata|] == metadata;
  }

  /** The first loop's step: key j adds its line if the dict has the key. */
  lemma KnownLinesStep(fields: seq<(string, Json)>, ks: seq<string>, j: nat)
    requires j < |ks|
    ensures Lines(KnownEntries(fields, ks[..j + 1])) ==
      Lines(KnownEntries(fields, ks[..j])) + match Lookup(fields, ks[j]) case Some(v) => [Line((ks[j], v))] case None => []
  {
    KnownStep(fields, ks, j);
    LinesAppend(KnownEntries(fields, ks[..j]), Found(fields, ks[j]));
  }

  /** The second loop's step: entry i adds its line unless its key is excluded. */
  lemma OtherLinesStep(fields: seq<(string, Json)>, ks: seq<string>, known: seq<(string, Json)>, i: nat)
    requires i < |fields|
    ensures Lines(known + OtherEntries(fields[..i + 1], ks)) ==
      Lines(known + OtherEntries(fields[..i], ks)) + if fields[i].0 in ks then [] else [Line(fields[i])]
  {
    var before := known + OtherEntries(fields[..i], ks);
    OthersStep(fields, ks, i);
    if fields[i].0 in ks {
      assert known + OtherEntries(fields[..i + 1], ks) == before;
    } else {
      assert known + OtherEntries(fields[..i + 1], ks) == before + [fields[i]];
      LinesAppend(before, [fields[i]]);
    }
  }

  /** The lines of two runs of entries, one after the other. */
  lemma {:induction false} LinesAppend(a: seq<(string, Json)>, b: seq<(string, Json)>)
    ensures Lines(a + b) == Lines(a) + Lines(b)
  {
    if b == [] {
      assert a + b == a;
    } else {
      LinesAppend(a, b[..|b| - 1]);
      assert (a + b)[..|a + b| - 1] == a + b[..|b| - 1];
    }
  }

  /** Line i shows entry i. */
  lemma {:induction false} LinesAt(es: seq<(string, Json)>, i: nat)
    requires i < |es|
    ensures Lines(es)[i] == Line(es[i])
  {
    if i < |es| - 1 {
      LinesAt(es[..|es| - 1], i);
    }
  }

  /** One more key adds its entry, if the dict has it. */
  lemma KnownStep(fields: seq<(string, Json)>, ks: seq<string>, j: nat)
    requires j < |ks|
    ensures KnownEntries(fields, ks[..j + 1]) == KnownEntries(fields, ks[..j]) + Found(fields, ks[j])
  {
    assert ks[..j + 1][..j] == ks[..j];
  }

  /** One more entry of the dict is kept unless its key is excluded. */
  lemma OthersStep(fields: seq<(string, Json)>, ks: seq<string>, i: nat)
    requires i < |fields|
    ensures OtherEntries(fields[..i + 1], ks) == OtherEntries(fields[..i], ks) + if fields[i].0 in ks then [] else [fields[i]]
  {
    assert fields[..i + 1][..i] == fields[..i];
  }

  /** Looking a key up after appending an entry. */
  lemma {:induction false} LookupSnoc(fs: seq<(string, Json)>, e: (string, Json), k: string)
    ensures Lookup(fs + [e], k) ==
      if Lookup(fs, k).Some? then Lookup(fs, k) else if e.0 == k then Some(e.1) else None
  {
    if fs != [] {
      LookupSnoc(fs[1..], e, k);
      assert (fs + [e])[1..] == fs[1..] + [e];
    }
  }

  lemma DistinctPrefix(fields: seq<(string, Json)>)
    requires fields != [] && DistinctKeys(fields)
    ensures DistinctKeys(fields[..|fields| - 1])
    ensures Last(fields).0 !in Keys(fields[..|fields| - 1])
  {
    var fs := fields[..|fields| - 1];
    assert forall i :: 0 <= i < |fs| ==> fs[i] == fields[i];
  }

  /** Taking key k out of the excluded ones moves k's entry, if any, out of the rest. */
  lemma {:induction false} OthersSplit(fields: seq<(string, Json)>, ks: seq<string>, k: string)
    requires DistinctKeys(fields) && k !in ks
    ensures multiset(OtherEntries(fields, ks)) == multiset(OtherEntries(fields, ks + [k])) + multiset(Found(fields, k))
  {
    if fields != [] {
      var fs := fields[..|fields| - 1];
      var e := Last(fields);
      DistinctPrefix(fields);
      OthersSplit(fs, ks, k);
      var a := OtherEntries(fs, ks);
      var b := OtherEntries(fs, ks + [k]);
      var inKs := e.0 in ks;
      var inKsK := e.0 in ks + [k];
      assert inKsK <==> inKs || e.0 == k;
      assert OtherEntries(fields, ks) == a + (if inKs then [] else [e]);
      assert OtherEntries(fields, ks + [k]) == b + (if inKsK then [] else [e]);
      FoundLast(fields, k);
      MovedEntry(a, b, Found(fs, k), e, inKs, e.0 == k);
    }
  }

  /**
   * The multiset step of OthersSplit: appending e to both sides, or moving
   * it from the excluded ones to the found one.
   */
  lemma MovedEntry<T>(a: seq<T>, b: seq<T>, x: seq<T>, e: T, inKs: bool, isK: bool)
    requires multiset(a) == multiset(b) + multiset(x)
    requires isK ==> x == [] && !inKs
    ensures multiset(a + (if inKs then [] else [e])) ==
      multiset(b + (if inKs || isK then [] else [e])) + multiset(if isK then [e] else x)
  {
    assert multiset(a + [e]) == multiset(a) + multiset{e};
    assert multiset(b + [e]) == multiset(b) + multiset{e};
    assert a + [] == a && b + [] == b;
  }

  /** The entry found for k in a dict whose last key is new: that entry itself when it has key k, which the prefix then lacks. */
  lemma FoundLast(fields: seq<(string, Json)>, k: string)
    requires fields != [] && Last(fields).0 !in Keys(fields[..|fields| - 1])
    ensures Found(fields, k) == if Last(fields).0 == k then [Last(fields)] else Found(fields[..|fields| - 1], k)
    ensures Last(fields).0 == k ==> Found(fields[..|fields| - 1], k) == []
  {
    var fs := fields[..|fields| - 1];
    assert fields == fs + [Last(fields)];
    LookupSnoc(fs, Last(fields), k);
  }

  /** Excluding no key keeps every entry. */
  lemma {:induction false} OthersOfNone(fields: seq<(string, Json)>)
    ensures OtherEntries(fields, []) == fields
  {
    if fields != [] {
      OthersOfNone(fields[..|fields| - 1]);
    }
  }

  /** The known entries and the rest together hold each entry of the dict exactly once. */
  lemma {:induction false} KnownAndOthers(fields: seq<(string, Json)>, ks: seq<string>)
    requires DistinctKeys(fields)
    requires forall i, j :: 0 <= i < j < |ks| ==> ks[i] != ks[j]
    ensures multiset(KnownEntries(fields, ks)) + multiset(OtherEntries(fields, ks)) == multiset(fields)
  {
    if ks == [] {
      OthersOfNone(fields);
    } else {
      var front := ks[..|ks| - 1];
      var k := Last(ks);
      assert ks == front + [k];
      assert k !in front;
      KnownAndOthers(fields, front);
      OthersSplit(fields, front, k);
      assert KnownEntries(fields, ks) == KnownEntries(fields, front) + Found(fields, k);
    }
  }

  /** `render_metadata` writes every entry of the dict exactly once. */
  lemma MetadataEntriesPermutation(fields: seq<(string, Json)>)
    requires DistinctKeys(fields)
    ensures multiset(MetadataEntries(fields)) == multiset(fields)
  {
    OrderedKeysDistinct();
    KnownAndOthers(fields, OrderedKeys);
    var known := KnownEntries(fields, OrderedKeys);
    var others := OtherEntries(fields, OrderedKeys);
    assert MetadataEntries(fields) == known + others;
    assert multiset(known + others) == multiset(known) + multiset(others);
  }

  /** The four well-known keys are different from each other. */
  lemma OrderedKeysDistinct()
    ensures forall i, j :: 0 <= i < j < |OrderedKeys| ==> OrderedKeys[i] != OrderedKeys[j]
  {
    forall i, j | 0 <= i < j < |OrderedKeys|
      ensures OrderedKeys[i] != OrderedKeys[j]
    {
      assert OrderedKeys[i][0] != OrderedKeys[j][0];
    }
  }

  /**
   * The well-known keys come first, in the fixed order, and exactly those
   * the dict has; the rest follow in dict order.
   */
  lemma MetadataEntriesOrder(fields: seq<(string, Json)>)
    ensures var known := KnownEntries(fields, OrderedKeys);
      MetadataEntries(fields) == known + OtherEntries(fields, OrderedKeys) &&
      (forall i :: 0 <= i < |known| ==> known[i].0 in OrderedKeys) &&
      Keys(known) == KeysPresent(fields, OrderedKeys)
  {
    KnownKeys(fields, OrderedKeys);
  }

  /** The keys of ks the dict has, in the order of ks. */
  function KeysPresent(fields: seq<(string, Json)>, ks: seq<string>): seq<string>
  {
    if ks == [] then []
    else KeysPresent(fields, ks[..|ks| - 1]) + (if Last(ks) in Keys(fields) then [Last(ks)] else [])
  }

  lemma {:induction false} KnownKeys(fields: seq<(string, Json)>, ks: seq<string>)
    ensures Keys(KnownEntries(fields, ks)) == KeysPresent(fields, ks)
  {
    if ks != [] {
      KnownKeys(fields, ks[..|ks| - 1]);
      KeysAppend(KnownEntries(fields, ks[..|ks| - 1]), Found(fields, Last(ks)));
    }
  }

  lemma {:induction false} KeysAppend(a: seq<(string, Json)>, b: seq<(string, Json)>)
    ensures Keys(a + b) == Keys(a) + Keys(b)
  {
    var l, r := Keys(a + b), Keys(a) + Keys(b);
    assert |l| == |r|;
    forall i | 0 <= i < |l| ensures l[i] == r[i] {
      if i < |a| {
        assert (a + b)[i] == a[i];
      } else {
        assert (a + b)[i] == b[i - |a|];
      }
    }
  }

  /** A card of the grid: the image if there is one, the score line, and the metadata lines if there is metadata. */
  datatype Card = Card(image: Option<string>, scoreLine: string, metadataLines: Option<seq<string>>)

  /** What `render_results` shows. */
  datatype View = NoResults | Grid(header: string, columns: seq<seq<Card>>)

  /** The score as a percentage: `x * 100`. */
  function Percent100(x: Number): (r: Number)
    ensures x.Finite? ==> r == Finite(x.r * 100.0)
    ensures !x.Finite? ==> r == x
  {
    if x.Finite? then Finite(x.r * 100.0) else x
  }

  /** `f"Score: {score * 100:.0f}%"`. */
  function ScoreLine(score: Number): string
  {
    "Score: " + PyFixed0(Percent100(score)) + "%"
  }

  /** A score of k hundredths shows as k percent. */
  lemma ScoreLinePercent(k: nat)
    ensures ScoreLine(Finite(k as real / 100.0)) == "Score: " + NatText(k) + "%"
  {
    assert (k as real / 100.0) * 100.0 == k as real;
    assert (k as real).Floor == k;
    assert RoundHalfEven(k as real) == k;
  }

  /**
   * A non-negative score shows as a whole percentage within half a point of
   * the score times a hundred.
   */
  lemma ScoreLineRounds(x: real)
    requires x >= 0.0
    ensures exists k: nat :: ScoreLine(Finite(x)) == "Score: " + NatText(k) + "%" && x * 100.0 - 0.5 <= k as real <= x * 100.0 + 0.5
  {
    var k := RoundHalfEven(x * 100.0);
    assert ScoreLine(Finite(x)) == "Score: " + NatText(k) + "%";
  }

  /** The card of a mapped hit. */
  function CardOf(m: Mapped): Card
  {
    Card(
      if m.imageUrl != "" then Some(m.imageUrl) else None,
      ScoreLine(m.score),
      if m.metadata.Some? && m.metadata.value != [] then Some(Lines(MetadataEntries(m.metadata.value))) else None)
  }

  /** One card, writing its metadata lines with `render_metadata`. */
  method RenderCard(m: Mapped) returns (c: Card)
    ensures c == CardOf(m)
  {
    var lines: Option<seq<string>> := None;
    if m.metadata.Some? && m.metadata.value != [] {
      var ls := RenderMetadata(m.metadata.value);
      lines := Some(ls);
    }
    var image := if m.imageUrl != "" then Some(m.imageUrl) else None;
    c := Card(image, ScoreLine(m.score), lines);
  }

  /** The elements whose index leaves remainder col by 4, in order. */
  function Deal<T>(xs: seq<T>, col: nat): (r: seq<T>)
    requires col < 4
    ensures |r| == (|xs| + 3 - col) / 4
    ensures forall k :: 0 <= k < |r| ==> r[k] == xs[4 * k + col]
  {
    if xs == [] then []
    else
      var front := xs[..|xs| - 1];
      DealSnoc(xs, col, Deal(front, col));
      Deal(front, col) + if (|xs| - 1) % 4 == col then [Last(xs)] else []
  }

  /** Dealing one more element keeps the column's length and placement right. */
  lemma DealSnoc<T>(xs: seq<T>, col: nat, d: seq<T>)
    requires col < 4 && xs != []
    requires |d| == (|xs| - 1 + 3 - col) / 4
    requires forall k :: 0 <= k < |d| ==> d[k] == xs[..|xs| - 1][4 * k + col]
    ensures var r := d + if (|xs| - 1) % 4 == col then [Last(xs)] else [];
      |r| == (|xs| + 3 - col) / 4 && forall k :: 0 <= k < |r| ==> r[k] == xs[4 * k + col]
  {
    var n := |xs| - 1;
    var r := d + if n % 4 == col then [Last(xs)] else [];
    assert n == 4 * (n / 4) + n % 4;
    if n % 4 == col {
      assert |d| == n / 4;
      assert (n + 1 + 3 - col) / 4 == n / 4 + 1;
      assert r[|d|] == xs[4 * |d| + col];
    } else {
      assert (n + 1 + 3 - col) / 4 == (n + 3 - col) / 4;
    }
    forall k | 0 <= k < |d| ensures r[k] == xs[4 * k + col] {
      assert r[k] == d[k];
    }
  }

  /** Result idx lands in column idx % 4, at row idx / 4. */
  lemma DealPlacement<T>(xs: seq<T>, idx: nat)
    requires idx < |xs|
    ensures idx / 4 < |Deal(xs, idx % 4)| && Deal(xs, idx % 4)[idx / 4] == xs[idx]
  {
    assert 4 * (idx / 4) + idx % 4 == idx;
  }

  /** Dealing one more element appends it to its own column and leaves the others alone. */
  lemma DealStep<T>(xs: seq<T>, i: nat, col: nat)
    requires i < |xs| && col < 4
    ensures Deal(xs[..i + 1], col) == Deal(xs[..i], col) + if i % 4 == col then [xs[i]] else []
  {
    assert xs[..i + 1][..i] == xs[..i];
  }

  function Cards(results: seq<Mapped>): (cs: seq<Card>)
    ensures |cs| == |results| && forall i :: 0 <= i < |results| ==> cs[i] == CardOf(results[i])
  {
    seq(|results|, i requires 0 <= i < |results| => CardOf(results[i]))
  }

  /** `render_results`: "No results." for none, otherwise the count and the cards dealt to four columns. */
  method RenderResults(results: seq<Mapped>) returns (view: View)
    ensures results == [] ==> view == NoResults
    ensures results != [] ==> view == Grid("Results (" + IntText(|results|) + ")",
      [Deal(Cards(results), 0), Deal(Cards(results), 1), Deal(Cards(results), 2), Deal(Cards(results), 3)])
  {
    if results == [] {
      return NoResults;
    }
    var columns := DealCards(results);
    view := Grid("Results (" + IntText(|results|) + ")", columns);
  }

  /** The loop of `render_results`: card idx goes to column `idx % 4`. */
  method DealCards(results: seq<Mapped>) returns (columns: seq<seq<Card>>)
    ensures columns == [Deal(Cards(results), 0), Deal(Cards(results), 1), Deal(Cards(results), 2), Deal(Cards(results), 3)]
  {
    ghost var cards := Cards(results);
    columns := [[], [], [], []];
    for idx := 0 to |results|
      invariant DealtUpTo(columns, cards, idx)
    {
      var card := RenderCard(results[idx]);
      assert card == cards[idx];
      DealPlace(columns, cards, idx);
      columns := columns[idx % 4 := columns[idx % 4] + [card]];
    }
    DealtAll(columns, cards);
  }

  /** The four columns hold the first n elements dealt. */
  ghost predicate DealtUpTo<T>(columns: seq<seq<T>>, xs: seq<T>, n: nat)
    requires n <= |xs|
  {
    |columns| == 4 && forall c :: 0 <= c < 4 ==> columns[c] == Deal(xs[..n], c)
  }

  /** Putting element idx at the end of column `idx % 4` deals one more. */
  lemma DealPlace<T>(columns: seq<seq<T>>, xs: seq<T>, idx: nat)
    requires idx < |xs| && DealtUpTo(columns, xs, idx)
    ensures DealtUpTo(columns[idx % 4 := columns[idx % 4] + [xs[idx]]], xs, idx + 1)
  {
    var after := columns[idx % 4 := columns[idx % 4] + [xs[idx]]];
    forall c | 0 <= c < 4
      ensures after[c] == Deal(xs[..idx + 1], c)
    {
      DealStep(xs, idx, c);
      if c != idx % 4 {
        assert Deal(xs[..idx + 1], c) == Deal(xs[..idx], c) + [];
      }
    }
  }

  /** Once every element is dealt, the columns are the four deals. */
  lemma DealtAll<T>(columns: seq<seq<T>>, xs: seq<T>)
    requires DealtUpTo(columns, xs, |xs|)
    ensures columns == [Deal(xs, 0), Deal(xs, 1), Deal(xs, 2), Deal(xs, 3)]
  {
    assert xs[..|xs|] == xs;
    assert columns[0] == Deal(xs, 0) && columns[1] == Deal(xs, 1);
    assert columns[2] == Deal(xs, 2) && columns[3] == Deal(xs, 3);
    FourElements(columns);
  }

  /** A sequence of four is the display of its elements. */
  lemma FourElements<T>(s: seq<T>)
    requires |s| == 4
    ensures s == [s[0], s[1], s[2], s[3]]
  {
  }
}
