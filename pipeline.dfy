/**
 * The components together: a file of the dataset becomes a sample, the
 * indexer stores the sample's path and metadata as the point's payload,
 * the API formats the hit, and each client turns the hit into what it
 * shows. The lemmas follow one hit through that chain.
 */
module Pipeline {
  import opened Wrappers
  import opened Text
  import opened Numbers
  import opened Json
  import opened Percent
  import Dataset
  import BackendApi
  import StreamlitApp
  import SearchPage

  /** The payload the indexer stores with a sample: its path and its metadata dict. */
  function IndexedPayload(s: Dataset.SampleInfo): seq<(string, Json)>
  {
    [("path", JStr(s.path)), ("metadata", JObj(s.metadata))]
  }

  /** A file name the dataset reader and both clients can take apart: ids, then one extension, no path separator. */
  predicate SampleName(ids: seq<string>, ext: string)
  {
    |ids| >= 4 && ext != [] && '.' !in ext && NoneIn(ext, {'/', '\\'}) &&
    forall i :: 0 <= i < |ids| ==> Dataset.IdPart(ids[i]) && NoneIn(ids[i], {'/', '\\'})
  }

  /** The entry's name is free of path separators. */
  lemma {:induction false} JoinedNameHasNoSeparator(ids: seq<string>, ext: string)
    requires SampleName(ids, ext)
    ensures NoneIn(Join(ids, "-") + "." + ext, {'/', '\\'})
  {
    JoinNoSeparator(ids);
  }

  lemma {:induction false} JoinNoSeparator(parts: seq<string>)
    requires forall i :: 0 <= i < |parts| ==> NoneIn(parts[i], {'/', '\\'})
    ensures NoneIn(Join(parts, "-"), {'/', '\\'})
  {
    if |parts| > 1 {
      JoinNoSeparator(parts[1..]);
      assert Join(parts, "-") == parts[0] + "-" + Join(parts[1..], "-");
    }
  }

  /** Both clients take the entry's own name as the last piece of the sample path. */
  lemma FileNameOfSamplePath(dataPath: string, entry: string)
    requires NoneIn(entry, {'/', '\\'})
    ensures StreamlitApp.FileName(Dataset.SamplePath(dataPath, entry)) == entry
    ensures SearchPage.FileName(Dataset.SamplePath(dataPath, entry)) == entry
  {
    var path := Dataset.SamplePath(dataPath, entry);
    assert path == (dataPath + "/train") + ['/'] + entry;
    LastPieceAfter(dataPath + "/train", '/', entry, {'/', '\\'});
    StreamlitApp.FileNameAgrees(path);
  }

  /** The sample of a well-formed file name, with the ids as its metadata. */
  lemma SampleOfEntry(dataPath: string, ids: seq<string>, ext: string) returns (sample: Dataset.SampleInfo)
    requires SampleName(ids, ext)
    ensures Dataset.SampleOf(dataPath, Join(ids, "-") + "." + ext) == Ok(sample)
    ensures sample.path == Dataset.SamplePath(dataPath, Join(ids, "-") + "." + ext)
    ensures sample.metadata == Dataset.IdMetadata(ids[0], ids[1], ids[2], ids[3])
  {
    Dataset.SampleOfName(dataPath, ids, ext);
    sample := Dataset.SampleOf(dataPath, Join(ids, "-") + "." + ext).value;
  }

  /** The first member with a key is the one a lookup finds. */
  lemma LookupFirst(k: string, v: Json, rest: seq<(string, Json)>)
    ensures Lookup([(k, v)] + rest, k) == Some(v)
  {
  }

  /** A lookup passes over a member with another key. */
  lemma LookupSkip(k: string, v: Json, rest: seq<(string, Json)>, key: string)
    requires k != key
    ensures Lookup([(k, v)] + rest, key) == Lookup(rest, key)
  {
    assert ([(k, v)] + rest)[1..] == rest;
  }

  /** The members of a hit record, each found under its key. */
  lemma HitLookups(id: string, score: Json, payload: seq<(string, Json)>)
    ensures var f := BackendApi.HitJson(BackendApi.FormattedHit(id, 0.0, payload), score).fields;
      Lookup(f, "id") == Some(JStr(id)) && Lookup(f, "score") == Some(score) &&
      Lookup(f, "payload") == Some(JObj(payload))
  {
    var c := [("payload", JObj(payload))];
    var b := [("score", score)] + c;
    assert BackendApi.HitJson(BackendApi.FormattedHit(id, 0.0, payload), score).fields == [("id", JStr(id))] + b;
    LookupFirst("id", JStr(id), b);
    LookupSkip("id", JStr(id), b, "score");
    LookupFirst("score", score, c);
    LookupSkip("id", JStr(id), b, "payload");
    LookupSkip("score", score, c, "payload");
    LookupFirst("payload", JObj(payload), []);
  }

  /** The members of an indexed payload, each found under its key. */
  lemma PayloadLookups(s: Dataset.SampleInfo)
    ensures Lookup(IndexedPayload(s), "path") == Some(JStr(s.path))
    ensures Lookup(IndexedPayload(s), "metadata") == Some(JObj(s.metadata))
  {
    var c := [("metadata", JObj(s.metadata))];
    assert IndexedPayload(s) == [("path", JStr(s.path))] + c;
    LookupFirst("path", JStr(s.path), c);
    LookupSkip("path", JStr(s.path), c, "metadata");
    LookupFirst("metadata", JObj(s.metadata), []);
  }

  /** The ids of a sample's metadata, each found under its key. */
  lemma IdLookups(p: string, l: string, c: string, f: string)
    ensures var md := Dataset.IdMetadata(p, l, c, f);
      Lookup(md, "person_id") == Some(JStr(p)) && Lookup(md, "location_id") == Some(JStr(l)) &&
      Lookup(md, "clothes_id") == Some(JStr(c)) && Lookup(md, "frame_id") == Some(JStr(f))
  {
    var d := [("frame_id", JStr(f))];
    var cd := [("clothes_id", JStr(c))] + d;
    var lcd := [("location_id", JStr(l))] + cd;
    assert Dataset.IdMetadata(p, l, c, f) == [("person_id", JStr(p))] + lcd;
    LookupFirst("person_id", JStr(p), lcd);
    LookupFirst("location_id", JStr(l), cd);
    LookupFirst("clothes_id", JStr(c), d);
    LookupFirst("frame_id", JStr(f), []);
    LookupSkip("person_id", JStr(p), lcd, "location_id");
    LookupSkip("person_id", JStr(p), lcd, "clothes_id");
    LookupSkip("location_id", JStr(l), cd, "clothes_id");
    LookupSkip("person_id", JStr(p), lcd, "frame_id");
    LookupSkip("location_id", JStr(l), cd, "frame_id");
    LookupSkip("clothes_id", JStr(c), d, "frame_id");
  }

  /** The record the API sends for a point, with a JSON float as its score. */
  function SampleHit(uuid: string, m: int, e: int, s: Dataset.SampleInfo): Json
  {
    BackendApi.HitJson(BackendApi.FormatHit(BackendApi.ScoredPoint(BackendApi.UuidId(uuid), Scaled(m, e), Some(IndexedPayload(s)))), JFloat(m, e))
  }

  /** The sample a well-formed file name gives. */
  function NamedSample(dataPath: string, ids: seq<string>, ext: string): Dataset.SampleInfo
    requires |ids| >= 4
  {
    Dataset.SampleInfo(Dataset.SamplePath(dataPath, Join(ids, "-") + "." + ext), Dataset.IdMetadata(ids[0], ids[1], ids[2], ids[3]))
  }

  /** The hit's record, each member found under its key. */
  lemma SampleHitLookups(uuid: string, m: int, e: int, s: Dataset.SampleInfo)
    ensures SampleSchemaHolds(SampleHit(uuid, m, e, s), uuid, JFloat(m, e), IndexedPayload(s))
  {
    HitLookups(uuid, JFloat(m, e), IndexedPayload(s));
  }

  predicate SampleSchemaHolds(hit: Json, uuid: string, score: Json, payload: seq<(string, Json)>)
  {
    hit.JObj? && Lookup(hit.fields, "id") == Some(JStr(uuid)) && Lookup(hit.fields, "score") == Some(score) &&
    Lookup(hit.fields, "payload") == Some(JObj(payload))
  }

  /** A path whose last piece is a non-empty name shows that name, quoted, under `/images/`. */
  lemma StreamlitImage(base: string, path: string, entry: string)
    requires StreamlitApp.FileName(path) == entry && entry != []
    ensures StreamlitApp.BuildImageUrl(base, Some(JStr(path))) == Ok(base + "/images/" + Quote(entry))
  {
    EmptyPathName();
  }

  /** The empty path has the empty name. */
  lemma EmptyPathName()
    ensures StreamlitApp.FileName("") == ""
  {
    Text.SplitNoSep("", {'/'});
    assert Replace("", '\\', '/') == "";
  }

  /**
   * The Streamlit client shows the payload of a dataset sample as the
   * quoted file name under `/images/`, and its metadata dict as the ids.
   */
  lemma StreamlitShowsSample(base: string, dataPath: string, ids: seq<string>, ext: string)
    requires SampleName(ids, ext)
    ensures var payload := IndexedPayload(NamedSample(dataPath, ids, ext));
      StreamlitApp.BuildImageUrl(base, Lookup(payload, "path")) == Ok(base + "/images/" + Quote(Join(ids, "-") + "." + ext)) &&
      Lookup(payload, "metadata") == Some(JObj(Dataset.IdMetadata(ids[0], ids[1], ids[2], ids[3])))
  {
    var entry := Join(ids, "-") + "." + ext;
    var s := NamedSample(dataPath, ids, ext);
    JoinedNameHasNoSeparator(ids, ext);
    FileNameOfSamplePath(dataPath, entry);
    assert entry != [] by {
      assert entry[|entry| - 1] == ext[|ext| - 1];
    }
    PayloadLookups(s);
    StreamlitImage(base, s.path, entry);
  }

  /** Streamlit maps a hit record with a non-empty payload whose image URL and metadata dict are known. */
  lemma StreamlitRecord(base: string, hit: Json, uuid: string, m: int, e: int, payload: seq<(string, Json)>,
                        url: string, md: seq<(string, Json)>)
    requires SampleSchemaHolds(hit, uuid, JFloat(m, e), payload) && payload != []
    requires StreamlitApp.BuildImageUrl(base, Lookup(payload, "path")) == Ok(url)
    requires Lookup(payload, "metadata") == Some(JObj(md))
    ensures StreamlitApp.MapItem(base, hit) == Ok(StreamlitApp.Mapped(uuid, url, Finite(Scaled(m, e)), Some(md)))
  {
    StreamlitId(hit.fields, uuid);
    StreamlitPayload(hit.fields, payload);
    StreamlitScore(m, e);
    StreamlitPayloadMapped(base, uuid, Finite(Scaled(m, e)), payload, url, md);
  }

  /** A string id is the entry's id. */
  lemma StreamlitId(fields: seq<(string, Json)>, uuid: string)
    requires Lookup(fields, "id") == Some(JStr(uuid))
    ensures StreamlitApp.IdOf(fields) == uuid
  {
  }

  /** A non-empty payload dict is the payload the step reads. */
  lemma StreamlitPayload(fields: seq<(string, Json)>, payload: seq<(string, Json)>)
    requires Lookup(fields, "payload") == Some(JObj(payload)) && payload != []
    ensures StreamlitApp.PayloadOf(fields) == JObj(payload)
  {
  }

  /** A float score is the entry's score. */
  lemma StreamlitScore(m: int, e: int)
    ensures StreamlitApp.CoerceScore(Some(JFloat(m, e))) == Finite(Scaled(m, e))
  {
  }

  /** A payload dict with an image URL and a metadata dict gives the entry of both. */
  lemma StreamlitPayloadMapped(base: string, id: string, score: Number, payload: seq<(string, Json)>,
                               url: string, md: seq<(string, Json)>)
    requires StreamlitApp.BuildImageUrl(base, Lookup(payload, "path")) == Ok(url)
    requires Lookup(payload, "metadata") == Some(JObj(md))
    ensures StreamlitApp.MapPayload(base, id, score, JObj(payload)) == Ok(StreamlitApp.Mapped(id, url, score, Some(md)))
  {
    var r := StreamlitApp.MapPayload(base, id, score, JObj(payload));
    assert r.Ok? && r.value.metadata.Some?;
  }

  /**
   * The Streamlit client maps the hit of a dataset sample to an entry with
   * the point's id, the quoted file name under `/images/`, the score, and
   * the sample's metadata dict.
   */
  lemma StreamlitMapsSample(base: string, dataPath: string, ids: seq<string>, ext: string, uuid: string, m: int, e: int)
    requires SampleName(ids, ext)
    ensures var s := NamedSample(dataPath, ids, ext);
      StreamlitApp.MapItem(base, SampleHit(uuid, m, e, s)) ==
        Ok(StreamlitApp.Mapped(uuid, base + "/images/" + Quote(Join(ids, "-") + "." + ext), Finite(Scaled(m, e)), Some(s.metadata)))
  {
    var s := NamedSample(dataPath, ids, ext);
    SampleHitLookups(uuid, m, e, s);
    StreamlitShowsSample(base, dataPath, ids, ext);
    StreamlitRecord(base, SampleHit(uuid, m, e, s), uuid, m, e, IndexedPayload(s),
      base + "/images/" + Quote(Join(ids, "-") + "." + ext), s.metadata);
  }

  /** Streamlit lists a sample's ids as person, clothes, location, frame. */
  lemma StreamlitListsIds(p: string, l: string, c: string, f: string)
    ensures StreamlitApp.Lines(StreamlitApp.MetadataEntries(Dataset.IdMetadata(p, l, c, f))) ==
      ["person_id: " + p, "clothes_id: " + c, "location_id: " + l, "frame_id: " + f]
  {
    MetadataOfIds(p, l, c, f);
    StringLines("person_id", p, "clothes_id", c, "location_id", l, "frame_id", f);
    IdLabels();
  }

  /** The entries Streamlit writes for a sample's metadata. */
  lemma MetadataOfIds(p: string, l: string, c: string, f: string)
    ensures StreamlitApp.MetadataEntries(Dataset.IdMetadata(p, l, c, f)) ==
      [("person_id", JStr(p)), ("clothes_id", JStr(c)), ("location_id", JStr(l)), ("frame_id", JStr(f))]
  {
    KnownIds(p, l, c, f);
    OthersOfIds(p, l, c, f);
  }

  /** Each id's key followed by the separator of its line. */
  lemma IdLabels()
    ensures "person_id" + ": " == "person_id: " && "clothes_id" + ": " == "clothes_id: "
    ensures "location_id" + ": " == "location_id: " && "frame_id" + ": " == "frame_id: "
  {
  }

  /** The lines of four string-valued entries. */
  lemma StringLines(k0: string, v0: string, k1: string, v1: string, k2: string, v2: string, k3: string, v3: string)
    ensures StreamlitApp.Lines([(k0, JStr(v0)), (k1, JStr(v1)), (k2, JStr(v2)), (k3, JStr(v3))]) ==
      [k0 + ": " + v0, k1 + ": " + v1, k2 + ": " + v2, k3 + ": " + v3]
  {
    var es := [(k0, JStr(v0)), (k1, JStr(v1)), (k2, JStr(v2)), (k3, JStr(v3))];
    StreamlitApp.LinesAt(es, 0);
    StreamlitApp.LinesAt(es, 1);
    StreamlitApp.LinesAt(es, 2);
    StreamlitApp.LinesAt(es, 3);
  }

  /** The ids come out in the order person, clothes, location, frame. */
  lemma KnownIds(p: string, l: string, c: string, f: string)
    ensures StreamlitApp.KnownEntries(Dataset.IdMetadata(p, l, c, f), StreamlitApp.OrderedKeys) ==
      [("person_id", JStr(p)), ("clothes_id", JStr(c)), ("location_id", JStr(l)), ("frame_id", JStr(f))]
  {
    var md := Dataset.IdMetadata(p, l, c, f);
    var ks := StreamlitApp.OrderedKeys;
    IdLookups(p, l, c, f);
    KnownOfFour(md, ks, JStr(p), JStr(c), JStr(l), JStr(f));
  }

  /** When the dict holds each of four keys, the known entries are those four, in the keys' order. */
  lemma KnownOfFour(fields: seq<(string, Json)>, ks: seq<string>, v0: Json, v1: Json, v2: Json, v3: Json)
    requires |ks| == 4
    requires Lookup(fields, ks[0]) == Some(v0) && Lookup(fields, ks[1]) == Some(v1)
    requires Lookup(fields, ks[2]) == Some(v2) && Lookup(fields, ks[3]) == Some(v3)
    ensures StreamlitApp.KnownEntries(fields, ks) == [(ks[0], v0), (ks[1], v1), (ks[2], v2), (ks[3], v3)]
  {
    assert forall j :: 0 <= j < |ks| ==> Lookup(fields, ks[j]).Some? by {
      forall j | 0 <= j < |ks| ensures Lookup(fields, ks[j]).Some? {
        assert j == 0 || j == 1 || j == 2 || j == 3;
      }
    }
    KnownOfPresent(fields, ks);
    StreamlitApp.FourElements(StreamlitApp.KnownEntries(fields, ks));
  }

  /** When the dict holds every key, the known entries pair each key with its value, in the keys' order. */
  lemma {:induction false} KnownOfPresent(fields: seq<(string, Json)>, ks: seq<string>)
    requires forall j :: 0 <= j < |ks| ==> Lookup(fields, ks[j]).Some?
    ensures |StreamlitApp.KnownEntries(fields, ks)| == |ks|
    ensures forall j :: 0 <= j < |ks| ==> StreamlitApp.KnownEntries(fields, ks)[j] == (ks[j], Lookup(fields, ks[j]).value)
  {
    if ks != [] {
      var front := ks[..|ks| - 1];
      var k := Last(ks);
      assert forall j :: 0 <= j < |front| ==> front[j] == ks[j];
      KnownOfPresent(fields, front);
      var known := StreamlitApp.KnownEntries(fields, front);
      var e := (k, Lookup(fields, k).value);
      assert StreamlitApp.KnownEntries(fields, ks) == known + [e];
      forall j | 0 <= j < |ks|
        ensures (known + [e])[j] == (ks[j], Lookup(fields, ks[j]).value)
      {
        if j < |front| {
          assert (known + [e])[j] == known[j];
        } else {
          assert j == |known| && ks[j] == k;
        }
      }
    }
  }

  /** Every key of a sample's metadata has its place in the order, so no entry is left over. */
  lemma OthersOfIds(p: string, l: string, c: string, f: string)
    ensures StreamlitApp.OtherEntries(Dataset.IdMetadata(p, l, c, f), StreamlitApp.OrderedKeys) == []
  {
    var md := Dataset.IdMetadata(p, l, c, f);
    assert forall i :: 0 <= i < |md| ==> md[i].0 in StreamlitApp.OrderedKeys;
    OthersOfCovered(md, StreamlitApp.OrderedKeys);
  }

  /** A dict whose every key is excluded leaves no other entry. */
  lemma {:induction false} OthersOfCovered(fields: seq<(string, Json)>, ks: seq<string>)
    requires forall i :: 0 <= i < |fields| ==> fields[i].0 in ks
    ensures StreamlitApp.OtherEntries(fields, ks) == []
  {
    if fields != [] {
      var front := fields[..|fields| - 1];
      assert forall i :: 0 <= i < |front| ==> front[i] == fields[i];
      OthersOfCovered(front, ks);
    }
  }

  /**
   * The Vite page maps a record with a path whose last piece is a
   * non-empty name to the encoded name under `/images/`, titles it with the
   * person and clothes ids, and keeps the metadata object.
   */
  lemma ViteMapsRecord(base: string, hit: Json, uuid: string, m: int, e: int, s: Dataset.SampleInfo, entry: string, p: string, c: string)
    requires SampleSchemaHolds(hit, uuid, JFloat(m, e), IndexedPayload(s))
    requires SearchPage.FileName(s.path) == entry && entry != []
    requires Lookup(s.metadata, "person_id") == Some(JStr(p)) && Lookup(s.metadata, "clothes_id") == Some(JStr(c))
    ensures SearchPage.MapItem(base, hit) ==
      Ok(SearchPage.SearchResult(uuid, base + "/images/" + EncodeUriComponent(entry),
        "Person " + p + " (clothes " + c + ")", Finite(Scaled(m, e)), Some(JObj(s.metadata))))
  {
    PayloadLookups(s);
    ViteCard(base, hit, uuid, m, e, IndexedPayload(s), s.path, s.metadata, entry, p, c);
  }

  /** The card of a hit whose members have the given values. */
  lemma ViteCard(base: string, hit: Json, uuid: string, m: int, e: int, payload: seq<(string, Json)>,
                 path: string, md: seq<(string, Json)>, entry: string, p: string, c: string)
    requires hit.JObj? && Lookup(hit.fields, "id") == Some(JStr(uuid)) && Lookup(hit.fields, "score") == Some(JFloat(m, e))
    requires Lookup(hit.fields, "payload") == Some(JObj(payload))
    requires Lookup(payload, "path") == Some(JStr(path)) && Lookup(payload, "metadata") == Some(JObj(md))
    requires SearchPage.FileName(path) == entry && entry != []
    requires Lookup(md, "person_id") == Some(JStr(p)) && Lookup(md, "clothes_id") == Some(JStr(c))
    ensures SearchPage.Card(base, hit) == SearchPage.SearchResult(uuid, base + "/images/" + EncodeUriComponent(entry),
      "Person " + p + " (clothes " + c + ")", Finite(Scaled(m, e)), Some(JObj(md)))
  {
    VitePayload(hit, payload, path);
    ViteMetadata(payload, md);
    ViteImage(base, path, entry);
    ViteTitle(md, p, c, Prop(hit, "id"));
    ViteScore(m, e);
  }

  /** The hit's payload object, and the path inside it. */
  lemma VitePayload(hit: Json, payload: seq<(string, Json)>, path: string)
    requires hit.JObj? && Lookup(hit.fields, "payload") == Some(JObj(payload))
    requires Lookup(payload, "path") == Some(JStr(path))
    ensures Coalesce(Prop(hit, "payload"), JObj([])) == JObj(payload)
    ensures Prop(JObj(payload), "path") == Some(JStr(path))
  {
  }

  /** A float score is the card's score. */
  lemma ViteScore(m: int, e: int)
    ensures SearchPage.Score(Some(JFloat(m, e))) == Finite(Scaled(m, e))
  {
  }

  /** A payload's metadata object is the card's metadata. */
  lemma ViteMetadata(payload: seq<(string, Json)>, md: seq<(string, Json)>)
    requires Lookup(payload, "metadata") == Some(JObj(md))
    ensures SearchPage.Metadata(JObj(payload)) == Some(JObj(md))
  {
  }

  /** A path whose last piece is a non-empty name shows that name, encoded, under `/images/`. */
  lemma ViteImage(base: string, path: string, entry: string)
    requires SearchPage.FileName(path) == entry && entry != []
    ensures SearchPage.ImageUrl(base, Some(JStr(path))) == base + "/images/" + EncodeUriComponent(entry)
  {
  }

  /** Metadata with string person and clothes ids titles the card with them. */
  lemma ViteTitle(md: seq<(string, Json)>, p: string, c: string, id: Option<Json>)
    requires Lookup(md, "person_id") == Some(JStr(p)) && Lookup(md, "clothes_id") == Some(JStr(c))
    ensures SearchPage.Title(Some(JObj(md)), id) == "Person " + p + " (clothes " + c + ")"
  {
  }

  /**
   * The Vite page maps the same record to a card with the point's id, the
   * encoded file name under `/images/`, the title from the person and
   * clothes ids, the score, and the metadata object.
   */
  lemma ViteMapsSample(base: string, dataPath: string, ids: seq<string>, ext: string, uuid: string, m: int, e: int)
    requires SampleName(ids, ext)
    ensures var s := NamedSample(dataPath, ids, ext);
      SearchPage.MapItem(base, SampleHit(uuid, m, e, s)) ==
        Ok(SearchPage.SearchResult(uuid, base + "/images/" + EncodeUriComponent(Join(ids, "-") + "." + ext),
          "Person " + ids[0] + " (clothes " + ids[2] + ")", Finite(Scaled(m, e)), Some(JObj(s.metadata))))
  {
    var entry := Join(ids, "-") + "." + ext;
    var s := NamedSample(dataPath, ids, ext);
    JoinedNameHasNoSeparator(ids, ext);
    FileNameOfSamplePath(dataPath, entry);
    assert entry != [] by {
      assert entry[|entry| - 1] == ext[|ext| - 1];
    }
    SampleHitLookups(uuid, m, e, s);
    IdLookups(ids[0], ids[1], ids[2], ids[3]);
    ViteMapsRecord(base, SampleHit(uuid, m, e, s), uuid, m, e, s, entry, ids[0], ids[2]);
  }
}
