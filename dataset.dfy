/**
 * The dataset reader (backend/dataset.py): every file under the dataset's
 * `train` directory is a sample whose name, without its extension, is
 * `person-location-clothes-frame`.
 */
module Dataset {
  import opened Wrappers
  import opened Text
  import opened Json

  /** One sample: its file path and its metadata dict. */
  datatype SampleInfo = SampleInfo(path: string, metadata: seq<(string, Json)>)

  /** The samples of a dataset and its name. */
  datatype DatasetInfo = DatasetInfo(samples: seq<SampleInfo>, name: string)

  /** The message of the `IndexError` of reading past the end of a list. */
  const IndexOutOfRange: string := "IndexError: list index out of range"

  /** The index of the last occurrence of c in s, as `str.rfind` gives it (None for -1). */
  function RFind(s: string, c: char): (r: Option<nat>)
    ensures r.None? <==> c !in s
    ensures r.Some? ==> r.value < |s| && s[r.value] == c
    ensures r.Some? ==> forall j :: r.value < j < |s| ==> s[j] != c
  {
    if s == [] then None
    else if s[|s| - 1] == c then Some(|s| - 1)
    else
      assert s == s[..|s| - 1] + [s[|s| - 1]];
      RFind(s[..|s| - 1], c)
  }

  /**
   * `PurePath.stem` of a file name: the name up to its last dot, when that
   * dot is neither the first nor the last character; otherwise the name.
   */
  function Stem(name: string): (s: string)
    ensures |s| <= |name| && s == name[..|s|]
  {
    match RFind(name, '.')
    case Some(i) => if 0 < i < |name| - 1 then name[..i] else name
    case None => name
  }

  /** A name with a non-empty, dot-free extension after a non-empty base has that base as its stem. */
  lemma StemOfBaseAndExtension(base: string, ext: string)
    requires base != [] && ext != [] && '.' !in ext
    ensures Stem(base + "." + ext) == base
  {
    var name := base + "." + ext;
    assert name[|base|] == '.';
    assert name[|base| + 1..] == ext;
    var r := RFind(name, '.');
    assert forall j :: |base| < j < |name| ==> name[j] == ext[j - |base| - 1];
    assert r == Some(|base|);
    assert name[..|base|] == base;
  }

  /** The path `iterdir` yields for an entry of the `train` directory. */
  function SamplePath(dataPath: string, entry: string): string
  {
    dataPath + "/train/" + entry
  }

  /** The metadata dict of a sample named after four ids. */
  function IdMetadata(person: string, location: string, clothes: string, frame: string): seq<(string, Json)>
  {
    [("person_id", JStr(person)), ("location_id", JStr(location)), ("clothes_id", JStr(clothes)), ("frame_id", JStr(frame))]
  }

  /**
   * One sample as the loop builds it: the stem split on `-`, its first four
   * parts as person, location, clothes and frame; the `IndexError` when the
   * stem has fewer than four parts.
   */
  function SampleOf(dataPath: string, entry: string): (r: Result<SampleInfo, string>)
    ensures r.Ok? <==> |Split(Stem(entry), {'-'})| >= 4
    ensures r.Err? ==> r.error == IndexOutOfRange
    ensures r.Ok? ==> r.value.path == SamplePath(dataPath, entry)
  {
    var parts := Split(Stem(entry), {'-'});
    if |parts| < 4 then Err(IndexOutOfRange)
    else
      Ok(SampleInfo(SamplePath(dataPath, entry), IdMetadata(parts[0], parts[1], parts[2], parts[3])))
  }

  /** Whether a text can be one id of a file name: no `-` and no `.` in it. */
  predicate IdPart(s: string)
  {
    NoneIn(s, {'-'}) && '.' !in s
  }

  /**
   * A file named `person-location-clothes-frame[-more...].ext` gives those
   * four ids as strings, whatever parts follow the fourth.
   */
  lemma {:induction false} SampleOfName(dataPath: string, ids: seq<string>, ext: string)
    requires |ids| >= 4 && ext != [] && '.' !in ext
    requires forall i :: 0 <= i < |ids| ==> IdPart(ids[i])
    ensures SampleOf(dataPath, Join(ids, "-") + "." + ext) ==
      Ok(SampleInfo(SamplePath(dataPath, Join(ids, "-") + "." + ext), IdMetadata(ids[0], ids[1], ids[2], ids[3])))
  {
    var base := Join(ids, "-");
    JoinHasNoDot(ids);
    assert base != [] by {
      JoinLength(ids);
    }
    StemOfBaseAndExtension(base, ext);
    assert forall i :: 0 <= i < |ids| ==> NoneIn(ids[i], {'-'});
    SplitJoin(ids, '-');
  }

  /** Joining dot-free parts gives a dot-free text. */
  lemma {:induction false} JoinHasNoDot(parts: seq<string>)
    requires forall i :: 0 <= i < |parts| ==> IdPart(parts[i])
    ensures '.' !in Join(parts, "-")
  {
    if |parts| > 1 {
      JoinHasNoDot(parts[1..]);
      assert Join(parts, "-") == parts[0] + "-" + Join(parts[1..], "-");
      assert '.' !in parts[0];
    }
  }

  /** A join of two or more parts holds at least one separator. */
  lemma JoinLength(parts: seq<string>)
    requires |parts| >= 2
    ensures |Join(parts, "-")| >= 1
  {
    assert Join(parts, "-") == parts[0] + "-" + Join(parts[1..], "-");
  }

  /** The samples of a listing, entry by entry, in listing order. */
  function SamplesOf(dataPath: string, entries: seq<string>): (rs: seq<Result<SampleInfo, string>>)
    ensures |rs| == |entries|
  {
    if entries == [] then [] else SamplesOf(dataPath, entries[..|entries| - 1]) + [SampleOf(dataPath, Last(entries))]
  }

  /** The i-th step is the i-th entry's sample. */
  lemma {:induction false} SamplesOfAt(dataPath: string, entries: seq<string>, i: nat)
    requires i < |entries|
    ensures SamplesOf(dataPath, entries)[i] == SampleOf(dataPath, entries[i])
  {
    if i < |entries| - 1 {
      SamplesOfAt(dataPath, entries[..|entries| - 1], i);
    }
  }

  /** The reader of the VirtualPerson layout: a root directory and a dataset name. */
  class VirtualPerson {
    const dataPath: string
    const datasetName: string

    constructor(path: string, datasetName: string)
      ensures dataPath == path && this.datasetName == datasetName
    {
      dataPath := path;
      this.datasetName := datasetName;
    }

    /**
     * `get_dataset_info` over the entries `iterdir` lists: one sample per
     * entry in that order, named after the dataset, or the error of the
     * first entry whose stem has fewer than four parts.
     */
    method GetDatasetInfo(entries: seq<string>) returns (r: Result<DatasetInfo, string>)
      ensures match Collect(SamplesOf(dataPath, entries))
        case Ok(samples) => r == Ok(DatasetInfo(samples, datasetName))
        case Err(e) => r == Err(e)
    {
      ghost var rs := SamplesOf(dataPath, entries);
      var samples: seq<SampleInfo> := [];
      for i := 0 to |entries|
        invariant Collect(rs[..i]) == Ok(samples)
      {
        var sample := SampleOf(dataPath, entries[i]);
        SamplesOfAt(dataPath, entries, i);
        if sample.Err? {
          CollectStops(rs, i);
          return Err(sample.error);
        }
        assert rs[i] == sample;
        CollectStep(rs, i);
        samples := samples + [sample.value];
      }
      assert rs[..|entries|] == rs;
      return Ok(DatasetInfo(samples, datasetName));
    }
  }

  /** A successful read has one sample per entry, in order, each built from its own entry. */
  lemma DatasetInfoOrder(dataPath: string, entries: seq<string>)
    requires Collect(SamplesOf(dataPath, entries)).Ok?
    ensures var samples := Collect(SamplesOf(dataPath, entries)).value;
      |samples| == |entries| &&
      forall i :: 0 <= i < |entries| ==> SampleOf(dataPath, entries[i]) == Ok(samples[i])
  {
    forall i | 0 <= i < |entries|
      ensures SampleOf(dataPath, entries[i]) == Ok(Collect(SamplesOf(dataPath, entries)).value[i])
    {
      SamplesOfAt(dataPath, entries, i);
    }
  }

  /** The read fails with the `IndexError` exactly when some entry's stem has fewer than four parts. */
  lemma DatasetInfoFails(dataPath: string, entries: seq<string>)
    ensures Collect(SamplesOf(dataPath, entries)).Err? <==>
      exists i :: 0 <= i < |entries| && |Split(Stem(entries[i]), {'-'})| < 4
    ensures Collect(SamplesOf(dataPath, entries)).Err? ==>
      Collect(SamplesOf(dataPath, entries)).error == IndexOutOfRange
  {
    var rs := SamplesOf(dataPath, entries);
    forall i | 0 <= i < |entries|
      ensures rs[i] == SampleOf(dataPath, entries[i])
    {
      SamplesOfAt(dataPath, entries, i);
    }
  }
}
