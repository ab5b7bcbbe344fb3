/**
 * The track-record list comprehensions of `export_playlists` (main.py:47-56)
 * and `export_liked_songs` (main.py:78-87).  Each raw playlist item is a dict
 * whose `track` entry may be null; items whose track is falsy are skipped, the
 * others become a six-field record.  The raw items are arbitrary decoded JSON,
 * so every subscript can raise the Python exception it would raise on
 * malformed data, and the first one raised aborts the comprehension.
 */
module TrackRecords {
  import opened Wrappers
  import opened JsonValue

  /** One exported track: the dict literal at main.py:48-55, field for field. */
  datatype TrackRecord = TrackRecord(
    name: Json,
    artist: Json,
    album: Json,
    trackId: Json,
    uri: Json,
    isPlayable: Json)

  /** The placeholder used when artist or album data is missing. */
  const Unknown: Json := Str("Unknown")

  /** The record as the dict that is written out, with the source's key names and order. */
  function ToJson(r: TrackRecord): Json
  {
    Obj([
      Field("name", r.name),
      Field("artist", r.artist),
      Field("album", r.album),
      Field("track_id", r.trackId),
      Field("uri", r.uri),
      Field("is_playable", r.isPlayable)])
  }

  /** `track['artists'][0]['name'] if track['artists'] else 'Unknown'` */
  function ArtistOf(track: Json): Result<Json, PyError>
  {
    var artists :- Subscript(track, "artists");
    if Truthy(artists) then
      var first :- First(artists);
      Subscript(first, "name")
    else
      Ok(Unknown)
  }

  /** `track['album']['name'] if track['album'] else 'Unknown'` */
  function AlbumOf(track: Json): Result<Json, PyError>
  {
    var album :- Subscript(track, "album");
    if Truthy(album) then Subscript(album, "name") else Ok(Unknown)
  }

  /** The dict literal evaluated for one truthy track, its entries left to right. */
  function Record(track: Json): Result<TrackRecord, PyError>
  {
    var name :- Subscript(track, "name");
    var artist :- ArtistOf(track);
    var album :- AlbumOf(track);
    var trackId :- Subscript(track, "id");
    var uri :- Subscript(track, "uri");
    var isPlayable :- Get(track, "is_playable", Bool(false));
    Ok(TrackRecord(name, artist, album, trackId, uri, isPlayable))
  }

  /** One step of the comprehension: `None` when `item['track']` is falsy and the item is skipped. */
  function ProjectItem(item: Json): Result<Option<TrackRecord>, PyError>
  {
    var track :- Subscript(item, "track");
    if !Truthy(track) then Ok(None)
    else
      var r :- Record(track);
      Ok(Some(r))
  }

  /** The whole comprehension over the accumulated items. */
  function Project(items: seq<Json>): Result<seq<TrackRecord>, PyError>
  {
    if items == [] then Ok([])
    else
      var head :- ProjectItem(items[0]);
      var rest :- Project(items[1..]);
      Ok((if head.Some? then [head.value] else []) + rest)
  }

  // ---------------------------------------------------------------------------
  // The shape of a track the comprehension accepts, stated on dict lookups
  // ---------------------------------------------------------------------------

  /** `j` is a dict with key `k`. */
  predicate HasKey(j: Json, k: string)
  {
    j.Obj? && Lookup(j.fields, k).Some?
  }

  /** The value under `k` in dict `j`. */
  function At(j: Json, k: string): Json
    requires HasKey(j, k)
  {
    Lookup(j.fields, k).value
  }

  /**
   * A track the record can be built from: it has `name`, `artists`, `album`,
   * `id` and `uri`; a non-empty artists value is a list whose first entry has
   * a `name`; a non-empty album value is a dict with a `name`.
   */
  predicate WellShapedTrack(t: Json)
  {
    && HasKey(t, "name")
    && HasKey(t, "artists")
    && (Truthy(At(t, "artists")) ==>
          At(t, "artists").Arr? && HasKey(At(t, "artists").elems[0], "name"))
    && HasKey(t, "album")
    && (Truthy(At(t, "album")) ==> HasKey(At(t, "album"), "name"))
    && HasKey(t, "id")
    && HasKey(t, "uri")
  }

  /** The record is built exactly for well-shaped tracks; on anything else a Python exception is raised. */
  lemma RecordSucceedsIff(track: Json)
    ensures Record(track).Ok? <==> WellShapedTrack(track)
  {
  }

  /**
   * The fields of a built record: the first artist's name or "Unknown", the
   * album's name or "Unknown", and `is_playable` copied when present and false
   * when absent; name, id and uri are copied.
   */
  lemma RecordFields(track: Json)
    requires Record(track).Ok?
    ensures WellShapedTrack(track)
    ensures var r := Record(track).value;
      && r.name == At(track, "name")
      && r.artist == (if Truthy(At(track, "artists")) then At(At(track, "artists").elems[0], "name") else Str("Unknown"))
      && r.album == (if Truthy(At(track, "album")) then At(At(track, "album"), "name") else Str("Unknown"))
      && r.trackId == At(track, "id")
      && r.uri == At(track, "uri")
      && r.isPlayable == (if HasKey(track, "is_playable") then At(track, "is_playable") else Bool(false))
  {
    RecordSucceedsIff(track);
  }

  /** An item is skipped exactly when it has a `track` entry that is falsy (null, in the API). */
  lemma ProjectItemSkips(item: Json)
    ensures ProjectItem(item) == Ok(None) <==> HasKey(item, "track") && !Truthy(At(item, "track"))
  {
  }

  /** An item yields a record exactly when its track is truthy and well shaped, and the record is the track's. */
  lemma ProjectItemEmits(item: Json)
    ensures (ProjectItem(item).Ok? && ProjectItem(item).value.Some?) <==>
      (HasKey(item, "track") && Truthy(At(item, "track")) && WellShapedTrack(At(item, "track")))
    ensures ProjectItem(item).Ok? && ProjectItem(item).value.Some? ==>
      Record(At(item, "track")) == Ok(ProjectItem(item).value.value)
  {
    if HasKey(item, "track") && Truthy(At(item, "track")) {
      RecordSucceedsIff(At(item, "track"));
    }
  }

  // ---------------------------------------------------------------------------
  // The comprehension as a whole
  // ---------------------------------------------------------------------------

  /** The comprehension succeeds exactly when every item's step does. */
  lemma {:induction false} ProjectSucceedsIff(items: seq<Json>)
    ensures Project(items).Ok? <==> forall i :: 0 <= i < |items| ==> ProjectItem(items[i]).Ok?
  {
    if items != [] {
      ProjectSucceedsIff(items[1..]);
      assert forall i :: 1 <= i < |items| ==> items[1..][i - 1] == items[i];
    }
  }

  /** `[0]` is only taken of a truthy, hence non-empty, artists value, so no step raises `IndexError`. */
  lemma {:induction false} ProjectNeverIndexError(items: seq<Json>)
    ensures Project(items) != Err(IndexError)
  {
    if items != [] {
      ProjectNeverIndexError(items[1..]);
    }
  }

  /** `.get` is only called on a track whose `['name']` succeeded, hence a dict, so no step raises `AttributeError`. */
  lemma {:induction false} ProjectNeverAttributeError(items: seq<Json>)
    ensures Project(items) != Err(AttributeError)
  {
    if items != [] {
      ProjectNeverAttributeError(items[1..]);
    }
  }

  /** A failing comprehension raises the exception of the first item whose step fails. */
  lemma {:induction false} ProjectFirstError(items: seq<Json>) returns (i: nat)
    requires Project(items).Err?
    ensures i < |items| && ProjectItem(items[i]) == Err(Project(items).error)
    ensures forall k :: 0 <= k < i ==> ProjectItem(items[k]).Ok?
  {
    if ProjectItem(items[0]).Err? {
      i := 0;
    } else {
      var j := ProjectFirstError(items[1..]);
      i := j + 1;
      assert items[1..][j] == items[i];
      assert forall k :: 1 <= k < i ==> items[1..][k - 1] == items[k];
    }
  }

  /** What the comprehension makes of one item, with an exception read as "no record". */
  function Outcome(item: Json): Option<TrackRecord>
  {
    match ProjectItem(item)
    case Ok(o) => o
    case Err(_) => None
  }

  lemma OutcomeOfSuccess(item: Json)
    requires ProjectItem(item).Ok?
    ensures ProjectItem(item) == Ok(Outcome(item))
  {
  }

  /** `Outcome` of every item, position by position. */
  function Outcomes(items: seq<Json>): (os: seq<Option<TrackRecord>>)
    ensures |os| == |items|
    ensures forall i :: 0 <= i < |items| ==> os[i] == Outcome(items[i])
  {
    if items == [] then [] else [Outcome(items[0])] + Outcomes(items[1..])
  }

  /** The present values of a sequence of options, in order. */
  function Somes<R>(os: seq<Option<R>>): seq<R>
  {
    if os == [] then []
    else (if os[0].Some? then [os[0].value] else []) + Somes(os[1..])
  }

  /** The positions of the present values in `os`, counted from `start`, in increasing order. */
  function Positions<R>(os: seq<Option<R>>, start: int): seq<int>
  {
    if os == [] then []
    else (if os[0].Some? then [start] else []) + Positions(os[1..], start + 1)
  }

  /** There are as many positions as present values, and no more than entries. */
  lemma {:induction false} PositionsLength<R>(os: seq<Option<R>>, start: int)
    ensures |Positions(os, start)| == |Somes(os)| <= |os|
  {
    if os != [] {
      PositionsLength(os[1..], start + 1);
    }
  }

  /** Each position names the present value found at the same rank in `Somes`. */
  lemma {:induction false} PositionsSelect<R>(os: seq<Option<R>>, start: int)
    ensures |Positions(os, start)| == |Somes(os)|
    ensures forall k :: 0 <= k < |Positions(os, start)| ==>
      start <= Positions(os, start)[k] < start + |os| &&
      os[Positions(os, start)[k] - start] == Some(Somes(os)[k])
  {
    PositionsLength(os, start);
    if os != [] {
      PositionsSelect(os[1..], start + 1);
      var ps, rest := Positions(os, start), Positions(os[1..], start + 1);
      var vs, vrest := Somes(os), Somes(os[1..]);
      var d := if os[0].Some? then 1 else 0;
      assert ps == (if os[0].Some? then [start] else []) + rest;
      assert vs == (if os[0].Some? then [os[0].value] else []) + vrest;
      forall k | d <= k < |ps|
        ensures start <= ps[k] < start + |os| && os[ps[k] - start] == Some(vs[k])
      {
        assert ps[k] == rest[k - d];
        assert vs[k] == vrest[k - d];
        assert os[1..][rest[k - d] - (start + 1)] == os[ps[k] - start];
      }
    }
  }

  lemma {:induction false} PositionsIncreasing<R>(os: seq<Option<R>>, start: int)
    ensures forall k, l :: 0 <= k < l < |Positions(os, start)| ==> Positions(os, start)[k] < Positions(os, start)[l]
  {
    if os != [] {
      PositionsIncreasing(os[1..], start + 1);
      PositionsSelect(os[1..], start + 1);
      var ps, rest := Positions(os, start), Positions(os[1..], start + 1);
      assert ps == (if os[0].Some? then [start] else []) + rest;
    }
  }

  /** Every present value's position is listed. */
  lemma {:induction false} PositionsComplete<R>(os: seq<Option<R>>, start: int)
    ensures forall i :: 0 <= i < |os| && os[i].Some? ==> start + i in Positions(os, start)
  {
    if os != [] {
      PositionsComplete(os[1..], start + 1);
      var ps, rest := Positions(os, start), Positions(os[1..], start + 1);
      assert ps == (if os[0].Some? then [start] else []) + rest;
      forall i | 1 <= i < |os| && os[i].Some?
        ensures start + i in ps
      {
        assert os[1..][i - 1] == os[i];
        assert start + 1 + (i - 1) in rest;
      }
    }
  }

  /** A successful comprehension keeps the records of the items, in item order. */
  lemma {:induction false} ProjectIsSomes(items: seq<Json>)
    requires Project(items).Ok?
    ensures Project(items).value == Somes(Outcomes(items))
  {
    if items != [] {
      ProjectIsSomes(items[1..]);
      assert Outcomes(items)[1..] == Outcomes(items[1..]);
    }
  }

  /**
   * A successful comprehension emits one record per item with a truthy track,
   * in item order, and skips exactly the others: `idx` lists the positions of
   * the items the records come from.
   */
  lemma ProjectKeepsOrder(items: seq<Json>) returns (idx: seq<nat>)
    requires Project(items).Ok?
    ensures var rs := Project(items).value;
      && |idx| == |rs| <= |items|
      && (forall k :: 0 <= k < |idx| ==> idx[k] < |items| && ProjectItem(items[idx[k]]) == Ok(Some(rs[k])))
      && (forall k, l :: 0 <= k < l < |idx| ==> idx[k] < idx[l])
      && (forall i :: 0 <= i < |items| && i !in idx ==> ProjectItem(items[i]) == Ok(None))
  {
    ProjectSucceedsIff(items);
    ProjectIsSomes(items);
    var os := Outcomes(items);
    PositionsSelect(os, 0);
    PositionsLength(os, 0);
    idx := Positions(os, 0);
    PositionsIncreasing(os, 0);
    PositionsComplete(os, 0);
    var rs := Project(items).value;
    assert rs == Somes(os);
    forall k | 0 <= k < |idx|
      ensures idx[k] < |items| && ProjectItem(items[idx[k]]) == Ok(Some(rs[k]))
    {
      OutcomeOfSuccess(items[idx[k]]);
    }
    forall i | 0 <= i < |items| && i !in idx
      ensures ProjectItem(items[i]) == Ok(None)
    {
      OutcomeOfSuccess(items[i]);
    }
  }
}
