/**
 * The playlist exporter (main.py:23-64) and the liked songs exporter
 * (main.py:66-91), with `save_json` (main.py:17-21) reduced to what it
 * decides: the file name and the pruned document.  The API's answers are
 * parameters: the first page of the user's playlists, and for each playlist
 * and for the liked songs the pages `sp.next` walks through.
 */
module Export {
  import opened Wrappers
  import opened JsonValue
  import opened Pruning
  import opened Pagination
  import opened TrackRecords
  import opened FileNames

  /** A file `save_json` writes: its name inside the playlists directory and its content. */
  datatype SavedFile = SavedFile(fileName: string, document: Json)

  /** `save_json(data, path)`: the data is pruned in place and then written. */
  function Save(fileName: string, data: Json): (f: SavedFile)
    ensures f.fileName == fileName && NoMarkets(f.document)
    ensures NoMarkets(data) ==> f.document == data
  {
    PruneRemovesMarkets(data);
    PruneFixedPoints(data);
    SavedFile(fileName, Prune(data))
  }

  /** The records as the list of dicts under `tracks`. */
  function RecordsJson(records: seq<TrackRecord>): (js: seq<Json>)
    ensures |js| == |records|
    ensures forall k :: 0 <= k < |records| ==> js[k] == ToJson(records[k])
  {
    if records == [] then [] else [ToJson(records[0])] + RecordsJson(records[1..])
  }

  /** `playlist_data` (main.py:44-57). */
  function PlaylistDocument(name: Json, description: Json, records: seq<TrackRecord>): Json
  {
    Obj([Field("name", name), Field("description", description), Field("tracks", Arr(RecordsJson(records)))])
  }

  /** `liked_songs_data` (main.py:76-88): a playlist named "Liked Songs" without a description. */
  function LikedSongsDocument(records: seq<TrackRecord>): Json
  {
    Obj([Field("name", Str("Liked Songs")), Field("tracks", Arr(RecordsJson(records)))])
  }

  /** The file name expression on the playlist's name; only strings have `replace`. */
  function FileNameOf(name: Json): Result<string, PyError>
  {
    match name
    case Str(s) => Ok(PlaylistFileName(s))
    case _ => Err(AttributeError)
  }

  /**
   * One iteration of the playlist loop (main.py:31-61) once the playlist's
   * items have been gathered into `tracks`, with its exceptions in the order
   * Python raises them.
   */
  function PlaylistExport(playlist: Json, tracks: seq<Json>): Result<SavedFile, PyError>
  {
    var id :- Subscript(playlist, "id");
    var name :- Subscript(playlist, "name");
    var description :- Get(playlist, "description", Null);
    var records :- Project(tracks);
    var fileName :- FileNameOf(name);
    Ok(Save(fileName, PlaylistDocument(name, description, records)))
  }

  /** `export_liked_songs` once the liked songs have been gathered into `tracks`. */
  function LikedSongsExport(tracks: seq<Json>): Result<SavedFile, PyError>
  {
    var records :- Project(tracks);
    Ok(Save(LikedSongsFileName, LikedSongsDocument(records)))
  }

  /**
   * A playlist is exported exactly when it has an `id` and a string `name` and
   * its items project; the document written is then the pruned dict of its
   * name, its description (null when absent) and its records.
   */
  lemma PlaylistExportOk(playlist: Json, tracks: seq<Json>)
    ensures PlaylistExport(playlist, tracks).Ok? <==>
      HasKey(playlist, "id") && HasKey(playlist, "name") && At(playlist, "name").Str? && Project(tracks).Ok?
    ensures PlaylistExport(playlist, tracks).Ok? ==>
      var f := PlaylistExport(playlist, tracks).value;
      var description := if HasKey(playlist, "description") then At(playlist, "description") else Null;
      && f.fileName == PlaylistFileName(At(playlist, "name").s)
      && f.document == Prune(PlaylistDocument(At(playlist, "name"), description, Project(tracks).value))
  {
  }

  /**
   * Pruning a playlist document keeps its three keys, in order, with the pruned
   * name and description, and the pruned k-th record as the k-th entry under `tracks`.
   */
  lemma PrunedPlaylistDocument(name: Json, description: Json, records: seq<TrackRecord>)
    ensures var d := Prune(PlaylistDocument(name, description, records));
      && d.Obj? && |d.fields| == 3
      && d.fields[0] == Field("name", Prune(name))
      && d.fields[1] == Field("description", Prune(description))
      && d.fields[2].key == "tracks"
      && d.fields[2].value.Arr? && |d.fields[2].value.elems| == |records|
      && (forall k :: 0 <= k < |records| ==> d.fields[2].value.elems[k] == Prune(ToJson(records[k])))
  {
    PruneFieldsWithoutMarkets(PlaylistDocument(name, description, records).fields);
  }

  /** Pruning the liked songs document keeps its name, its two keys, and the pruned k-th record as the k-th entry. */
  lemma PrunedLikedSongsDocument(records: seq<TrackRecord>)
    ensures var d := Prune(LikedSongsDocument(records));
      && d.Obj? && |d.fields| == 2
      && d.fields[0] == Field("name", Str("Liked Songs")) && d.fields[1].key == "tracks"
      && d.fields[1].value.Arr? && |d.fields[1].value.elems| == |records|
      && (forall k :: 0 <= k < |records| ==> d.fields[1].value.elems[k] == Prune(ToJson(records[k])))
  {
    PruneFieldsWithoutMarkets(LikedSongsDocument(records).fields);
  }

  /**
   * A saved playlist document holds no `available_markets` anywhere, keeps
   * the keys `name`, `description` and `tracks` in that order, and lists one
   * track record per item with a truthy track.
   */
  lemma PlaylistDocumentShape(playlist: Json, tracks: seq<Json>)
    requires PlaylistExport(playlist, tracks).Ok?
    ensures var d := PlaylistExport(playlist, tracks).value.document;
      && NoMarkets(d)
      && d.Obj? && |d.fields| == 3
      && d.fields[0] == Field("name", Prune(At(playlist, "name")))
      && d.fields[1] == Field("description",
           Prune(if HasKey(playlist, "description") then At(playlist, "description") else Null))
      && d.fields[2].key == "tracks"
      && d.fields[2].value.Arr? && |d.fields[2].value.elems| == |Project(tracks).value|
      && (forall k :: 0 <= k < |Project(tracks).value| ==>
            d.fields[2].value.elems[k] == Prune(ToJson(Project(tracks).value[k])))
  {
    PlaylistExportOk(playlist, tracks);
    var description := if HasKey(playlist, "description") then At(playlist, "description") else Null;
    var doc := PlaylistDocument(At(playlist, "name"), description, Project(tracks).value);
    var d := PlaylistExport(playlist, tracks).value.document;
    assert d == Prune(doc);
    PruneRemovesMarkets(doc);
    PrunedPlaylistDocument(At(playlist, "name"), description, Project(tracks).value);
  }

  /** The liked songs file: fixed name, no `available_markets`, one record per item with a truthy track. */
  lemma LikedSongsShape(tracks: seq<Json>)
    requires LikedSongsExport(tracks).Ok?
    ensures var f := LikedSongsExport(tracks).value;
      && f.fileName == LikedSongsFileName
      && NoMarkets(f.document)
      && f.document.Obj? && |f.document.fields| == 2
      && f.document.fields[0] == Field("name", Str("Liked Songs")) && f.document.fields[1].key == "tracks"
      && f.document.fields[1].value.Arr? && |f.document.fields[1].value.elems| == |Project(tracks).value|
      && (forall k :: 0 <= k < |Project(tracks).value| ==>
            f.document.fields[1].value.elems[k] == Prune(ToJson(Project(tracks).value[k])))
  {
    PrunedLikedSongsDocument(Project(tracks).value);
  }

  /** The body of the playlist loop: lookups, the pagination loop, projection and save. */
  method ExportPlaylist(playlist: Json, pages: seq<Page<Json>>) returns (r: Result<SavedFile, PyError>)
    requires |pages| > 0 && ForwardLinks(pages)
    ensures r == PlaylistExport(playlist, Collected(pages, 0))
  {
    var id := Subscript(playlist, "id");
    if id.Err? {
      return Err(id.error);
    }
    var name := Subscript(playlist, "name");
    if name.Err? {
      return Err(name.error);
    }
    var tracks, _, _ := Accumulate(pages);
    var description := Get(playlist, "description", Null);
    var records := Project(tracks);
    if records.Err? {
      return Err(records.error);
    }
    var fileName := FileNameOf(name.value);
    if fileName.Err? {
      return Err(fileName.error);
    }
    r := Ok(Save(fileName.value, PlaylistDocument(name.value, description.value, records.value)));
  }

  /** `export_liked_songs`: the pagination loop, projection and save. */
  method ExportLikedSongs(pages: seq<Page<Json>>) returns (r: Result<SavedFile, PyError>)
    requires |pages| > 0 && ForwardLinks(pages)
    ensures r == LikedSongsExport(Collected(pages, 0))
  {
    var tracks, _, _ := Accumulate(pages);
    var records := Project(tracks);
    if records.Err? {
      return Err(records.error);
    }
    r := Ok(Save(LikedSongsFileName, LikedSongsDocument(records.value)));
  }

  // ---------------------------------------------------------------------------
  // The whole playlist exporter: one file per playlist, then the liked songs
  // ---------------------------------------------------------------------------

  /** The files written, in order, and the exception that stopped the run, if any. */
  datatype Run = Run(saved: seq<SavedFile>, failure: Option<PyError>)

  /** Files written before the rest of the run. */
  function Prepend(files: seq<SavedFile>, run: Run): Run
  {
    Run(files + run.saved, run.failure)
  }

  /** Every playlist's gathered items. */
  function AllCollected(pagesOf: seq<seq<Page<Json>>>): (ts: seq<seq<Json>>)
    requires forall i :: 0 <= i < |pagesOf| ==> |pagesOf[i]| > 0 && ForwardLinks(pagesOf[i])
    ensures |ts| == |pagesOf|
    ensures forall i :: 0 <= i < |pagesOf| ==> ts[i] == Collected(pagesOf[i], 0)
  {
    if pagesOf == [] then [] else [Collected(pagesOf[0], 0)] + AllCollected(pagesOf[1..])
  }

  /**
   * `export_playlists` given each playlist's gathered items and the liked
   * songs: files are written one at a time, and the first exception ends the
   * run, leaving the files already written.
   */
  function PlaylistsRun(playlists: seq<Json>, tracksOf: seq<seq<Json>>, liked: seq<Json>): Run
    requires |tracksOf| == |playlists|
  {
    if playlists == [] then
      match LikedSongsExport(liked)
      case Ok(f) => Run([f], None)
      case Err(e) => Run([], Some(e))
    else
      match PlaylistExport(playlists[0], tracksOf[0])
      case Err(e) => Run([], Some(e))
      case Ok(f) => Prepend([f], PlaylistsRun(playlists[1..], tracksOf[1..], liked))
  }

  /**
   * Every file the exporter writes is free of `available_markets`; a run
   * without an exception writes one file per playlist followed by the liked
   * songs file, and a run that fails writes fewer.
   */
  lemma {:induction false} PlaylistsRunFiles(playlists: seq<Json>, tracksOf: seq<seq<Json>>, liked: seq<Json>)
    requires |tracksOf| == |playlists|
    ensures var run := PlaylistsRun(playlists, tracksOf, liked);
      && (forall k :: 0 <= k < |run.saved| ==> NoMarkets(run.saved[k].document))
      && (run.failure.None? ==>
            |run.saved| == |playlists| + 1 && run.saved[|playlists|].fileName == LikedSongsFileName)
      && (run.failure.Some? ==> |run.saved| <= |playlists|)
  {
    if playlists != [] {
      PlaylistsRunFiles(playlists[1..], tracksOf[1..], liked);
    }
  }

  /**
   * The k-th file written is the k-th playlist's export, and a run without an
   * exception ends with the liked songs export's file.
   */
  lemma {:induction false} PlaylistsRunSaved(playlists: seq<Json>, tracksOf: seq<seq<Json>>, liked: seq<Json>)
    requires |tracksOf| == |playlists|
    ensures var run := PlaylistsRun(playlists, tracksOf, liked);
      && (forall k :: 0 <= k < |run.saved| && k < |playlists| ==>
            PlaylistExport(playlists[k], tracksOf[k]) == Ok(run.saved[k]))
      && (run.failure.None? ==>
            |run.saved| == |playlists| + 1 && LikedSongsExport(liked) == Ok(run.saved[|playlists|]))
  {
    if playlists != [] && PlaylistExport(playlists[0], tracksOf[0]).Ok? {
      PlaylistsRunSaved(playlists[1..], tracksOf[1..], liked);
      var run := PlaylistsRun(playlists, tracksOf, liked);
      var rest := PlaylistsRun(playlists[1..], tracksOf[1..], liked);
      assert run.saved == [PlaylistExport(playlists[0], tracksOf[0]).value] + rest.saved;
      forall k | 1 <= k < |run.saved| && k < |playlists|
        ensures PlaylistExport(playlists[k], tracksOf[k]) == Ok(run.saved[k])
      {
        assert playlists[1..][k - 1] == playlists[k] && tracksOf[1..][k - 1] == tracksOf[k];
        assert run.saved[k] == rest.saved[k - 1];
      }
    }
  }

  /**
   * A failing run keeps the files of the playlists before the one that raised,
   * and its exception is that playlist's, or the liked songs export's when
   * every playlist was written.
   */
  lemma {:induction false} PlaylistsRunFailure(playlists: seq<Json>, tracksOf: seq<seq<Json>>, liked: seq<Json>)
    requires |tracksOf| == |playlists|
    ensures var run := PlaylistsRun(playlists, tracksOf, liked);
      run.failure.Some? ==>
        && |run.saved| <= |playlists|
        && if |run.saved| < |playlists| then
             PlaylistExport(playlists[|run.saved|], tracksOf[|run.saved|]) == Err(run.failure.value)
           else
             LikedSongsExport(liked) == Err(run.failure.value)
  {
    if playlists != [] && PlaylistExport(playlists[0], tracksOf[0]).Ok? {
      PlaylistsRunFailure(playlists[1..], tracksOf[1..], liked);
      var rest := PlaylistsRun(playlists[1..], tracksOf[1..], liked);
      var n := |rest.saved|;
      if rest.failure.Some? && n < |playlists| - 1 {
        assert playlists[1..][n] == playlists[n + 1] && tracksOf[1..][n] == tracksOf[n + 1];
      }
    }
  }

  /** A run fails exactly when some playlist's export or the liked songs export raises. */
  lemma {:induction false} PlaylistsRunFailsIff(playlists: seq<Json>, tracksOf: seq<seq<Json>>, liked: seq<Json>)
    requires |tracksOf| == |playlists|
    ensures PlaylistsRun(playlists, tracksOf, liked).failure.Some? <==>
      (exists i :: 0 <= i < |playlists| && PlaylistExport(playlists[i], tracksOf[i]).Err?)
      || LikedSongsExport(liked).Err?
  {
    if playlists != [] {
      PlaylistsRunFailsIff(playlists[1..], tracksOf[1..], liked);
      if PlaylistExport(playlists[0], tracksOf[0]).Ok? {
        if exists i :: 1 <= i < |playlists| && PlaylistExport(playlists[i], tracksOf[i]).Err? {
          var i :| 1 <= i < |playlists| && PlaylistExport(playlists[i], tracksOf[i]).Err?;
          assert playlists[1..][i - 1] == playlists[i] && tracksOf[1..][i - 1] == tracksOf[i];
        }
        if exists i :: 0 <= i < |playlists[1..]| && PlaylistExport(playlists[1..][i], tracksOf[1..][i]).Err? {
          var i :| 0 <= i < |playlists[1..]| && PlaylistExport(playlists[1..][i], tracksOf[1..][i]).Err?;
          assert playlists[1..][i] == playlists[i + 1] && tracksOf[1..][i] == tracksOf[i + 1];
        }
      }
    }
  }

  /**
   * `export_playlists` (main.py:23-64): the loop over the playlists, then the
   * liked songs.  `pagesOf[i]` are the pages of playlist `i`'s items.
   */
  method ExportPlaylists(playlists: seq<Json>, pagesOf: seq<seq<Page<Json>>>, likedPages: seq<Page<Json>>)
    returns (saved: seq<SavedFile>, failure: Option<PyError>)
    requires |pagesOf| == |playlists|
    requires forall i :: 0 <= i < |pagesOf| ==> |pagesOf[i]| > 0 && ForwardLinks(pagesOf[i])
    requires |likedPages| > 0 && ForwardLinks(likedPages)
    ensures Run(saved, failure) == PlaylistsRun(playlists, AllCollected(pagesOf), Collected(likedPages, 0))
    ensures forall k :: 0 <= k < |saved| ==> NoMarkets(saved[k].document)
    ensures failure.None? ==> |saved| == |playlists| + 1 && saved[|playlists|].fileName == LikedSongsFileName
  {
    ghost var tracksOf := AllCollected(pagesOf);
    ghost var liked := Collected(likedPages, 0);
    PlaylistsRunFiles(playlists, tracksOf, liked);
    saved := [];
    var i := 0;
    while i < |playlists|
      invariant 0 <= i <= |playlists|
      invariant PlaylistsRun(playlists, tracksOf, liked) ==
        Prepend(saved, PlaylistsRun(playlists[i..], tracksOf[i..], liked))
    {
      var r := ExportPlaylist(playlists[i], pagesOf[i]);
      assert playlists[i..][1..] == playlists[i + 1..] && tracksOf[i..][1..] == tracksOf[i + 1..];
      if r.Err? {
        return saved, Some(r.error);
      }
      saved := saved + [r.value];
      i := i + 1;
    }
    var r := ExportLikedSongs(likedPages);
    if r.Err? {
      return saved, Some(r.error);
    }
    saved, failure := saved + [r.value], None;
  }
}
