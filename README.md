# spotify-json-export: a verified model of the exporter's data logic

`main.py` exports a Spotify library to JSON files. This project models the part
that decides what the files hold and what they are called, and proves properties of it:

- **Pruning** (`pruning.dfy`). `prune_available_markets` deletes the key
  `available_markets` from every dict at every depth of a decoded JSON
  value, including dicts inside lists of lists. Every other key, value and list element
  is kept, in order. Pruning is idempotent, and it keeps dict keys distinct.
- **Pagination** (`pagination.dfy`). The `while results['next']` loops start
  from the first response and follow each page's cursor until it is null, extending the
  track list with each page's `items`. The API is a finite sequence of pages,
  and a cursor is the index of the page `sp.next` returns.
- **Track records** (`track_records.dfy`). The list comprehensions turn each
  playlist item into a six-field record:
  - items with a falsy `track` are skipped;
  - artist and album fall back to `"Unknown"`;
  - `is_playable` defaults to `False`;
  - malformed data raises the Python exception the code would raise (`KeyError` or `TypeError`),
    and the first one aborts the comprehension. `IndexError` never arises, because `[0]` is only
    taken of a truthy, hence non-empty, value. `AttributeError` never arises either, because
    `.get` is only called once `['name']` has succeeded on the track, so the track is a dict.
    The only `AttributeError` in a playlist export comes from `.replace` on a name that is not
    a string.
- **File names** (`file_names.dfy`). A playlist is saved as its name with `/` and space
  replaced by `_`, plus `.json`. The liked songs go to `liked_songs.json`.
- **Configuration** (`config.dfy`). Each of the four settings is the
  command-line flag if it is non-empty, otherwise the environment variable. A
  `ValueError` is raised if any of them is still missing or empty.
- **Export** (`export.dfy`). `export_playlists` and `export_liked_songs`
  combine the pieces above. The files are written one at a time, in
  order. Every written document is free of `available_markets`. An exception raised by a
  playlist lookup, the comprehension or the file name stops the run and leaves behind
  the files already written.

Shared modules: `wrappers.dfy` (`Option`, `Result`) and
`json_value.dfy` (the JSON datatype, plus the Python operations on it that the code uses).

Two properties of the code as written are proved as lemmas (`FileNames.SlashAndSpaceCollide` and
`FileNames.LikedSongsCollide`):

- "Road Trip" and "Road/Trip" are written to the same file.
- A playlist named "liked songs" gets the liked songs file name. So when the liked songs export
  succeeds, it writes over that playlist's file.

## Model

| member | source | states |
|---|---|---|
| JsonValue.Truthy | main.py:50-51 | Python truthiness: null, false, zero, the empty string, list and dict are false (also used at main.py:55) |
| JsonValue.Subscript | main.py:49-53 | Python `d[k]`: the value under the key, `KeyError` when it is missing, `TypeError` on a non-dict |
| JsonValue.First | main.py:50 | Python `x[0]`: the first element of a list or string, `IndexError` when empty, `KeyError(0)` on a dict, `TypeError` otherwise |
| JsonValue.Get | main.py:54 | Python `d.get(k, default)`: the value under the key or the default, `AttributeError` on a non-dict |
| JsonValue.Lookup | main.py:32-33 | A dict subscript finds a value exactly when some field has the key, and the value found is stored under that key |
| Pruning.Prune | main.py:7-15 | The value left after the in-place walk: dicts and lists are pruned, scalars are untouched |
| Pruning.PruneFields | main.py:9-12 | The pop of `available_markets` followed by pruning every remaining value, order kept |
| Pruning.PruneElems | main.py:13-15 | Pruning a list prunes every element and keeps its length and order |
| Pruning.PruneRemovesMarkets | main.py:7-15 | After pruning, no dict at any depth, including inside nested lists, holds `available_markets` |
| Pruning.PruneFieldsRemovesMarkets | main.py:9-12 | The pruned fields of a dict carry neither the key nor any value that still holds it |
| Pruning.PruneFieldsKeys | main.py:9-12 | The keys surviving pruning are the original keys minus `available_markets`, in the original order |
| Pruning.PruneFieldsLookup | main.py:9-12 | After pruning, every other key maps to its pruned original value, and `available_markets` maps to nothing |
| Pruning.PruneFieldsWithoutMarkets | main.py:9-12 | A dict without the key keeps every field at its position, with the key unchanged and the value pruned |
| Pruning.PruneKeepsClean | main.py:7-15 | A value holding no `available_markets` anywhere is left unchanged, scalars included |
| Pruning.PruneFieldsKeepsClean | main.py:9-12 | Fields free of the key at every depth are left unchanged |
| Pruning.PruneFixedPoints | main.py:7-15 | Pruning leaves a value unchanged if and only if the value holds no `available_markets` |
| Pruning.PruneIdempotent | main.py:7-15 | Pruning an already pruned value gives the same value |
| Pruning.PrunePreservesWellFormed | main.py:10 | Popping a key keeps every dict's keys distinct, at every depth |
| Pruning.PruneFieldsPreservesWellFormed | main.py:11-12 | Pruning a dict's values keeps the dicts inside them well formed |
| Pagination.ChainFollowsCursors | main.py:39-41 | The visited pages start at the first response, follow each `next` cursor forward, and end at the first page whose cursor is null |
| Pagination.CollectedAlongChain | main.py:36-41 | The gathered items are the concatenation of the visited pages' `items`, in visiting order |
| Pagination.SequentialPagesCollectAll | main.py:36-41 | When each page links to the following one, the loop gathers every page's items in page order |
| Pagination.Accumulate | main.py:36-41 | The loop (also main.py:68-73) gathers the visited pages' items in order, stops at the page whose cursor is null, and calls `sp.next` once per page after the first |
| TrackRecords.ToJson | main.py:48-55 | The record as the dict written out, with the keys `name`, `artist`, `album`, `track_id`, `uri`, `is_playable` in that order |
| TrackRecords.ArtistOf | main.py:50 | The first artist's name when `artists` is truthy, otherwise "Unknown", with the exceptions of each subscript |
| TrackRecords.AlbumOf | main.py:51 | The album's name when `album` is truthy, otherwise "Unknown", with the exceptions of each subscript |
| TrackRecords.Record | main.py:48-55 | The six-field dict literal, its entries evaluated left to right; the first exception aborts it |
| TrackRecords.ProjectItem | main.py:55 | One step of the comprehension: the `track` subscript, the skip on a falsy track, otherwise the record |
| TrackRecords.Project | main.py:47-56 | The comprehension over the gathered items, in order, raising the first step's exception |
| TrackRecords.ProjectNeverIndexError | main.py:50 | No comprehension raises `IndexError`, because `[0]` is only taken of a truthy artists value |
| TrackRecords.ProjectNeverAttributeError | main.py:54 | No comprehension raises `AttributeError`, because `.get` is only reached on a track that `['name']` has shown to be a dict |
| TrackRecords.RecordSucceedsIff | main.py:49-54 | A record is built if and only if the track has name, artists, album, id and uri; artists, when truthy, is a list whose first entry has a name; and album, when truthy, is a dict with a name |
| TrackRecords.RecordFields | main.py:49-54 | Artist is the first artist's name or "Unknown", album is the album's name or "Unknown", `is_playable` is copied or `False`, and name, id and uri are copied |
| TrackRecords.ProjectItemSkips | main.py:55 | An item is skipped if and only if it has a `track` entry and that entry is falsy |
| TrackRecords.ProjectItemEmits | main.py:47-56 | An item yields a record if and only if its track is truthy and well shaped, and the record is that track's |
| TrackRecords.ProjectSucceedsIff | main.py:47-56 | The comprehension succeeds if and only if every item's step does |
| TrackRecords.ProjectFirstError | main.py:47-56 | A failed comprehension raises the exception of the first item whose step fails, and every earlier item succeeds |
| TrackRecords.ProjectIsSomes | main.py:47-56 | The records are the emitted records of the items, in item order |
| TrackRecords.ProjectKeepsOrder | main.py:47-56 | There is at most one record per item, each from the item at a strictly increasing position, and every item not used was skipped |
| FileNames.ReplaceChar | main.py:60 | Python `str.replace` for a one-character pattern and replacement |
| FileNames.PlaylistFileName | main.py:60 | The name with `/`, then space, replaced by `_`, followed by `.json` |
| FileNames.ReplaceCharAt | main.py:60 | `replace` on one character changes exactly its occurrences and keeps the length |
| FileNames.PlaylistFileNameSpec | main.py:60 | The file name is 5 characters longer than the name and ends in `.json`; each character of the name maps to `_` if it is `/` or a space and stays unchanged otherwise, so the stem holds no `/` or space |
| FileNames.SameFileName | main.py:60 | A name's file name is `stem + ".json"` for the stem that sanitizes the name character by character |
| FileNames.RoadTripExample | main.py:60 | "Road Trip/2024" is saved as "Road_Trip_2024.json" |
| FileNames.SlashAndSpaceCollide | main.py:60 | "Road Trip" and "Road/Trip" get the same file name |
| FileNames.LikedSongsCollide | main.py:91 | A playlist named "liked songs" gets the liked songs file name |
| Config.GetEnv | main.py:145-148 | `os.getenv(name)`: the variable's value in the environment map, `None` when it is unset |
| Config.Given | main.py:150 | Python truthiness of a setting: `None` and the empty string are false |
| Config.Or | main.py:145-148 | Python `flag or os.getenv(...)`: the flag when truthy, otherwise the environment value as it is |
| Config.Resolve | main.py:145-151 | Each setting is its flag when truthy, else its environment variable; a missing or empty one raises `ValueError` |
| Config.ResolveFailsIff | main.py:145-151 | Resolution fails if and only if some setting is available from neither a non-empty flag nor a non-empty environment variable |
| Config.ResolvedValues | main.py:145-148 | On success every setting is non-empty, taken from its flag when the flag is non-empty, otherwise from its environment variable |
| Config.MissingOutputDirFails | main.py:148-151 | With neither a non-empty flag nor a non-empty `SPOTIFY_OUTPUT_DIR`, resolution fails whatever the credentials |
| Export.PlaylistDocument | main.py:44-57 | The `playlist_data` dict: `name`, `description` and the records under `tracks`, in that order |
| Export.LikedSongsDocument | main.py:76-88 | The `liked_songs_data` dict: `name` "Liked Songs" and the records under `tracks` |
| Export.FileNameOf | main.py:60 | The file name of a string name; `.replace` on any other name raises `AttributeError` |
| Export.PlaylistExport | main.py:31-61 | One playlist: `id`, `name`, `get('description')`, the comprehension, the file name and the save, raising in that order |
| Export.LikedSongsExport | main.py:75-91 | The liked songs: the comprehension and the save under `liked_songs.json` |
| Export.PlaylistsRun | main.py:31-64 | The playlist loop followed by the liked songs export; the first exception ends the run, keeping the files written before it |
| Export.Save | main.py:17-18 | The saved document holds no `available_markets`, and data already free of it is saved unchanged |
| Export.PlaylistExportOk | main.py:31-61 | A playlist is exported if and only if it has `id` and a string `name` and its items project. The file is then named after the name, and the document is the pruned dict of name, description (null when absent) and records |
| Export.RecordsJson | main.py:47-56 | The records become the list of dicts under `tracks`, one per record, in order |
| Export.PrunedPlaylistDocument | main.py:44-57 | Pruning a playlist document keeps `name`, `description` and `tracks` in order, with the pruned name and description, and the pruned k-th record as the k-th entry |
| Export.PrunedLikedSongsDocument | main.py:76-88 | Pruning the liked songs document keeps `name: "Liked Songs"` and `tracks`, with the pruned k-th record as the k-th entry |
| Export.PlaylistDocumentShape | main.py:44-61 | A saved playlist document holds no `available_markets`, keeps its three keys in order with the pruned name and description (null when absent), and its k-th track entry is the pruned k-th record |
| Export.LikedSongsShape | main.py:76-91 | The liked songs file is `liked_songs.json`, holds no `available_markets`, is named "Liked Songs", and its k-th track entry is the pruned k-th record |
| Export.ExportPlaylist | main.py:31-61 | One loop iteration raises or writes exactly what the export of the playlist's gathered items does |
| Export.ExportLikedSongs | main.py:66-91 | `export_liked_songs` raises or writes exactly what the export of the gathered liked songs does |
| Export.PlaylistsRunFiles | main.py:23-64 | Every written file is free of `available_markets`. A run without an exception writes one file per playlist and then the liked songs file. A failing run writes at most one file per playlist |
| Export.PlaylistsRunSaved | main.py:31-64 | The k-th file written is the k-th playlist's export, and a run without an exception ends with the liked songs export's file |
| Export.PlaylistsRunFailure | main.py:31-64 | A failing run keeps exactly the files of the playlists before the first one that raised, and raises that playlist's exception, or the liked songs export's when every playlist was written |
| Export.PlaylistsRunFailsIff | main.py:31-64 | The run raises if and only if some playlist's export or the liked songs export raises |
| Export.ExportPlaylists | main.py:23-64 | The loop writes the files of the run in order and stops at the first exception. Every file is free of `available_markets`, and a complete run ends with the liked songs file |

## Left out

- The Spotify API and OAuth (`user_playlists`, `current_user`, `playlist_tracks`, `current_user_saved_tracks`, `sp.next`, `SpotifyOAuth`): their responses are parameters. These are the first page of the playlist listing and, for each playlist and for the liked songs, the pages the cursors walk through.
- A failing API call is not modelled. In the source, a spotipy exception from `user_playlists`, `playlist_tracks`, `sp.next` or `current_user_saved_tracks` ends the run and leaves the files already written. `Export.PlaylistsRunFailsIff` and `Export.PlaylistsRunFailure` cover only the exceptions raised by the lookups, the comprehension and the file name.
- The playlist listing is not paged. The source iterates only over the first page's `items` (main.py:31), so the model takes that list as given.
- Page `items` and `next` are typed fields of `Page`. A response missing either key, which would raise `KeyError`, is not modelled. A cursor is a page index, not a URL.
- Pagination.Accumulate requires every cursor to point to a later page. A server whose cursors cycle would make the source loop forever, and that behaviour is not modelled.
- The list aliasing in `tracks = results['items']` followed by `extend` is not modelled: the first response's list grows in place, but nothing reads it afterwards.
- Pruning.Prune returns a new value instead of popping in place. Values are trees, so a dict shared between two places in a response (aliasing) is not modelled.
- Numbers: a `Json.Num` is an exact real, so Python's int `1` and float `1.0` are the same value in the model, although `json.dump` writes them differently (`1` and `1.0`). Truthiness, non-zero, agrees with Python on both.
- Numbers: `NaN` and `Infinity`, which Python's JSON decoder accepts, cannot be represented. The decoder's rounding of decimal fractions is not modelled either.
- A Python dict cannot hold a key twice, but the model's field sequence can. `JsonValue.WellFormed` states this condition, and pruning is proved to preserve it.
- File system effects: `os.makedirs`, `os.path.join`, opening and writing files, `json.dump` formatting (indent, `ensure_ascii`) and the `print` calls. A saved file is its name inside the playlists directory plus its document. A later file with the same name replaces the earlier one on disk. The model records every write in order and does not model the directory.
- `export_top_items`, `export_saved_items` and `export_followed` (main.py:93-134) and the calls to them are not modelled. They unwrap one level of each API result (`['items']`, `['album']`, `['show']`, `['episode']`, `['artists']['items']`), and those subscripts can raise `KeyError` on malformed responses. They then call `save_json`, whose effect `Export.Save` states.
- `argparse` is not modelled: the parsed flags are an input. The process environment is an input map, which `Config.GetEnv` reads as `os.getenv` does. The text of the `ValueError` message is not modelled.
- The `playlist_id` value is read only for the API call. The model keeps the lookup, since it can raise, but does not use the value.
