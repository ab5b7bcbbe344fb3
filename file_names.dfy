/**
 * The playlist file name (main.py:60): the playlist's name with every `/` and
 * every space replaced by `_`, followed by `.json`.  The file is then written
 * at `playlists/<file name>`; the liked songs go to a fixed name (main.py:91).
 */
module FileNames {

  /** Python `s.replace(from, to)` for one-character `from` and `to`. */
  function ReplaceChar(s: string, from: char, to: char): string
  {
    if s == [] then []
    else [if s[0] == from then to else s[0]] + ReplaceChar(s[1..], from, to)
  }

  /** `f"{name.replace('/', '_').replace(' ', '_')}.json"` */
  function PlaylistFileName(name: string): string
  {
    ReplaceChar(ReplaceChar(name, '/', '_'), ' ', '_') + ".json"
  }

  /** The fixed file name of the liked songs export. */
  const LikedSongsFileName: string := "liked_songs.json"

  /** What a name's character becomes in the file name. */
  function SanitizeChar(c: char): char
  {
    if c == '/' || c == ' ' then '_' else c
  }

  /** Replacing a character changes exactly its occurrences and keeps the length. */
  lemma {:induction false} ReplaceCharAt(s: string, from: char, to: char)
    ensures |ReplaceChar(s, from, to)| == |s|
    ensures forall i :: 0 <= i < |s| ==>
      ReplaceChar(s, from, to)[i] == (if s[i] == from then to else s[i])
  {
    if s != [] {
      ReplaceCharAt(s[1..], from, to);
      forall i | 1 <= i < |s|
        ensures ReplaceChar(s, from, to)[i] == (if s[i] == from then to else s[i])
      {
        assert s[1..][i - 1] == s[i];
      }
    }
  }

  /**
   * The file name is the name, character for character, with `/` and space
   * turned into `_` and everything else unchanged, followed by `.json`: it
   * is five characters longer than the name and its stem holds neither a `/`
   * nor a space, so the file lands directly inside the playlists directory.
   */
  lemma PlaylistFileNameSpec(name: string)
    ensures var f := PlaylistFileName(name);
      && |f| == |name| + 5
      && f[|name|..] == ".json"
      && (forall i :: 0 <= i < |name| ==> f[i] == SanitizeChar(name[i]))
      && (forall i :: 0 <= i < |name| ==> f[i] != '/' && f[i] != ' ')
  {
    var once := ReplaceChar(name, '/', '_');
    ReplaceCharAt(name, '/', '_');
    ReplaceCharAt(once, ' ', '_');
  }

  /** A worked example: "Road Trip/2024" is saved as "Road_Trip_2024.json". */
  lemma RoadTripExample()
    ensures PlaylistFileName("Road Trip/2024") == "Road_Trip_2024.json"
  {
    assert "Road_Trip_2024.json" == "Road_Trip_2024" + ".json";
    SameFileName("Road Trip/2024", "Road_Trip_2024");
  }

  /**
   * Distinct playlists can share a file, the later one overwriting the
   * earlier: "Road Trip" and "Road/Trip" collide.
   */
  lemma SlashAndSpaceCollide()
    ensures PlaylistFileName("Road Trip") == PlaylistFileName("Road/Trip")
  {
    SameFileName("Road Trip", "Road_Trip");
    SameFileName("Road/Trip", "Road_Trip");
  }

  /** A playlist called "liked songs" shares its file with the liked songs export, which is written after it. */
  lemma LikedSongsCollide()
    ensures PlaylistFileName("liked songs") == LikedSongsFileName
  {
    assert LikedSongsFileName == "liked_songs" + ".json";
    SameFileName("liked songs", "liked_songs");
  }

  /** A name's file name is `stem + ".json"` when `stem` is the name with each character sanitized. */
  lemma SameFileName(name: string, stem: string)
    requires |stem| == |name|
    requires forall i :: 0 <= i < |name| ==> stem[i] == SanitizeChar(name[i])
    ensures PlaylistFileName(name) == stem + ".json"
  {
    PlaylistFileNameSpec(name);
    var f := PlaylistFileName(name);
    assert f[..|name|] == stem;
    assert f == f[..|name|] + f[|name|..];
  }
}
