/** The row projections of `mapDb`: each destructures the listed properties of a row and builds
    a new object literal from them, so every listed name is present in the result (as
    `undefined` when the row lacks it) and nothing else is. */
module MapDb {
  import opened Json

  const SongViewKeys := {"id", "title", "year", "performer", "genre", "duration", "insertedAt", "updatedAt"}
  const SongItemKeys := {"id", "title", "performer"}
  const PlaylistItemKeys := {"id", "name", "username"}

  /** `({ a, b, ... }) => ({ a, b, ... })` for the property names in `keys`. */
  function Project(o: Record, keys: set<string>): (r: Record)
    ensures r.Keys == keys
    ensures forall k :: k in keys ==> r[k] == Field(o, k)
  {
    map k | k in keys :: Field(o, k)
  }

  /** Projecting an already projected object changes nothing. */
  lemma ProjectIdempotent(o: Record, keys: set<string>)
    ensures Project(Project(o, keys), keys) == Project(o, keys)
  {
  }

  /** `mapDb.toSong`: the eight song columns, with the two timestamps renamed to camelCase. */
  function ToSong(o: Record): (r: Record)
    ensures r.Keys == SongViewKeys
    ensures forall k :: k in SongViewKeys - {"insertedAt", "updatedAt"} ==> r[k] == Field(o, k)
    ensures r["insertedAt"] == Field(o, "inserted_at")
    ensures r["updatedAt"] == Field(o, "updated_at")
  {
    map[
      "id" := Field(o, "id"),
      "title" := Field(o, "title"),
      "year" := Field(o, "year"),
      "performer" := Field(o, "performer"),
      "genre" := Field(o, "genre"),
      "duration" := Field(o, "duration"),
      "insertedAt" := Field(o, "inserted_at"),
      "updatedAt" := Field(o, "updated_at")
    ]
  }

  /** `mapDb.toSongs`: exactly `id`, `title` and `performer`. */
  function ToSongs(o: Record): (r: Record)
    ensures r.Keys == {"id", "title", "performer"}
    ensures r["id"] == Field(o, "id") && r["title"] == Field(o, "title")
    ensures r["performer"] == Field(o, "performer")
  {
    Project(o, SongItemKeys)
  }

  /** `mapDb.toPlaylists`: exactly `id`, `name` and `username`. */
  function ToPlaylists(o: Record): (r: Record)
    ensures r.Keys == {"id", "name", "username"}
    ensures r["id"] == Field(o, "id") && r["name"] == Field(o, "name")
    ensures r["username"] == Field(o, "username")
  {
    Project(o, PlaylistItemKeys)
  }

  /** `mapDb.toPlaylistSongs`: exactly `id`, `title` and `performer`. */
  function ToPlaylistSongs(o: Record): (r: Record)
    ensures r.Keys == {"id", "title", "performer"}
    ensures r["id"] == Field(o, "id") && r["title"] == Field(o, "title")
    ensures r["performer"] == Field(o, "performer")
  {
    Project(o, SongItemKeys)
  }

  lemma ToSongsIdempotent(o: Record)
    ensures ToSongs(ToSongs(o)) == ToSongs(o)
  {
    ProjectIdempotent(o, SongItemKeys);
  }

  lemma ToPlaylistsIdempotent(o: Record)
    ensures ToPlaylists(ToPlaylists(o)) == ToPlaylists(o)
  {
    ProjectIdempotent(o, PlaylistItemKeys);
  }

  lemma ToPlaylistSongsIdempotent(o: Record)
    ensures ToPlaylistSongs(ToPlaylistSongs(o)) == ToPlaylistSongs(o)
  {
    ProjectIdempotent(o, SongItemKeys);
  }
}
