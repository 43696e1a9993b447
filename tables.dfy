/** The relational state the services query: four tables keyed by row id. */
module Tables {
  import opened Exceptions
  import Json

  /** A row of `playlists(id, name, owner)`, without its key. */
  datatype Playlist = Playlist(name: string, owner: string)

  /** A row of `collaborations(id, user_id, playlist_id)`, without its key. */
  datatype Collaboration = Collaboration(userId: string, playlistId: string)

  /** A row of `playlistsongs(id, playlist_id, song_id)`, without its key. */
  datatype Membership = Membership(playlistId: string, songId: string)

  /** The five columns a song insert or update binds from its payload; `None` is SQL NULL. */
  datatype SongFields = SongFields(
    title: string, year: int, performer: string, genre: Option<string>, duration: Option<real>)

  /** A row of `songs`, without its key. */
  datatype Song = Song(fields: SongFields, insertedAt: string, updatedAt: string)

  /** `(id, title, performer)`, the rows of the song listings. */
  datatype SongItem = SongItem(id: string, title: string, performer: string)

  /** `(id, name, username)`, the rows of the playlist listing; `None` when no user row joins. */
  datatype PlaylistItem = PlaylistItem(id: string, name: string, username: Option<string>)

  class Database {
    var playlists: map<string, Playlist>
    var collaborations: map<string, Collaboration>
    var playlistSongs: map<string, Membership>
    var songs: map<string, Song>

    constructor ()
      ensures playlists == map[] && collaborations == map[]
      ensures playlistSongs == map[] && songs == map[]
    {
      playlists, collaborations, playlistSongs, songs := map[], map[], map[], map[];
    }
  }

  /** `SELECT ... WHERE <columns> = <row>` finds at least one row. */
  predicate HasRow<R(==)>(t: map<string, R>, row: R) {
    exists id :: id in t && t[id] == row
  }

  /** `DELETE FROM t WHERE <columns> = <row>`: every matching row goes, every other row stays. */
  function DeleteRows<R(==, !new)>(t: map<string, R>, row: R): (r: map<string, R>)
    ensures forall id :: id in r <==> id in t && t[id] != row
    ensures forall id :: id in r ==> r[id] == t[id]
    ensures !HasRow(r, row)
    ensures forall other :: other != row ==> (HasRow(r, other) <==> HasRow(t, other))
  {
    var r := map id | id in t && t[id] != row :: t[id];
    forall other | other != row && HasRow(t, other)
      ensures HasRow(r, other)
    {
      var id :| id in t && t[id] == other;
      assert id in r;
    }
    r
  }

  /** After inserting `row` under `id`, a lookup of `row` finds it, and a lookup of any other
      row finds what it found before (when `id` was a fresh key). */
  lemma InsertRow<R>(t: map<string, R>, id: string, row: R, other: R)
    requires id !in t
    ensures HasRow(t[id := row], row)
    ensures other != row ==> (HasRow(t[id := row], other) <==> HasRow(t, other))
  {
    assert t[id := row][id] == row;
    if other != row && HasRow(t[id := row], other) {
      var k :| k in t[id := row] && t[id := row][k] == other;
      assert k != id && k in t && t[k] == other;
    }
    if HasRow(t, other) {
      var k :| k in t && t[k] == other;
      assert k in t[id := row] && t[id := row][k] == other;
    }
  }

  /** The object node-postgres builds for a `songs` row (`SELECT *`): snake_case column names,
      NULL as `null`. */
  function SongRowObject(id: string, s: Song): (o: Json.Record)
    ensures o.Keys == {"id", "title", "year", "performer", "genre", "duration", "inserted_at", "updated_at"}
    ensures o["id"] == Json.Str(id) && o["title"] == Json.Str(s.fields.title)
    ensures o["year"] == Json.Number(s.fields.year as real) && o["performer"] == Json.Str(s.fields.performer)
    ensures o["genre"] == NullableString(s.fields.genre) && o["duration"] == NullableNumber(s.fields.duration)
    ensures o["inserted_at"] == Json.Str(s.insertedAt) && o["updated_at"] == Json.Str(s.updatedAt)
  {
    map[
      "id" := Json.Str(id),
      "title" := Json.Str(s.fields.title),
      "year" := Json.Number(s.fields.year as real),
      "performer" := Json.Str(s.fields.performer),
      "genre" := NullableString(s.fields.genre),
      "duration" := NullableNumber(s.fields.duration),
      "inserted_at" := Json.Str(s.insertedAt),
      "updated_at" := Json.Str(s.updatedAt)
    ]
  }

  function NullableString(v: Option<string>): Json.Value {
    match v
    case None => Json.Null
    case Some(s) => Json.Str(s)
  }

  function NullableNumber(v: Option<real>): Json.Value {
    match v
    case None => Json.Null
    case Some(n) => Json.Number(n)
  }
}
