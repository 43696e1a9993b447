/** `SongsService`: the `songs` catalogue. */
module SongsService {
  import opened Exceptions
  import opened Tables
  import Ids
  import Json
  import MapDb

  const IdPrefix := "song-"

  const AddFailed := "Failed to add song."
  const NotFound := "Song not found."
  const EditFailed := "Failed to edit song. Song not Found."
  const DeleteFailed := "Failed to delete song. Song not Found."
  const UndefinedId := "Cannot read properties of undefined (reading 'id')"

  /** The tail of `addSong` as written: `result.rows[0].id` is read before the guard, so an insert that
      returned no row fails with a TypeError and the InvariantError branch is reached only by
      an empty id. */
  function InsertedIdAsWritten(returned: seq<string>): (r: Result<string>)
    ensures |returned| == 0 ==> r.Err? && r.error.kind == TypeError
    ensures r.Ok? ==> r.value == returned[0]
  {
    if |returned| == 0 then Err(Error(TypeError, UndefinedId))
    else if returned[0] == "" then Err(Error(InvariantError, AddFailed))
    else Ok(returned[0])
  }

  /** The guard the other services use (`!result.rowCount`): no returned row is an InvariantError. */
  function InsertedId(returned: seq<string>): (r: Result<string>)
    ensures r.Err? <==> |returned| == 0
    ensures r.Err? ==> r.error == Error(InvariantError, AddFailed)
    ensures r.Ok? ==> r.value == returned[0]
  {
    if |returned| == 0 then Err(Error(InvariantError, AddFailed)) else Ok(returned[0])
  }

  /** An insert that affects no row: as written it surfaces a TypeError, not the InvariantError
      the guard was written for; the corrected guard raises the InvariantError. */
  lemma ZeroRowInsert()
    ensures InsertedIdAsWritten([]).Err? && InsertedIdAsWritten([]).error.kind == TypeError
    ensures InsertedId([]) == Err(Error(InvariantError, AddFailed))
  {
  }

  class SongsService {
    const db: Database

    constructor (db: Database)
      ensures this.db == db
    {
      this.db := db;
    }

    /** `INSERT INTO songs VALUES(id, title, year, performer, genre, duration, now, now)`: both
        timestamps take the one value `now`. An id clash affects no row. */
    method AddSong(payload: SongFields, nano: string, now: string) returns (r: Result<string>)
      requires Ids.IsNanoid(nano)
      modifies db`songs
      ensures r.Ok? <==> IdPrefix + nano !in old(db.songs)
      ensures r.Ok? ==> r.value == IdPrefix + nano && Ids.IsGenerated(IdPrefix, r.value)
      ensures r.Ok? ==> db.songs == old(db.songs)[r.value := Song(payload, now, now)]
      ensures r.Ok? ==> GetSongById(r.value).Ok? &&
                        GetSongById(r.value).value["title"] == Json.Str(payload.title) &&
                        GetSongById(r.value).value["insertedAt"] == GetSongById(r.value).value["updatedAt"]
      ensures r.Err? ==> r.error == Error(InvariantError, AddFailed) && db.songs == old(db.songs)
    {
      var id := Ids.Generate(IdPrefix, nano);
      var returned: seq<string> := [];
      if id !in db.songs {
        db.songs := db.songs[id := Song(payload, now, now)];
        returned := [id];
      }
      r := InsertedId(returned);
    }

    /** `SELECT id, title, performer FROM songs`. */
    function GetSongs(): (r: set<SongItem>)
      reads db
      ensures forall item :: item in r ==>
                && item.id in db.songs
                && item.title == db.songs[item.id].fields.title
                && item.performer == db.songs[item.id].fields.performer
      ensures forall id :: id in db.songs ==>
                SongItem(id, db.songs[id].fields.title, db.songs[id].fields.performer) in r
    {
      set id | id in db.songs :: SongItem(id, db.songs[id].fields.title, db.songs[id].fields.performer)
    }

    /** `SELECT * FROM songs WHERE id = id`, shaped by `mapDb.toSong`; NotFoundError when absent. */
    function GetSongById(id: string): (r: Result<Json.Record>)
      reads db
      ensures r.Err? <==> id !in db.songs
      ensures r.Err? ==> r.error == Error(NotFoundError, NotFound)
      ensures r.Ok? ==> r.value.Keys == MapDb.SongViewKeys
      ensures r.Ok? ==> var s := db.songs[id];
                && r.value["id"] == Json.Str(id)
                && r.value["title"] == Json.Str(s.fields.title)
                && r.value["year"] == Json.Number(s.fields.year as real)
                && r.value["performer"] == Json.Str(s.fields.performer)
                && r.value["genre"] == NullableString(s.fields.genre)
                && r.value["duration"] == NullableNumber(s.fields.duration)
                && r.value["insertedAt"] == Json.Str(s.insertedAt)
                && r.value["updatedAt"] == Json.Str(s.updatedAt)
    {
      if id !in db.songs then Err(Error(NotFoundError, NotFound))
      else Ok(MapDb.ToSong(SongRowObject(id, db.songs[id])))
    }

    /** `UPDATE songs SET <five columns>, updated_at = now WHERE id = id`; NotFoundError when
        no row matched. */
    method EditSong(id: string, payload: SongFields, now: string) returns (r: Outcome)
      modifies db`songs
      ensures r.Pass? <==> id in old(db.songs)
      ensures r.Pass? ==> db.songs == old(db.songs)[id := Song(payload, old(db.songs)[id].insertedAt, now)]
      ensures r.Fail? ==> r.error == Error(NotFoundError, EditFailed) && db.songs == old(db.songs)
      ensures db.songs.Keys == old(db.songs).Keys
    {
      if id !in db.songs {
        return Fail(Error(NotFoundError, EditFailed));
      }
      db.songs := db.songs[id := db.songs[id].(fields := payload, updatedAt := now)];
      r := Pass;
    }

    /** `DELETE FROM songs WHERE id = id`; NotFoundError when no row was deleted. */
    method DeleteSong(id: string) returns (r: Outcome)
      modifies db`songs
      ensures r.Pass? <==> id in old(db.songs)
      ensures db.songs == old(db.songs) - {id}
      ensures r.Fail? ==> r.error == Error(NotFoundError, DeleteFailed)
      ensures GetSongById(id).Err?
    {
      if id !in db.songs {
        return Fail(Error(NotFoundError, DeleteFailed));
      }
      db.songs := db.songs - {id};
      r := Pass;
    }
  }
}
