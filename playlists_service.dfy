/** `PlaylistsService`: playlists, their songs, and the access decision the route handlers use. */
module PlaylistsService {
  import opened Exceptions
  import opened Tables
  import Ids
  import CollaborationsService
  import SongsService

  const IdPrefix := "playlist-"
  const MembershipPrefix := "playlistsongs-"

  const AddFailed := "Playlist gagal ditambahkan"
  const DeleteFailed := "Playlist gagal dihapus, id tidak ditemukan"
  const SongMissingOnAdd := "Lagu gagal ditambahkan ke playlist, id tidak ditemukan"
  const AddSongFailed := "Lagu gagal ditambahkan ke playlist"
  const SongNotInPlaylist := "Lagu gagal dihapus dari playlist, id tidak ditemukan"
  const PlaylistNotFound := "Playlist tidak ditemukan"
  const NoAccess := "Anda tidak berhak mengakses resource ini"

  /** The three ways the ownership check ends. */
  datatype OwnerCheck = Owned | NotFound | Forbidden {
    /** The exception `verifyPlaylistOwner` throws for this ending, if any. */
    function Raise(): (r: Outcome)
      ensures r.Pass? <==> this == Owned
      ensures this == NotFound ==> r == Fail(Error(NotFoundError, PlaylistNotFound))
      ensures this == Forbidden ==> r == Fail(Error(AuthorizationError, NoAccess))
    {
      match this
      case Owned => Pass
      case NotFound => Fail(Error(NotFoundError, PlaylistNotFound))
      case Forbidden => Fail(Error(AuthorizationError, NoAccess))
    }
  }

  /** The access rule stated on the tables alone: the playlist exists, and the user owns it or
      holds a collaboration on it. */
  predicate MayAccess(playlists: map<string, Playlist>, collaborations: map<string, Collaboration>,
                      userId: string, playlistId: string)
  {
    playlistId in playlists &&
    (playlists[playlistId].owner == userId || HasRow(collaborations, Collaboration(userId, playlistId)))
  }

  /** A LEFT JOIN on `users`: the owner's username, or NULL. */
  function Username(usernames: map<string, string>, userId: string): Option<string> {
    if userId in usernames then Some(usernames[userId]) else None
  }

  class PlaylistsService {
    const db: Database
    const collaborationsService: CollaborationsService.CollaborationsService
    const songsService: SongsService.SongsService

    /** Every service's connection pool reaches the same database. */
    predicate Valid() {
      collaborationsService.db == db && songsService.db == db
    }

    constructor (collaborationsService: CollaborationsService.CollaborationsService,
                 songsService: SongsService.SongsService)
      requires collaborationsService.db == songsService.db
      ensures Valid() && db == collaborationsService.db
      ensures this.collaborationsService == collaborationsService && this.songsService == songsService
    {
      this.db := collaborationsService.db;
      this.collaborationsService := collaborationsService;
      this.songsService := songsService;
    }

    /** `INSERT INTO playlists VALUES(id, name, owner) ON CONFLICT DO NOTHING RETURNING id`: an id
        clash inserts nothing and is an InvariantError. */
    method AddPlaylist(name: string, owner: string, nano: string) returns (r: Result<string>)
      requires Ids.IsNanoid(nano)
      modifies db`playlists
      ensures r.Ok? <==> IdPrefix + nano !in old(db.playlists)
      ensures r.Ok? ==> r.value == IdPrefix + nano && Ids.IsGenerated(IdPrefix, r.value)
      ensures r.Ok? ==> db.playlists == old(db.playlists)[r.value := Playlist(name, owner)]
      ensures r.Ok? ==> VerifyPlaylistOwner(owner, r.value) == Owned
      ensures r.Err? ==> r.error == Error(InvariantError, AddFailed) && db.playlists == old(db.playlists)
    {
      var id := Ids.Generate(IdPrefix, nano);
      if id in db.playlists {
        return Err(Error(InvariantError, AddFailed));
      }
      db.playlists := db.playlists[id := Playlist(name, owner)];
      r := Ok(id);
    }

    /** The playlists `owner` owns or collaborates on, each as `(id, name, username)`; a playlist
        joined to several collaborations is listed once here. */
    function GetPlaylists(owner: string, usernames: map<string, string>): (r: set<PlaylistItem>)
      reads db
      ensures forall item :: item in r ==>
                && MayAccess(db.playlists, db.collaborations, owner, item.id)
                && item.name == db.playlists[item.id].name
                && item.username == Username(usernames, db.playlists[item.id].owner)
      ensures forall id :: MayAccess(db.playlists, db.collaborations, owner, id) ==>
                PlaylistItem(id, db.playlists[id].name, Username(usernames, db.playlists[id].owner)) in r
    {
      set id | id in db.playlists &&
               (db.playlists[id].owner == owner || HasRow(db.collaborations, Collaboration(owner, id)))
             :: PlaylistItem(id, db.playlists[id].name, Username(usernames, db.playlists[id].owner))
    }

    /** `DELETE FROM playlists WHERE id = id`; NotFoundError when no row was deleted. */
    method DeletePlaylistById(id: string) returns (r: Outcome)
      modifies db`playlists
      ensures r.Pass? <==> id in old(db.playlists)
      ensures db.playlists == old(db.playlists) - {id}
      ensures r.Fail? ==> r.error == Error(NotFoundError, DeleteFailed)
      ensures forall caller :: VerifyPlaylistOwner(caller, id) == NotFound
    {
      if id !in db.playlists {
        return Fail(Error(NotFoundError, DeleteFailed));
      }
      db.playlists := db.playlists - {id};
      r := Pass;
    }

    /** Checks the song exists, then `INSERT INTO playlistsongs VALUES(id, playlistId, songId)`.
        `storeAccepts` is the verdict of the table's constraints, which are not part of this
        model; there is no ON CONFLICT clause, so a rejected insert is an InvariantError. */
    method AddPlaylistSong(playlistId: string, songId: string, nano: string, storeAccepts: bool)
      returns (r: Outcome)
      requires Valid() && Ids.IsNanoid(nano)
      modifies db`playlistSongs
      ensures r.Pass? <==> songId in db.songs && storeAccepts && MembershipPrefix + nano !in old(db.playlistSongs)
      ensures songId !in db.songs ==> r == Fail(Error(InvariantError, SongMissingOnAdd))
      ensures songId in db.songs && r.Fail? ==> r.error == Error(InvariantError, AddSongFailed)
      ensures r.Fail? ==> r.error.kind == InvariantError && db.playlistSongs == old(db.playlistSongs)
      ensures r.Pass? ==>
                db.playlistSongs == old(db.playlistSongs)[MembershipPrefix + nano := Membership(playlistId, songId)]
      ensures r.Pass? ==>
                SongItem(songId, db.songs[songId].fields.title, db.songs[songId].fields.performer)
                  in GetPlaylistSongs(playlistId)
    {
      var songExists := VerifySongById(songId);
      if !songExists {
        return Fail(Error(InvariantError, SongMissingOnAdd));
      }
      var id := Ids.Generate(MembershipPrefix, nano);
      if !storeAccepts || id in db.playlistSongs {
        return Fail(Error(InvariantError, AddSongFailed));
      }
      InsertRow(db.playlistSongs, id, Membership(playlistId, songId), Membership(playlistId, songId));
      db.playlistSongs := db.playlistSongs[id := Membership(playlistId, songId)];
      r := Pass;
    }

    /** The songs joined to a membership row of `playlistId`, each as `(id, title, performer)`. */
    function GetPlaylistSongs(playlistId: string): (r: set<SongItem>)
      reads db
      ensures forall item :: item in r ==>
                && item.id in db.songs
                && HasRow(db.playlistSongs, Membership(playlistId, item.id))
                && item.title == db.songs[item.id].fields.title
                && item.performer == db.songs[item.id].fields.performer
      ensures forall id :: id in db.songs && HasRow(db.playlistSongs, Membership(playlistId, id)) ==>
                SongItem(id, db.songs[id].fields.title, db.songs[id].fields.performer) in r
    {
      set id | id in db.songs && HasRow(db.playlistSongs, Membership(playlistId, id))
             :: SongItem(id, db.songs[id].fields.title, db.songs[id].fields.performer)
    }

    /** Checks the song exists, then `DELETE FROM playlistsongs WHERE playlist_id = playlistId AND
        song_id = songId`; NotFoundError when no row was deleted. */
    method DeletePlaylistSong(playlistId: string, songId: string) returns (r: Outcome)
      requires Valid()
      modifies db`playlistSongs
      ensures songId !in db.songs ==> r == Fail(Error(InvariantError, SongNotInPlaylist))
      ensures r.Pass? <==> songId in db.songs && HasRow(old(db.playlistSongs), Membership(playlistId, songId))
      ensures songId in db.songs && r.Fail? ==> r.error == Error(NotFoundError, SongNotInPlaylist)
      ensures db.playlistSongs ==
                if songId in db.songs then DeleteRows(old(db.playlistSongs), Membership(playlistId, songId))
                else old(db.playlistSongs)
      ensures r.Fail? ==> db.playlistSongs == old(db.playlistSongs)
      ensures songId in db.songs ==> forall item :: item in GetPlaylistSongs(playlistId) ==> item.id != songId
    {
      var songExists := VerifySongById(songId);
      if !songExists {
        return Fail(Error(InvariantError, SongNotInPlaylist));
      }
      var row := Membership(playlistId, songId);
      var found := HasRow(db.playlistSongs, row);
      db.playlistSongs := DeleteRows(db.playlistSongs, row);
      if !found {
        return Fail(Error(NotFoundError, SongNotInPlaylist));
      }
      r := Pass;
    }

    /** `SELECT * FROM playlists WHERE id = id`, then a comparison of its owner with `owner`. */
    function VerifyPlaylistOwner(owner: string, id: string): (r: OwnerCheck)
      reads db
      ensures r == NotFound <==> id !in db.playlists
      ensures r == Forbidden <==> id in db.playlists && db.playlists[id].owner != owner
      ensures r == Owned <==> id in db.playlists && db.playlists[id].owner == owner
    {
      if id !in db.playlists then NotFound
      else if db.playlists[id].owner != owner then Forbidden
      else Owned
    }

    /** The owner check first; a missing playlist ends there. A non-owner falls back on the
        collaborator check, and if that fails too the ownership error is raised again: the
        collaborator check's own InvariantError never escapes. */
    function VerifyPlaylistAccess(userId: string, playlistId: string): (r: Outcome)
      requires Valid()
      reads db
      ensures r.Pass? <==> MayAccess(db.playlists, db.collaborations, userId, playlistId)
      ensures r.Fail? ==> r == VerifyPlaylistOwner(userId, playlistId).Raise()
      ensures playlistId !in db.playlists ==> r == Fail(Error(NotFoundError, PlaylistNotFound))
      ensures playlistId in db.playlists && r.Fail? ==> r == Fail(Error(AuthorizationError, NoAccess))
    {
      var owned := VerifyPlaylistOwner(userId, playlistId);
      match owned
      case Owned => Pass
      case NotFound => owned.Raise()
      case Forbidden =>
        if collaborationsService.VerifyCollaborator(userId, playlistId).Pass? then Pass
        else owned.Raise()
    }

    /** `getSongById` succeeds, with every failure read as `false`. */
    function VerifySongById(id: string): (r: bool)
      requires Valid()
      reads db
      ensures r <==> id in db.songs
    {
      songsService.GetSongById(id).Ok?
    }

    /** The listing and the access decision agree: a playlist is listed for a user exactly when
        that user may access it. */
    lemma ListedIffAccessible(userId: string, playlistId: string, usernames: map<string, string>)
      requires Valid()
      ensures (exists item :: item in GetPlaylists(userId, usernames) && item.id == playlistId) <==>
                VerifyPlaylistAccess(userId, playlistId).Pass?
    {
      if VerifyPlaylistAccess(userId, playlistId).Pass? {
        var p := db.playlists[playlistId];
        assert PlaylistItem(playlistId, p.name, Username(usernames, p.owner)) in GetPlaylists(userId, usernames);
      }
    }

    /** On a missing playlist the result does not depend on the collaborations table at all. */
    lemma MissingIgnoresCollaborations(other: PlaylistsService, userId: string, playlistId: string)
      requires Valid() && other.Valid()
      requires other.db.playlists == db.playlists && playlistId !in db.playlists
      ensures VerifyPlaylistAccess(userId, playlistId) == other.VerifyPlaylistAccess(userId, playlistId)
      ensures VerifyPlaylistAccess(userId, playlistId).error.kind == NotFoundError
    {
    }
  }
}
