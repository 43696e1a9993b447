/** `collaborationsHandler`: only a playlist's owner may grant or withdraw collaborations. Each
    handler validates the payload, runs the owner check on the payload's `playlistId`, and only
    then changes the table. */
module CollaborationsHandler {
  import opened Exceptions
  import opened Responses
  import opened Tables
  import Json
  import Ids
  import CollaborationSchema
  import CollaborationsService
  import PlaylistsService

  const Added := "Kolaborasi berhasil ditambahkan"
  const Removed := "Kolaborasi berhasil dihapus."

  class CollaborationsHandler {
    const collaborationsService: CollaborationsService.CollaborationsService
    const playlistsService: PlaylistsService.PlaylistsService

    predicate Valid() {
      playlistsService.Valid() && collaborationsService.db == playlistsService.db
    }

    constructor (collaborationsService: CollaborationsService.CollaborationsService,
                 playlistsService: PlaylistsService.PlaylistsService)
      requires playlistsService.Valid() && collaborationsService.db == playlistsService.db
      ensures Valid()
      ensures this.collaborationsService == collaborationsService && this.playlistsService == playlistsService
    {
      this.collaborationsService := collaborationsService;
      this.playlistsService := playlistsService;
    }

    /** POST: `credentialId` is the caller's identity from the access token; `validationMessage`
        is the schema's error message; `nano` and `storeAccepts` go to `addCollaboration`. */
    method PostCollaboration(credentialId: string, payload: Json.Record, validationMessage: string,
                             nano: string, storeAccepts: bool) returns (r: Result<Reply>)
      requires Valid() && Ids.IsNanoid(nano)
      modifies collaborationsService.db`collaborations
      ensures !CollaborationSchema.Valid(payload) ==>
                r == Err(Error(InvariantError, validationMessage)) &&
                collaborationsService.db.collaborations == old(collaborationsService.db.collaborations)
      ensures CollaborationSchema.Valid(payload) ==>
                var check := old(playlistsService.VerifyPlaylistOwner(credentialId, CollaborationSchema.PlaylistId(payload)));
                check != PlaylistsService.Owned ==>
                  r == Err(check.Raise().error) &&
                  collaborationsService.db.collaborations == old(collaborationsService.db.collaborations)
      ensures CollaborationSchema.Valid(payload) &&
              old(playlistsService.VerifyPlaylistOwner(credentialId, CollaborationSchema.PlaylistId(payload)))
                == PlaylistsService.Owned ==>
                && (r.Ok? <==> storeAccepts && CollaborationsService.IdPrefix + nano !in old(collaborationsService.db.collaborations))
                && (r.Err? ==> r.error == Error(InvariantError, CollaborationsService.AddFailed))
      ensures r.Ok? ==>
                && CollaborationSchema.Valid(payload)
                && old(playlistsService.VerifyPlaylistOwner(credentialId, CollaborationSchema.PlaylistId(payload)))
                     == PlaylistsService.Owned
                && r.value == Reply(201, Added, Some(CollaborationsService.IdPrefix + nano))
                && collaborationsService.db.collaborations ==
                     old(collaborationsService.db.collaborations)[CollaborationsService.IdPrefix + nano :=
                       Collaboration(CollaborationSchema.UserId(payload), CollaborationSchema.PlaylistId(payload))]
                && playlistsService.VerifyPlaylistAccess(
                     CollaborationSchema.UserId(payload), CollaborationSchema.PlaylistId(payload)).Pass?
      ensures r.Err? ==> collaborationsService.db.collaborations == old(collaborationsService.db.collaborations)
    {
      var valid := CollaborationSchema.Validate(payload, validationMessage);
      if valid.Fail? {
        return Err(valid.error);
      }
      var userId := CollaborationSchema.UserId(payload);
      var playlistId := CollaborationSchema.PlaylistId(payload);
      var check := playlistsService.VerifyPlaylistOwner(credentialId, playlistId);
      if check != PlaylistsService.Owned {
        return Err(check.Raise().error);
      }
      var added := collaborationsService.AddCollaboration(userId, playlistId, nano, storeAccepts);
      if added.Err? {
        return Err(added.error);
      }
      r := Ok(Reply(201, Added, Some(added.value)));
    }

    /** DELETE: the same guard, then `deleteCollaboration`. The reply has no explicit code, so it
        goes out with the framework's default 200. */
    method DeleteCollaboration(credentialId: string, payload: Json.Record, validationMessage: string)
      returns (r: Result<Reply>)
      requires Valid()
      modifies collaborationsService.db`collaborations
      ensures !CollaborationSchema.Valid(payload) ==>
                r == Err(Error(InvariantError, validationMessage)) &&
                collaborationsService.db.collaborations == old(collaborationsService.db.collaborations)
      ensures CollaborationSchema.Valid(payload) ==>
                var check := old(playlistsService.VerifyPlaylistOwner(credentialId, CollaborationSchema.PlaylistId(payload)));
                check != PlaylistsService.Owned ==>
                  r == Err(check.Raise().error) &&
                  collaborationsService.db.collaborations == old(collaborationsService.db.collaborations)
      ensures CollaborationSchema.Valid(payload) &&
              old(playlistsService.VerifyPlaylistOwner(credentialId, CollaborationSchema.PlaylistId(payload)))
                == PlaylistsService.Owned ==>
                && (r.Ok? <==> old(collaborationsService.VerifyCollaborator(
                                     CollaborationSchema.UserId(payload), CollaborationSchema.PlaylistId(payload))).Pass?)
                && (r.Err? ==> r.error == Error(InvariantError, CollaborationsService.DeleteFailed))
      ensures r.Ok? ==>
                && CollaborationSchema.Valid(payload)
                && old(playlistsService.VerifyPlaylistOwner(credentialId, CollaborationSchema.PlaylistId(payload)))
                     == PlaylistsService.Owned
                && r.value == Reply(200, Removed, None)
                && collaborationsService.db.collaborations ==
                     DeleteRows(old(collaborationsService.db.collaborations),
                       Collaboration(CollaborationSchema.UserId(payload), CollaborationSchema.PlaylistId(payload)))
                && collaborationsService.VerifyCollaborator(
                     CollaborationSchema.UserId(payload), CollaborationSchema.PlaylistId(payload)).Fail?
      ensures r.Err? ==> collaborationsService.db.collaborations == old(collaborationsService.db.collaborations)
    {
      var valid := CollaborationSchema.Validate(payload, validationMessage);
      if valid.Fail? {
        return Err(valid.error);
      }
      var userId := CollaborationSchema.UserId(payload);
      var playlistId := CollaborationSchema.PlaylistId(payload);
      var check := playlistsService.VerifyPlaylistOwner(credentialId, playlistId);
      if check != PlaylistsService.Owned {
        return Err(check.Raise().error);
      }
      var removed := collaborationsService.DeleteCollaboration(userId, playlistId);
      if removed.Fail? {
        return Err(removed.error);
      }
      r := Ok(Reply(200, Removed, None));
    }
  }
}
