/** `CollaborationsService`: grants of playlist access to non-owners, in the `collaborations`
    table. */
module CollaborationsService {
  import opened Exceptions
  import opened Tables
  import Ids

  const IdPrefix := "collab-"

  // The messages `CollaborationsService` raises (the add failure reuses the success wording).
  const AddFailed := "Kolaborasi berhasil ditambahkan"
  const VerifyFailed := "Kolaborasi gagal diverifikasi"
  const DeleteFailed := "Kolaborasi gagal dihapus"

  class CollaborationsService {
    const db: Database

    constructor (db: Database)
      ensures this.db == db
    {
      this.db := db;
    }

    /** `INSERT INTO collaborations VALUES(id, userId, playlistId) RETURNING id`. `nano` is the
        generated part of the id; `storeAccepts` is the verdict of the table's constraints,
        which are not part of this model. The insert affects no row when either rejects it. */
    method AddCollaboration(userId: string, playlistId: string, nano: string, storeAccepts: bool)
      returns (r: Result<string>)
      requires Ids.IsNanoid(nano)
      modifies db`collaborations
      ensures r.Ok? <==> storeAccepts && IdPrefix + nano !in old(db.collaborations)
      ensures r.Ok? ==> r.value == IdPrefix + nano && Ids.IsGenerated(IdPrefix, r.value)
      ensures r.Ok? ==> db.collaborations == old(db.collaborations)[r.value := Collaboration(userId, playlistId)]
      ensures r.Ok? ==> VerifyCollaborator(userId, playlistId).Pass?
      ensures r.Err? ==> r.error == Error(InvariantError, AddFailed)
      ensures r.Err? ==> db.collaborations == old(db.collaborations)
    {
      var id := Ids.Generate(IdPrefix, nano);
      if !storeAccepts || id in db.collaborations {
        return Err(Error(InvariantError, AddFailed));
      }
      InsertRow(db.collaborations, id, Collaboration(userId, playlistId), Collaboration(userId, playlistId));
      db.collaborations := db.collaborations[id := Collaboration(userId, playlistId)];
      r := Ok(id);
    }

    /** `SELECT * FROM collaborations WHERE user_id = userId AND playlist_id = playlistId`, and an
        InvariantError when nothing matches. */
    function VerifyCollaborator(userId: string, playlistId: string): (r: Outcome)
      reads db
      ensures r.Pass? <==> exists id :: id in db.collaborations &&
                             db.collaborations[id].userId == userId &&
                             db.collaborations[id].playlistId == playlistId
      ensures r.Fail? ==> r.error == Error(InvariantError, VerifyFailed)
    {
      if HasRow(db.collaborations, Collaboration(userId, playlistId)) then Pass
      else Fail(Error(InvariantError, VerifyFailed))
    }

    /** `DELETE FROM collaborations WHERE user_id = userId AND playlist_id = playlistId`, and an
        InvariantError when nothing was deleted. */
    method DeleteCollaboration(userId: string, playlistId: string) returns (r: Outcome)
      modifies db`collaborations
      ensures r.Pass? <==> old(VerifyCollaborator(userId, playlistId)).Pass?
      ensures r.Fail? ==> r.error == Error(InvariantError, DeleteFailed)
      ensures db.collaborations == DeleteRows(old(db.collaborations), Collaboration(userId, playlistId))
      ensures r.Fail? ==> db.collaborations == old(db.collaborations)
      ensures VerifyCollaborator(userId, playlistId).Fail?
    {
      var row := Collaboration(userId, playlistId);
      var found := HasRow(db.collaborations, row);
      db.collaborations := DeleteRows(db.collaborations, row);
      if !found {
        return Fail(Error(InvariantError, DeleteFailed));
      }
      r := Pass;
    }
  }
}
