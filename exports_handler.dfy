/** `ExportsHandler`: an export request is queued only for a user with access to the playlist,
    owner or collaborator alike. */
module ExportsHandler {
  import opened Exceptions
  import opened Responses
  import Json
  import PlaylistsService

  const Queue := "export:playlist-songs"
  const Accepted := "Permintaan Anda sedang kami proses"

  /** The message body, `{ playlistId, targetEmail }` before serialisation. */
  datatype ExportMessage = ExportMessage(playlistId: string, targetEmail: Json.Value)

  datatype QueueMessage = QueueMessage(queue: string, message: ExportMessage)

  /** The message producer, seen as the sequence of messages it has sent. */
  class ProducerService {
    var outbox: seq<QueueMessage>

    constructor ()
      ensures outbox == []
    {
      outbox := [];
    }

    method SendMessage(queue: string, message: ExportMessage)
      modifies this
      ensures outbox == old(outbox) + [QueueMessage(queue, message)]
    {
      outbox := outbox + [QueueMessage(queue, message)];
    }
  }

  class ExportsHandler {
    const producer: ProducerService
    const playlistsService: PlaylistsService.PlaylistsService

    constructor (producer: ProducerService, playlistsService: PlaylistsService.PlaylistsService)
      ensures this.producer == producer && this.playlistsService == playlistsService
    {
      this.producer := producer;
      this.playlistsService := playlistsService;
    }

    /** `playlistId` comes from the route, `userId` from the access token. The export payload
        schema is not part of this model: `payloadValid` is its verdict and `validationMessage`
        its message. */
    method PostExportPlaylistSongs(userId: string, playlistId: string, payload: Json.Record,
                                   payloadValid: bool, validationMessage: string) returns (r: Result<Reply>)
      requires playlistsService.Valid()
      modifies producer
      ensures !payloadValid ==> r == Err(Error(InvariantError, validationMessage))
      ensures payloadValid ==> (r.Ok? <==> playlistsService.VerifyPlaylistAccess(userId, playlistId).Pass?)
      ensures payloadValid && r.Err? ==> r.error == playlistsService.VerifyPlaylistAccess(userId, playlistId).error
      ensures r.Ok? ==> r.value == Reply(201, Accepted, None)
      ensures r.Ok? ==>
                producer.outbox == old(producer.outbox) +
                  [QueueMessage(Queue, ExportMessage(playlistId, Json.Field(payload, "targetEmail")))]
      ensures r.Err? ==> producer.outbox == old(producer.outbox)
    {
      if !payloadValid {
        return Err(Error(InvariantError, validationMessage));
      }
      var access := playlistsService.VerifyPlaylistAccess(userId, playlistId);
      if access.Fail? {
        return Err(access.error);
      }
      producer.SendMessage(Queue, ExportMessage(playlistId, Json.Field(payload, "targetEmail")));
      r := Ok(Reply(201, Accepted, None));
    }
  }
}
