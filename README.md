# OpenMusic API: playlist authorization and table layer

A Dafny model of the part of the OpenMusic REST backend that decides who may touch a playlist and
that changes the four tables behind it. The tables are `playlists` (id to name and owner),
`collaborations` (id, user, playlist), `playlistsongs` (id, playlist, song) and `songs` (id to
record).

- `Tables.Database` holds the four tables as maps from row id to row. The three services
  `CollaborationsService`, `PlaylistsService` and `SongsService` each hold it as `db`, standing for
  their connection pools to one database. Every insert, update and delete is a method whose frame
  is the one table it writes. Its postconditions give the new table and the error raised when the
  statement affects no row.
- The read queries (`getPlaylists`, `getPlaylistSongs`, `getSongs`, `getSongById`) and the checks
  (`verifyPlaylistOwner`, `verifyPlaylistAccess`, `verifyCollaborator`, `verifySongById`) are
  functions that read `db`.
- The access decision is built as `verifyPlaylistAccess` builds it. First comes the owner check, whose typed
  result is `Owned | NotFound | Forbidden`. A missing playlist ends there. If the caller is not the
  owner, the collaborator check runs. If that also fails, the owner check's AuthorizationError is
  raised again. Its contract is proved equal to the rule on the tables: the playlist exists, and
  the caller owns it or holds a collaboration row on it.
- The `mapDb` projections, the picture-header, song and collaboration schemas, and the quote
  rewrite of validation messages are pure functions and predicates over JavaScript values
  (`Json.Value`).
- The collaboration handlers run validate, then the owner check, then the table change. The export
  handler runs validate, then the access check, then an append to the producer's outbox. Their
  postconditions state that nothing changes unless every guard passed.

Facts about the code that the model follows:

- The services never use the cache. `PlaylistsService` ignores the cache it is given, and
  `CollaborationsService` takes none.
- `verifyCollaborator` and `deleteCollaboration` raise InvariantError, not a not-found error.
- `addPlaylistSong` has no `ON CONFLICT` clause. A duplicate membership row is whatever the unseen
  schema makes of it, so the model makes no idempotence claim for it.
- A missing song makes `addPlaylistSong` and `deletePlaylistSong` raise InvariantError.

## Model

| member | source | states |
|---|---|---|
| `Ids.Generate` | src/services/postgres/PlaylistsService.js:7 | a generated id is the prefix followed by 16 characters from the 62-character alphabet |
| `Tables.SongRowObject` | src/services/postgres/SongsService.js:44-48 | a `songs` row as the driver returns it carries all eight snake_case columns, each holding the stored value (NULL genre or duration as `null`) |
| `Tables.DeleteRows` | src/services/postgres/CollaborationsService.js:42 | a `DELETE ... WHERE` on a row's columns removes every matching row and keeps every other one unchanged, so no match remains and every other row's presence is as before (the same semantics serve the deletes at PlaylistsService.js:112) |
| `MapDb.ToSong` | src/utils/index.js:4-8 | keeps id, title, year, performer, genre and duration; renames inserted_at to insertedAt and updated_at to updatedAt; has exactly those eight keys |
| `MapDb.ToSongs` | src/utils/index.js:10-14 | result has exactly id, title and performer, each taken from the input |
| `MapDb.ToPlaylists` | src/utils/index.js:16 | result has exactly id, name and username, each taken from the input |
| `MapDb.ToPlaylistSongs` | src/utils/index.js:18 | result has exactly id, title and performer, each taken from the input |
| `MapDb.ProjectIdempotent` | src/utils/index.js:10-18 | projecting a projected object onto the same keys gives it back |
| `MapDb.ToSongsIdempotent` | src/utils/index.js:10-14 | `toSongs` applied to its own output changes nothing |
| `MapDb.ToPlaylistsIdempotent` | src/utils/index.js:16 | `toPlaylists` applied to its own output changes nothing |
| `MapDb.ToPlaylistSongsIdempotent` | src/utils/index.js:18 | `toPlaylistSongs` applied to its own output changes nothing |
| `UploadsSchema.Valid` | src/validator/uploads/schema.js:3-16 | headers are accepted if and only if `content-type` equals one of the ten listed image types; any other header is ignored |
| `UploadsSchema.MissingContentTypeRejected` | src/validator/uploads/schema.js:15 | headers without `content-type` are rejected |
| `UploadsSchema.NonStringContentTypeRejected` | src/validator/uploads/schema.js:4 | a non-string `content-type` is rejected |
| `UploadsSchema.ContentTypeDecides` | src/validator/uploads/schema.js:4-15 | with a string `content-type`, the headers are accepted if and only if it is one of the ten listed image types |
| `UploadsSchema.ListedTypesAccepted` | src/validator/uploads/schema.js:5-14 | each of the ten listed types is accepted |
| `UploadsSchema.UnlistedTypesRejected` | src/validator/uploads/schema.js:5-14 | `image/jpg` and `text/plain` are rejected |
| `UploadsSchema.ExtraHeadersIgnored` | src/validator/uploads/schema.js:16 | adding, changing or removing any other header never changes the verdict |
| `UploadsValidator.ReplaceQuotes` | src/validator/uploads/index.js:9 | keeps the length, turns every `"` into `'`, leaves every other character alone, and leaves no `"` |
| `UploadsValidator.ReplaceQuotesIdempotent` | src/validator/uploads/index.js:9 | rewriting twice is rewriting once |
| `UploadsValidator.ReplaceQuotesKeeps` | src/validator/uploads/index.js:9 | a message without `"` is unchanged |
| `UploadsValidator.ValidatePictureHeaders` | src/validator/uploads/index.js:5-11 | passes if and only if the schema accepts; otherwise an InvariantError whose message is exactly `ReplaceQuotes(message)`: the same length and no `"` |
| `SongsSchema.Valid` | src/validator/songs/schema.js:3-10 | required string title and performer, a required integer year in [1900, current year], optional string genre, optional number duration, no other key; a passing payload has title, year and performer |
| `SongsSchema.FieldsOf` | src/services/postgres/SongsService.js:15-17 | the destructuring `const { title, year, performer, genre, duration } = payload` (also at lines 56-58), applied to a payload that passed the song schema (src/validator/songs/schema.js:3-10), yields a year between 1900 and the current year, both included, and the payload's title, performer, optional genre and optional duration |
| `SongsSchema.TitleRequired` | src/validator/songs/schema.js:4 | a missing or non-string title is rejected |
| `SongsSchema.PerformerRequired` | src/validator/songs/schema.js:7 | a missing or non-string performer is rejected |
| `SongsSchema.YearRequired` | src/validator/songs/schema.js:5-6 | a missing or non-numeric year is rejected |
| `SongsSchema.YearBounds` | src/validator/songs/schema.js:5-6 | a year is accepted if and only if it is an integer with 1900 <= year <= current UTC year |
| `SongsSchema.OptionalFields` | src/validator/songs/schema.js:8-9 | genre and duration may be absent; every present genre that is not a non-empty string, and every present duration that is not a number, is rejected |
| `CollaborationSchema.Valid` | src/validator/collaboration/schema.js:3-6 | required non-empty strings `userId` and `playlistId` and no other key; a passing payload has exactly those two keys |
| `CollaborationSchema.ValidIff` | src/validator/collaboration/schema.js:3-6 | accepted if and only if the payload has exactly `userId` and `playlistId`, both non-empty strings |
| `CollaborationSchema.UserIdRequired` | src/validator/collaboration/schema.js:4 | a missing or non-string `userId` is rejected |
| `CollaborationSchema.PlaylistIdRequired` | src/validator/collaboration/schema.js:5 | a missing or non-string `playlistId` is rejected |
| `CollaborationSchema.StringPairAccepted` | src/validator/collaboration/schema.js:3-6 | a string `userId` with a string `playlistId` is accepted |
| `CollaborationSchema.Validate` | src/api/collaborations/handler.js:16 | passes if and only if the schema accepts; otherwise an InvariantError with the schema's message |
| `CollaborationsService.CollaborationsService.AddCollaboration` | src/services/postgres/CollaborationsService.js:12-26 | inserts exactly one row (`collab-` id, user, playlist) and returns its id, after which `verifyCollaborator` passes; a rejected insert raises InvariantError and changes nothing |
| `CollaborationsService.CollaborationsService.VerifyCollaborator` | src/services/postgres/CollaborationsService.js:28-38 | passes if and only if some row has this user and this playlist; otherwise InvariantError; reads only |
| `CollaborationsService.CollaborationsService.DeleteCollaboration` | src/services/postgres/CollaborationsService.js:40-51 | removes exactly the (user, playlist) rows and keeps all others; raises InvariantError if and only if there were none; afterwards `verifyCollaborator` fails |
| `SongsService.InsertedIdAsWritten` | src/services/postgres/SongsService.js:26-34 | as written, an insert that returns no row fails with a TypeError |
| `SongsService.InsertedId` | src/services/postgres/SongsService.js:26-34 | the corrected guard: an InvariantError if and only if no row came back, otherwise the returned id |
| `SongsService.ZeroRowInsert` | src/services/postgres/SongsService.js:28-31 | on zero rows the as-written code raises TypeError where the corrected one raises InvariantError |
| `SongsService.SongsService.AddSong` | src/services/postgres/SongsService.js:14-35 | stores the payload under a `song-` id with inserted_at = updated_at = one timestamp; `getSongById` then returns the payload's title and equal timestamps; an id clash changes nothing |
| `SongsService.SongsService.GetSongs` | src/services/postgres/SongsService.js:37-40 | exactly one (id, title, performer) entry per stored song |
| `SongsService.SongsService.GetSongById` | src/services/postgres/SongsService.js:42-53 | NotFoundError if and only if the id is absent; otherwise the `toSong` view of the stored row, field by field |
| `SongsService.SongsService.EditSong` | src/services/postgres/SongsService.js:55-79 | on a present id, replaces the five payload columns and updated_at and keeps inserted_at and every other song; on an absent id, NotFoundError and no change |
| `SongsService.SongsService.DeleteSong` | src/services/postgres/SongsService.js:81-91 | NotFoundError if and only if the id is absent; otherwise removes only that song |
| `PlaylistsService.OwnerCheck.Raise` | src/services/postgres/PlaylistsService.js:131-139 | only the `Owned` ending passes; NotFound raises NotFoundError 'Playlist tidak ditemukan' and Forbidden raises AuthorizationError 'Anda tidak berhak mengakses resource ini' |
| `PlaylistsService.PlaylistsService.AddPlaylist` | src/services/postgres/PlaylistsService.js:16-29 | stores (id, name, owner) under a `playlist-` id and returns the id, after which the owner check passes for the creator; an id clash raises InvariantError and changes nothing |
| `PlaylistsService.PlaylistsService.GetPlaylists` | src/services/postgres/PlaylistsService.js:31-55 | lists a playlist if and only if the user owns it or collaborates on it, with its name and its owner's username |
| `PlaylistsService.PlaylistsService.DeletePlaylistById` | src/services/postgres/PlaylistsService.js:57-68 | NotFoundError if and only if the id is absent; otherwise removes only that playlist |
| `PlaylistsService.PlaylistsService.AddPlaylistSong` | src/services/postgres/PlaylistsService.js:70-84 | an unknown song raises InvariantError and changes nothing; otherwise inserts one membership row, after which the song is listed for the playlist; a rejected insert raises InvariantError 'Lagu gagal ditambahkan ke playlist' and changes nothing |
| `PlaylistsService.PlaylistsService.GetPlaylistSongs` | src/services/postgres/PlaylistsService.js:86-105 | lists a song if and only if it is stored and has a membership row for the playlist |
| `PlaylistsService.PlaylistsService.DeletePlaylistSong` | src/services/postgres/PlaylistsService.js:107-121 | an unknown song raises InvariantError and changes nothing; otherwise removes exactly the (playlist, song) rows, raising NotFoundError if and only if there were none |
| `PlaylistsService.PlaylistsService.VerifyPlaylistOwner` | src/services/postgres/PlaylistsService.js:123-140 | NotFound if and only if the playlist is absent, Forbidden if and only if it exists with another owner, Owned if and only if the caller owns it |
| `PlaylistsService.PlaylistsService.VerifyPlaylistAccess` | src/services/postgres/PlaylistsService.js:142-156 | passes if and only if the playlist exists and the user owns it or has a collaboration row on it; any failure is the owner check's own error: NotFoundError for a missing playlist, otherwise AuthorizationError, never the collaborator check's InvariantError |
| `PlaylistsService.PlaylistsService.VerifySongById` | src/services/postgres/PlaylistsService.js:158-165 | true if and only if the song is stored; every lookup failure reads as false |
| `PlaylistsService.PlaylistsService.ListedIffAccessible` | src/services/postgres/PlaylistsService.js:47-49 | a playlist is in a user's listing if and only if the access check passes for that user |
| `PlaylistsService.PlaylistsService.MissingIgnoresCollaborations` | src/services/postgres/PlaylistsService.js:144-148 | on a missing playlist the access result is NotFoundError whatever the collaborations table holds |
| `CollaborationsHandler.CollaborationsHandler.PostCollaboration` | src/api/collaborations/handler.js:15-32 | an invalid payload, a missing playlist or a non-owner caller leaves collaborations unchanged and propagates that error; once the payload is valid and the owner check passes, the result is exactly `addCollaboration`'s: success if and only if the insert is accepted, otherwise its InvariantError; on success the owner check on the payload's playlist passed, the row for the payload's user and playlist was added, the reply is 201 with the new id, and the added user now has access |
| `CollaborationsHandler.CollaborationsHandler.DeleteCollaboration` | src/api/collaborations/handler.js:34-45 | the same guard; once the payload is valid and the owner check passes, success if and only if a (user, playlist) row existed, otherwise `deleteCollaboration`'s InvariantError; on success exactly the payload's (user, playlist) rows are gone |
| `ExportsHandler.ProducerService.SendMessage` | src/api/exports/handler.js:22 | appends one message to the outbox |
| `ExportsHandler.ExportsHandler.PostExportPlaylistSongs` | src/api/exports/handler.js:10-30 | an invalid payload or a failed access check leaves the outbox unchanged and propagates that error; otherwise one message with the route's playlistId and the payload's targetEmail goes to `export:playlist-songs` and the reply is 201 |

## Findings

| source | as written | input that shows it | evidently intended | confidence | as-written member | corrected member |
|---|---|---|---|---|---|---|
| src/services/postgres/SongsService.js:28-31 | `result.rows[0].id` is read before the guard | a song insert that returns no row, for example because a trigger suppressed it | an InvariantError ('Failed to add song.'), as the `!result.rowCount` guards of the other services give | medium, not executed | `SongsService.InsertedIdAsWritten` (shown by `SongsService.ZeroRowInsert`) | `SongsService.InsertedId`, used by `SongsService.SongsService.AddSong` |

## Left out

- The cache: `src/services/redis/CacheService.js` is never called by the services modelled here, so there are no cache-aside reads and no invalidation.
- `src/server.js`, the authentication handler, the uploads handler and routes, and local file storage: framework wiring, tokens and file I/O. The caller's identity is a plain string parameter.
- The `users` table is not part of this model. `GetPlaylists` takes the user id to username lookup as a parameter, and a user missing from it gives a NULL username, as the LEFT JOIN does.
- Constraints, foreign keys and cascades of the database schema are not in the code. The verdict of the unseen constraints on an insert into `collaborations` or `playlistsongs` is the parameter `storeAccepts`. A rejected insert is modelled as one that affects no row, not as a driver exception. Deleting a playlist or a song does not cascade here.
- PlaylistsService.PlaylistsService.GetPlaylists: a set of rows, so the repetition of a playlist once per collaboration row that the LEFT JOIN produces, and the row order, are not modelled.
- PlaylistsService.PlaylistsService.GetPlaylistSongs: a set of rows; the row multiplicity and order are not modelled.
- SongsService.SongsService.GetSongs: a set of rows; the row order is not modelled.
- Randomness and clocks: the 16 generated characters (`nano`), the ISO timestamp (`now`) and the current UTC year are parameters. Id uniqueness is not proved; an id clash is one of the modelled error paths.
- The validation library: its messages are opaque string parameters. Its type conversion (for example, a numeric string passing `Joi.number()`) is not modelled. Payloads are JSON objects; a non-object body is not modelled.
- `duration` and `year` are JavaScript numbers, modelled as mathematical reals, not doubles.
- `src/validator/collaboration/index.js` is not part of this model. Its `validateCollaborationPayload` is taken to raise an InvariantError carrying the schema's message unchanged; no quote rewrite is assumed.
- The exports payload schema and validator are not part of this model. Their verdict and message are parameters of `PostExportPlaylistSongs`.
- The message producer is not part of this model. It appears as an outbox sequence, and the message is kept as its two fields, not as the JSON string `JSON.stringify` makes of it.
- Database failures other than "no row affected" (lost connections, driver exceptions) and the Promise plumbing: each awaited call is one sequential step that returns a result or an error.
- Response formatting: a reply is its status code, message and collaboration id. The `status: 'success'` envelope is left out.
