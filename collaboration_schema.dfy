/** `CollaborationPayloadSchema`: the body of a collaboration create or delete. */
module CollaborationSchema {
  import opened Exceptions
  import opened Json
  import opened JoiRules

  predicate Valid(p: Record)
    ensures Valid(p) ==> p.Keys == {"userId", "playlistId"}
  {
    && OnlyKeys(p, {"userId", "playlistId"})
    && Required(p, "userId", IsString)
    && Required(p, "playlistId", IsString)
  }

  /** A valid payload is exactly one with non-empty string `userId` and `playlistId` and nothing else. */
  lemma ValidIff(p: Record)
    ensures Valid(p) <==>
      p.Keys == {"userId", "playlistId"} && IsString(p["userId"]) && IsString(p["playlistId"])
  {
  }

  lemma UserIdRequired(p: Record)
    requires !Field(p, "userId").Str?
    ensures !Valid(p)
  {
  }

  lemma PlaylistIdRequired(p: Record)
    requires !Field(p, "playlistId").Str?
    ensures !Valid(p)
  {
  }

  lemma StringPairAccepted(u: string, pl: string)
    requires u != "" && pl != ""
    ensures Valid(map["userId" := Str(u), "playlistId" := Str(pl)])
  {
  }

  /** `validateCollaborationPayload`: raises an InvariantError carrying the schema's message. */
  function Validate(p: Record, message: string): (r: Outcome)
    ensures r.Pass? <==> Valid(p)
    ensures r.Fail? ==> r.error == Error(InvariantError, message)
  {
    if Valid(p) then Pass else Fail(Error(InvariantError, message))
  }

  function UserId(p: Record): (u: string)
    requires Valid(p)
    ensures p["userId"] == Str(u)
  {
    p["userId"].s
  }

  function PlaylistId(p: Record): (id: string)
    requires Valid(p)
    ensures p["playlistId"] == Str(id)
  {
    p["playlistId"].s
  }
}
