/** `UploadsValidator.validatePictureHeaders`. */
module UploadsValidator {
  import opened Exceptions
  import opened Json
  import UploadsSchema

  function Unquote(c: char): char {
    if c == '"' then '\'' else c
  }

  /** `message.replace(/"/g, '\'')`: every double quote becomes a single quote. */
  function ReplaceQuotes(s: string): (r: string)
    ensures |r| == |s|
    ensures forall i :: 0 <= i < |s| ==> r[i] == Unquote(s[i])
    ensures '"' !in r
  {
    if s == [] then [] else [Unquote(s[0])] + ReplaceQuotes(s[1..])
  }

  lemma ReplaceQuotesIdempotent(s: string)
    ensures ReplaceQuotes(ReplaceQuotes(s)) == ReplaceQuotes(s)
  {
  }

  /** A string without double quotes is left as it is. */
  lemma ReplaceQuotesKeeps(s: string)
    requires '"' !in s
    ensures ReplaceQuotes(s) == s
  {
  }

  /** Validates the headers; `message` stands for the schema's error message, whose wording is
      the validation library's. */
  function ValidatePictureHeaders(headers: Record, message: string): (r: Outcome)
    ensures r.Pass? <==> UploadsSchema.Valid(headers)
    ensures r.Fail? ==> r.error == Error(InvariantError, ReplaceQuotes(message))
    ensures r.Fail? ==> |r.error.message| == |message| && '"' !in r.error.message
    ensures r.Fail? ==> forall i :: 0 <= i < |message| && message[i] != '"' ==> r.error.message[i] == message[i]
  {
    if UploadsSchema.Valid(headers) then Pass else Fail(Error(InvariantError, ReplaceQuotes(message)))
  }
}
