/** `SongPayloadSchema`: the body of a song create or update. */
module SongsSchema {
  import opened Exceptions
  import opened Json
  import opened JoiRules
  import Tables

  const MinYear := 1900
  const Declared := {"title", "year", "performer", "genre", "duration"}

  /** `currentYear` is `new Date().getUTCFullYear()` at the time the schema is built. */
  predicate YearInRange(v: Value, currentYear: int) {
    IsInteger(v) && MinYear as real <= v.n <= currentYear as real
  }

  predicate Valid(p: Record, currentYear: int)
    ensures Valid(p, currentYear) ==>
              && {"title", "year", "performer"} <= p.Keys <= Declared
              && MinYear <= currentYear
  {
    && OnlyKeys(p, Declared)
    && Required(p, "title", IsString)
    && Field(p, "year") != Undefined && YearInRange(Field(p, "year"), currentYear)
    && Required(p, "performer", IsString)
    && Optional(p, "genre", IsString)
    && Optional(p, "duration", IsNumber)
  }

  /** The five columns `addSong` and `editSong` destructure from a payload that passed the schema;
      an absent optional property is bound as NULL. */
  function FieldsOf(p: Record, currentYear: int): (f: Tables.SongFields)
    requires Valid(p, currentYear)
    ensures MinYear <= f.year <= currentYear
    ensures f.year as real == p["year"].n
    ensures Str(f.title) == p["title"] && Str(f.performer) == p["performer"]
    ensures f.genre.None? <==> Field(p, "genre") == Undefined
    ensures f.genre.Some? ==> p["genre"] == Str(f.genre.value)
    ensures f.duration.None? <==> Field(p, "duration") == Undefined
    ensures f.duration.Some? ==> p["duration"] == Number(f.duration.value)
  {
    var genre := Field(p, "genre");
    var duration := Field(p, "duration");
    Tables.SongFields(
      p["title"].s,
      p["year"].n.Floor,
      p["performer"].s,
      if genre.Str? then Some(genre.s) else None,
      if duration.Number? then Some(duration.n) else None)
  }

  lemma TitleRequired(p: Record, currentYear: int)
    requires !Field(p, "title").Str?
    ensures !Valid(p, currentYear)
  {
  }

  lemma PerformerRequired(p: Record, currentYear: int)
    requires !Field(p, "performer").Str?
    ensures !Valid(p, currentYear)
  {
  }

  /** The year bounds are inclusive at both ends, and a fractional year is refused. */
  lemma YearBounds(p: Record, currentYear: int, y: real)
    requires Valid(p, currentYear)
    ensures Valid(p["year" := Number(y)], currentYear) <==>
              y.Floor as real == y && MinYear as real <= y <= currentYear as real
  {
  }

  lemma YearRequired(p: Record, currentYear: int)
    requires !Field(p, "year").Number?
    ensures !Valid(p, currentYear)
  {
  }

  /** Dropping either optional property of a valid payload keeps it valid; giving it a value of
      the wrong type does not. */
  lemma OptionalFields(p: Record, currentYear: int)
    requires Valid(p, currentYear)
    ensures Valid(p - {"genre"}, currentYear) && Valid(p - {"duration"}, currentYear)
    ensures forall v :: v != Undefined && !IsString(v) ==> !Valid(p["genre" := v], currentYear)
    ensures forall v :: v != Undefined && !IsNumber(v) ==> !Valid(p["duration" := v], currentYear)
  {
  }
}
