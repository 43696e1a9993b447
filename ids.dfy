/** Identifiers generated by `customAlphabet(Alphabet, 16)` behind a fixed prefix. */
module Ids {

  const Alphabet := "1234567890abcdefghijklmnopqrstuvwxyzABCDEFGHIJKLMNOPQRSTUVWXYZ"
  const NanoidSize := 16

  /** A value the generator can return: 16 characters, each from the 62-character alphabet. */
  predicate IsNanoid(s: string) {
    |s| == NanoidSize && forall i :: 0 <= i < |s| ==> s[i] in Alphabet
  }

  /** `id` is `prefix` followed by a generated value. */
  predicate IsGenerated(prefix: string, id: string) {
    |prefix| <= |id| && id[..|prefix|] == prefix && IsNanoid(id[|prefix|..])
  }

  /** The template literal `${prefix}${nanoid()}`, with the random part supplied by the caller. */
  function Generate(prefix: string, nano: string): (id: string)
    requires IsNanoid(nano)
    ensures IsGenerated(prefix, id)
    ensures |id| == |prefix| + NanoidSize
  {
    assert (prefix + nano)[|prefix|..] == nano;
    prefix + nano
  }
}
