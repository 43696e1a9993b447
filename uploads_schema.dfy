/** `PictureHeaderSchema`: the request headers of a picture upload. */
module UploadsSchema {
  import opened Json

  /** The only `content-type` values accepted, compared exactly. */
  const ImageTypes := [
    "image/apng", "image/avif", "image/bmp", "image/gif", "image/jpeg",
    "image/png", "image/svg+xml", "image/tiff", "image/webp", "image/x-icon"
  ]

  /** `content-type` is required and must be one of `ImageTypes`; `.unknown()` lets every other
      header through unexamined. */
  predicate Valid(headers: Record)
    ensures Valid(headers) <==>
              exists i :: 0 <= i < |ImageTypes| && Field(headers, "content-type") == Str(ImageTypes[i])
  {
    var v := Field(headers, "content-type");
    v.Str? && v.s in ImageTypes
  }

  lemma MissingContentTypeRejected(headers: Record)
    requires "content-type" !in headers
    ensures !Valid(headers)
  {
  }

  lemma NonStringContentTypeRejected(headers: Record)
    requires "content-type" in headers && !headers["content-type"].Str?
    ensures !Valid(headers)
  {
  }

  /** Whatever the other headers are, an image type of the list is accepted and a value outside
      it is rejected. */
  lemma ContentTypeDecides(headers: Record, t: string)
    ensures Valid(headers["content-type" := Str(t)]) <==> t in ImageTypes
  {
  }

  lemma ListedTypesAccepted(headers: Record, i: int)
    requires 0 <= i < |ImageTypes|
    ensures Valid(headers["content-type" := Str(ImageTypes[i])])
  {
  }

  /** `image/jpg` is not an alias of `image/jpeg`, and non-image types are refused. */
  lemma UnlistedTypesRejected(headers: Record)
    ensures !Valid(headers["content-type" := Str("image/jpg")])
    ensures !Valid(headers["content-type" := Str("text/plain")])
  {
    assert "image/jpg" !in ImageTypes by {
      forall i | 0 <= i < |ImageTypes| ensures ImageTypes[i] != "image/jpg" {
        assert |ImageTypes[i]| != 9 || ImageTypes[i][6] != 'j';
      }
    }
    assert "text/plain" !in ImageTypes by {
      forall i | 0 <= i < |ImageTypes| ensures ImageTypes[i] != "text/plain" {
        assert ImageTypes[i][0] == 'i';
      }
    }
  }

  /** Adding, changing or removing any header other than `content-type` never changes the verdict. */
  lemma ExtraHeadersIgnored(headers: Record, k: string, v: Value)
    requires k != "content-type"
    ensures Valid(headers[k := v]) == Valid(headers)
    ensures Valid(headers - {k}) == Valid(headers)
  {
  }
}
