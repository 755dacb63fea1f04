/** The server's post schema: the defaults it fills in and the field it requires. */
module PostModel {
  import opened Common

  const ContentRequiredMessage: string := "Content is required"

  /** The fields a new post document is created from; `None` is an absent field. */
  datatype PostFields = PostFields(
    id: Option<string>,
    content: Option<string>,
    imageUrl: Option<string>,
    imagePublicId: Option<string>,
    postedBy: Option<string>)

  /** A validated post document. `postedBy` holds a user id; `createdAt`/`updatedAt` are the
      schema's timestamps. */
  datatype PostDoc = PostDoc(
    id: string,
    content: string,
    image: Image,
    postedBy: Option<string>,
    createdAt: int,
    updatedAt: int)

  /** A new post document: `_id` defaults to the generated `freshId`, the image's URL and
      public id default to the sample image's each on its own, and `content` is required
      (the required check refuses an empty string as well as an absent one). `now` is the
      creation time stamped on both timestamps. */
  function NewPost(fields: PostFields, freshId: string, now: int): (r: Result<PostDoc, seq<FieldError>>)
    ensures r.Ok? <==> Filled(fields.content)
    ensures r.Err? ==> r.error == [FieldError("content", ContentRequiredMessage)]
    ensures r.Ok? ==> r.value.content == fields.content.value && r.value.postedBy == fields.postedBy
    ensures r.Ok? ==> r.value.id == (if fields.id.Some? then fields.id.value else freshId)
    ensures r.Ok? && fields.imageUrl.None? ==> r.value.image.url == SampleImageUrl
    ensures r.Ok? && fields.imageUrl.Some? ==> r.value.image.url == fields.imageUrl.value
    ensures r.Ok? && fields.imagePublicId.None? ==> r.value.image.publicId == SamplePublicId
    ensures r.Ok? && fields.imagePublicId.Some? ==> r.value.image.publicId == fields.imagePublicId.value
    ensures r.Ok? ==> r.value.createdAt == r.value.updatedAt == now
  {
    if !Filled(fields.content) then Err([FieldError("content", ContentRequiredMessage)])
    else
      var id := if fields.id.Some? then fields.id.value else freshId;
      var url := if fields.imageUrl.Some? then fields.imageUrl.value else SampleImageUrl;
      var publicId := if fields.imagePublicId.Some? then fields.imagePublicId.value else SamplePublicId;
      Ok(PostDoc(id, fields.content.value, Image(url, publicId), fields.postedBy, now, now))
  }

  /** A post created with text only gets that text and the whole sample image. */
  lemma TextOnlyPostGetsSampleImage(content: string, freshId: string, now: int)
    requires content != ""
    ensures NewPost(PostFields(None, Some(content), None, None, None), freshId, now)
      == Ok(PostDoc(freshId, content, SampleImage, None, now, now))
  {
  }

  /** The two image defaults are independent: giving only a URL still defaults the id. */
  lemma ImageDefaultsIndependent(content: string, url: string, freshId: string, now: int)
    requires content != ""
    ensures NewPost(PostFields(None, Some(content), Some(url), None, None), freshId, now).value.image
      == Image(url, SamplePublicId)
  {
  }
}
