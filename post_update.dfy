/** The edit-post form: changes a post's text and, optionally, replaces its image. */
module PostUpdate {
  import opened Common

  datatype PostValues = PostValues(id: string, content: string, image: Image)

  /** The form before the post has loaded. */
  const EmptyValues: PostValues := PostValues("", "", Image("", ""))

  /** The input `postUpdate` receives: the values as they are without a new image, and the
      values with only the image replaced by the upload's answer otherwise. */
  function UpdateInput(values: PostValues, imageURI: string, uploaded: Image): (input: PostValues)
    ensures input.id == values.id && input.content == values.content
    ensures imageURI == "" ==> input == values
    ensures imageURI != "" ==> input.image == uploaded
  {
    if imageURI != "" then values.(image := uploaded) else values
  }

  /** The old image is removed from the host unless it is the shared sample image. */
  function RemovesOldImage(oldImage: Image): (remove: bool)
    ensures remove <==> oldImage.publicId != SamplePublicId
  {
    oldImage.publicId != SamplePublicId
  }

  /** The preview shows the pending image if there is one, else the stored image. */
  function Preview(imageURI: string, values: PostValues): (src: string)
    ensures imageURI != "" ==> src == imageURI
    ensures imageURI == "" ==> src == values.image.url
  {
    if imageURI != "" then imageURI else values.image.url
  }

  /** What the remote calls of one submission do: the upload's answer (`None` on failure),
      whether the old image's removal succeeded, whether `postUpdate` succeeded. */
  datatype UpdateReply = UpdateReply(uploadResponse: Option<Image>, removeOk: bool, updateOk: bool)

  class UpdatePostForm {
    var values: PostValues
    var imageURI: string
    var loading: bool

    constructor ()
      ensures values == EmptyValues && imageURI == "" && !loading
    {
      values := EmptyValues;
      imageURI := "";
      loading := false;
    }

    /** The fetched post fills the form. */
    method LoadPost(fetched: PostValues)
      modifies this
      ensures values == fetched && imageURI == old(imageURI) && loading == old(loading)
    {
      values := values.(id := fetched.id, content := fetched.content, image := fetched.image);
    }

    /** `handleChange` on the text area named `content`: only that field changes. */
    method HandleChange(value: string)
      modifies this
      ensures values == old(values).(content := value)
      ensures imageURI == old(imageURI) && loading == old(loading)
    {
      values := values.(content := value);
    }

    /** The resizer's callback stores a string URI; the close button clears it. */
    method HandleImageChange(resizedUri: Option<string>)
      modifies this
      ensures imageURI == if resizedUri.Some? then resizedUri.value else old(imageURI)
      ensures values == old(values) && loading == old(loading)
    {
      if resizedUri.Some? {
        imageURI := resizedUri.value;
      }
    }

    method ClearImage()
      modifies this
      ensures imageURI == "" && values == old(values) && loading == old(loading)
    {
      imageURI := "";
    }

    function SubmitDisabled(): (disabled: bool)
      reads this
      ensures !disabled <==> !loading && values.content != ""
    {
      loading || values.content == ""
    }

    /** `handleSubmit`. Returns the public id sent for removal, if any, and the input handed to
        `postUpdate`, if it was called. */
    method HandleSubmit(reply: UpdateReply) returns (removedId: Option<string>, submitted: Option<PostValues>)
      modifies this
      ensures !loading
      ensures old(imageURI) == "" ==> removedId.None? && submitted == Some(old(values))
      ensures old(imageURI) != "" && reply.uploadResponse.None? ==> removedId.None? && submitted.None?
      ensures removedId.Some? <==>
        old(imageURI) != "" && reply.uploadResponse.Some? && RemovesOldImage(old(values).image)
      ensures removedId.Some? ==> removedId.value == old(values).image.publicId
      ensures submitted.Some? <==>
        old(imageURI) == "" ||
        (reply.uploadResponse.Some? && (!RemovesOldImage(old(values).image) || reply.removeOk))
      ensures submitted.Some? ==>
        submitted.value == UpdateInput(old(values), old(imageURI),
                                       if reply.uploadResponse.Some? then reply.uploadResponse.value else old(values).image)
      ensures submitted.Some? && reply.updateOk ==> values == submitted.value && imageURI == ""
      ensures submitted.None? || !reply.updateOk ==> values == old(values) && imageURI == old(imageURI)
    {
      loading := true;
      removedId, submitted := None, None;
      var postInputValues := values;
      if imageURI != "" {
        if reply.uploadResponse.None? {
          loading := false;
          return;
        }
        postInputValues := values.(image := reply.uploadResponse.value);
        if values.image.publicId != SamplePublicId {
          removedId := Some(values.image.publicId);
          if !reply.removeOk {
            loading := false;
            return;
          }
        }
      }
      submitted := Some(postInputValues);
      if !reply.updateOk {
        loading := false;
        return;
      }
      values := postInputValues;
      imageURI := "";
      loading := false;
    }
  }

}
