/** The create-post form: a text area of at most 150 characters and an optional image. */
module PostPage {
  import opened Common

  datatype PostInput = PostInput(content: string, image: Image)

  /** Empty content and the sample image. */
  const InitialState: PostInput := PostInput("", SampleImage)

  /** The text area's `maxLength`. */
  const MaxContentLength: nat := 150

  /** The input `postCreate` receives: the form values with the uploaded image. */
  function CreateInput(values: PostInput, uploaded: Image): (input: PostInput)
    ensures input.content == values.content && input.image == uploaded
  {
    values.(image := uploaded)
  }

  class CreatePostForm {
    var values: PostInput
    var imageURI: string
    var loading: bool

    /** The text area never holds more than 150 characters. */
    ghost predicate Valid()
      reads this
    {
      |values.content| <= MaxContentLength
    }

    constructor ()
      ensures Valid()
      ensures values == InitialState && values.image.publicId == "sample" && imageURI == "" && !loading
    {
      values := InitialState;
      imageURI := "";
      loading := false;
    }

    /** `handleChange` on the text area named `content`; the browser caps what it passes. */
    method HandleChange(value: string)
      requires Valid() && |value| <= MaxContentLength
      modifies this
      ensures Valid()
      ensures values == old(values).(content := value)
      ensures imageURI == old(imageURI) && loading == old(loading)
    {
      values := values.(content := value);
    }

    /** The resizer's callback: only a string URI is stored. */
    method HandleImageChange(resizedUri: Option<string>)
      requires Valid()
      modifies this
      ensures Valid()
      ensures imageURI == if resizedUri.Some? then resizedUri.value else old(imageURI)
      ensures values == old(values) && loading == old(loading)
    {
      if resizedUri.Some? {
        imageURI := resizedUri.value;
      }
    }

    /** The Post button's `disabled`. */
    function SubmitDisabled(): (disabled: bool)
      reads this
      ensures !disabled <==> !loading && values.content != ""
    {
      loading || values.content == ""
    }

    /** `handleSubmit`. The current `imageURI` is always uploaded, even when empty;
        `uploadResponse` is the endpoint's answer (`None` on failure) and `created` whether
        `postCreate` succeeded. Returns what was uploaded and the input handed to
        `postCreate`, if it was called. */
    method HandleSubmit(uploadResponse: Option<Image>, created: bool)
      returns (uploadedUri: string, createInput: Option<PostInput>)
      requires Valid()
      modifies this
      ensures Valid()
      ensures uploadedUri == old(imageURI)
      ensures !loading
      ensures uploadResponse.None? ==> createInput.None?
      ensures uploadResponse.Some? ==> createInput == Some(CreateInput(old(values), uploadResponse.value))
      ensures uploadResponse.Some? && created ==> values == InitialState && imageURI == ""
      ensures uploadResponse.None? || !created ==> values == old(values) && imageURI == old(imageURI)
    {
      loading := true;
      uploadedUri := imageURI;
      if uploadResponse.None? {
        loading := false;
        return uploadedUri, None;
      }
      var postInputValues := values.(image := uploadResponse.value);
      createInput := Some(postInputValues);
      if !created {
        loading := false;
        return;
      }
      values := InitialState;
      imageURI := "";
      loading := false;
    }
  }
}
