/** The profile-image uploader: adds a resized, uploaded image to the user's list and removes
    an image from it, sending the new list through the `userUpdate` mutation. */
module FileUpload {
  import opened Common

  /** The list sent after an upload: `[...images, response.data]`. */
  function WithUploaded(images: seq<Image>, uploaded: Image): (sent: seq<Image>)
    ensures |sent| == |images| + 1
    ensures sent[..|images|] == images && sent[|images|] == uploaded
  {
    images + [uploaded]
  }

  /** The list sent after a removal: `images.filter(image => image.public_id !== publicId)`. */
  function WithoutPublicId(images: seq<Image>, publicId: string): (sent: seq<Image>)
    ensures |sent| <= |images|
    ensures forall i :: 0 <= i < |sent| ==> sent[i].publicId != publicId
    ensures forall x :: x in sent <==> x in images && x.publicId != publicId
  {
    if images == [] then []
    else if images[0].publicId != publicId then [images[0]] + WithoutPublicId(images[1..], publicId)
    else WithoutPublicId(images[1..], publicId)
  }

  /** The filter keeps the survivors in their order: it distributes over concatenation. */
  lemma {:induction false} WithoutPublicIdAppend(a: seq<Image>, b: seq<Image>, publicId: string)
    ensures WithoutPublicId(a + b, publicId) == WithoutPublicId(a, publicId) + WithoutPublicId(b, publicId)
  {
    if a != [] {
      assert (a + b)[1..] == a[1..] + b;
      WithoutPublicIdAppend(a[1..], b, publicId);
    } else {
      assert a + b == b;
    }
  }

  /** Removing an id no image has sends the list unchanged. */
  lemma {:induction false} WithoutAbsentIdIsIdentity(images: seq<Image>, publicId: string)
    requires forall i :: 0 <= i < |images| ==> images[i].publicId != publicId
    ensures WithoutPublicId(images, publicId) == images
  {
    if images != [] {
      WithoutAbsentIdIsIdentity(images[1..], publicId);
    }
  }

  /** Removing twice is removing once. */
  lemma WithoutPublicIdIdempotent(images: seq<Image>, publicId: string)
    ensures WithoutPublicId(WithoutPublicId(images, publicId), publicId) == WithoutPublicId(images, publicId)
  {
    WithoutAbsentIdIsIdentity(WithoutPublicId(images, publicId), publicId);
  }

  /** The component's view of the parent's state: the `loading` flag it sets through
      `setLoading` and the `images` prop. */
  class ImageUploader {
    var loading: bool
    var images: seq<Image>

    constructor (loading0: bool, images0: seq<Image>)
      ensures loading == loading0 && images == images0
    {
      loading := loading0;
      images := images0;
    }

    /** `fileResizeAndUpload`. `fileChosen`: the event holds a first file; `resized`: the
        resizer did not throw; `uploadResponse`: the upload endpoint's answer, `None` when it
        failed. `sent` is the list handed to `userUpdate`, if it was called. The list shown is
        refreshed by the parent's query, so `images` does not change here. */
    method FileResizeAndUpload(fileChosen: bool, resized: bool, uploadResponse: Option<Image>)
      returns (sent: Option<seq<Image>>)
      modifies this
      ensures images == old(images)
      ensures !fileChosen ==> sent.None? && loading == old(loading)
      ensures fileChosen && !resized ==> sent.None? && loading
      ensures fileChosen && resized ==> !loading
      ensures fileChosen && resized && uploadResponse.None? ==> sent.None?
      ensures fileChosen && resized && uploadResponse.Some? ==>
        sent == Some(WithUploaded(old(images), uploadResponse.value))
    {
      sent := None;
      if fileChosen {
        loading := true;
        if !resized {
          // the synchronous catch only logs, so loading stays set
          return;
        }
        if uploadResponse.None? {
          loading := false;
          return;
        }
        sent := Some(WithUploaded(images, uploadResponse.value));
        // whether the mutation succeeds or throws, loading is cleared
        loading := false;
      }
    }

    /** `handleImageRemove`. `removed`: the remote removal call succeeded. The new list is
        sent only after that call. */
    method HandleImageRemove(publicId: string, removed: bool) returns (sent: Option<seq<Image>>)
      modifies this
      ensures images == old(images) && !loading
      ensures !removed ==> sent.None?
      ensures removed ==> sent == Some(WithoutPublicId(old(images), publicId))
    {
      loading := true;
      if !removed {
        loading := false;
        return None;
      }
      sent := Some(WithoutPublicId(images, publicId));
      loading := false;
    }
  }
}
