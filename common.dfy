/** Values shared by the client pages and the server models. */
module Common {

  datatype Option<T> = None | Some(value: T)

  datatype Result<T, E> = Ok(value: T) | Err(error: E)

  /** An image as the hosting service describes it: its URL and the provider's public id. */
  datatype Image = Image(url: string, publicId: string)

  /** The placeholder image both the client forms and the server schemas fall back on. */
  const SampleImageUrl: string := "https://res.cloudinary.com/tacticapps/image/upload/v1624277410/sample.jpg"
  const SamplePublicId: string := "sample"
  const SampleImage: Image := Image(SampleImageUrl, SamplePublicId)

  /** JavaScript truthiness of a value that is either absent or a string: `undefined`,
      `null` and the empty string are falsy, every other string is truthy. */
  predicate Filled(s: Option<string>)
  {
    s.Some? && s.value != ""
  }

  /** `localStorage.getItem(key) || ''`: the stored string, or "" when the key is absent. */
  function StoredOrEmpty(storage: map<string, string>, key: string): (s: string)
    ensures key in storage ==> s == storage[key]
    ensures key !in storage ==> s == ""
  {
    if key in storage then storage[key] else ""
  }

  /** One failed validator of a document schema: the path and its message. */
  datatype FieldError = FieldError(path: string, message: string)

  /** The message the document mapper uses for `required: true` on `path`. */
  function RequiredMessage(path: string): string
  {
    "Path `" + path + "` is required."
  }
}
