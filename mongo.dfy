/** Notions shared by the mongoose models: document ids and the outcome of schema validation. */
module Mongo {
  import opened Text

  /** The string form of an ObjectId; stored ids are lower-case hex. */
  type Id = string

  /** What `Model.create` / `doc.save()` gives: the stored document, or the path that failed validation. */
  datatype Saved<T> = Ok(doc: T) | Rejected(path: string)

  /** `findById(s)` casts `s` to an ObjectId; anything but 24 hex digits raises a CastError. */
  predicate Castable(s: string) {
    IsObjectId(s)
  }

  /** The stored key an id string casts to. */
  function Key(s: string): Id {
    Lower(s)
  }

  /** mongoose's `required` on a string path: absent and "" both fail. */
  predicate Present(v: string) {
    v != ""
  }

  /**
   * The server's regular expressions, as the model takes them: whether a pattern compiles, and
   * whether it matches a subject with the `i` (case-insensitive) option.
   */
  datatype Regex = Regex(valid: string -> bool, test: (string, string) -> bool)
}
