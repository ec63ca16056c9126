/** Shared vocabulary of the event-recording library: optional values,
    results, timestamps, polymorphic references, attribute values, the
    errors the library raises, and Ruby's notion of a blank string. */
module Common {

  datatype Option<+T> = None | Some(value: T)

  datatype Result<+R, +E> = Success(value: R) | Failure(error: E)

  /** Timestamps are whole seconds since an arbitrary epoch. */
  type Time = int

  const SecondsPerDay: int := 86400

  /** A polymorphic reference: the `<name>_type` / `<name>_id` column pair. */
  datatype Ref = Ref(kind: string, id: nat)

  /** An opaque structured value (the JSON `metadata` column). */
  datatype Document = EmptyDocument | Document(tag: nat)

  /** A value carried in an attribute hash. */
  datatype Value =
    | Nil
    | Text(s: string)
    | Instant(t: Time)
    | Number(x: real)
    | Json(doc: Document)
    | Entity(ref: Ref)

  /** The exceptions this core raises to its callers. */
  datatype Error =
    | NameError(constant: string)   // `constantize` of an unknown class name
    | ArgumentError                 // `Time.parse` of text that is not a time
    | UnknownAttribute(name: string) // an attribute hash names no column
    | TypeMismatch(name: string)    // a value of the wrong kind for its column
    | RecordInvalid                 // `create!` of a record that fails validation
    | NoMethodError(selector: string) // a call to a method the class does not define

  /** The characters Ruby's `[[:space:]]` class matches (Unicode white space). */
  predicate IsSpace(c: char) {
    c == ' ' || c == '\t' || c == '\n' || c == '\U{B}' || c == '\U{C}' || c == '\r'
    || c == '\U{85}' || c == '\U{A0}' || c == '\U{1680}'
    || ('\U{2000}' <= c <= '\U{200A}')
    || c == '\U{2028}' || c == '\U{2029}' || c == '\U{202F}' || c == '\U{205F}' || c == '\U{3000}'
  }

  /** `String#blank?`: empty or made only of white space. */
  predicate Blank(s: string) {
    forall i :: 0 <= i < |s| ==> IsSpace(s[i])
  }

  /** `present?` on a nullable string column. */
  predicate Present(o: Option<string>) {
    o.Some? && !Blank(o.value)
  }
}
