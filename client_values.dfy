/** The JavaScript values the client passes around: a browser `File` chosen in
    the form, and the values an object's entries may hold. */
module ClientValues {

  /** A chosen file; only its name and its size in bytes matter here. */
  datatype LocalFile = LocalFile(name: string, size: nat)

  datatype JsValue = Undefined | Null | Str(s: string) | Blob(file: LocalFile)

  /** One `[key, value]` pair of `Object.entries`. */
  type Entry = (string, JsValue)

  /** `value !== undefined && value !== null`; the empty string is defined. */
  predicate Defined(v: JsValue) {
    !v.Undefined? && !v.Null?
  }
}
