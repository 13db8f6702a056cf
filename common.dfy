/** Shared vocabulary: optional values, JavaScript truthiness on strings,
    the string predicates the handlers use, and the browser's File metadata. */
module Common {

  datatype Option<T> = None | Some(value: T)

  /** `!!v` in JavaScript for a value that is a string, `undefined` or `null`:
      a missing value and the empty string are both falsy. */
  predicate Truthy(v: Option<string>)
  {
    v.Some? && v.value != ""
  }

  /** The value of key `k` in a string dictionary that may itself be missing
      (`obj?.[k]`). */
  function Field(obj: Option<map<string, string>>, k: string): (r: Option<string>)
    ensures r.Some? <==> obj.Some? && k in obj.value
    ensures r.Some? ==> r.value == obj.value[k]
  {
    if obj.Some? && k in obj.value then Some(obj.value[k]) else None
  }

  /** `s.startsWith(prefix)`. */
  predicate StartsWith(s: string, prefix: string)
  {
    |prefix| <= |s| && s[..|prefix|] == prefix
  }

  /** `s.includes(sub)`: `sub` occurs at some offset of `s`. */
  predicate Contains(s: string, sub: string)
  {
    exists i :: 0 <= i <= |s| - |sub| && StartsWith(s[i..], sub)
  }

  /** The fields of a browser `File` that the upload widgets and the document
      processor look at. */
  datatype FileMeta = FileMeta(name: string, mimeType: string, size: nat)
}
