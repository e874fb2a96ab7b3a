/** The PHP built-ins `push` relies on whose algorithms are outside this model:
    base64 (RFC 4648, section 4), gzip (RFC 1952) and JSON (RFC 8259). Each is an
    arbitrary total function supplied by the caller, so every property proved
    about the forwarder holds whatever these functions compute. */
module PhpBuiltins {
  import opened PhpValues

  newtype byte = x: int | 0 <= x < 256

  datatype Builtins = Builtins(
    /** `base64_decode($s)` in its default, non-strict mode, which skips
        characters outside the alphabet and so never fails. */
    base64Decode: string -> seq<byte>,
    /** `gzdecode($b)`: None where PHP returns false. */
    gzDecode: seq<byte> -> Option<string>,
    /** `json_validate($s)`. */
    jsonValidate: string -> bool,
    /** `json_decode($s, true)`: objects and lists become arrays; null on
        malformed input, as PHP returns. */
    jsonDecode: string -> Value)

  /** `json_decode` yields values PHP can hold: whatever the text, every array
      it builds has distinct keys (a repeated object key keeps only its last
      value). */
  ghost predicate JsonDecodeWellFormed(builtins: Builtins)
  {
    forall s :: WellFormed(builtins.jsonDecode(s))
  }
}
