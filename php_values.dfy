/** PHP's dynamic values, as far as the validators and endpoints inspect them. */
module PhpValues {

  /** PHP strings are byte strings: `strlen` counts bytes. */
  newtype byte = x: int | 0 <= x < 256

  type PhpString = seq<byte>

  const PHP_INT_MAX: int := 0x7FFF_FFFF_FFFF_FFFF
  const PHP_INT_MIN: int := -0x8000_0000_0000_0000

  /** A PHP `int` on a 64-bit build. */
  newtype int64 = x: int | PHP_INT_MIN <= x <= PHP_INT_MAX

  datatype Option<T> = None | Some(value: T)

  /** A caller-supplied PHP value. `Arr` is a list-shaped array (keys 0, 1, ...). */
  datatype Value =
    | Int(i: int64)
    | Float(f: real)
    | Str(s: PhpString)
    | Bool(b: bool)
    | Null
    | Arr(items: seq<Value>)

  /** PHP's `is_int` (alias `is_integer`): true only for values of type int. */
  predicate IsInt(v: Value) {
    v.Int?
  }

  /**
   * The bytes of a literal of the source, one byte per character; every
   * literal used here is ASCII, so each byte is its character's code.
   */
  function Bytes(s: string): (b: PhpString)
    ensures |b| == |s|
    ensures forall k | 0 <= k < |s| && s[k] as int < 256 :: b[k] as int == s[k] as int
  {
    seq(|s|, k requires 0 <= k < |s| => (s[k] as int % 256) as byte)
  }
}
