/**
 * The image-format validator: a file-extension validator whose haystack is
 * fixed to the four thumbnail formats, whatever the caller passes.
 */
module ImageFormatValidation {
  import opened PhpValues

  const HAYSTACK: string := "haystack"

  /** The allowed formats, in the order the constructor lists them. */
  const IMAGE_FORMATS: seq<PhpString> := [Bytes("BMP"), Bytes("GIF"), Bytes("JPG"), Bytes("PNG")]

  /** The `haystack` option: the formats as a PHP list of strings. */
  function ImageHaystack(): Value {
    Arr(seq(|IMAGE_FORMATS|, k requires 0 <= k < |IMAGE_FORMATS| => Str(IMAGE_FORMATS[k])))
  }

  /** The options handed to the parent constructor: `haystack` is the format list, the rest as given. */
  function WithImageHaystack(options: map<string, Value>): (r: map<string, Value>)
    ensures r.Keys == options.Keys + {HAYSTACK}
    ensures r[HAYSTACK].Arr? && |r[HAYSTACK].items| == |IMAGE_FORMATS|
    ensures forall k | 0 <= k < |IMAGE_FORMATS| :: r[HAYSTACK].items[k] == Str(IMAGE_FORMATS[k])
    ensures forall k | k in options && k != HAYSTACK :: r[k] == options[k]
  {
    options[HAYSTACK := ImageHaystack()]
  }

  /** A caller's own haystack is replaced, not merged: the result does not depend on it. */
  lemma CallerHaystackIgnored(options: map<string, Value>, h: Value)
    ensures WithImageHaystack(options[HAYSTACK := h]) == WithImageHaystack(options)
  {
  }

  /** ASCII upper-casing, for stating a comparison that ignores case. */
  function AsciiUpper(s: PhpString): PhpString
  {
    seq(|s|, k requires 0 <= k < |s| => if 97 <= s[k] <= 122 then s[k] - 32 else s[k])
  }

  /** `s` equals one entry of `haystack`, exactly or ignoring ASCII case. */
  predicate Listed(haystack: seq<PhpString>, s: PhpString, ignoreCase: bool) {
    exists k | 0 <= k < |haystack| ::
      if ignoreCase then AsciiUpper(haystack[k]) == AsciiUpper(s) else haystack[k] == s
  }

  /**
   * 'PNG' is one of the formats and 'XXX' is not, whether the parent compares
   * exactly or ignoring case.
   */
  lemma ThumbnailFormats(ignoreCase: bool)
    ensures Listed(IMAGE_FORMATS, Bytes("PNG"), ignoreCase)
    ensures !Listed(IMAGE_FORMATS, Bytes("XXX"), ignoreCase)
  {
    var png, xxx := Bytes("PNG"), Bytes("XXX");
    assert IMAGE_FORMATS[3] == png;
    assert AsciiUpper(IMAGE_FORMATS[3]) == AsciiUpper(png);
    forall k | 0 <= k < |IMAGE_FORMATS|
      ensures IMAGE_FORMATS[k] != xxx && AsciiUpper(IMAGE_FORMATS[k]) != AsciiUpper(xxx)
    {
      assert AsciiUpper(IMAGE_FORMATS[k])[0] != AsciiUpper(xxx)[0];
    }
  }

  /** The validator; its state is the options array its parent was built from. */
  class ImageFormat {
    var parentOptions: map<string, Value>

    constructor(options: map<string, Value>)
      ensures parentOptions == WithImageHaystack(options)
    {
      var opts := options;
      opts := opts[HAYSTACK := ImageHaystack()];
      parentOptions := opts;
    }
  }
}
