/** The API-key assertion: the key's length in bytes must lie in [20..45]. */
module ApiKeyAssertion {
  import opened PhpValues

  /** Bounds on the key's length; they are only ever read. */
  const API_KEY_MIN_LENGTH: int := 20
  const API_KEY_MAX_LENGTH: int := 45

  const FORMAT: string := "Length of API key (%s) must be in the range [%2$s..%3$s]"

  /**
   * A `sprintf` call not yet rendered: its format and the values it fills in,
   * in slot order (each is shown through the assertion library's
   * `valueToString`).
   */
  datatype Message = Sprintf(format: PhpString, args: seq<Value>)

  /** Returns normally, or throws InvalidArgumentException with a message. */
  datatype Assertion = Passed | Failed(message: Message)

  /**
   * The assertion library's `range(value, min, max, message)`, which is not
   * part of this model: it returns normally or throws with some message.
   */
  type RangeCheck = (int, int, int, Message) -> Assertion

  /** `range` passes exactly when `min <= value <= max`, both ends included. */
  ghost predicate InclusiveRange(range: RangeCheck) {
    forall value, min, max, message :: range(value, min, max, message).Passed? <==> min <= value <= max
  }

  /** PHP's truthiness for strings: "" and "0" are the false ones. */
  predicate Falsy(s: PhpString) {
    s == [] || s == Bytes("0")
  }

  /**
   * The message `assertApiKey` builds: the caller's format unless it is falsy,
   * else the default one, with the key and the two bounds in slot order.
   */
  function ApiKeyMessage(value: PhpString, message: PhpString): (m: Message)
    ensures m.args == [Str(value), Int(20), Int(45)]
    ensures !Falsy(message) ==> m.format == message
    ensures Falsy(message) ==> m.format == Bytes(FORMAT)
  {
    Sprintf(if Falsy(message) then Bytes(FORMAT) else message,
            [Str(value), Int(API_KEY_MIN_LENGTH as int64), Int(API_KEY_MAX_LENGTH as int64)])
  }

  /**
   * `assertApiKey`: measures the key with `strlen` and hands that length, the
   * bounds 20 and 45 and the built message to `range`; its outcome is range's.
   */
  function AssertApiKey(value: PhpString, message: PhpString, range: RangeCheck): (r: Assertion)
    ensures r == range(|value|, 20, 45, ApiKeyMessage(value, message))
  {
    var length := |value|;
    range(length, API_KEY_MIN_LENGTH, API_KEY_MAX_LENGTH, ApiKeyMessage(value, message))
  }

  /** With an inclusive `range`, a key passes exactly when its byte length is in [20..45]. */
  lemma LengthInRange(value: PhpString, message: PhpString, range: RangeCheck)
    requires InclusiveRange(range)
    ensures AssertApiKey(value, message, range).Passed? <==> 20 <= |value| <= 45
  {
  }

  /** With an inclusive `range`, only the key's length matters to the verdict, never its bytes. */
  lemma LengthDecides(a: PhpString, b: PhpString, m: PhpString, n: PhpString, range: RangeCheck)
    requires InclusiveRange(range) && |a| == |b|
    ensures AssertApiKey(a, m, range).Passed? == AssertApiKey(b, n, range).Passed?
  {
    LengthInRange(a, m, range);
    LengthInRange(b, n, range);
  }

  /** A custom message of "0" is falsy too, so `range` gets the same message as with none. */
  lemma ZeroMessageFallsBack(value: PhpString, range: RangeCheck)
    ensures AssertApiKey(value, Bytes("0"), range) == AssertApiKey(value, [], range)
  {
  }

  /** With an inclusive `range`, lengths 20 and 45 pass while 19 and 46 fail. */
  lemma BoundsInclusive(message: PhpString, range: RangeCheck)
    requires InclusiveRange(range)
    ensures forall s: PhpString | |s| == 20 || |s| == 45 :: AssertApiKey(s, message, range).Passed?
    ensures forall s: PhpString | |s| == 19 || |s| == 46 :: AssertApiKey(s, message, range).Failed?
  {
  }

  /** Bytes that start a UTF-8 encoded character (all but continuation bytes 0x80..0xBF). */
  function Utf8Chars(s: PhpString): (n: nat)
    ensures n <= |s|
  {
    if s == [] then 0
    else (if 0x80 <= s[0] < 0xC0 then 0 else 1) + Utf8Chars(s[1..])
  }

  /** `n` copies of `unit`. */
  function Repeat(unit: PhpString, n: nat): (r: PhpString)
    ensures |r| == n * |unit|
  {
    if n == 0 then [] else unit + Repeat(unit, n - 1)
  }

  /** "é" in UTF-8. */
  const E_ACUTE: PhpString := [0xC3, 0xA9]

  lemma {:induction false} RepeatedEAcute(n: nat)
    ensures Utf8Chars(Repeat(E_ACUTE, n)) == n
  {
    if n > 0 {
      var rest := Repeat(E_ACUTE, n - 1);
      var s := E_ACUTE + rest;
      assert s[1..] == [0xA9 as byte] + rest;
      assert s[1..][1..] == rest;
      RepeatedEAcute(n - 1);
    }
  }

  /**
   * `strlen` counts bytes: a key of ten two-byte characters has length 20
   * and passes, although it is ten characters long.
   */
  lemma LengthCountsBytes(range: RangeCheck)
    requires InclusiveRange(range)
    ensures var key := Repeat(E_ACUTE, 10);
            Utf8Chars(key) == 10 && AssertApiKey(key, [], range).Passed?
  {
    RepeatedEAcute(10);
    LengthInRange(Repeat(E_ACUTE, 10), [], range);
  }
}
