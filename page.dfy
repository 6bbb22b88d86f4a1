/** The page-number validator: an int, and at least the first page. */
module PageValidation {
  import opened PhpValues
  import opened ValidatorBase

  /** Minimum page number; the bound is inclusive. */
  const MIN: int := 1

  const INVALID_TYPE: string := "invalidType"
  const INVALID_INTEGER: string := "invalidInteger"

  const MESSAGE_TEMPLATES: map<string, string> := map[
    INVALID_TYPE := "'%value%' must be an integer",
    INVALID_INTEGER := "'%value%' contains an invalid page number"
  ]

  /**
   * The decision of `isValid`: the type test comes first, so a value that is
   * not an int is reported as a type error whatever it holds; an int is then
   * compared with the inclusive lower bound.
   */
  function Check(v: Value): (r: Verdict)
    ensures r.Valid? <==> v.Int? && v.i as int >= 1
    ensures !v.Int? ==> r == Invalid(INVALID_TYPE)
    ensures v.Int? && v.i as int < 1 ==> r == Invalid(INVALID_INTEGER)
    ensures r.Invalid? ==> r.key in MESSAGE_TEMPLATES
  {
    if !IsInt(v) then Invalid(INVALID_TYPE)
    else if MIN > v.i as int then Invalid(INVALID_INTEGER)
    else Valid
  }

  /** 1 is a page and 0 is not; every int from 1 up to PHP_INT_MAX is one. */
  lemma BoundIsInclusive()
    ensures Check(Int(1)) == Valid && Check(Int(2)) == Valid
    ensures Check(Int(PHP_INT_MAX as int64)) == Valid
    ensures Check(Int(0)) == Invalid(INVALID_INTEGER)
  {
  }

  /** Raising a page number never makes it invalid. */
  lemma UpwardClosed(a: int64, b: int64)
    requires Check(Int(a)).Valid? && a <= b
    ensures Check(Int(b)).Valid?
  {
  }

  /** -1 fails the range check, whose message says it is no page number. */
  lemma TooSmallMessage()
    ensures Check(Int(-1)) == Invalid(INVALID_INTEGER)
    ensures var t, suffix := MESSAGE_TEMPLATES[Check(Int(-1)).key], " contains an invalid page number";
            |suffix| <= |t| && t[|t| - |suffix|..] == suffix
  {
  }

  /** A page validator; the base holds the last value and its messages. */
  class Page {
    const base: AbstractValidator

    constructor()
      ensures fresh(base)
      ensures base.value == None && base.messages == map[]
    {
      base := new AbstractValidator();
    }

    method IsValid(v: Value) returns (ok: bool)
      modifies base
      ensures base.value == Some(v)
      ensures ok <==> Check(v).Valid?
      ensures base.messages == Raised(Check(v), MESSAGE_TEMPLATES)
    {
      base.SetValue(v);

      if !IsInt(v) {
        base.Error(INVALID_TYPE, MESSAGE_TEMPLATES[INVALID_TYPE]);
        return false;
      }

      if MIN > v.i as int {
        base.Error(INVALID_INTEGER, MESSAGE_TEMPLATES[INVALID_INTEGER]);
        return false;
      }

      return true;
    }
  }
}
