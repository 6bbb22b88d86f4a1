/** The strict integer-type validator: only a PHP int passes. */
module TypeIntegerValidation {
  import opened PhpValues
  import opened ValidatorBase

  const INVALID_TYPE: string := "invalidType"

  const MESSAGE_TEMPLATES: map<string, string> := map[
    INVALID_TYPE := "'%value%' must be of type int"
  ]

  /** The decision of `isValid`: the value's type alone decides. */
  function Check(v: Value): (r: Verdict)
    ensures r.Valid? <==> v.Int?
    ensures r.Invalid? ==> r.key == INVALID_TYPE && r.key in MESSAGE_TEMPLATES
  {
    if !IsInt(v) then Invalid(INVALID_TYPE) else Valid
  }

  /** Negative ints, 0 and the extremes pass alike: the magnitude never matters. */
  lemma MagnitudeIrrelevant(a: int64, b: int64)
    ensures Check(Int(a)) == Check(Int(b)) == Valid
  {
  }

  /** A numeric string, an integral float, a boolean and null are all rejected. */
  lemma LookalikesRejected()
    ensures Check(Str(Bytes("1"))) == Invalid(INVALID_TYPE)
    ensures Check(Float(1.0)) == Invalid(INVALID_TYPE)
    ensures Check(Bool(true)) == Invalid(INVALID_TYPE)
    ensures Check(Null) == Invalid(INVALID_TYPE)
  {
  }

  class TypeInteger {
    const base: AbstractValidator

    constructor()
      ensures fresh(base)
      ensures base.value == None && base.messages == map[]
    {
      base := new AbstractValidator();
    }

    method IsValid(v: Value) returns (ok: bool)
      modifies base
      ensures base.value == Some(v)
      ensures ok <==> Check(v).Valid?
      ensures base.messages == Raised(Check(v), MESSAGE_TEMPLATES)
    {
      base.SetValue(v);

      if !IsInt(v) {
        base.Error(INVALID_TYPE, MESSAGE_TEMPLATES[INVALID_TYPE]);
        return false;
      }

      return true;
    }
  }
}
