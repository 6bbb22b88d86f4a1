/**
 * The state every validator inherits from its framework base class: the value
 * of the last `isValid` call and the error messages it raised, keyed by error
 * key. Only the two protected operations the validators call are modelled.
 */
module ValidatorBase {
  import opened PhpValues

  /** The decision of one `isValid` call: accepted, or rejected with an error key. */
  datatype Verdict = Valid | Invalid(key: string)

  /** The messages a verdict leaves on the validator: none, or its one key with its template. */
  function Raised(r: Verdict, templates: map<string, string>): (m: map<string, string>)
    requires r.Invalid? ==> r.key in templates
    ensures r.Valid? ==> m == map[]
    ensures r.Invalid? ==> m.Keys == {r.key} && m[r.key] == templates[r.key]
  {
    if r.Valid? then map[] else map[r.key := templates[r.key]]
  }

  class AbstractValidator {
    /** The value of the last `isValid` call; None before the first. */
    var value: Option<Value>
    /** Error key => message template, for the errors of the last `isValid` call. */
    var messages: map<string, string>

    constructor()
      ensures value == None && messages == map[]
    {
      value := None;
      messages := map[];
    }

    /** `setValue`: records the value and forgets the messages of any earlier call. */
    method SetValue(v: Value)
      modifies this
      ensures value == Some(v) && messages == map[]
    {
      value := Some(v);
      messages := map[];
    }

    /** `error`: raises the message stored under `key`. */
    method Error(key: string, template: string)
      modifies this
      ensures value == old(value)
      ensures messages == old(messages)[key := template]
    {
      messages := messages[key := template];
    }
  }
}
