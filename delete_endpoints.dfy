/**
 * The DELETE endpoints: validate the argument, build the request, send it
 * through the client's `request`, and read the reply as a boolean.
 */
module DeleteEndpoints {
  import opened PhpValues

  const DELETE: string := "DELETE"

  const API_KEY_PATH: string := "/account/apikey"
  const TEMPLATE_DELETE_PATH: string := "/templates/delete"

  /** The names the endpoints pass to the static validator. */
  const API_KEY_VALIDATOR: string := "ApiKey"
  const TEMPLATE_NAME_VALIDATOR: string := "TemplateName"

  /** A request: verb, versioned URI and the `query` option, in order. */
  datatype Request = Request(verb: string, uri: string, query: seq<(string, Value)>)

  /** What `request` does: returns a response, returns something else, or throws. */
  datatype Reply =
    | Response(status: int)
    | NotAResponse
    | RuntimeFailure(message: string)

  datatype Exception =
    | InvalidArgument(validator: string)
    | RuntimeException(message: string)

  /** An endpoint's outcome: a boolean returned, or an exception thrown. */
  datatype Outcome = Returned(value: bool) | Threw(error: Exception)

  /**
   * How an endpoint reads the reply: true for a response with exactly the
   * expected status, false for any other response or non-response, and a
   * failure of `request` passes through uncaught.
   */
  function Classify(reply: Reply, expected: int): (out: Outcome)
    ensures out == Returned(true) <==> reply == Response(expected)
    ensures out == Returned(false) <==> reply.NotAResponse? || (reply.Response? && reply.status != expected)
    ensures out.Threw? <==> reply.RuntimeFailure?
    ensures reply.RuntimeFailure? ==> out == Threw(RuntimeException(reply.message))
  {
    match reply
    case Response(status) => Returned(status == expected)
    case NotAResponse => Returned(false)
    case RuntimeFailure(message) => Threw(RuntimeException(message))
  }

  /** Deleting a template wants 204: a 200 reads as false, and so does a 404. */
  lemma TemplateDeleteWants204()
    ensures Classify(Response(204), 204) == Returned(true)
    ensures Classify(Response(200), 204) == Returned(false)
    ensures Classify(Response(404), 204) == Returned(false)
    ensures Classify(Response(200), 200) == Returned(true)
  {
  }

  /**
   * The client. Its collaborators are given as functions: `uri` prefixes the
   * API version, `validate` is the static validator (true when the named
   * validator accepts the value), and `respond` is the remote service, whose
   * reply may depend on every request sent before. `sent` records the
   * requests issued, oldest first.
   */
  class Client {
    const uri: string -> string
    const validate: (string, Value) -> bool
    const respond: (seq<Request>, Request) -> Reply
    var sent: seq<Request>

    constructor(uri: string -> string, validate: (string, Value) -> bool,
                respond: (seq<Request>, Request) -> Reply)
      ensures this.uri == uri && this.validate == validate && this.respond == respond
      ensures sent == []
    {
      this.uri := uri;
      this.validate := validate;
      this.respond := respond;
      sent := [];
    }

    /** The request `deleteApiKey` sends for `key`. */
    function ApiKeyRequest(key: Value): Request {
      Request(DELETE, uri(API_KEY_PATH), [("key", key)])
    }

    /** The request `deleteTemplate` sends for `templateName`. */
    function TemplateRequest(templateName: Value): Request {
      Request(DELETE, uri(TEMPLATE_DELETE_PATH), [("templateName", templateName)])
    }

    /** `request`: sends one request and gives back the service's reply. */
    method Send(verb: string, path: string, query: seq<(string, Value)>) returns (reply: Reply)
      modifies this
      ensures sent == old(sent) + [Request(verb, path, query)]
      ensures reply == respond(old(sent), Request(verb, path, query))
    {
      reply := respond(sent, Request(verb, path, query));
      sent := sent + [Request(verb, path, query)];
    }

    /**
     * `deleteApiKey`: nothing is sent for a key the validator rejects;
     * otherwise one DELETE of the key, true iff the reply is a 200 response.
     */
    method DeleteApiKey(key: Value) returns (out: Outcome)
      modifies this
      ensures !validate(API_KEY_VALIDATOR, key) ==>
                out == Threw(InvalidArgument(API_KEY_VALIDATOR)) && sent == old(sent)
      ensures validate(API_KEY_VALIDATOR, key) ==>
                sent == old(sent) + [ApiKeyRequest(key)] &&
                out == Classify(respond(old(sent), ApiKeyRequest(key)), 200)
    {
      var ret := false;

      if !validate(API_KEY_VALIDATOR, key) {
        return Threw(InvalidArgument(API_KEY_VALIDATOR));
      }

      var query := [("key", key)];
      var response := Send(DELETE, uri(API_KEY_PATH), query);

      if response.RuntimeFailure? {
        return Threw(RuntimeException(response.message));
      }
      if response.Response? && response.status == 200 {
        ret := true;
      }

      return Returned(ret);
    }

    /**
     * `deleteTemplate`: nothing is sent for a name the validator rejects;
     * otherwise one DELETE of the name, true iff the reply is a 204 response.
     */
    method DeleteTemplate(templateName: Value) returns (out: Outcome)
      modifies this
      ensures !validate(TEMPLATE_NAME_VALIDATOR, templateName) ==>
                out == Threw(InvalidArgument(TEMPLATE_NAME_VALIDATOR)) && sent == old(sent)
      ensures validate(TEMPLATE_NAME_VALIDATOR, templateName) ==>
                sent == old(sent) + [TemplateRequest(templateName)] &&
                out == Classify(respond(old(sent), TemplateRequest(templateName)), 204)
    {
      var ret := false;

      if !validate(TEMPLATE_NAME_VALIDATOR, templateName) {
        return Threw(InvalidArgument(TEMPLATE_NAME_VALIDATOR));
      }

      var query := [("templateName", templateName)];
      var response := Send(DELETE, uri(TEMPLATE_DELETE_PATH), query);

      if response.RuntimeFailure? {
        return Threw(RuntimeException(response.message));
      }
      if response.Response? && response.status == 204 {
        ret := true;
      }

      return Returned(ret);
    }
  }
}
