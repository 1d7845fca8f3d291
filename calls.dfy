/** One call (`HttpClient.doCall` and `executeAndWait`): resolve the URL,
    assemble the request, attach the body, hand the request to the engine
    with the default timeout, and classify the response status before it
    goes on to deserialisation.

    The engine (the asynchronous HTTP library and the blocking wait on its
    future) is a parameter: a function from the request and the timeout in
    seconds to the response it completed with (possibly null) or the
    exception the wait raised. */
module Calls {
  import opened Wrappers
  import opened HttpTypes
  import opened Urls
  import opened Requests

  const DEFAULT_HTTP_TIMEOUT_SEC := 10

  /** What the library does with a request: a completed response, which may
      be null, or the exception the blocking wait raised (a timeout, an
      interruption, an execution failure). */
  type Engine = (Request, int) -> Result<Option<Response>, Error>

  /** The status branch of `executeAndWait`: a Success carries the response
      on to deserialisation. */
  function CheckStatus(response: Option<Response>): (r: Result<Option<Response>, Error>)
    ensures r.Failure? <==> response.Some? && response.value.statusCode >= 400
    ensures r.Success? ==> r.value == response
    ensures r.Failure? ==> r.error.InvalidRequest? && r.error.response == response.value
    ensures r.Failure? ==> (r.error.message == "Unauthorized request" <==> response.value.statusCode == 401)
    ensures r.Failure? ==> (r.error.message == "Invalid request" <==> response.value.statusCode != 401)
  {
    if response.Some? && response.value.statusCode == 401 then
      Failure(InvalidRequest("Unauthorized request", response.value))
    else if response.Some? && response.value.statusCode >= 400 then
      Failure(InvalidRequest("Invalid request", response.value))
    else
      Success(response)
  }

  /** `executeAndWait` up to deserialisation: an exception of the wait
      passes through unchanged, a completed response is classified. */
  function ExecuteAndWait(request: Request, timeoutSec: int, engine: Engine): (r: Result<Option<Response>, Error>)
    ensures engine(request, timeoutSec).Failure? ==> r == engine(request, timeoutSec)
    ensures r.Success? ==> engine(request, timeoutSec) == Success(r.value)
    ensures r.Success? ==> r.value.None? || r.value.value.statusCode < 400
    ensures r.Failure? && engine(request, timeoutSec).Success? ==> r.error.InvalidRequest?
    // a completed response is passed on exactly when it is null or below 400
    ensures engine(request, timeoutSec).Success? ==>
      (r.Success? <==> engine(request, timeoutSec).value.None? || engine(request, timeoutSec).value.value.statusCode < 400)
    ensures engine(request, timeoutSec).Success? &&
            (engine(request, timeoutSec).value.None? || engine(request, timeoutSec).value.value.statusCode < 400) ==>
      r == engine(request, timeoutSec)
    // otherwise the status error carries that response, with the 401 message rule
    ensures engine(request, timeoutSec).Success? && engine(request, timeoutSec).value.Some? &&
            engine(request, timeoutSec).value.value.statusCode >= 400 ==>
      r == Failure(InvalidRequest(
        if engine(request, timeoutSec).value.value.statusCode == 401 then "Unauthorized request" else "Invalid request",
        engine(request, timeoutSec).value.value))
  {
    match engine(request, timeoutSec)
    case Failure(e) => Failure(e)
    case Success(response) => CheckStatus(response)
  }

  /** The body rule of `doCall`: a body only for verbs other than GET and
      HEAD, and only when one is given. */
  function WithBody(request: Request, verb: Option<string>, body: Option<string>): (r: Request)
    ensures r == request.(body := r.body)
    ensures verb != Some(GET) && verb != Some(HEAD) && body.Some? ==> r.body == body
    ensures verb == Some(GET) || verb == Some(HEAD) || body.None? ==> r == request
  {
    if verb != Some(GET) && verb != Some(HEAD) && body.Some? then request.(body := body) else request
  }

  /** The request `doCall` sends, or the exception raised before sending. */
  function PrepareCall(c: Client, verb: Option<string>, uri: Option<string>, body: Option<string>,
                       options: OptionMap): Result<Request, Error>
  {
    match GetUrl(c.url, uri)
    case Failure(e) => Failure(e)
    case Success(url) =>
      match Assemble(c, verb, url, options)
      case Failure(e) => Failure(e)
      case Success(request) => Success(WithBody(request, verb, body))
  }

  /** The outcome of `doCall` up to deserialisation. */
  function Call(c: Client, verb: Option<string>, uri: Option<string>, body: Option<string>,
                options: OptionMap, engine: Engine): Result<Option<Response>, Error>
  {
    match PrepareCall(c, verb, uri, body, options)
    case Failure(e) => Failure(e)
    case Success(request) => ExecuteAndWait(request, DEFAULT_HTTP_TIMEOUT_SEC, engine)
  }

  /** `doCall` as the source performs it, updating the assembled request in
      place with the body, then executing it. */
  method DoCall(c: Client, verb: Option<string>, uri: Option<string>, body: Option<string>,
                options: OptionMap, engine: Engine) returns (r: Result<Option<Response>, Error>)
    ensures r == Call(c, verb, uri, body, options, engine)
  {
    var url :- GetUrl(c.url, uri);
    var builder :- GetBuilderWithHeaderAndQuery(c, verb, url, options);
    if verb != Some(GET) && verb != Some(HEAD) {
      if body.Some? {
        builder := builder.(body := body);
      }
    }
    r := ExecuteAndWait(builder, DEFAULT_HTTP_TIMEOUT_SEC, engine);
  }

  // ---------------------------------------------------------------------
  // What a call promises.
  // ---------------------------------------------------------------------

  /** A null URI fails with the URI error before anything else is looked at,
      even an unrecognised verb, and no request reaches the engine. */
  lemma NullUriFailsFirst(c: Client, verb: Option<string>, body: Option<string>, options: OptionMap, engine: Engine)
    ensures PrepareCall(c, verb, None, body, options).Failure?
    ensures Call(c, verb, None, body, options, engine) == Failure(NullUriError)
  {
  }

  /** An unrecognised verb with a URI fails with the verb error, and no
      request reaches the engine. */
  lemma UnknownVerbNeverSent(c: Client, verb: Option<string>, uri: string, body: Option<string>,
                             options: OptionMap, engine: Engine)
    requires forall v: Verb :: verb != Some(Name(v))
    ensures Call(c, verb, Some(uri), body, options, engine) ==
              Failure(IllegalArgument("Unrecognized verb: " + Show(verb)))
  {
  }

  /** The engine is consulted at most once, for the prepared request and the
      10-second default timeout: two engines that agree on that one question
      give the same outcome, and when preparation fails they need not agree
      on anything. */
  lemma CallDependsOnlyOnSentRequest(c: Client, verb: Option<string>, uri: Option<string>,
                                     body: Option<string>, options: OptionMap,
                                     engine1: Engine, engine2: Engine)
    requires PrepareCall(c, verb, uri, body, options).Success? ==>
      engine1(PrepareCall(c, verb, uri, body, options).value, DEFAULT_HTTP_TIMEOUT_SEC) ==
      engine2(PrepareCall(c, verb, uri, body, options).value, DEFAULT_HTTP_TIMEOUT_SEC)
    ensures Call(c, verb, uri, body, options, engine1) == Call(c, verb, uri, body, options, engine2)
  {
  }

  /** The request sent is the one assembled for the resolved URL, apart
      from its body. */
  lemma SentRequestIsAssembled(c: Client, verb: Option<string>, uri: Option<string>,
                               body: Option<string>, options: OptionMap)
    requires PrepareCall(c, verb, uri, body, options).Success?
    ensures GetUrl(c.url, uri).Success?
    ensures Assemble(c, verb, GetUrl(c.url, uri).value, options).Success?
    ensures var request := PrepareCall(c, verb, uri, body, options).value;
      request == Assemble(c, verb, GetUrl(c.url, uri).value, options).value.(body := request.body)
  {
  }

  /** The body is attached verbatim exactly when the verb is neither GET nor
      HEAD and a body is given. */
  lemma BodyAttachedIffAllowed(c: Client, verb: Option<string>, uri: Option<string>,
                               body: Option<string>, options: OptionMap)
    requires PrepareCall(c, verb, uri, body, options).Success?
    ensures var request := PrepareCall(c, verb, uri, body, options).value;
      && (request.body.Some? <==> request.verb != Get && request.verb != Head && body.Some?)
      && (request.body.Some? ==> request.body == body)
  {
  }

  /** Whatever the engine answers, a call ends in one of: the URI error, the
      verb error, the engine's own exception, the status error for a
      response of 400 or more, or that response (or null) handed on to
      deserialisation. */
  lemma OutcomeByStatus(c: Client, verb: Option<string>, uri: Option<string>, body: Option<string>,
                        options: OptionMap, engine: Engine)
    requires PrepareCall(c, verb, uri, body, options).Success?
    ensures var sent := engine(PrepareCall(c, verb, uri, body, options).value, DEFAULT_HTTP_TIMEOUT_SEC);
      var outcome := Call(c, verb, uri, body, options, engine);
      && (sent.Failure? ==> outcome == Failure(sent.error))
      && (sent.Success? && sent.value.Some? && sent.value.value.statusCode == 401 ==>
            outcome == Failure(InvalidRequest("Unauthorized request", sent.value.value)))
      && (sent.Success? && sent.value.Some? && sent.value.value.statusCode >= 400 &&
          sent.value.value.statusCode != 401 ==>
            outcome == Failure(InvalidRequest("Invalid request", sent.value.value)))
      && (sent.Success? && (sent.value.None? || sent.value.value.statusCode < 400) ==>
            outcome == Success(sent.value))
  {
  }
}
