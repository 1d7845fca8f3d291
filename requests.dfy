/** Request assembly (`HttpClient.getBuilderWithHeaderAndQuery`): the verb
    picks the HTTP method, the client's credentials become a Basic realm,
    the reserved option keys become headers, every other non-null option a
    query parameter, and the client's proxy is attached when fully set.

    The library's request builder is modelled as the `Request` value it
    accumulates; the method below updates that value step by step as the
    source updates the builder. */
module Requests {
  import opened Wrappers
  import opened HttpTypes

  const GET := "GET"
  const POST := "POST"
  const PUT := "PUT"
  const DELETE := "DELETE"
  const HEAD := "HEAD"
  const OPTIONS := "OPTIONS"

  /** The option keys that become headers instead of query parameters. */
  const ACCEPT := "Accept"
  const CONTENT_TYPE := "Content-Type"

  datatype Verb = Get | Post | Put | Delete | Head | Options

  /** The verb string each HTTP method is selected by. */
  function Name(v: Verb): string {
    match v
    case Get => GET
    case Post => POST
    case Put => PUT
    case Delete => DELETE
    case Head => HEAD
    case Options => OPTIONS
  }

  /** The authentication schemes of the library's realm. */
  datatype AuthScheme = NoScheme | Basic | Digest | Ntlm | Spnego | Kerberos

  datatype Realm = Realm(principal: Option<string>, password: Option<string>,
                         scheme: AuthScheme, usePreemptiveAuth: bool)

  datatype Proxy = Proxy(host: string, port: int)

  /** The request the library's builder holds once assembly is done. Headers
      keep the order they were added in; query parameters come from iterating
      a hash map, whose order is unspecified, so they form a multiset. */
  datatype Request = Request(
    verb: Verb,
    url: string,
    headers: seq<(string, string)>,
    queryParams: multiset<(string, string)>,
    realm: Option<Realm>,
    proxy: Option<Proxy>,
    body: Option<string>)

  /** The client's configuration, fixed at construction; every field may be null. */
  datatype Client = Client(
    url: Option<string>,
    username: Option<string>,
    password: Option<string>,
    proxyHost: Option<string>,
    proxyPort: Option<int>)

  /** A caller's option map: names to possibly-null values. */
  type OptionMap = map<string, Option<string>>

  /** Verb dispatch: exact, case-sensitive comparison against the six names. */
  function ParseVerb(verb: Option<string>): (r: Result<Verb, Error>)
    ensures r.Success? ==> verb == Some(Name(r.value))
    ensures r.Failure? ==> forall v: Verb :: verb != Some(Name(v))
    ensures r.Failure? ==> r.error == IllegalArgument("Unrecognized verb: " + Show(verb))
  {
    if verb == Some(GET) then Success(Get)
    else if verb == Some(POST) then Success(Post)
    else if verb == Some(PUT) then Success(Put)
    else if verb == Some(DELETE) then Success(Delete)
    else if verb == Some(HEAD) then Success(Head)
    else if verb == Some(OPTIONS) then Success(Options)
    else Failure(IllegalArgument("Unrecognized verb: " + Show(verb)))
  }

  /** Each method's own name selects exactly that method. */
  lemma {:induction false} ParseVerbName(v: Verb)
    ensures ParseVerb(Some(Name(v))) == Success(v)
  {
    match v
    case Get =>
    case Post =>
    case Put =>
    case Delete =>
    case Head =>
    case Options =>
  }

  /** Examples: "get" and "Post" are rejected, and a null verb is reported
      as "null". */
  lemma VerbMatchingIsCaseSensitive()
    ensures ParseVerb(Some("get")) == Failure(IllegalArgument("Unrecognized verb: get"))
    ensures ParseVerb(Some("Post")).Failure?
    ensures ParseVerb(None) == Failure(IllegalArgument("Unrecognized verb: null"))
  {
    assert "get"[0] != GET[0];
    assert "Post"[1] != POST[1];
    assert "Unrecognized verb: " + "get" == "Unrecognized verb: get";
    assert "Unrecognized verb: " + "null" == "Unrecognized verb: null";
  }

  /** ASCII upper-casing of one character. */
  function UpperChar(c: char): char {
    if 'a' <= c <= 'z' then (c as int - 32) as char else c
  }

  /** ASCII upper-casing, the case folding that would make "get" match: each
      character is upper-cased in place. */
  function ToUpper(s: string): (r: string)
    ensures |r| == |s|
    ensures forall i | 0 <= i < |s| :: r[i] == UpperChar(s[i])
  {
    if s == [] then [] else [UpperChar(s[0])] + ToUpper(s[1..])
  }

  /** A string without lower-case ASCII letters is its own upper-case form. */
  lemma ToUpperIdentity(s: string)
    requires forall i | 0 <= i < |s| :: !('a' <= s[i] <= 'z')
    ensures ToUpper(s) == s
  {
    var r := ToUpper(s);
    assert forall i | 0 <= i < |s| :: r[i] == s[i];
  }

  /** Every method name is already upper case. */
  lemma NameIsUpperCase(v: Verb)
    ensures ToUpper(Name(v)) == Name(v)
  {
    var n := Name(v);
    assert forall i | 0 <= i < |n| :: !('a' <= n[i] <= 'z');
    ToUpperIdentity(n);
  }

  /** Matching is case-sensitive for every input: a string that differs from
      a method's name but upper-cases to it (any other spelling of "GET",
      "Post", "delete", …) selects no method at all. */
  lemma CaseVariantsRejected(s: string, v: Verb)
    requires ToUpper(s) == Name(v) && s != Name(v)
    ensures ParseVerb(Some(s)) == Failure(IllegalArgument("Unrecognized verb: " + s))
  {
    forall w: Verb ensures s != Name(w) {
      NameIsUpperCase(w);
    }
  }

  // ---------------------------------------------------------------------
  // Reference definition of an assembled request, stated declaratively.
  // ---------------------------------------------------------------------

  /** The realm attached for the client's credentials, if any. */
  function RealmFor(c: Client): Option<Realm> {
    if c.username.Some? || c.password.Some?
    then Some(Realm(c.username, c.password, Basic, true))
    else None
  }

  /** The proxy attached for the client's proxy settings, if any. */
  function ProxyFor(c: Client): Option<Proxy> {
    if c.proxyHost.Some? && c.proxyPort.Some?
    then Some(Proxy(c.proxyHost.value, c.proxyPort.value))
    else None
  }

  /** The header contributed by the reserved option `name`, if it is set. */
  function HeaderFor(options: OptionMap, name: string): seq<(string, string)> {
    if name in options && options[name].Some? then [(name, options[name].value)] else []
  }

  function HeadersOf(options: OptionMap): seq<(string, string)> {
    HeaderFor(options, ACCEPT) + HeaderFor(options, CONTENT_TYPE)
  }

  /** Every non-null option other than the reserved ones, once each. */
  function QueryParamsOf(options: OptionMap): multiset<(string, string)> {
    multiset(set k | k in options && k != ACCEPT && k != CONTENT_TYPE && options[k].Some? ::
               (k, options[k].value))
  }

  /** The request assembled for `verb`, `url` and `options`, or the error
      for an unrecognised verb. No body is attached at this stage. */
  function Assemble(c: Client, verb: Option<string>, url: string, options: OptionMap): Result<Request, Error> {
    match ParseVerb(verb)
    case Failure(e) => Failure(e)
    case Success(m) =>
      Success(Request(m, url, HeadersOf(options), QueryParamsOf(options), RealmFor(c), ProxyFor(c), None))
  }

  // ---------------------------------------------------------------------
  // The assembly step as the source performs it.
  // ---------------------------------------------------------------------

  /** The query parameters contributed by the keys already visited. */
  function Pairs(options: OptionMap, visited: set<string>): set<(string, string)> {
    set k | k in visited && k in options && options[k].Some? :: (k, options[k].value)
  }

  /** Visiting one more key adds its pair, once, if its value is set. */
  lemma PairsStep(options: OptionMap, visited: set<string>, key: string)
    requires key in options && key !in visited
    ensures multiset(Pairs(options, visited + {key})) ==
      multiset(Pairs(options, visited)) +
      (if options[key].Some? then multiset{(key, options[key].value)} else multiset{})
  {
  }

  /** After the reserved keys with a value are removed from a copy of the
      options, the visited copy yields exactly the query parameters. */
  lemma RemainingPairs(original: OptionMap, options: OptionMap)
    requires options.Keys <= original.Keys
    requires forall k | k in options :: options[k] == original[k]
    requires forall k | k in original && k !in options :: k == ACCEPT || k == CONTENT_TYPE
    requires ACCEPT in options ==> options[ACCEPT].None?
    requires CONTENT_TYPE in options ==> options[CONTENT_TYPE].None?
    ensures multiset(Pairs(options, options.Keys)) == QueryParamsOf(original)
  {
  }

  /** The realm for the client's credentials, built as the source fills in
      the library's realm builder: each credential only when it is set, and
      always Basic and preemptive. */
  method BuildRealm(username: Option<string>, password: Option<string>) returns (realm: Realm)
    ensures realm.principal == username && realm.password == password
    ensures realm.scheme == Basic && realm.usePreemptiveAuth
  {
    // the builder's initial scheme and preemptive flag are overwritten below
    realm := Realm(None, None, NoScheme, false);
    if username.Some? {
      realm := realm.(principal := username);
    }
    if password.Some? {
      realm := realm.(password := password);
    }
    realm := realm.(usePreemptiveAuth := true, scheme := Basic);
  }

  /** Builds the request for `verb` against `url` with the caller's options:
      the same request as the reference definition `Assemble`. The caller's
      map is a value here, so the copy the source takes cannot leak changes
      back to it. */
  method GetBuilderWithHeaderAndQuery(c: Client, verb: Option<string>, url: string, immutableOptions: OptionMap)
    returns (r: Result<Request, Error>)
    ensures r == Assemble(c, verb, url, immutableOptions)
  {
    var m :- ParseVerb(verb);
    var builder := Request(m, url, [], multiset{}, None, None, None);

    if c.username.Some? || c.password.Some? {
      var realm := BuildRealm(c.username, c.password);
      builder := builder.(realm := Some(realm));
    }
    assert builder == Request(m, url, [], multiset{}, RealmFor(c), None, None);
    var options := immutableOptions;
    if ACCEPT in options && options[ACCEPT].Some? {
      builder := builder.(headers := builder.headers + [(ACCEPT, options[ACCEPT].value)]);
      options := options - {ACCEPT};
    }
    if CONTENT_TYPE in options && options[CONTENT_TYPE].Some? {
      builder := builder.(headers := builder.headers + [(CONTENT_TYPE, options[CONTENT_TYPE].value)]);
      options := options - {CONTENT_TYPE};
    }
    assert builder == Request(m, url, HeadersOf(immutableOptions), multiset{}, RealmFor(c), None, None);

    var pending := options.Keys;
    while pending != {}
      invariant pending <= options.Keys
      invariant builder == Request(m, url, HeadersOf(immutableOptions), builder.queryParams, RealmFor(c), None, None)
      invariant builder.queryParams == multiset(Pairs(options, options.Keys - pending))
      decreases pending
    {
      var key :| key in pending;
      PairsStep(options, options.Keys - pending, key);
      assert options.Keys - (pending - {key}) == (options.Keys - pending) + {key};
      if options[key].Some? {
        builder := builder.(queryParams := builder.queryParams + multiset{(key, options[key].value)});
      }
      pending := pending - {key};
    }
    assert options.Keys - pending == options.Keys;
    RemainingPairs(immutableOptions, options);

    if c.proxyHost.Some? && c.proxyPort.Some? {
      builder := builder.(proxy := Some(Proxy(c.proxyHost.value, c.proxyPort.value)));
    }
    r := Success(builder);
  }

  // ---------------------------------------------------------------------
  // What the reference definition promises.
  // ---------------------------------------------------------------------

  /** Assembly fails exactly for an unrecognised verb, with that error. */
  lemma AssembleFailsOnlyForUnknownVerb(c: Client, verb: Option<string>, url: string, options: OptionMap)
    ensures Assemble(c, verb, url, options).Failure? <==> forall v: Verb :: verb != Some(Name(v))
    ensures Assemble(c, verb, url, options).Failure? ==>
      Assemble(c, verb, url, options).error == IllegalArgument("Unrecognized verb: " + Show(verb))
    ensures Assemble(c, verb, url, options).Success? ==>
      verb == Some(Name(Assemble(c, verb, url, options).value.verb)) &&
      Assemble(c, verb, url, options).value.url == url &&
      Assemble(c, verb, url, options).value.body.None?
  {
  }

  /** Basic, preemptive credentials are attached exactly when a username or a
      password is set, carrying each of them only when it is set. */
  lemma AuthAttachedIffCredentials(c: Client, verb: Option<string>, url: string, options: OptionMap)
    requires Assemble(c, verb, url, options).Success?
    ensures var rq := Assemble(c, verb, url, options).value;
      && (rq.realm.Some? <==> c.username.Some? || c.password.Some?)
      && (rq.realm.Some? ==> rq.realm.value.scheme == Basic && rq.realm.value.usePreemptiveAuth)
      && (rq.realm.Some? ==> (rq.realm.value.principal.Some? <==> c.username.Some?))
      && (rq.realm.Some? ==> (rq.realm.value.password.Some? <==> c.password.Some?))
      && (rq.realm.Some? ==> rq.realm.value.principal == c.username && rq.realm.value.password == c.password)
  {
  }

  /** A proxy is attached exactly when both its host and its port are set. */
  lemma ProxyAttachedIffHostAndPort(c: Client, verb: Option<string>, url: string, options: OptionMap)
    requires Assemble(c, verb, url, options).Success?
    ensures var rq := Assemble(c, verb, url, options).value;
      && (rq.proxy.Some? <==> c.proxyHost.Some? && c.proxyPort.Some?)
      && (rq.proxy.Some? ==> Some(rq.proxy.value.host) == c.proxyHost && Some(rq.proxy.value.port) == c.proxyPort)
  {
  }

  /** Headers come only from the reserved keys: at most Accept then
      Content-Type, each carrying the caller's value. */
  lemma HeadersOnlyFromReservedKeys(options: OptionMap)
    ensures |HeadersOf(options)| <= 2
    ensures forall i | 0 <= i < |HeadersOf(options)| ::
      var (name, value) := HeadersOf(options)[i];
      (name == ACCEPT || name == CONTENT_TYPE) && name in options && options[name] == Some(value)
    ensures forall v :: (ACCEPT, v) in HeadersOf(options) <==> ACCEPT in options && options[ACCEPT] == Some(v)
    ensures forall v :: (CONTENT_TYPE, v) in HeadersOf(options) <==>
                          CONTENT_TYPE in options && options[CONTENT_TYPE] == Some(v)
  {
  }

  /** The options are split without loss or duplication: a pair is a header
      or a query parameter exactly when the caller set that key to that
      value; never both; a query parameter occurs once; the reserved keys
      are never query parameters; null values appear nowhere. */
  lemma OptionsPartition(options: OptionMap)
    ensures forall p: (string, string) ::
      (p in HeadersOf(options) || p in QueryParamsOf(options)) <==> (p.0 in options && options[p.0] == Some(p.1))
    ensures forall p: (string, string) :: !(p in HeadersOf(options) && p in QueryParamsOf(options))
    ensures forall p: (string, string) :: QueryParamsOf(options)[p] <= 1
    ensures forall p: (string, string) | p in QueryParamsOf(options) :: p.0 != ACCEPT && p.0 != CONTENT_TYPE
    ensures forall k | k in options && options[k].None? ::
      forall p: (string, string) | p.0 == k :: p !in QueryParamsOf(options) && p !in HeadersOf(options)
  {
  }
}
