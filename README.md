# HttpClient request rules, in Dafny

This project models the deterministic core of the Kill Bill plugin
framework's `HttpClient` (`org.killbill.billing.plugin.util.http`). That core
is the layer that assembles a request and classifies the response. The model
proves what this layer promises:

- **URL resolution** (`getUrl`). A null URI is a `URISyntaxException`. An
  absolute URI is used verbatim. Any other URI is appended to the base URL by
  plain concatenation, and a null base URL is rendered as `"null"`.
- **Request assembly** (`getBuilderWithHeaderAndQuery`).
  - The six verb strings select their HTTP methods case-sensitively. Any
    other string, or null, raises `IllegalArgumentException`.
  - Preemptive Basic credentials are attached when a username or a password
    is set.
  - Non-null `Accept` and `Content-Type` options become headers. Every other
    non-null option becomes a query parameter.
  - A proxy is attached when both its host and its port are set.
- **The body rule of `doCall`**. A body is attached verbatim only for verbs
  other than GET and HEAD, and only when it is non-null.
- **Status classification** (`executeAndWait`). 401 fails with
  `InvalidRequest("Unauthorized request")`. Any other status of 400 or more
  fails with `InvalidRequest("Invalid request")`. A lower status, or a null
  response, goes on to deserialisation.

Layout:

- `common.dfy`: `Option` and `Result` (module `Wrappers`), and the response
  and exception values (module `HttpTypes`).
- `urls.dfy`: URL resolution (module `Urls`).
- `requests.dfy`: request assembly (module `Requests`). The library's
  `BoundRequestBuilder` is the `Request` value it accumulates.
  `GetBuilderWithHeaderAndQuery` updates that value step by step, the way
  the source updates the builder: a copy of the option map, removal of the
  reserved keys, and a loop over the remaining keys. The method is proved
  equal to the declarative reference definition `Assemble`. Lemmas about
  `Assemble` state the assembly rules.
- `calls.dfy`: one call (module `Calls`). The asynchronous engine and the
  blocking wait are a function parameter. It takes the request and the
  timeout, and returns the completed response (possibly null) or the
  exception the wait raised.

Java `null` is modelled as `None` throughout. This covers the URI, the verb,
the body, every client setting and every option value.

A 401 response raises the same `InvalidRequest` as any other status of 400
or more; only the message differs. A null URI raises
`URISyntaxException("(null)", "HttpClient URL misconfigured")`.

## Model

| member | source | states |
|---|---|---|
| `Urls.ScanToDelimiter` | src/main/java/org/killbill/billing/plugin/util/http/HttpClient.java:218-219 | the scan `java.net.URI` runs for a scheme's colon: the prefix it returns has no delimiter, and the scan stops exactly at the first one |
| `Urls.GetUrl` | src/main/java/org/killbill/billing/plugin/util/http/HttpClient.java:213-224 | fails exactly for a null URI, with the `URISyntaxException` text; on success the URI survives verbatim as the suffix of the URL; an absolute URI is the whole URL |
| `Urls.AbsoluteIgnoresBase` | src/main/java/org/killbill/billing/plugin/util/http/HttpClient.java:218-220 | an absolute URI resolves to itself whatever the base URL, so two different bases give the same URL |
| `Urls.RelativeIsConcatenation` | src/main/java/org/killbill/billing/plugin/util/http/HttpClient.java:221-222 | a relative URI resolves to base then URI, with no separator inserted or removed: the lengths add up, the base is the prefix and the URI is the rest |
| `Urls.RelativeAgainstNullBase` | src/main/java/org/killbill/billing/plugin/util/http/HttpClient.java:222 | with a null base URL, a relative URI resolves against the text "null" |
| `Urls.RootedPathIsRelative` | src/main/java/org/killbill/billing/plugin/util/http/HttpClient.java:218-222 | a URI starting with '/' is never absolute, so it is always appended to the base |
| `Urls.ScanStopsAtDelimiter` | src/main/java/org/killbill/billing/plugin/util/http/HttpClient.java:218-219 | a delimiter-free word followed by a delimiter scans to exactly the word's length |
| `Urls.HasScheme` | src/main/java/org/killbill/billing/plugin/util/http/HttpClient.java:218-219 | `isAbsolute()` as a scheme test: holds exactly when some colon is preceded by a scheme name (a letter, then scheme characters) and by no '/', '?', '#' or earlier colon |
| `Urls.SchemeMakesAbsolute` | src/main/java/org/killbill/billing/plugin/util/http/HttpClient.java:218-220 | a letter followed by scheme characters and a colon makes a URI absolute in the model, whatever follows the colon; `java.net.URI` instead rejects some such strings, e.g. "http:" and "http://" |
| `Urls.HttpUrlsAreAbsolute` | src/main/java/org/killbill/billing/plugin/util/http/HttpClient.java:218-220 | every "http://…" and "https://…" URI is absolute in the model and bypasses the base URL; `java.net.URI` instead rejects malformed ones, e.g. "http://" and "http://a b" |
| `Requests.ParseVerb` | src/main/java/org/killbill/billing/plugin/util/http/HttpClient.java:160-174 | a selected method's name equals the verb string exactly; a rejected verb matches no method's name, and the error is `IllegalArgumentException("Unrecognized verb: " + verb)` |
| `Requests.ParseVerbName` | src/main/java/org/killbill/billing/plugin/util/http/HttpClient.java:160-171 | each of the six names selects its own method (round trip from method to name to method) |
| `Requests.CaseVariantsRejected` | src/main/java/org/killbill/billing/plugin/util/http/HttpClient.java:160-174 | for every string and every method: a string that upper-cases to the method's name but is not that name selects no method and raises the verb error |
| `Requests.VerbMatchingIsCaseSensitive` | src/main/java/org/killbill/billing/plugin/util/http/HttpClient.java:160-174 | examples: "get" and "Post" are rejected, and a null verb is reported as "null" |
| `Requests.BuildRealm` | src/main/java/org/killbill/billing/plugin/util/http/HttpClient.java:177-186 | the realm carries the username and the password each only when set, and is always Basic and preemptive |
| `Requests.GetBuilderWithHeaderAndQuery` | src/main/java/org/killbill/billing/plugin/util/http/HttpClient.java:157-211 | the request the step-by-step builder produces is exactly the reference request `Assemble` (the same verb error, URL, realm, headers, query multiset and proxy) |
| `Requests.PairsStep` | src/main/java/org/killbill/billing/plugin/util/http/HttpClient.java:199-203 | one loop iteration adds the visited key's pair exactly once when its value is non-null, and nothing otherwise |
| `Requests.RemainingPairs` | src/main/java/org/killbill/billing/plugin/util/http/HttpClient.java:190-203 | after the reserved keys with values are removed from the copy, iterating the copy yields exactly the query parameters of the caller's options |
| `Requests.AssembleFailsOnlyForUnknownVerb` | src/main/java/org/killbill/billing/plugin/util/http/HttpClient.java:160-174 | assembly fails if and only if the verb matches no method, with the verb error; otherwise the method's name is the verb, the URL is the one given, and there is no body yet |
| `Requests.AuthAttachedIffCredentials` | src/main/java/org/killbill/billing/plugin/util/http/HttpClient.java:176-188 | a realm is attached if and only if a username or a password is set; it is Basic and preemptive, and has a principal or a password exactly when that credential is set, with its value |
| `Requests.ProxyAttachedIffHostAndPort` | src/main/java/org/killbill/billing/plugin/util/http/HttpClient.java:205-208 | a proxy is attached if and only if both host and port are set, and it carries them |
| `Requests.HeadersOnlyFromReservedKeys` | src/main/java/org/killbill/billing/plugin/util/http/HttpClient.java:192-197 | at most two headers, each Accept or Content-Type with the caller's non-null value; each reserved key is a header exactly when it is set to that value |
| `Requests.OptionsPartition` | src/main/java/org/killbill/billing/plugin/util/http/HttpClient.java:190-203 | a pair is a header or a query parameter exactly when the caller set that key to that value; never both; each query parameter occurs once; Accept and Content-Type are never query parameters; null values appear nowhere |
| `Calls.CheckStatus` | src/main/java/org/killbill/billing/plugin/util/http/HttpClient.java:136-142 | fails exactly for a response with status 400 or more, with `InvalidRequest` carrying that response; the message is "Unauthorized request" exactly for 401 and "Invalid request" otherwise; a null response or a lower status passes through unchanged |
| `HttpTypes.Show` | src/main/java/org/killbill/billing/plugin/util/http/HttpClient.java:222 | a non-null string renders as itself and null as "null", as `String.format("%s", …)` and string concatenation (line 173) do |
| `Calls.WithBody` | src/main/java/org/killbill/billing/plugin/util/http/HttpClient.java:117-121 | only the body may change; it becomes the given body when the verb is neither GET nor HEAD and a body is given, and otherwise the request is unchanged |
| `Calls.ExecuteAndWait` | src/main/java/org/killbill/billing/plugin/util/http/HttpClient.java:126-143 | for any request and timeout: an exception of the wait is the outcome unchanged; the outcome is a success exactly when the engine completed with null or a status below 400, and then it is that response unchanged; otherwise it is `InvalidRequest("Unauthorized request", response)` for 401 and `InvalidRequest("Invalid request", response)` for any other status of 400 or more |
| `Calls.DoCall` | src/main/java/org/killbill/billing/plugin/util/http/HttpClient.java:113-124 | the call as performed (resolve, build, set body, execute) gives the outcome of the specification `Call` |
| `Calls.NullUriFailsFirst` | src/main/java/org/killbill/billing/plugin/util/http/HttpClient.java:213-216 | a null URI fails with the URI error whatever the verb, and no request is prepared |
| `Calls.UnknownVerbNeverSent` | src/main/java/org/killbill/billing/plugin/util/http/HttpClient.java:172-173 | an unrecognised verb with a URI fails with the verb error whatever the engine would answer |
| `Calls.CallDependsOnlyOnSentRequest` | src/main/java/org/killbill/billing/plugin/util/http/HttpClient.java:113-134 | the engine is asked at most one thing, the prepared request with the 10-second timeout; engines that agree on that answer give the same outcome, and a failed preparation reaches no engine |
| `Calls.SentRequestIsAssembled` | src/main/java/org/killbill/billing/plugin/util/http/HttpClient.java:114-116 | a prepared request means the URL resolved and assembly succeeded, and the request sent is the assembled one for the resolved URL apart from its body |
| `Calls.BodyAttachedIffAllowed` | src/main/java/org/killbill/billing/plugin/util/http/HttpClient.java:117-121 | the sent request has a body exactly when its verb is neither GET nor HEAD and a body is given, and that body is the given one verbatim |
| `Calls.OutcomeByStatus` | src/main/java/org/killbill/billing/plugin/util/http/HttpClient.java:126-143 | an exception of the wait passes through; 401 gives `InvalidRequest("Unauthorized request", response)`, another status of 400 or more `InvalidRequest("Invalid request", response)`; a lower status or a null response goes on to deserialisation |

## Left out

- Network execution and the blocking wait on the library's future are not modelled. Neither is the 10-second timeout expiring. All of this is library I/O and concurrency. The engine is a function parameter, and its exceptions (timeout, interruption, execution failure) pass through unchanged.
- Client construction is not modelled. This covers the user-agent setting, the SSL context and the `strictSSL` flag. `SslUtils` is a foreign call.
- JSON mapping is not modelled. This covers the Jackson configuration (`createObjectMapper`) and `deserializeResponse`, including the closing of the body stream on every exit. A successful call ends with the response handed on to deserialisation.
- A null response passes the status check in the model. The source then fails in `deserializeResponse` with a `NullPointerException`, and that is not modelled.
- `close()` is not modelled. It only releases the library's resources.
- `Urls.HasScheme`: the grammar of `java.net.URI` is not modelled. "Absolute" means that the URI starts with a well-formed scheme and a colon, and that colon comes before any '/', '?' or '#'. `new URI(uri)` throws `URISyntaxException` for malformed strings, and the model raises no such error. A malformed string whose prefix before the colon is not a valid scheme name (such as ":x" or "1a:b") becomes relative in the model. A malformed string that starts with a valid scheme and a colon (such as "http:", "http://", "http://a b" or "C:\x") becomes absolute in the model and is returned verbatim.
- The order of query parameters is not modelled. It comes from `HashMap` key iteration, so the parameters are a multiset.
- Option maps are assumed to have no null keys and to be non-null. A null key, which `HashMap` allows, or a null map, which makes the copy throw, is outside the model.
- The caller's option map is not modified. In the model this holds by construction, because the map is passed by value. The source achieves the same by copying it into a fresh `HashMap`.
