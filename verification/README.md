# Relay hop of the image proxy, in Dafny

This project models the relay ("fetcher") hop of a two-hop HTTP proxy. In the
repository that hop is a Cloudflare Worker `fetch` handler, `server.js`.
Given an inbound request, the handler:

1. reads the target URL from the `q` query parameter, and answers 400 when it
   is missing, empty or not a URL;
2. copies the inbound headers and forces `Host`, `Referer` and `Origin` from
   the target, so the request looks as if a page on the target site sent it;
3. deletes seven platform and proxy headers (`cf-connecting-ip`, `cf-worker`,
   `cf-ray`, `cf-visitor`, `x-real-ip`, `x-forwarded-proto`,
   `x-forwarded-for`);
4. forwards the request with the same method and body, with redirects left
   unfollowed (`redirect: "manual"`);
5. returns the upstream status, status text and body, with the upstream
   headers plus `Access-Control-Allow-Origin: *` and
   `Access-Control-Expose-Headers: Location`;
6. answers 500 with `Middleman Error: <message>` when the outbound call throws.

Files:

- `wrappers.dfy`: `Option`, standing for JavaScript's `null` and for the parse
  error thrown by `new URL`.
- `headers.dfy`: the Fetch `Headers` object. It is a map from lower-cased
  name to one value. `Get`, `Set` and `Delete` match names without regard to
  ASCII case.
- `search_params.dfy`: the decoded query of the request URL and its
  first-match `get`.
- `relay.dfy`: the handler itself. `Gate` covers target extraction,
  validation and request construction. `Sanitize` covers the outbound
  headers. `Decorate` and `Complete` cover the response path. `Handle` is the
  whole handler.
- `relay_properties.dfy`: properties that relate several calls.

The URL parser and the network are parameters of `Handle`.
`parse: string -> Option<Url>` stands for `new URL(text)`. `Url` holds
the three parts of the parsed URL that the model uses. `href` identifies
the target `fetch` is called with. `hostname` and `origin` feed the
forced headers. `upstream: Outbound -> FetchOutcome` stands for `fetch`:
it resolves to a response or throws a message. `Handle` returns the response together with the list of outbound
requests it issued, so "no outbound call" is the statement that this list is
empty.

Points of the handler's behaviour worth stating plainly:

- Any exception from the outbound call gives a 500. Transport failures are
  not singled out.
- Only the seven headers listed at server.js:29 are deleted.
- `Host`, `Referer` and `Origin` are set before the proxy headers are
  deleted. `SanitizeOrderIrrelevant` proves that the opposite order gives
  the same header set.
- Responses are not otherwise filtered. The handler strips no
  `Content-Security-Policy`, `X-Frame-Options` or cookie `Domain`
  attribute. It only adds the two CORS headers.

## Model

| member | source | states |
|---|---|---|
| `HeaderMaps.Lower` | server.js:23-26 | Header names are folded to lower case, ASCII letters only. The result contains no upper-case letter, and an already lower-case name is unchanged. |
| `HeaderMaps.GetAnySpelling` | server.js:23-29 | `get` finds a header exactly when some stored name is a spelling of the asked name, ignoring ASCII case. It then answers that header's value. |
| `HeaderMaps.Set` | server.js:24-26 | After `set(name, v)`, `get` answers `v` for every spelling of `name`. Every other name answers as before. |
| `HeaderMaps.Delete` | server.js:23 | After `delete(name)`, `get` answers nothing for every spelling of `name`. Every other name answers as before. |
| `SearchParams.Get` | server.js:8 | `searchParams.get` is null exactly when no pair has that name. Otherwise it is the value of the first pair with that name. |
| `SearchParams.GetAppend` | server.js:8 | Pairs after the first `q` never change the answer, so a later duplicate `q` does not override it. |
| `Relay.DeleteAll` | server.js:29 | Deleting the names one after another removes exactly the headers they denote. Every other header keeps its value. |
| `Relay.TextResponse` | server.js:10-50 | Models the `new Response(text, { status })` calls at lines 10, 16 and 50. A response the relay writes itself has the given status, an empty status text and the text as body. Its only header is a plain-text content type. |
| `Relay.GetAfterForce` | server.js:23-26 | After `ForceTargetHeaders`, the delete of `Host` followed by the three sets, `get` answers the hostname for `Host`, the origin plus `/` for `Referer` and the origin for `Origin`. Every other name keeps its inbound value. |
| `Relay.Sanitize` | server.js:20-29 | Outbound `Host` is the target hostname, `Referer` is the target origin plus `/`, and `Origin` is the target origin. No spelling of a proxy header is present. Every other inbound header keeps its value. |
| `RelayProperties.SanitizeMatchesPolicy` | server.js:20-29 | Every outbound `get` agrees with a separately written name-by-name policy: absent for a proxy header, forced for the three target headers, the inbound value otherwise. |
| `RelayProperties.SanitizeOrderIrrelevant` | server.js:23-29 | Deleting the proxy headers first and forcing the three headers afterwards gives the same outbound set. |
| `RelayProperties.HostDeleteRedundant` | server.js:23-24 | Deleting `Host` before setting it makes no difference to the result. |
| `RelayProperties.SanitizeIdempotent` | server.js:20-29 | A second relay hop that sanitises again for the same target leaves the header set unchanged. |
| `RelayProperties.SanitizeIgnoresOverridden` | server.js:23-29 | Setting or deleting a forced or proxy header inbound, in any spelling, does not change the outbound set. |
| `RelayProperties.UserAgentPassesThrough` | server.js:20 | The client's `User-Agent` reaches the target unchanged. |
| `Relay.Decorate` | server.js:39-41 | The response headers have `Access-Control-Allow-Origin: *` and `Access-Control-Expose-Headers: Location`. Every other upstream header keeps its value. |
| `RelayProperties.DecorateIdempotent` | server.js:39-41 | Decorating an already decorated header set changes nothing. |
| `Relay.Gate` | server.js:7-37 | A falsy `q` is rejected with 400 "Middleman: No target specified". A `q` the parser rejects gets 400 "Middleman: Invalid URL". The request is forwarded exactly when `q` is non-empty and parses, and it then targets the parsed URL. |
| `Relay.BuildOutbound` | server.js:32-37 | The request handed to `fetch` targets the parsed URL with the inbound method and body and redirect mode `manual`. Its `Host` is the target hostname and it carries no proxy header. `Handle` states that this is the one request sent, with `Sanitize` headers. |
| `Relay.Complete` | server.js:39-50 | For an upstream response, status, status text and body pass through. `Access-Control-Allow-Origin` is `*`, `Access-Control-Expose-Headers` is `Location`, and every other upstream header keeps its value. For a thrown error, the answer is 500 with "Middleman Error: " followed by the message. |
| `Relay.Handle` | server.js:6-51 | Both 400 cases issue no outbound request. Otherwise exactly one request is sent. It targets the parsed URL with the inbound method, the inbound body, manual redirects and the sanitised headers. The response is what `Complete` makes of the upstream outcome. |
| `RelayProperties.RejectNeverCallsUpstream` | server.js:10-17 | A rejected request gets a 400 and an empty outbound list. The response is the same whatever the network would have done. |
| `RelayProperties.SentRequestsAreValidated` | server.js:10-37 | Every request sent targets the URL parsed from a non-empty `q`. It uses manual redirects and carries no proxy header. |
| `RelayProperties.OwnResponsesCarryNoCors` | server.js:10-50 | The 400 and 500 responses the relay writes itself carry no `Access-Control-Allow-Origin`. Only forwarded responses are opened. |

## Left out

- The network call `fetch`, with its TLS, DNS and connection behaviour, is a parameter. Bodies are opaque tokens passed through unchanged, and streaming is not modelled.
- WHATWG URL parsing is not modelled. This covers `new URL(request.url)`, `new URL(q)`, `hostname`, `origin` and the percent-decoding behind `searchParams`. The parser is a parameter, and the request's query arrives already decoded as name/value pairs.
- Each header is modelled as one opaque combined value per name. The copies at server.js:20 and server.js:39 keep every field of a header that has several values. In particular, several upstream `Set-Cookie` fields passing through server.js:39 stay separate in Fetch, and this model does not represent them.
- Validation and whitespace trimming of header names and values by `Headers` are not modelled. The values the handler writes are plain tokens.
- The `Response` constructor's own checks are not modelled. These include the RangeError for a status outside 200-599 and the TypeError for a body on a null-body status. In the source such an error would also land in the `catch` and give a 500. The model passes the upstream status through unchanged.
- A thrown value without a `message` (which would print `undefined`) is not modelled. The error message is a string parameter.
- The Worker's `env` and `ctx` arguments are unused by the handler and are not modelled.
