# Styx API route prefixing

This project models how the Styx API service mounts its HTTP routes under
versioned URI prefixes. The model covers two things:

- `Api.Version.prefix()`: the URI prefix of an API version. It is `/api/`
  followed by the lower-cased enum constant name, so `V3` gives `/api/v3`.
- `Api.prefixRoutes(routes, versions...)`: for each version in order, a copy
  of every route in order, with that version's prefix in front of the route's
  URI.

Both are pure, so they are Dafny functions over `seq`, with lemmas about them.
The project has three modules:

- `Ascii`: the lower-casing that `String.toLowerCase` applies to an enum name.
- `Routes`: the part of Apollo's `Route` that prefixing touches. This is the
  HTTP method, the URI and an opaque handler. `WithPrefix(r, p)` puts `p` in
  front of the URI and keeps the rest.
- `Api`: `Version`, `Prefix`, `PrefixRoutes`, and the properties of the
  version-major layout.

Dafny values are immutable, so `PrefixRoutes` always builds new routes. In
Java, `prefixRoutes` only streams `routes` and never modifies it
(Api.java:85). The stream it returns reads `routes` lazily, when it is
consumed.

## Model

| member | source | states |
|---|---|---|
| `Api.Name` | styx-common/src/main/java/com/spotify/styx/api/Api.java:69-72 | the declared name of the constant (`V3`) is non-empty and made only of ASCII capitals and digits |
| `Ascii.LowerChar` | styx-common/src/main/java/com/spotify/styx/api/Api.java:72 | the result is never an ASCII capital; a capital maps to the lower-case letter at the same alphabet position; any other character is unchanged |
| `Ascii.ToLower` | styx-common/src/main/java/com/spotify/styx/api/Api.java:72 | the result has the input's length, character i is the lower-case form of input character i, and it contains no ASCII capital |
| `Ascii.ToLowerIdempotent` | styx-common/src/main/java/com/spotify/styx/api/Api.java:72 | a string with no capitals is its own lower-case form, so lower-casing twice gives the same result as lower-casing once |
| `Routes.WithPrefix` | styx-common/src/main/java/com/spotify/styx/api/Api.java:85 | the prefixed route keeps its method and handler; its URI splits exactly into the prefix and the original URI |
| `Api.Prefix` | styx-common/src/main/java/com/spotify/styx/api/Api.java:71-73 | every version's prefix starts with `/api/`, continues with the version name lower-cased character by character, and contains no capital |
| `Api.PrefixV3` | styx-common/src/test/java/com/spotify/styx/api/ApiTest.java:49 | the prefix of `V3` is `/api/v3` |
| `Api.PrefixEach` | styx-common/src/main/java/com/spotify/styx/api/Api.java:85 | mapping over the routes with one prefix keeps their number and order; entry j is route j with that prefix |
| `Api.PrefixRoutes` | styx-common/src/main/java/com/spotify/styx/api/Api.java:81-86 | the result holds `|versions| * |routes|` routes |
| `Api.PrefixRoutesAt` | styx-common/src/main/java/com/spotify/styx/api/Api.java:84-85 | position `i * |routes| + j` holds route j prefixed with version i's prefix |
| `Api.PrefixRoutesIndex` | styx-common/src/main/java/com/spotify/styx/api/Api.java:84-85 | any position k comes from version `k / |routes|` and route `k % |routes|`, and both indexes are in range |
| `Api.PrefixRoutesIsVersionMajor` | styx-common/src/main/java/com/spotify/styx/api/Api.java:84-85 | the result meets the version-major layout predicate `IsVersionMajor` |
| `Api.VersionMajorIsPrefixRoutes` | styx-common/src/main/java/com/spotify/styx/api/Api.java:84-85 | any sequence with the version-major layout equals the result, so the layout determines the output |
| `Api.PrefixRoutesCharacterized` | styx-common/src/main/java/com/spotify/styx/api/Api.java:84-85 | a sequence has the version-major layout if and only if it is the result |
| `Api.PrefixRoutesAppend` | styx-common/src/main/java/com/spotify/styx/api/Api.java:84 | prefixing over `vs1 + vs2` gives the result for `vs1` followed by the result for `vs2` (flatMap distributes over concatenation) |
| `Api.PrefixRoutesEmpty` | styx-common/src/main/java/com/spotify/styx/api/Api.java:84-85 | no versions or no routes give an empty result |
| `Api.PrefixRoutesFooBar` | styx-common/src/test/java/com/spotify/styx/api/ApiTest.java:53-58 | GET routes `/foo` and `/bar`, each with its own handler, under `V3` produce the URIs `/api/v3/foo` and `/api/v3/bar`, in that order |

## Left out

- `Ascii.ToLower`: only ASCII capitals are mapped. Java's `String.toLowerCase()` applies Unicode case mapping in the default locale. The only name it receives is `V3`, which is ASCII and has no locale-sensitive letter.
- `Api.PrefixRoutes`: the result is a finite sequence, not a lazy Java `Stream`. Laziness and single-use consumption are not modelled. Null arguments are not modelled either. In Java, a null `versions` array fails in `Stream.of`. A null `routes` collection throws a `NullPointerException` once the stream is consumed with at least one version. A null element of either argument throws one at `v.prefix()` or at `route.withPrefix`.
- `Routes.Route`: Apollo's `Route` class is not part of this model. The model assumes `withPrefix(p)` makes a new route whose URI is `p` followed by the old URI and whose method and handler are unchanged. ApiTest.java:57 asserts this URI rule for `/foo` and `/bar` under `/api/v3` only. It says nothing about the method or the handler, so the rule as a whole is an assumption about Apollo. Apollo's route documentation fields are not modelled.
- The static `HTTP_TRANSPORT` initialisers (Api.java:58-66, GoogleIdTokenValidator.java:34-42) are left out. They set up network transport, which is I/O.
- `withCommonMiddleware` (Api.java:88-108) is left out. It wraps routes in Apollo middlewares for logging, authentication, the client blacklist, exception handling and tracing. Their code is not part of this model, and logging and tracing are I/O.
- `createGoogleIdTokenValidator` and `getGoogleCredential` (Api.java:110-142) are left out. They load credentials, build Cloud Resource Manager and IAM clients, and bulk-load projects remotely. All of this is network and I/O. Api.java:126-129 calls a four-argument `GoogleIdTokenValidator` constructor and a `cacheProjects()` method. GoogleIdTokenValidator.java at this revision declares neither.
- `GoogleIdTokenValidator` (GoogleIdTokenValidator.java:33-69) is left out. It delegates to the library's cryptographic token verifier. Its only local logic maps a security failure to `null` and an I/O failure to a `RuntimeException`.
- `GoogleIdTokenValidator.validate` (GoogleIdTokenValidator.java:65-68) is left out. It returns the verifier's result, and a TODO there says that membership of the account in the GCP organisation is not yet checked.
- The private constructor that throws `UnsupportedOperationException` (Api.java:77-79) is left out. It only makes the class non-instantiable and has nothing to verify.
