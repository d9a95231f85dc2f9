# Error shaping, upload filtering and CORS origin choice of the chat API server

This project models the pure decisions made in `src/index.ts` of the chat
server, the file that wires its Express application together. Everything else
in that file is framework plumbing. The decisions are:

- **GraphQL error formatting** (`customFormatErrorFn`). A GraphQL error with
  no original error passes through unchanged. Otherwise the formatter builds
  `{ message, status, data }` from the original error, using JavaScript `||`
  defaulting. The defaults are `'An error has ocurred'` (the server's
  spelling), `500` and `[]`.
- **REST error rendering** (the last Express middleware). It replies with the
  error's `status` as the HTTP status and `{ message }` as the JSON body. It
  applies no defaults and sends no `data`.
- **Upload MIME filter** (`fileFilter`). It tests
  `/^image\/(png|jpg|jpeg)/` against the file's MIME type. The pattern is
  anchored at the start only. A small regular-expression module models the
  constructs the pattern uses. It proves that an anchored test accepts
  exactly the strings that start with a word of the pattern's language.
- **Stored file name** (multer `filename`). The name is `<id>-<originalname>`,
  where the id is the output of `uniqid()` and is taken as an input.
- **CORS origin for `/graphql`** (the `headers` middleware). The allowed
  origin is `http://localhost:3000` only when the request's `Origin` is
  exactly that string. Every other request, including one with no `Origin`,
  gets `https://mywebsite.com`.

Modules: `Options` and `Js` (in `js.dfy`) hold the JavaScript value semantics
the error paths depend on: falsy values, `||`, and property reads. The other
modules are `ErrorFormat` (`error_format.dfy`), `Regex` (`regex.dfy`),
`Upload` (`upload.dfy`) and `Cors` (`cors.dfy`).

The fields of a thrown error are arbitrary JavaScript values. Nothing
enforces the `StatusError` declaration at run time; for example, a plain
`Error` has no `status`. Numbers are modelled as integers plus NaN.

One might expect both transports to render identical
`{status, message, data}` triples for the same failure. The code does not,
and the model follows the code. `ErrorFormat.TransportBodiesDiffer`
proves that the two bodies differ for every thrown error.
`ErrorFormat.TransportsAgreeIffTruthy` proves that the status and the message
agree exactly when the thrown values are truthy.

## Model

| member | source | states |
|---|---|---|
| Js.Or | src/index.ts:81-83 | the logical-or operator yields one of its operands; it yields `a` exactly when `a` is truthy or equals `b`, and the result is truthy iff either operand is |
| Js.FalsyValues | src/index.ts:81-83 | the values the defaulting replaces are exactly `undefined`, `null`, `false`, `0`, NaN and the empty string |
| ErrorFormat.FormatGraphqlError | src/index.ts:77-85 | the error is returned unchanged iff it has no original error; otherwise the result is shaped, and each of status, message and data equals the original's iff that original field is truthy, falling back to 500, the generic message and `[]` |
| ErrorFormat.ShapedFieldsTruthy | src/index.ts:81-84 | a shaped GraphQL error never carries an empty message, a zero or missing status, or a missing data field |
| ErrorFormat.DeclaredShapeFormatsToWireShape | src/index.ts:81-84 | for an error of the expected shape, the output has a non-empty string message, a non-zero integer status and an array as data; status 0 or absent becomes 500; a non-empty message and an array data are kept |
| ErrorFormat.FormatIdempotent | src/index.ts:77-85 | formatting an error whose original error already holds a formatted triple gives the same triple back |
| ErrorFormat.Formatted.Body | src/index.ts:84 | the object literal `{ message, status, data }` has exactly those keys in that order, each holding the formatted field of the same name |
| ErrorFormat.RenderRestError | src/index.ts:94-100 | the HTTP status is the error's status as found, and the body is an object whose only key is `message`, holding the error's message |
| ErrorFormat.RestAppliesNoDefaults | src/index.ts:95-98 | the REST reply keeps any status, `undefined` and `0` included, and its body has neither `data` nor `status` |
| ErrorFormat.TransportBodiesDiffer | src/index.ts:77-100 | for every thrown error, the GraphQL body has a truthy `data` and the REST body has none, so the two bodies are never equal |
| ErrorFormat.TransportsAgreeIffTruthy | src/index.ts:77-100 | the GraphQL status equals the REST HTTP status iff the thrown status is truthy; the messages agree iff the thrown message is truthy |
| ErrorFormat.UnclassifiedFailure | src/index.ts:77-100 | an error with an empty message and no status becomes 500 with the generic message and `[]` over GraphQL, but an undefined HTTP status with an empty message over REST |
| ErrorFormat.NotFoundOnBothTransports | src/index.ts:77-100 | a 404 "Not found" error is 404 on both transports; only the GraphQL body adds `status` and `data: []` |
| Regex.Ends | src/index.ts:31 | every position where the matcher can stop lies between the start position and the end of the text |
| Regex.EndsIffLang | src/index.ts:31 | the matcher stops at `j` from `i` iff the text between them is a word of the pattern's language |
| Regex.TestAnchoredIffPrefix | src/index.ts:31 | a `^`-anchored test with no end anchor accepts iff some word of the language is a prefix of the text |
| Regex.TestUnanchoredIffInfix | src/index.ts:31 | an unanchored test accepts iff some word of the language occurs somewhere in the text |
| Upload.MimePatternLanguage | src/index.ts:31 | the filter's pattern denotes exactly `image/png`, `image/jpg` and `image/jpeg` |
| Upload.AcceptsUpload | src/index.ts:30-33 | a file is accepted iff its MIME type starts with `image/png`, `image/jpg` or `image/jpeg` |
| Upload.AcceptsAnySuffix | src/index.ts:31 | `image/pngX` and `image/jpeg;charset=x` are accepted |
| Upload.RejectsOtherTypes | src/index.ts:31 | `image/gif`, upper-case `IMAGE/PNG` and the truncated `image/jp` are rejected |
| Upload.StartAnchorRejects | src/index.ts:31 | `text/image/png` is rejected |
| Upload.UnanchoredWouldAccept | src/index.ts:31 | without the start anchor the same pattern would accept `text/image/png` |
| Upload.StoredName | src/index.ts:25-27 | the stored name is the id, then a dash, then the original name, in that order and with nothing else |
| Upload.ParseStoredName | src/index.ts:26 | splitting at the first dash fails iff the name has no dash; otherwise it yields a dash-free id and a name that rebuild the stored name |
| Upload.StoredNameRoundTrip | src/index.ts:26 | for a dash-free id, the stored name splits back into exactly the id and the original name |
| Upload.DistinctIdsDistinctNames | src/index.ts:26 | different dash-free ids give different stored names, whatever the original names are |
| Upload.DashInIdCollides | src/index.ts:26 | an id that contains a dash can collide with another upload's name |
| Cors.ChooseOrigin | src/index.ts:53-56 | the allowed origin is `http://localhost:3000` iff the request origin is exactly that string; it is `https://mywebsite.com` in every other case, including an absent origin |
| Cors.GraphqlCorsHeaders | src/index.ts:52-66 | the middleware sets exactly the four CORS headers: the origin chosen for this request (one of the two configured origins), the methods `GET, POST, OPTIONS, PUT, PATCH, DELETE`, the headers `X-Requested-With,content-type`, and credentials `true` |
| Cors.NeverWildcardWithCredentials | src/index.ts:57-66 | this middleware allows credentials and never sets the wildcard origin `*` |
| Cors.AdmittedOrigins | src/index.ts:53-57 | the allowed origin equals the request's origin iff the request comes from one of the two configured origins |
| Cors.ChooseOriginIdempotent | src/index.ts:53-56 | choosing again from the chosen origin yields the same origin |
| Cors.NearMissesFallBack | src/index.ts:53-56 | an absent origin, a trailing slash, another port and another scheme all get the production origin |

## Left out

- Middleware order, header overwriting, and which `Access-Control-Allow-Origin` value finally wins (src/index.ts:42-47, 52-68 and `cors()` at 72). These are Express runtime behaviour.
- Multer's destination directory, static file serving and JSON body parsing (src/index.ts:21-24, 35-40). These are I/O and library plumbing.
- `uniqid()` is a random, time-based id source. The id is a parameter. The round-trip and distinctness lemmas assume the id has no dash, which holds for `uniqid`'s alphanumeric output.
- The route modules, the GraphQL schema and resolvers, the socket `init` and the connection handler (src/index.ts:7-15, 103-109). These modules are not part of this model. A connection registry and notification fan-out have no code in this file and are not modelled.
- Port binding and logging (src/index.ts:102-108).
- The declaration of `StatusError` in `src/models` is not part of this model. Its fields are taken as arbitrary JavaScript values.
- JSON serialisation by `res.json` and by the GraphQL layer (for example, dropping properties whose value is `undefined`), and Express's handling of an invalid status passed to `res.status`. The model stops at the values handed to those calls.
- Js.Truthy: non-integral numbers, `-0` and BigInt are not represented. Numbers are integers plus NaN, which covers every status the server uses.
- Regex.Ends: only literal words, alternation and concatenation are modelled, the constructs the upload pattern uses. Flags, classes, repetition and capture groups are not.
