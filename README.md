# Flower analysis endpoint — Dafny model

This project models the server side of a flower-photo analysis service: the
`/api/analyze` route. A browser posts one image as multipart form data; the
handler wraps the image in a `data:` URL, sends it to a hosted vision model,
parses the model's text as JSON, validates it against a fixed schema and
answers with an HTTP status and a JSON body. `GET` on the same route is a
liveness reply.

The model is pure, as the route is: datatypes, functions and lemmas.

- `wrappers.dfy` — `Option` and `Result`.
- `json.dfy` — untyped JSON values (`Json`), what `JSON.parse` yields.
- `analysis_schema.dfy` — the `Analysis` record and its schema. `Validate` follows
  zod's semantics: `z.object` checks every field and reports every failure, and
  strips unknown keys. `z.string().min(1)` needs a non-empty string.
  `z.number().min(0).max(1).optional()` needs a number in [0, 1] when the key is
  present. `z.array(...).default([])` turns an absent key into `[]`. A present
  JSON `null` fails every field, since only an absent key is `undefined`. Errors
  are the set of failing fields (`InvalidField`), or `NotAnObject` for a value
  that is not an object. `Satisfies`/`Accepts` state the schema declaratively.
  `Carries` says which `Analysis` an object holds. `Encode` is the JSON object
  written for a result.
- `data_url.dfy` — the `data:<mime>;base64,<payload>` URL of section 3 of
  RFC 2397. It holds the media-type default (`image/jpeg`) and a parser for such
  URLs that serves as the builder's inverse.
- `analyze_route.dfy` — `Post`, the handler's chain of early returns, and `Get`.
  The configured API key is an input: `None` when `OPENAI_API_KEY` is unset, in
  which case the client constructor throws before any call. The foreign
  collaborators are function parameters. `provider` is the model call, seen as a
  function of the API key and the data URL it is sent, which throws or returns
  optional content. `parse` is `JSON.parse`, with `None` for a throw. `isUrl` is
  zod's URL check. `base64` is the byte encoder. `Post` returns the response and
  a trace: the data URL the provider call was made with, or `None` when no call
  was made, and the text handed to `JSON.parse`, if any.

## Model

| member | source | states |
|---|---|---|
| `AnalysisSchema.Validate` | src/app/api/analyze/route.ts:6-15 | a value that is not an object fails with just `NotAnObject`; a failure always names at least one issue |
| `AnalysisSchema.SchemaKeysAreFieldKeys` | src/app/api/analyze/route.ts:6-15 | the schema's key set is exactly the keys of the eight fields, one distinct key per field |
| `AnalysisSchema.ParseText` | src/app/api/analyze/route.ts:7-10 | `z.string().min(1)` accepts a member exactly when it is present as a non-empty string, and yields that string |
| `AnalysisSchema.ParseUnitReal` | src/app/api/analyze/route.ts:11 | `z.number().min(0).max(1).optional()` accepts an absent member (no confidence) or a number in [0, 1] (that number), nothing else |
| `AnalysisSchema.ParseList` | src/app/api/analyze/route.ts:9-14 | `z.array(...).default([])` accepts an absent member (giving `[]`) or an array of strings each passing the element check (giving those strings in order), nothing else |
| `AnalysisSchema.FieldValid` | src/app/api/analyze/route.ts:7-14 | the per-field parser accepts a member exactly when it meets the field's declared constraint |
| `AnalysisSchema.ParseElements` | src/app/api/analyze/route.ts:9-14 | an array is accepted exactly when every element is a string passing the element check, and the result is exactly those strings in order |
| `AnalysisSchema.FailuresExact` | src/app/api/analyze/route.ts:6-15 | every field is checked: the reported issues are exactly the fields whose check fails, never the object as a whole |
| `AnalysisSchema.ValidateObject` | src/app/api/analyze/route.ts:6-15 | an object validates if and only if every field meets its constraint; on failure the issues name exactly the failing fields |
| `AnalysisSchema.ValidatedCarries` | src/app/api/analyze/route.ts:6-17 | a validated result comes from an object, holds exactly the values found under the schema keys, and has non-empty required texts, a confidence in [0, 1] if any, and URL sources |
| `AnalysisSchema.RequiredTextFields` | src/app/api/analyze/route.ts:7-10 | success needs `flower_name`, `watering_schedule` and `health_assessment` present as non-empty strings, and the result holds exactly that string; a missing, non-string or empty one fails and is named |
| `AnalysisSchema.AbsentFieldsDefault` | src/app/api/analyze/route.ts:9-14 | an absent list field yields `[]`, and an absent confidence yields none |
| `AnalysisSchema.ConfidenceOutOfRange` | src/app/api/analyze/route.ts:11 | a confidence below 0 or above 1 is rejected and named, not clamped |
| `AnalysisSchema.Encode` | src/app/api/analyze/route.ts:88-89 | the JSON written for a result uses only the eight schema keys and carries exactly the result's values |
| `AnalysisSchema.EncodeRoundTrip` | src/app/api/analyze/route.ts:6-15 | every result meeting the invariant validates back to itself after encoding |
| `AnalysisSchema.ValidateIdempotent` | src/app/api/analyze/route.ts:80-89 | re-encoding a validated result and validating it again gives the identical result |
| `AnalysisSchema.StripsUnknownKeys` | src/app/api/analyze/route.ts:6-15 | objects that agree on the eight schema keys validate identically, whatever other keys they hold |
| `DataUrls.MediaTypeOf` | src/app/api/analyze/route.ts:32 | the media type is the declared one, or `image/jpeg` when the declared one is empty; it is never empty |
| `DataUrls.DataUrl` | src/app/api/analyze/route.ts:33 | the URL is `data:`, then the media type, then `;base64,`, then the payload, and nothing else |
| `DataUrls.DataUrlRoundTrip` | src/app/api/analyze/route.ts:33 | the built `data:` URL reads back, per RFC 2397, as the media type, the base64 flag and the payload |
| `AnalyzeRoute.UploadUrl` | src/app/api/analyze/route.ts:29-33 | the data URL is exactly `"data:" + mime + ";base64," + base64(bytes)`, where mime is the file's declared type or `image/jpeg` when that is empty |
| `AnalyzeRoute.ContentText` | src/app/api/analyze/route.ts:68 | the text to parse is the completion's content when there is one, and `"{}"` otherwise |
| `AnalyzeRoute.Unexpected` | src/app/api/analyze/route.ts:90-96 | a caught exception is answered with 500 and the fixed "Unexpected server error", and nothing is parsed |
| `AnalyzeRoute.Post` | src/app/api/analyze/route.ts:19-97 | the status is one of 200, 400, 500 and 502; the provider is called exactly when the image field is a file and a key is configured, and then with the file's data URL; parsing happens only after the provider call |
| `AnalyzeRoute.MissingImage` | src/app/api/analyze/route.ts:24-26 | an absent or text image field is a 400 with "Image file is required", with no provider call and no parsing |
| `AnalyzeRoute.ClientErrorExactly` | src/app/api/analyze/route.ts:21-26 | 400 is returned if and only if the form was read and its image field is not a file |
| `AnalyzeRoute.MissingApiKey` | src/app/api/analyze/route.ts:35-37 | with a file but no configured key, the reply is the generic 500, with no provider call and no parsing |
| `AnalyzeRoute.ProviderSeesDataUrl` | src/app/api/analyze/route.ts:29-61 | with a file and a key, the provider is sent exactly `"data:" + mime + ";base64," + base64(bytes)`, for every declared media type |
| `AnalyzeRoute.ProviderUrlReadsBack` | src/app/api/analyze/route.ts:32-33 | the data URL sent reads back, per RFC 2397, as the declared media type (or `image/jpeg`) and the base64 of the bytes |
| `AnalyzeRoute.UnparseableContent` | src/app/api/analyze/route.ts:68-78 | content that does not parse is a 502 "Model did not return valid JSON" whose `raw` is the content unchanged |
| `AnalyzeRoute.SchemaFailure` | src/app/api/analyze/route.ts:80-86 | with a file and a key, completed content that parses to a value failing validation is a 502 whose body is exactly "Response schema validation failed" with the validator's issues, and that content's text is what was parsed |
| `AnalyzeRoute.AbsentContentFailsSchema` | src/app/api/analyze/route.ts:68-86 | absent content is read as "{}", which ends in the 502 schema failure naming exactly the three required fields |
| `AnalyzeRoute.OkExactlyOnSuccess` | src/app/api/analyze/route.ts:80-89 | 200 is returned if and only if the form has a file, the provider completes, the text parses and it validates; the body is exactly the validated value, which meets the result invariant |
| `AnalyzeRoute.BadGatewayCases` | src/app/api/analyze/route.ts:70-86 | 502 is returned if and only if the completed text does not parse or does not validate; every 502 body is one of two kinds: a parse failure gives exactly "Model did not return valid JSON" with the raw text, and a validation failure gives "Response schema validation failed" with exactly the validator's issues |
| `AnalyzeRoute.ServerErrorIsGeneric` | src/app/api/analyze/route.ts:20-96 | 500 is returned if and only if the form cannot be read, no key is configured, or the provider call throws; its body is the fixed "Unexpected server error" |
| `AnalyzeRoute.Get` | src/app/api/analyze/route.ts:99-101 | the liveness reply is always 200 `{status: "ok"}` |

## Left out

- The chat-completion call (src/app/api/analyze/route.ts:52-66): it is network I/O to a nondeterministic model. It is the `provider` parameter, and a throw from the call is its `Threw` outcome. The prompt, model name, temperature and response format are constants that do not affect the handler's logic.
- `process.env.OPENAI_API_KEY` (src/app/api/analyze/route.ts:35-37): the environment lookup itself is left out; its value is the `apiKey` input. An unset key makes the client constructor throw, so the reply is the 500. A set key is passed to `provider`, whose outcome for that key is abstract.
- `console.error`: logging is a side effect with no effect on the response.
- `JSON.parse`: it is the `parse` parameter. Only the stated case `parse("{}") == Some(JObj(map[]))` is required, as a lemma precondition.
- The text that `Response.json` serializes: the model stops at JSON values (`Encode`), so key order and number formatting are not modelled.
- zod's URL check: it is the `isUrl` parameter.
- The structure of `parsed.error.format()`: issues are the set of failing fields. zod's messages and array-element indices are not modelled.
- `Buffer.toString("base64")`: it is the `base64` parameter. Reading the file's bytes (`arrayBuffer()`) is taken to succeed; a failure there would also take the 500 path.
- Floating point: `confidence` is a `real`, since the code only compares it with 0 and 1.
- Async sequencing: the handler is stateless per request.
- src/app/page.tsx: browser UI with component state, fetch and rendering, and no business logic.
- DataUrlRoundTrip: reading back is proved only for media types without a comma. A declared type with a comma would make the URL's first comma fall inside the media type.
- ProviderUrlReadsBack: the read-back is proved only for declared media types without a comma, for the same reason. The URL sent is stated for every media type by ProviderSeesDataUrl.
