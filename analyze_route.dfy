/**
 * The `/api/analyze` endpoint. `Post` is the handler's chain of early
 * returns, from the multipart form to the HTTP status and JSON body; `Get`
 * is the liveness reply. The configured API key is a parameter (None when
 * `OPENAI_API_KEY` is unset), and so are the foreign collaborators:
 *   provider -- the chat-completion call, as a function of the API key and the image data URL it is sent;
 *   parse    -- `JSON.parse` (None when it throws);
 *   isUrl    -- zod's URL check;
 *   base64   -- `Buffer.toString("base64")`.
 */
module AnalyzeRoute {
  import opened Wrappers
  import opened JsonValue
  import opened AnalysisSchema
  import opened DataUrls

  newtype byte = x: int | 0 <= x < 256

  /** An uploaded file: its declared media type (`File.type`, possibly empty) and its bytes. */
  datatype File = File(mediaType: string, bytes: seq<byte>)

  /** What `form.get("image")` yields. */
  datatype FormField = Absent | Text(text: string) | Upload(file: File)

  /** What `req.formData()` yields: it throws on a body that is not form data. */
  datatype Form = Unreadable(detail: string) | Fields(image: FormField)

  /** The provider call: it throws, or it completes with the first choice's message content, if any. */
  datatype Completion = Threw(detail: string) | Completed(content: Option<string>)

  /** The JSON bodies the endpoint sends. */
  datatype Body =
    | ErrorBody(error: string)                          // { error }
    | RawBody(error: string, raw: string)               // { error, raw }
    | IssuesBody(error: string, issues: set<Issue>)     // { error, issues }
    | ResultBody(result: Analysis)                      // { result }
    | StatusBody(status: string)                        // { status }

  datatype Response = Response(status: nat, body: Body)

  /**
   * A handled request: the response, the data URL the provider call was made
   * with (None when no call was made) and the text given to `JSON.parse`
   * (None when nothing was parsed).
   */
  datatype Handling = Handling(response: Response, providerRequest: Option<string>, parsedText: Option<string>)

  const ImageRequired := "Image file is required"
  const InvalidJson := "Model did not return valid JSON"
  const SchemaFailed := "Response schema validation failed"
  const ServerError := "Unexpected server error"
  const EmptyObject := "{}"

  /** The data URL the handler builds from an upload: `data:<type or image/jpeg>;base64,<bytes in base64>`. */
  function UploadUrl(f: File, base64: seq<byte> -> string): (u: string)
    ensures u == "data:" + (if f.mediaType == "" then "image/jpeg" else f.mediaType) + ";base64," + base64(f.bytes)
  {
    DataUrl(MediaTypeOf(f.mediaType), base64(f.bytes))
  }

  /** The text the handler parses: the completion's content, or "{}" when it has none. */
  function ContentText(content: Option<string>): (text: string)
    ensures content.Some? ==> text == content.value
    ensures content.None? ==> text == "{}"
  {
    content.GetOr(EmptyObject)
  }

  /** The caught-exception reply: 500 with a constant body, whatever was thrown, and nothing parsed. */
  function Unexpected(providerRequest: Option<string>): (h: Handling)
    ensures h.response == Response(500, ErrorBody("Unexpected server error"))
    ensures h.providerRequest == providerRequest && h.parsedText == None
  {
    Handling(Response(500, ErrorBody(ServerError)), providerRequest, None)
  }

  /** `POST`: the status and body for a request, with the trace of what was called. */
  function Post(
    form: Form,
    apiKey: Option<string>,
    provider: (string, string) -> Completion,
    parse: string -> Option<Json>,
    isUrl: string -> bool,
    base64: seq<byte> -> string): (h: Handling)
    ensures h.response.status in {200, 400, 500, 502}
    ensures h.providerRequest.Some? <==> form.Fields? && form.image.Upload? && apiKey.Some?
    ensures h.providerRequest.Some? ==> h.providerRequest.value == UploadUrl(form.image.file, base64)
    ensures h.parsedText.Some? ==> h.providerRequest.Some?
  {
    match form
    case Unreadable(_) => Unexpected(None)
    case Fields(image) =>
      if !image.Upload? then
        Handling(Response(400, ErrorBody(ImageRequired)), None, None)
      else
        var url := UploadUrl(image.file, base64);
        match apiKey
        case None => Unexpected(None)    // the client constructor throws before any call
        case Some(key) =>
          match provider(key, url)
          case Threw(_) => Unexpected(Some(url))
          case Completed(content) =>
            var text := ContentText(content);
            match parse(text)
            case None => Handling(Response(502, RawBody(InvalidJson, text)), Some(url), Some(text))
            case Some(data) =>
              match Validate(data, isUrl)
              case Err(issues) => Handling(Response(502, IssuesBody(SchemaFailed, issues)), Some(url), Some(text))
              case Ok(result) => Handling(Response(200, ResultBody(result)), Some(url), Some(text))
  }

  /** `GET`: the liveness reply, the same on every call. */
  function Get(): (r: Response)
    ensures r.status == 200 && r.body == StatusBody("ok")
  {
    Response(200, StatusBody("ok"))
  }

  /**
   * The path of a request that ends in 200: the form holds a file, a key is
   * configured, the provider completes, its text parses, and the parsed value
   * validates.
   */
  ghost predicate Succeeds(
    form: Form, apiKey: Option<string>, provider: (string, string) -> Completion,
    parse: string -> Option<Json>, isUrl: string -> bool, base64: seq<byte> -> string)
  {
    && form.Fields? && form.image.Upload? && apiKey.Some?
    && var completion := provider(apiKey.value, UploadUrl(form.image.file, base64));
    && completion.Completed?
    && var data := parse(ContentText(completion.content));
    && data.Some?
    && Validate(data.value, isUrl).Ok?
  }

  /** A missing image, or one sent as a text field, is a 400 before anything is called or parsed. */
  lemma MissingImage(
    image: FormField, apiKey: Option<string>, provider: (string, string) -> Completion,
    parse: string -> Option<Json>, isUrl: string -> bool, base64: seq<byte> -> string)
    requires !image.Upload?
    ensures Post(Fields(image), apiKey, provider, parse, isUrl, base64)
         == Handling(Response(400, ErrorBody(ImageRequired)), None, None)
  {
  }

  /** 400 is returned exactly when the form was read but its image field is not a file. */
  lemma ClientErrorExactly(
    form: Form, apiKey: Option<string>, provider: (string, string) -> Completion,
    parse: string -> Option<Json>, isUrl: string -> bool, base64: seq<byte> -> string)
    ensures Post(form, apiKey, provider, parse, isUrl, base64).response.status == 400
        <==> form.Fields? && !form.image.Upload?
  {
  }

  /** Without a configured key the client cannot be built: a generic 500, with no provider call and no parse. */
  lemma MissingApiKey(
    f: File, provider: (string, string) -> Completion,
    parse: string -> Option<Json>, isUrl: string -> bool, base64: seq<byte> -> string)
    ensures Post(Fields(Upload(f)), None, provider, parse, isUrl, base64)
         == Handling(Response(500, ErrorBody(ServerError)), None, None)
  {
  }

  /** With a file and a key, the provider is called once, with the key and exactly the file's data URL. */
  lemma ProviderSeesDataUrl(
    f: File, key: string, provider: (string, string) -> Completion,
    parse: string -> Option<Json>, isUrl: string -> bool, base64: seq<byte> -> string)
    ensures Post(Fields(Upload(f)), Some(key), provider, parse, isUrl, base64).providerRequest
         == Some("data:" + (if f.mediaType == "" then "image/jpeg" else f.mediaType) + ";base64," + base64(f.bytes))
  {
  }

  /** The data URL sent reads back, per RFC 2397, as the declared media type (or image/jpeg) and the base64 of the bytes. */
  lemma ProviderUrlReadsBack(f: File, base64: seq<byte> -> string)
    requires ',' !in f.mediaType
    ensures ParseDataUrl(UploadUrl(f, base64))
         == Some(DataUrlParts(if f.mediaType == "" then "image/jpeg" else f.mediaType, true, base64(f.bytes)))
  {
    DataUrlRoundTrip(MediaTypeOf(f.mediaType), base64(f.bytes));
  }

  /** Content that does not parse is a 502 that returns the text unchanged. */
  lemma UnparseableContent(
    f: File, key: string, provider: (string, string) -> Completion,
    parse: string -> Option<Json>, isUrl: string -> bool, base64: seq<byte> -> string, content: string)
    requires provider(key, UploadUrl(f, base64)) == Completed(Some(content))
    requires parse(content) == None
    ensures Post(Fields(Upload(f)), Some(key), provider, parse, isUrl, base64).response
         == Response(502, RawBody(InvalidJson, content))
    ensures Post(Fields(Upload(f)), Some(key), provider, parse, isUrl, base64).parsedText == Some(content)
  {
  }

  /** A parsed value that fails validation is a 502 carrying the validator's issues. */
  lemma SchemaFailure(
    f: File, key: string, provider: (string, string) -> Completion,
    parse: string -> Option<Json>, isUrl: string -> bool, base64: seq<byte> -> string,
    content: Option<string>, data: Json)
    requires provider(key, UploadUrl(f, base64)) == Completed(content)
    requires parse(ContentText(content)) == Some(data)
    requires Validate(data, isUrl).Err?
    ensures Post(Fields(Upload(f)), Some(key), provider, parse, isUrl, base64).response
         == Response(502, IssuesBody("Response schema validation failed", Validate(data, isUrl).error))
    ensures Post(Fields(Upload(f)), Some(key), provider, parse, isUrl, base64).parsedText == Some(ContentText(content))
  {
  }

  /**
   * A completion without content is read as "{}", which parses to the empty
   * object and so always fails validation on the three required fields.
   */
  lemma AbsentContentFailsSchema(
    f: File, key: string, provider: (string, string) -> Completion,
    parse: string -> Option<Json>, isUrl: string -> bool, base64: seq<byte> -> string)
    requires provider(key, UploadUrl(f, base64)) == Completed(None)
    requires parse("{}") == Some(JObj(map[]))
    ensures Post(Fields(Upload(f)), Some(key), provider, parse, isUrl, base64).response
         == Response(502, IssuesBody(SchemaFailed,
              {InvalidField(FlowerName), InvalidField(WateringSchedule), InvalidField(HealthAssessment)}))
  {
    var o: map<string, Json> := map[];
    FailuresExact(o, isUrl);
    var expected := {InvalidField(FlowerName), InvalidField(WateringSchedule), InvalidField(HealthAssessment)};
    assert Failures(o, isUrl) == expected by {
      forall e | e in Failures(o, isUrl) ensures e in expected {
        assert e.InvalidField?;
        assert !FieldValid(o, e.field, isUrl);
      }
    }
  }

  /** 200 is returned exactly on the success path, and its result is the validated value. */
  lemma OkExactlyOnSuccess(
    form: Form, apiKey: Option<string>, provider: (string, string) -> Completion,
    parse: string -> Option<Json>, isUrl: string -> bool, base64: seq<byte> -> string)
    ensures Post(form, apiKey, provider, parse, isUrl, base64).response.status == 200
        <==> Succeeds(form, apiKey, provider, parse, isUrl, base64)
    ensures Succeeds(form, apiKey, provider, parse, isUrl, base64) ==>
      var completion := provider(apiKey.value, UploadUrl(form.image.file, base64));
      var data := parse(ContentText(completion.content)).value;
      && Post(form, apiKey, provider, parse, isUrl, base64).response.body == ResultBody(Validate(data, isUrl).value)
      && WellFormed(Validate(data, isUrl).value, isUrl)
  {
    if Succeeds(form, apiKey, provider, parse, isUrl, base64) {
      var completion := provider(apiKey.value, UploadUrl(form.image.file, base64));
      ValidatedCarries(parse(ContentText(completion.content)).value, isUrl);
    }
  }

  /**
   * 500 comes exactly from an unreadable form, a missing key or a provider
   * failure, and exposes nothing of what was thrown.
   */
  lemma ServerErrorIsGeneric(
    form: Form, apiKey: Option<string>, provider: (string, string) -> Completion,
    parse: string -> Option<Json>, isUrl: string -> bool, base64: seq<byte> -> string)
    ensures Post(form, apiKey, provider, parse, isUrl, base64).response.status == 500
        <==> || form.Unreadable?
             || (form.image.Upload? &&
                 (apiKey.None? || provider(apiKey.value, UploadUrl(form.image.file, base64)).Threw?))
    ensures Post(form, apiKey, provider, parse, isUrl, base64).response.status == 500 ==>
      Post(form, apiKey, provider, parse, isUrl, base64).response.body == ErrorBody(ServerError)
  {
  }

  /**
   * 502 comes exactly from content that does not parse or does not validate,
   * and the body says which: the raw text for a parse failure, the
   * validator's issues for a schema failure.
   */
  lemma BadGatewayCases(
    form: Form, apiKey: Option<string>, provider: (string, string) -> Completion,
    parse: string -> Option<Json>, isUrl: string -> bool, base64: seq<byte> -> string)
    ensures var h := Post(form, apiKey, provider, parse, isUrl, base64);
      h.response.status == 502 <==>
        && form.Fields? && form.image.Upload? && apiKey.Some?
        && var completion := provider(apiKey.value, UploadUrl(form.image.file, base64));
        && completion.Completed?
        && var data := parse(ContentText(completion.content));
        && (data.None? || Validate(data.value, isUrl).Err?)
    ensures var h := Post(form, apiKey, provider, parse, isUrl, base64);
      h.response.status == 502 ==>
        && h.parsedText.Some?
        && (h.response.body.RawBody? <==> parse(h.parsedText.value).None?)
        && (h.response.body.RawBody? || h.response.body.IssuesBody?)
        && (h.response.body.RawBody? ==> h.response.body == RawBody(InvalidJson, h.parsedText.value))
        && (h.response.body.IssuesBody? ==> h.response.body.error == SchemaFailed)
        && (h.response.body.IssuesBody? ==>
              && parse(h.parsedText.value).Some?
              && Validate(parse(h.parsedText.value).value, isUrl) == Err(h.response.body.issues))
  {
  }
}
