/**
 * The serverless transcription function, in both of its variants
 * (netlify/functions/transcribe.js and
 * meeting-recorder-pwa-v2/netlify/functions/transcribe.js).
 *
 * The two handlers make the same decisions except for one: a failed call to
 * the speech-to-text provider becomes a 500 in the root variant and a 200
 * with a fixed fallback transcript in the v2 variant. One handler with a
 * FailurePolicy flag stands for both. JSON parsing of the request body, the
 * provider call and base64 decoding are inputs: a parse function, the
 * provider's reply and a decode function.
 */
module Transcribe {
  import opened Wrappers
  import opened Utf8
  import Multipart

  const StubTranscript := "Transcripción simulada (no hay OPENAI_API_KEY configurada en Netlify)."
  const FallbackTranscript := "No se ha podido transcribir con OpenAI (revisa la clave o el uso de la API)."
  /** String(err) for the Error thrown on a non-ok provider response. */
  const ProviderErrorText := "Error: OpenAI transcription error"
  const ProviderUrl := "https://api.openai.com/v1/audio/transcriptions"

  /** What a provider failure turns into: a 500 (root variant) or a 200 with the fallback transcript (v2 variant). */
  datatype FailurePolicy = Propagate | Fallback

  /** The parts of the incoming event the handler reads. A body of None is an absent body. */
  datatype Event = Event(httpMethod: string, body: Option<string>)

  /** The two fields destructured from the parsed body; None when a field is absent or null. */
  datatype Fields = Fields(audioBase64: Option<string>, mimeType: Option<string>)

  /**
   * The provider's answer: an HTTP response with its ok flag and the `text`
   * of its JSON body, or an exception from fetch or from reading the
   * response, carrying String(err).
   */
  datatype ProviderReply = Reply(ok: bool, text: Option<string>) | Thrown(details: string)

  /** The JSON object the handler returns as its body. */
  datatype ResponseBody =
    | ErrorBody(error: string)
    | ErrorDetails(error: string, details: string)
    | TranscriptBody(transcript: string)

  datatype Response = Response(statusCode: nat, body: ResponseBody)

  /** JavaScript truthiness of an optional string: present and not empty. */
  predicate Truthy(s: Option<string>) {
    s.Some? && s.value != ""
  }

  /** `event.body || "{}"`: an absent or empty body is parsed as an empty object. */
  function RequestText(body: Option<string>): (text: string)
    ensures text != ""
    ensures Truthy(body) ==> text == body.value
    ensures !Truthy(body) ==> text == "{}"
  {
    if Truthy(body) then body.value else "{}"
  }

  /**
   * transcribeWithOpenAI: the stub transcript without an API key; otherwise
   * the provider's text ("" when it has none), or an error on a non-ok
   * response or a thrown exception.
   */
  function TranscribeWithOpenAI(apiKey: Option<string>, reply: ProviderReply): (r: Result<string, string>)
    ensures !Truthy(apiKey) ==> r == Ok(StubTranscript)
    ensures Truthy(apiKey) ==> (r.Ok? <==> reply.Reply? && reply.ok)
    ensures Truthy(apiKey) && reply.Reply? && reply.ok
            ==> r == Ok(if Truthy(reply.text) then reply.text.value else "")
    ensures Truthy(apiKey) && reply.Reply? && !reply.ok ==> r == Err(ProviderErrorText)
    ensures Truthy(apiKey) && reply.Thrown? ==> r == Err(reply.details)
  {
    if !Truthy(apiKey) then Ok(StubTranscript)
    else match reply
      case Thrown(details) => Err(details)
      case Reply(ok, text) =>
        if !ok then Err(ProviderErrorText)
        else Ok(if Truthy(text) then text.value else "")
  }

  function ServerError(details: string): Response {
    Response(500, ErrorDetails("Internal server error", details))
  }

  /** exports.handler of either variant. */
  function Handler(policy: FailurePolicy, event: Event, parse: string -> Result<Fields, string>,
                   apiKey: Option<string>, reply: ProviderReply): (r: Response)
    ensures r.statusCode in {200, 400, 405, 500}
    ensures r.statusCode == 405 <==> event.httpMethod != "POST"
    ensures r.statusCode == 200 <==> r.body.TranscriptBody?
  {
    if event.httpMethod != "POST" then
      Response(405, ErrorBody("Method not allowed"))
    else
      match parse(RequestText(event.body))
      case Err(details) => ServerError(details)
      case Ok(fields) =>
        if !Truthy(fields.audioBase64) then
          Response(400, ErrorBody("Missing audioBase64"))
        else
          match TranscribeWithOpenAI(apiKey, reply)
          case Ok(transcript) => Response(200, TranscriptBody(transcript))
          case Err(details) =>
            if policy == Propagate then ServerError(details)
            else Response(200, TranscriptBody(FallbackTranscript))
  }

  /** True when the handler gets as far as calling transcribeWithOpenAI with a configured key. */
  predicate CallsProvider(event: Event, parse: string -> Result<Fields, string>, apiKey: Option<string>) {
    && event.httpMethod == "POST"
    && parse(RequestText(event.body)).Ok?
    && Truthy(parse(RequestText(event.body)).value.audioBase64)
    && Truthy(apiKey)
  }

  /** A provider reply that transcribeWithOpenAI turns into an exception. */
  predicate ProviderFailed(reply: ProviderReply) {
    !(reply.Reply? && reply.ok)
  }

  // ---------------------------------------------------------------------
  // The decision table
  // ---------------------------------------------------------------------

  /** The method is checked before the body: a non-POST request gets 405 whatever else holds. */
  lemma MethodCheckedFirst(p1: FailurePolicy, p2: FailurePolicy, event: Event,
                           parse1: string -> Result<Fields, string>, parse2: string -> Result<Fields, string>,
                           key1: Option<string>, key2: Option<string>, reply1: ProviderReply, reply2: ProviderReply)
    requires event.httpMethod != "POST"
    ensures Handler(p1, event, parse1, key1, reply1) == Response(405, ErrorBody("Method not allowed"))
    ensures Handler(p1, event, parse1, key1, reply1) == Handler(p2, event, parse2, key2, reply2)
  {
  }

  /** A 400 is given exactly to a POST whose body parses but has no usable audioBase64. */
  lemma BadRequestExactly(policy: FailurePolicy, event: Event, parse: string -> Result<Fields, string>,
                          apiKey: Option<string>, reply: ProviderReply)
    ensures Handler(policy, event, parse, apiKey, reply).statusCode == 400
        <==> (event.httpMethod == "POST" && parse(RequestText(event.body)).Ok?
              && !Truthy(parse(RequestText(event.body)).value.audioBase64))
    ensures Handler(policy, event, parse, apiKey, reply).statusCode == 400
        ==> Handler(policy, event, parse, apiKey, reply).body == ErrorBody("Missing audioBase64")
  {
  }

  /** An absent or empty body is read as "{}", which has no audioBase64, so it gets 400. */
  lemma AbsentBodyIsBadRequest(policy: FailurePolicy, event: Event, parse: string -> Result<Fields, string>,
                               apiKey: Option<string>, reply: ProviderReply)
    requires parse("{}") == Ok(Fields(None, None))
    requires event.httpMethod == "POST" && !Truthy(event.body)
    ensures Handler(policy, event, parse, apiKey, reply) == Response(400, ErrorBody("Missing audioBase64"))
  {
  }

  /** A body that does not parse gets 500 with the parse error's text as details. */
  lemma UnparseableBodyIsServerError(policy: FailurePolicy, event: Event, parse: string -> Result<Fields, string>,
                                     apiKey: Option<string>, reply: ProviderReply)
    requires event.httpMethod == "POST" && parse(RequestText(event.body)).Err?
    ensures Handler(policy, event, parse, apiKey, reply)
         == Response(500, ErrorDetails("Internal server error", parse(RequestText(event.body)).error))
  {
  }

  /** Without an API key both variants answer 200 with the stub transcript, whatever the provider would say. */
  lemma NoKeyGivesStub(policy: FailurePolicy, event: Event, parse: string -> Result<Fields, string>,
                       apiKey: Option<string>, reply: ProviderReply)
    requires event.httpMethod == "POST" && parse(RequestText(event.body)).Ok?
    requires Truthy(parse(RequestText(event.body)).value.audioBase64)
    requires !Truthy(apiKey)
    ensures Handler(policy, event, parse, apiKey, reply) == Response(200, TranscriptBody(StubTranscript))
  {
  }

  /** A successful provider response without text gives the empty transcript. */
  lemma MissingTextGivesEmptyTranscript(policy: FailurePolicy, event: Event, parse: string -> Result<Fields, string>,
                                        apiKey: Option<string>, text: Option<string>)
    requires CallsProvider(event, parse, apiKey) && !Truthy(text)
    ensures Handler(policy, event, parse, apiKey, Reply(true, text)) == Response(200, TranscriptBody(""))
  {
  }

  /** A successful provider response with text: both variants answer 200 with exactly that text. */
  lemma ProviderTextGivesTranscript(policy: FailurePolicy, event: Event, parse: string -> Result<Fields, string>,
                                    apiKey: Option<string>, text: string)
    requires CallsProvider(event, parse, apiKey) && text != ""
    ensures Handler(policy, event, parse, apiKey, Reply(true, Some(text))) == Response(200, TranscriptBody(text))
  {
  }

  /** Root variant: a provider failure becomes a 500. */
  lemma PropagatedFailureIsServerError(event: Event, parse: string -> Result<Fields, string>,
                                       apiKey: Option<string>, reply: ProviderReply)
    requires CallsProvider(event, parse, apiKey) && ProviderFailed(reply)
    ensures Handler(Propagate, event, parse, apiKey, reply).statusCode == 500
    ensures Handler(Propagate, event, parse, apiKey, reply)
            == ServerError(if reply.Reply? then ProviderErrorText else reply.details)
  {
  }

  /** v2 variant: a provider failure becomes a 200 with the fallback transcript. */
  lemma FallbackFailureIsSuccess(event: Event, parse: string -> Result<Fields, string>,
                                 apiKey: Option<string>, reply: ProviderReply)
    requires CallsProvider(event, parse, apiKey) && ProviderFailed(reply)
    ensures Handler(Fallback, event, parse, apiKey, reply) == Response(200, TranscriptBody(FallbackTranscript))
  {
  }

  /** v2 variant: the only 500 is a body that fails to parse, never a provider outcome. */
  lemma FallbackServerErrorOnlyFromParsing(event: Event, parse: string -> Result<Fields, string>,
                                           apiKey: Option<string>, reply: ProviderReply)
    ensures Handler(Fallback, event, parse, apiKey, reply).statusCode == 500
        <==> (event.httpMethod == "POST" && parse(RequestText(event.body)).Err?)
  {
  }

  /**
   * The variants differ in exactly one rule: their answers differ if and only
   * if the provider was called and failed, and then the root variant answers
   * 500 where the v2 variant answers 200 with the fallback transcript.
   */
  lemma VariantsDifferOnlyOnProviderFailure(event: Event, parse: string -> Result<Fields, string>,
                                            apiKey: Option<string>, reply: ProviderReply)
    ensures Handler(Propagate, event, parse, apiKey, reply) != Handler(Fallback, event, parse, apiKey, reply)
        <==> (CallsProvider(event, parse, apiKey) && ProviderFailed(reply))
    ensures Handler(Propagate, event, parse, apiKey, reply) != Handler(Fallback, event, parse, apiKey, reply)
        ==> Handler(Propagate, event, parse, apiKey, reply).statusCode == 500
            && Handler(Fallback, event, parse, apiKey, reply) == Response(200, TranscriptBody(FallbackTranscript))
  {
  }

  /** The provider's reply matters only when the provider is called. */
  lemma ReplyMattersOnlyWhenCalled(policy: FailurePolicy, event: Event, parse: string -> Result<Fields, string>,
                                   apiKey: Option<string>, reply1: ProviderReply, reply2: ProviderReply)
    requires !CallsProvider(event, parse, apiKey)
    ensures Handler(policy, event, parse, apiKey, reply1) == Handler(policy, event, parse, apiKey, reply2)
  {
  }

  // ---------------------------------------------------------------------
  // The request the root variant sends to the provider
  // ---------------------------------------------------------------------

  /** The Content-Type header up to the boundary it announces. */
  const MultipartPrefix := "multipart/form-data; boundary="

  /** The provider request: its URL, Authorization and Content-Type headers, and the multipart body. */
  datatype Upload = Upload(url: string, authorization: string, contentType: string, body: seq<byte>)

  /**
   * The request the root variant sends, if any: none unless the provider is
   * called with a key; otherwise a multipart body with a boundary made from
   * the random bytes, carrying the decoded audio.
   */
  function ProviderRequest(event: Event, parse: string -> Result<Fields, string>, decode: string -> seq<byte>,
                           apiKey: Option<string>, random: seq<byte>): (u: Option<Upload>)
    ensures u.Some? <==> CallsProvider(event, parse, apiKey)
    ensures u.Some? ==> u.value.url == ProviderUrl && u.value.authorization == "Bearer " + apiKey.value
    ensures u.Some? ==> MultipartPrefix <= u.value.contentType
  {
    if !CallsProvider(event, parse, apiKey) then None
    else
      var fields := parse(RequestText(event.body)).value;
      var boundary := Multipart.BoundaryFor(random);
      Some(Upload(ProviderUrl, "Bearer " + apiKey.value, MultipartPrefix + boundary,
                  Multipart.TranscriptionBody(boundary, fields.mimeType, decode(fields.audioBase64.value))))
  }

  /** The boundary a multipart Content-Type header announces, if it has one. */
  function AnnouncedBoundary(contentType: string): Option<string> {
    if MultipartPrefix <= contentType then Some(contentType[|MultipartPrefix|..]) else None
  }

  /**
   * The request sent goes to the transcription endpoint with the key as a
   * bearer token; the boundary its Content-Type announces is a valid RFC 2046
   * boundary, and cutting the body at that boundary's framing gives back the
   * decoded audio.
   */
  lemma UploadCarriesAudio(event: Event, parse: string -> Result<Fields, string>, decode: string -> seq<byte>,
                           apiKey: Option<string>, random: seq<byte>)
    requires |random| == 16
    requires CallsProvider(event, parse, apiKey)
    ensures var u := ProviderRequest(event, parse, decode, apiKey, random).value;
            u.url == ProviderUrl && u.authorization == "Bearer " + apiKey.value
    ensures var fields := parse(RequestText(event.body)).value;
            var u := ProviderRequest(event, parse, decode, apiKey, random).value;
            && AnnouncedBoundary(u.contentType).Some?
            && Multipart.ValidBoundary(AnnouncedBoundary(u.contentType).value)
            && Multipart.AudioOf(u.body, AnnouncedBoundary(u.contentType).value, Multipart.FileContentType(fields.mimeType))
               == Some(decode(fields.audioBase64.value))
  {
    var fields := parse(RequestText(event.body)).value;
    var b := Multipart.BoundaryFor(random);
    var u := ProviderRequest(event, parse, decode, apiKey, random).value;
    assert u.contentType == MultipartPrefix + b;
    assert AnnouncedBoundary(u.contentType) == Some(b) by {
      assert (MultipartPrefix + b)[|MultipartPrefix|..] == b;
    }
    Multipart.AudioRoundTrip(b, fields.mimeType, decode(fields.audioBase64.value));
    Multipart.GeneratedBoundaryValid(random);
  }
}
