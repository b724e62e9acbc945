/**
 * The pure helpers of the browser client (meeting-recorder-pwa-v2/app.js):
 * formatTime, and the request and reply handling of sendToTranscription.
 */
module Client {
  import opened Wrappers
  import opened Digits
  import opened Utf8
  import Transcribe

  // ---------------------------------------------------------------------
  // formatTime
  // ---------------------------------------------------------------------

  /** formatTime for a whole number of seconds: "mm:ss", with minutes never cut short. */
  function FormatTime(seconds: nat): (r: string)
    ensures |r| >= 5 && r[|r| - 3] == ':'
  {
    PadStart(NatToString(seconds / 60), 2, '0') + ":" + PadStart(NatToString(seconds % 60), 2, '0')
  }

  /** The minutes field: everything before the colon. */
  function MinutesField(t: string): string
    requires |t| >= 3
  {
    t[..|t| - 3]
  }

  /** The seconds field: the two characters after the colon. */
  function SecondsField(t: string): string
    requires |t| >= 3
  {
    t[|t| - 2..]
  }

  lemma PaddedValue(n: nat)
    ensures AllDigits(PadStart(NatToString(n), 2, '0'))
    ensures Value(PadStart(NatToString(n), 2, '0')) == n
  {
    var s := NatToString(n);
    var p := PadStart(s, 2, '0');
    var z := p[..|p| - |s|];
    assert p == z + s;
    ValueIgnoresLeadingZeros(z, s);
    ValueOfNatToString(n);
  }

  /** The padded seconds: two digits, the first at most 5. */
  lemma SecondsDigits(n: nat)
    requires n < 60
    ensures var s := PadStart(NatToString(n), 2, '0');
            |s| == 2 && AllDigits(s) && Value(s) == n && '0' <= s[0] <= '5'
  {
    var s := PadStart(NatToString(n), 2, '0');
    NatToStringLength(n, 2);
    PaddedValue(n);
    assert Value(s) == Value(s[..1]) * 10 + (s[1] as int - '0' as int);
    assert s[..1][..0] == [];
  }

  /** padStart(2, "0") on the minutes' digits: two characters below ten, else the digits themselves. */
  lemma MinutesWidth(n: nat)
    ensures |PadStart(NatToString(n), 2, '0')| == (if n < 10 then 2 else |NatToString(n)|)
  {
  }

  /** Splitting "m:ss" at the colon gives back m and ss. */
  lemma SplitFields(m: string, s: string)
    requires |s| == 2
    ensures MinutesField(m + ":" + s) == m && SecondsField(m + ":" + s) == s
  {
  }

  /**
   * The seconds field is two digits denoting seconds mod 60, so its first
   * digit is at most 5; the minutes field denotes seconds / 60, is exactly two
   * characters below ten minutes, otherwise exactly the digits of the
   * minutes, and ends with the full decimal text of the minutes.
   */
  lemma FormatTimeFields(seconds: nat)
    ensures var t := FormatTime(seconds);
            && |SecondsField(t)| == 2 && AllDigits(SecondsField(t))
            && Value(SecondsField(t)) == seconds % 60
            && '0' <= SecondsField(t)[0] <= '5'
            && AllDigits(MinutesField(t)) && Value(MinutesField(t)) == seconds / 60
            && |MinutesField(t)| == (if seconds / 60 < 10 then 2 else |NatToString(seconds / 60)|)
            && MinutesField(t)[|MinutesField(t)| - |NatToString(seconds / 60)|..] == NatToString(seconds / 60)
  {
    var m, n := NatToString(seconds / 60), NatToString(seconds % 60);
    var mf, sf := PadStart(m, 2, '0'), PadStart(n, 2, '0');
    SecondsDigits(seconds % 60);
    PaddedValue(seconds / 60);
    MinutesWidth(seconds / 60);
    SplitFields(mf, sf);
    assert FormatTime(seconds) == mf + ":" + sf;
  }

  /** Reading the two fields back gives the seconds formatted. */
  lemma FormatTimeRoundTrip(seconds: nat)
    ensures var t := FormatTime(seconds);
            AllDigits(MinutesField(t)) && AllDigits(SecondsField(t))
            && Value(MinutesField(t)) * 60 + Value(SecondsField(t)) == seconds
  {
    FormatTimeFields(seconds);
  }

  /** Distinct whole-second counts are shown differently. */
  lemma FormatTimeInjective(a: nat, b: nat)
    requires FormatTime(a) == FormatTime(b)
    ensures a == b
  {
    FormatTimeRoundTrip(a);
    FormatTimeRoundTrip(b);
  }

  // ---------------------------------------------------------------------
  // sendToTranscription
  // ---------------------------------------------------------------------

  const Placeholder := "(Sin transcripción o backend en modo stub)"
  const DefaultMimeType := "audio/webm"
  const ErrorPrefix := "Transcription API error: "

  /** The JSON payload sent to the function; audioBase64 is shown as the bytes it encodes. */
  datatype Payload = Payload(audio: seq<byte>, mimeType: string, createdAt: string)

  /** `mimeType: blob.type || "audio/webm"`. */
  function PayloadFor(audio: seq<byte>, blobType: string, createdAt: string): (p: Payload)
    ensures p.audio == audio && p.createdAt == createdAt
    ensures p.mimeType != ""
    ensures blobType != "" ==> p.mimeType == blobType
    ensures blobType == "" ==> p.mimeType == DefaultMimeType
  {
    Payload(audio, if blobType != "" then blobType else DefaultMimeType, createdAt)
  }

  /**
   * What the client gets back: a response with its ok flag, status, body
   * text (read as "" when reading fails) and the `transcript` of its JSON,
   * or a failure of fetch or of reading the JSON.
   */
  datatype ServerReply =
    | HttpReply(ok: bool, status: nat, bodyText: string, transcript: Option<string>)
    | Failed(message: string)

  /**
   * sendToTranscription's result: the transcript, with the placeholder for a
   * missing or empty one, or an error carrying the status and body text of a
   * non-ok response.
   */
  function TranscriptFrom(reply: ServerReply): (r: Result<string, string>)
    ensures r.Ok? <==> reply.HttpReply? && reply.ok
    ensures r.Ok? ==> r.value != ""
    ensures r.Ok? && reply.transcript.Some? && reply.transcript.value != "" ==> r.value == reply.transcript.value
    ensures r.Ok? && (reply.transcript.None? || reply.transcript.value == "") ==> r.value == Placeholder
  {
    match reply
    case Failed(message) => Err(message)
    case HttpReply(ok, status, bodyText, transcript) =>
      if !ok then Err(ErrorPrefix + NatToString(status) + " " + bodyText)
      else if transcript.Some? && transcript.value != "" then Ok(transcript.value)
      else Ok(Placeholder)
  }

  /** The status of a non-ok response can be read back out of the error message. */
  lemma ErrorCarriesStatus(status: nat, bodyText: string, transcript: Option<string>)
    ensures var r := TranscriptFrom(HttpReply(false, status, bodyText, transcript));
            var n := |NatToString(status)|;
            && r.Err? && |r.error| >= |ErrorPrefix| + n + 1
            && r.error[..|ErrorPrefix|] == ErrorPrefix
            && AllDigits(r.error[|ErrorPrefix|..|ErrorPrefix| + n])
            && Value(r.error[|ErrorPrefix|..|ErrorPrefix| + n]) == status
            && r.error[|ErrorPrefix| + n + 1..] == bodyText
  {
    var d := NatToString(status);
    var msg := ErrorPrefix + d + " " + bodyText;
    assert msg[|ErrorPrefix|..|ErrorPrefix| + |d|] == d;
    assert msg[|ErrorPrefix| + |d| + 1..] == bodyText;
    ValueOfNatToString(status);
  }

  /** The function's response as the client reads it; `bodyText` is the response's raw text. */
  function ReplyFrom(response: Transcribe.Response, bodyText: string): (r: ServerReply)
    ensures r.HttpReply? && r.status == response.statusCode && r.bodyText == bodyText
    ensures r.ok <==> 200 <= response.statusCode < 300
    ensures r.transcript.Some? <==> response.body.TranscriptBody?
    ensures r.transcript.Some? ==> r.transcript.value == response.body.transcript
  {
    HttpReply(200 <= response.statusCode < 300, response.statusCode, bodyText,
          if response.body.TranscriptBody? then Some(response.body.transcript) else None)
  }

  /**
   * End to end without an API key: a POST with audio yields the stub
   * transcript at the client, in either variant of the function.
   */
  lemma NoKeyYieldsStubAtClient(policy: Transcribe.FailurePolicy, event: Transcribe.Event,
                                parse: string -> Result<Transcribe.Fields, string>,
                                apiKey: Option<string>, provider: Transcribe.ProviderReply, bodyText: string)
    requires event.httpMethod == "POST" && parse(Transcribe.RequestText(event.body)).Ok?
    requires Transcribe.Truthy(parse(Transcribe.RequestText(event.body)).value.audioBase64)
    requires !Transcribe.Truthy(apiKey)
    ensures TranscriptFrom(ReplyFrom(Transcribe.Handler(policy, event, parse, apiKey, provider), bodyText))
         == Ok(Transcribe.StubTranscript)
  {
    Transcribe.NoKeyGivesStub(policy, event, parse, apiKey, provider);
  }

  /**
   * End to end: whenever the function answers 200, the client gets a
   * non-empty transcript, the function's own when it is not empty and the
   * placeholder otherwise; any other status is an error at the client.
   */
  lemma ClientOutcome(policy: Transcribe.FailurePolicy, event: Transcribe.Event,
                      parse: string -> Result<Transcribe.Fields, string>,
                      apiKey: Option<string>, provider: Transcribe.ProviderReply, bodyText: string)
    ensures var response := Transcribe.Handler(policy, event, parse, apiKey, provider);
            var r := TranscriptFrom(ReplyFrom(response, bodyText));
            && (r.Ok? <==> response.statusCode == 200)
            && (r.Ok? && response.body.transcript != "" ==> r.value == response.body.transcript)
            && (r.Ok? && response.body.transcript == "" ==> r.value == Placeholder)
  {
  }
}
