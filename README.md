# Meeting recorder: verified model of its core

The repository is a browser meeting recorder. It records microphone audio,
sends it to a serverless function for transcription, and keeps the
transcripts in a history in the browser's local storage. This project
models four pieces of sequential logic in it and proves their properties
in Dafny.

- **Multipart body** (`multipart.dfy`, module `Multipart`). The root
  transcription function builds a multipart/form-data body by hand: a
  `model` field part, a `file` part carrying the raw audio, then the close
  delimiter. The class `BodyParts` is the source's `bodyParts` list, and
  its methods are `addField`, `addFile`, the closing push and the final
  `Buffer.concat`. `BuildTranscriptionBody` runs them and is proved equal to
  a reference encoding. That encoding follows the delimiter syntax of
  section 5.1.1 of RFC 2046 and the Content-Disposition header of
  section 4.2 of RFC 7578. Lemmas then give the layout, the byte-exact
  recovery of the audio, the exact length and the validity of the random
  boundary. Strings become bytes through a UTF-8 encoder (`utf8.dfy`).
- **Handler decisions** (`transcribe.dfy`, module `Transcribe`). There is one
  `Handler` for both function variants, with a `FailurePolicy` flag:
  `Propagate` is the root variant, where a provider failure becomes a 500,
  and `Fallback` is the v2 variant, where it becomes a 200 with a fixed
  fallback transcript. Lemmas fix the 405, 400, 500 and 200 cases and the
  stub transcript without an API key. One lemma shows that the two variants
  differ exactly on provider failures. `ProviderRequest` is the request the
  root variant sends.
- **History store** (`history_json.dfy`, `history.dfy`). `Stringify` is
  `JSON.stringify` of the record list and `Parse` reads that text back; the
  two are proved to round-trip. The class `HistoryStore` holds the stored
  item. `SaveToHistory` is proved to put the new entry in front of
  everything stored before.
- **Client helpers and session** (`client.dfy`, `session.dfy`). `FormatTime`
  is proved to round-trip through its minutes and seconds fields.
  `TranscriptFrom` covers the fallbacks of `sendToTranscription` and is
  connected end to end to the handler. The class `Recorder` holds the
  recording flag, the recorder state, the chunk list, the status and the
  count of open microphone streams. Its methods are `startRecording`,
  `stopRecording`, the click toggle, `ondataavailable` and `onstop`.

Supporting modules: `wrappers.dfy` holds Option and Result, and
`digits.dfy` holds decimal text as written by `String(n)`, hex digits and
`padStart`.

Two behaviours of the source are kept as written. First, a start that gets
the microphone but then fails to create or start the recorder never
releases that stream. `StartRecording` states that the count of open
streams still goes up by one. Only `onstop` releases a stream. Second, the
response to a failed provider call differs between variants, as
`VariantsDifferOnlyOnProviderFailure` states.

## Model

| member | source | states |
|---|---|---|
| Digits.NatToString | meeting-recorder-pwa-v2/app.js:17-18 | `String(n)` of a whole number: at least one digit, all digits, no leading zero, one digit exactly below 10 |
| Digits.ValueOfNatToString | meeting-recorder-pwa-v2/app.js:17-18 | reading the digits of `String(n)` back gives `n` |
| Digits.PadStart | meeting-recorder-pwa-v2/app.js:17-18 | `padStart`: length is the larger of the width and the input, the input is kept whole at the end, the rest is fill |
| Utf8.Encode | netlify/functions/transcribe.js:47-49 | `Buffer.from(s, "utf8")`: at least one byte per character, and a single character encodes as its RFC 3629 bytes (`EncodeChar`), so with `EncodeAppend` any text is the concatenation of its characters' encodings |
| Utf8.EncodeChar | netlify/functions/transcribe.js:47-49 | UTF-8 of one character: 1 to 4 bytes, one byte with the same code exactly for ASCII, lead and continuation bytes in their ranges |
| Utf8.DecodeEncodeChar | netlify/functions/transcribe.js:47-49 | every character's bytes decode back to its code point, and the encoding has the shortest length for that code point |
| Utf8.EncodeAppend | netlify/functions/transcribe.js:47-49 | encoding a concatenation is concatenating the encodings, so string pieces can be converted one by one |
| Utf8.EncodeAscii | netlify/functions/transcribe.js:47-49 | ASCII text encodes to one byte per character with the same code |
| Multipart.Hex | netlify/functions/transcribe.js:22 | `toString("hex")`: two lower-case hex digits per byte |
| Multipart.BoundaryFor | netlify/functions/transcribe.js:22 | the boundary is the `----WebKitFormBoundary` prefix followed by two characters per random byte, and each pair reads back as that byte |
| Multipart.HexDecodes | netlify/functions/transcribe.js:22 | each pair of hex digits reads back as the byte it was written from, so the hex text determines the random bytes |
| Multipart.GeneratedBoundaryValid | netlify/functions/transcribe.js:22-23 | the boundary made from up to 24 random bytes (16 in the source) is ASCII, 22 + 2n characters long and valid under section 5.1.1 of RFC 2046 |
| Multipart.BodyStartsWithDelimiter | netlify/functions/transcribe.js:27-28 | a body with at least one part starts with the `--boundary` CRLF line |
| Multipart.BodyParts.constructor | netlify/functions/transcribe.js:23-25 | the part list starts empty and keeps the boundary |
| Multipart.BodyParts.AddField | netlify/functions/transcribe.js:27-31 | pushes the delimiter, the Content-Disposition header with its blank line, and the value with CRLF; the bytes added are exactly the reference encoding of that field part |
| Multipart.BodyParts.AddFile | netlify/functions/transcribe.js:33-41 | pushes the delimiter, the disposition with filename, the Content-Type with its blank line, the raw buffer and CRLF; the bytes added are exactly the reference encoding of that file part |
| Multipart.BodyParts.Close | netlify/functions/transcribe.js:45 | pushes `--boundary--` CRLF; the bytes grow by exactly the close delimiter |
| Multipart.BodyParts.ToBuffer | netlify/functions/transcribe.js:47-49 | `Buffer.concat` of the pieces, each string as UTF-8 and each buffer as is |
| Multipart.FileContentType | netlify/functions/transcribe.js:44 | the file part's Content-Type is the given MIME type when present and non-empty, otherwise `audio/webm`; never empty |
| Multipart.BuildTranscriptionBody | netlify/functions/transcribe.js:25-49 | the body built step by step equals the reference encoding of the model field part, then the file part, then the close delimiter |
| Multipart.BodyOfTwoParts | netlify/functions/transcribe.js:43-45 | a two-part body is the first part, then the second, then the close delimiter, in that order |
| Multipart.TranscriptionBodyLayout | netlify/functions/transcribe.js:43-45 | the body is a prefix that does not depend on the audio, the audio bytes verbatim and contiguous, then CRLF and the close delimiter |
| Multipart.AudioRoundTrip | netlify/functions/transcribe.js:39-44 | cutting the known prefix and suffix off the body gives back exactly the audio bytes |
| Multipart.TranscriptionBodyLength | netlify/functions/transcribe.js:47-49 | with an ASCII boundary and content type the body length is 169 + 3 times the boundary length + the content-type length + the audio length |
| Transcribe.RequestText | netlify/functions/transcribe.js:79 | `event.body \|\| "{}"`: a present non-empty body is parsed as is; an absent or empty one is read as `{}` |
| Transcribe.TranscribeWithOpenAI | netlify/functions/transcribe.js:15-68 | without a key the stub transcript; with a key an ok reply gives its `text`, or "" when it has none; a non-ok reply gives `Error: OpenAI transcription error`; a thrown exception gives its own text |
| Transcribe.Handler | netlify/functions/transcribe.js:70-103 | the status is one of 200, 400, 405, 500; 405 exactly for non-POST; 200 exactly when the body carries a transcript |
| Transcribe.MethodCheckedFirst | netlify/functions/transcribe.js:71-76 | a non-POST request gets 405 `Method not allowed` whatever the body, key, provider or variant |
| Transcribe.BadRequestExactly | netlify/functions/transcribe.js:82-87 | 400 `Missing audioBase64` is given exactly to a POST whose body parses without a non-empty `audioBase64` |
| Transcribe.AbsentBodyIsBadRequest | netlify/functions/transcribe.js:79-87 | an absent or empty body is read as `{}` and gets 400 |
| Transcribe.UnparseableBodyIsServerError | netlify/functions/transcribe.js:96-102 | a body that does not parse gets 500 `Internal server error` with the error text as details |
| Transcribe.NoKeyGivesStub | meeting-recorder-pwa-v2/netlify/functions/transcribe.js:15-18 | without an API key, a valid POST gets 200 with the stub transcript in both variants, whatever the provider would answer |
| Transcribe.MissingTextGivesEmptyTranscript | meeting-recorder-pwa-v2/netlify/functions/transcribe.js:41-42 | an ok provider response without text gives 200 with the transcript "" |
| Transcribe.ProviderTextGivesTranscript | netlify/functions/transcribe.js:66-95 | an ok provider reply with non-empty text gives 200 with exactly that text, in both variants |
| Transcribe.PropagatedFailureIsServerError | netlify/functions/transcribe.js:60-102 | root variant: a failed provider call gives 500 with error `Internal server error`, and as details `Error: OpenAI transcription error` for a non-ok response or the thrown error's text otherwise |
| Transcribe.FallbackFailureIsSuccess | meeting-recorder-pwa-v2/netlify/functions/transcribe.js:67-79 | v2 variant: a failed provider call gives 200 with the fixed fallback transcript |
| Transcribe.FallbackServerErrorOnlyFromParsing | meeting-recorder-pwa-v2/netlify/functions/transcribe.js:53-86 | v2 variant: a 500 happens exactly when a POST body fails to parse, never because of the provider |
| Transcribe.VariantsDifferOnlyOnProviderFailure | meeting-recorder-pwa-v2/netlify/functions/transcribe.js:64-79 | the variants answer differently exactly when the provider was called and failed, and then root gives 500 where v2 gives the fallback 200 |
| Transcribe.ReplyMattersOnlyWhenCalled | netlify/functions/transcribe.js:82-90 | when the provider is not called (no POST, bad body, no audio or no key) its reply cannot change the answer |
| Transcribe.ProviderRequest | netlify/functions/transcribe.js:51-58 | a request is sent exactly when a valid POST with audio meets a configured key; it goes to the transcription URL with `Bearer <key>` and a multipart Content-Type |
| Transcribe.UploadCarriesAudio | netlify/functions/transcribe.js:22-58 | the request goes to the transcription URL with `Bearer <key>`; the boundary its Content-Type announces is a valid RFC 2046 boundary, and cutting the body at that boundary's framing gives back the decoded audio byte for byte |
| HistoryJson.Stringify | meeting-recorder-pwa-v2/app.js:155 | `JSON.stringify` of the history is a non-empty text starting with `[` |
| HistoryJson.EscapeRoundTrip | meeting-recorder-pwa-v2/app.js:155 | every string escaped as `JSON.stringify` does reads back unchanged up to its closing quote |
| HistoryJson.EntryRoundTrip | meeting-recorder-pwa-v2/app.js:160-164 | a record `{id, createdAt, transcript}` as written reads back as the same record |
| HistoryJson.Parse | meeting-recorder-pwa-v2/app.js:147 | the `JSON.parse` stand-in accepts only texts that start with `[`, and reads the empty history exactly from `[]`; `ParseStringify` is its round trip with `Stringify` |
| HistoryJson.ParseStringify | meeting-recorder-pwa-v2/app.js:143-156 | what `saveHistory` writes, the reader gives back as the same list |
| History.LoadAfterSave | meeting-recorder-pwa-v2/app.js:143-156 | loading the stored text of a history gives that history |
| History.NewestFirst | meeting-recorder-pwa-v2/app.js:158-166 | after two saves the second entry comes first, then the first, then the earlier history |
| History.HistoryStore.LoadHistory | meeting-recorder-pwa-v2/app.js:143-152 | [] when the item is absent or empty or does not parse; otherwise the parsed list |
| History.HistoryStore.SaveHistory | meeting-recorder-pwa-v2/app.js:154-156 | the whole list is stored as its JSON text and reads back as that list |
| History.HistoryStore.SaveToHistory | meeting-recorder-pwa-v2/app.js:158-166 | the stored list becomes the new entry followed by the old list; the length grows by one and old entries keep their order |
| Client.FormatTime | meeting-recorder-pwa-v2/app.js:16-20 | at least five characters with the colon third from the end |
| Client.FormatTimeFields | meeting-recorder-pwa-v2/app.js:17-19 | the seconds field is two digits denoting seconds mod 60 (first digit 0 to 5); the minutes field denotes seconds / 60, is exactly two characters below ten minutes and otherwise exactly the minutes' digits, and ends with the whole decimal text of the minutes |
| Client.FormatTimeRoundTrip | meeting-recorder-pwa-v2/app.js:16-20 | minutes times 60 plus seconds, read from the text, gives back the input |
| Client.FormatTimeInjective | meeting-recorder-pwa-v2/app.js:16-20 | different second counts are never shown the same |
| Client.PayloadFor | meeting-recorder-pwa-v2/app.js:120-124 | the payload carries the audio and time; its MIME type is the blob's type when non-empty, else `audio/webm` |
| Client.TranscriptFrom | meeting-recorder-pwa-v2/app.js:134-140 | succeeds exactly on an ok response; the transcript is never empty: the server's when non-empty, otherwise the placeholder |
| Client.ErrorCarriesStatus | meeting-recorder-pwa-v2/app.js:134-137 | the error of a non-ok response starts with `Transcription API error: `, and the status and body text can be read back out of it |
| Client.NoKeyYieldsStubAtClient | meeting-recorder-pwa-v2/app.js:139-140 | end to end without a key, the client receives the function's stub transcript in either variant |
| Client.ReplyFrom | meeting-recorder-pwa-v2/app.js:134-140 | the client's view of a response: `res.ok` holds exactly for a 2xx status, the status and body text are kept, and `data.transcript` is present exactly when the body is a transcript body, with its text |
| Client.ClientOutcome | meeting-recorder-pwa-v2/app.js:134-140 | end to end, the client succeeds exactly when the function answers 200, and gets its transcript or the placeholder for an empty one |
| Session.NonEmpty | meeting-recorder-pwa-v2/app.js:41-45 | the kept chunks are all non-empty and no more than those received |
| Session.JoinedAppend | meeting-recorder-pwa-v2/app.js:51 | the bytes of `new Blob(chunks)` for two runs of chunks are the bytes of each run, in order |
| Session.NonEmptyAppend | meeting-recorder-pwa-v2/app.js:41-45 | chunks kept from two batches are those kept from each, in arrival order |
| Session.DroppingEmptyChunksKeepsAudio | meeting-recorder-pwa-v2/app.js:42-51 | skipping empty chunks never changes the bytes of the recorded blob |
| Session.Recorder.constructor | meeting-recorder-pwa-v2/app.js:1-5 | no recorder, no chunks, not recording, no open stream |
| Session.Recorder.StartRecording | meeting-recorder-pwa-v2/app.js:35-76 | recording is set only when the recorder started; any failure reports the microphone status; chunks are reset once the microphone is acquired; a stream acquired before a failure stays open |
| Session.Recorder.StopRecording | meeting-recorder-pwa-v2/app.js:78-85 | nothing changes unless a recorder exists and is recording; afterwards the flag is false and the recorder is stopping |
| Session.Recorder.Click | meeting-recorder-pwa-v2/app.js:87-93 | when not recording it has the effect of startRecording for the given outcome: flag, recorder state, status, chunk reset and open streams; when recording it stops, leaving status, chunks and streams as they were |
| Session.Recorder.OnDataAvailable | meeting-recorder-pwa-v2/app.js:41-45 | a chunk is appended exactly when its size is non-zero; nothing else changes |
| Session.Recorder.SaveTranscript | meeting-recorder-pwa-v2/app.js:55 | the transcript is saved in front of the stored history, and only the store changes |
| Session.Recorder.OnStop | meeting-recorder-pwa-v2/app.js:47-64 | sends the joined chunks as `audio/webm`; a transcript is saved in front of the history; a failure only sets the error status; the stream is released on both paths |

## Left out

- The timer (`startTimer`, `stopTimer`, `Date.now`, the fractional elapsed time): it is clock and floating point, so `FormatTime` takes whole seconds.
- `renderHistory`, button classes and labels, and other DOM updates: they are display only. Status texts are kept as values.
- `getUserMedia`, `MediaRecorder`, `Blob` and `FileReader` (`blobToBase64`): they are browser I/O. How far a start gets is the input `StartOutcome`, chunks are byte sequences, and the payload carries the audio bytes instead of their base64 text.
- All `fetch` calls: they are network I/O, and their outcomes are the inputs `ProviderReply` and `ServerReply`.
- `crypto.randomBytes`: it is randomness, so the random bytes are a parameter of the boundary.
- Base64 decoding with `Buffer.from(…, "base64")`: it is a library call and is a `decode` parameter.
- `JSON.parse` of the request body and its destructuring: they are a `parse` parameter. Non-string JSON values for `audioBase64` or `mimeType` are not modelled; for example, a number for `audioBase64` would make decoding throw and give a 500.
- History.HistoryStore.LoadHistory: `JSON.parse` is modelled only on the layout `JSON.stringify` writes for a list of records, with any JSON string escape inside the strings, so other valid JSON (extra whitespace, other key order, non-array values) reads as unparseable and gives [], where the source would return the parsed value. A stored value that is valid JSON but not an array makes `history.unshift` throw in the source, so `onstop` reports the transcription error and leaves the store as it was; in the model `SaveToHistory` and `OnStop` instead overwrite the store with a list holding only the new entry. A stored array in another layout is likewise replaced rather than extended.
- HistoryJson.Parse: a `\u` escape of a surrogate code unit is rejected, while the source would join surrogate pairs. `JSON.stringify` never writes one for the strings modelled here, which are sequences of Unicode scalar values.
- Digits.NatToString: it writes the plain decimal digits for every number, while `String(n)` switches to exponent form from 10^21; the numbers formatted here (minutes, seconds, status codes) stay far below that.
- Lone UTF-16 surrogates in JavaScript strings: Dafny strings hold only Unicode scalar values.
- The `FormData` encoding of the v2 variant: the library's encoding is not visible, so only the root variant's request body is modelled.
- Session.Recorder.StartRecording: it requires the flag to be false, because the click handler is its only caller and calls it only then.
- Session.Recorder.StartRecording: it is modelled as one atomic step, so a second click while the permission prompt is still open (`recording` is still false during the `await`) is not modelled. In the source that click starts a second recorder, overwrites the first while it records, and leaves the first recorder and its stream impossible to stop or release.
- Session.Recorder.OnStop: it requires a preceding stop. Two cases are therefore not modelled: a new start between `stop()` and the delayed `onstop`, which would reset the shared chunk list first, and a recorder that stops by itself (for example when its track ends), whose `onstop` runs while `recording` is still true.
- `console.error` logging, the provider's error status and error text: they are only logged.
- The speech-recognition variant (`meeting-recorder-speechapi 2/app.js`) is not part of this model.
