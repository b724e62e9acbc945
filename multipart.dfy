/**
 * The multipart/form-data request body that the root transcription function
 * builds by hand before calling the speech-to-text provider
 * (netlify/functions/transcribe.js).
 *
 * Two definitions meet here: a reference encoding of a list of body parts,
 * following the delimiter syntax of section 5.1.1 of RFC 2046 and the
 * per-part Content-Disposition header of section 4.2 of RFC 7578, and the
 * source's own step-by-step construction, in which addField/addFile push
 * strings and buffers onto a list that is finally concatenated. The method
 * BuildTranscriptionBody runs the second and is proved equal to the first.
 */
module Multipart {
  import opened Wrappers
  import opened Utf8
  import opened Digits

  // ---------------------------------------------------------------------
  // Reference encoding
  // ---------------------------------------------------------------------

  /** The dash-boundary line that opens every body part. */
  function Delimiter(boundary: string): string {
    "--" + boundary + "\r\n"
  }

  /** The close-delimiter line that ends the body. */
  function CloseDelimiter(boundary: string): string {
    "--" + boundary + "--\r\n"
  }

  /** One body part: its header lines (without line ends) and its content. */
  datatype Part = Part(headers: seq<string>, content: seq<byte>)

  /** Each header line ended by CRLF, then the empty line that ends the headers. */
  function HeaderBlock(headers: seq<string>): string {
    if headers == [] then "\r\n" else headers[0] + "\r\n" + HeaderBlock(headers[1..])
  }

  /** A part on the wire: delimiter, headers, content, and the CRLF that precedes the next delimiter. */
  function EncodePart(boundary: string, p: Part): seq<byte> {
    Encode(Delimiter(boundary) + HeaderBlock(p.headers)) + p.content + Encode("\r\n")
  }

  function EncodeParts(boundary: string, parts: seq<Part>): seq<byte> {
    if parts == [] then [] else EncodePart(boundary, parts[0]) + EncodeParts(boundary, parts[1..])
  }

  /** A whole multipart body: every part in order, then the close delimiter. */
  function Body(boundary: string, parts: seq<Part>): seq<byte> {
    EncodeParts(boundary, parts) + Encode(CloseDelimiter(boundary))
  }

  /** The Content-Disposition header of a form-data part (section 4.2 of RFC 7578). */
  function Disposition(name: string, filename: Option<string>): string {
    "Content-Disposition: form-data; name=\"" + name + "\""
      + (if filename.Some? then "; filename=\"" + filename.value + "\"" else "")
  }

  function FieldPart(name: string, value: string): Part {
    Part([Disposition(name, None)], Encode(value))
  }

  function FilePart(name: string, filename: string, contentType: string, data: seq<byte>): Part {
    Part([Disposition(name, Some(filename)), "Content-Type: " + contentType], data)
  }

  /** A non-empty list of parts starts with the delimiter line. */
  lemma BodyStartsWithDelimiter(boundary: string, parts: seq<Part>)
    requires parts != []
    ensures Encode(Delimiter(boundary)) <= Body(boundary, parts)
  {
    EncodeAppend(Delimiter(boundary), HeaderBlock(parts[0].headers));
  }

  // ---------------------------------------------------------------------
  // The boundary
  // ---------------------------------------------------------------------

  /** Buffer.toString("hex"): two lower-case hex digits per byte. */
  function Hex(bs: seq<byte>): (s: string)
    ensures |s| == 2 * |bs|
    ensures forall i :: 0 <= i < |s| ==> IsHexDigit(s[i])
  {
    if bs == [] then "" else [HexDigit(bs[0] as int / 16), HexDigit(bs[0] as int % 16)] + Hex(bs[1..])
  }

  /** Reading each pair of hex digits back gives the byte it was written from. */
  lemma {:induction false} HexDecodes(bs: seq<byte>)
    ensures forall i :: 0 <= i < |bs| ==> HexValue(Hex(bs)[2 * i]) * 16 + HexValue(Hex(bs)[2 * i + 1]) == bs[i] as int
    decreases |bs|
  {
    if bs != [] {
      var s, t := Hex(bs), Hex(bs[1..]);
      HexDecodes(bs[1..]);
      HexValueOfHexDigit(bs[0] as int / 16);
      HexValueOfHexDigit(bs[0] as int % 16);
      forall i | 0 <= i < |bs|
        ensures HexValue(s[2 * i]) * 16 + HexValue(s[2 * i + 1]) == bs[i] as int
      {
        if i > 0 {
          assert s[2 * i] == t[2 * (i - 1)] && s[2 * i + 1] == t[2 * (i - 1) + 1];
          assert bs[i] == bs[1..][i - 1];
        }
      }
    }
  }

  const BoundaryPrefix := "----WebKitFormBoundary"

  /** The boundary: a fixed prefix followed by random bytes in hex (16 of them in the source). */
  function BoundaryFor(random: seq<byte>): (b: string)
    ensures |b| == |BoundaryPrefix| + 2 * |random| && b[..|BoundaryPrefix|] == BoundaryPrefix
    ensures forall i :: 0 <= i < |random| ==>
              HexValue(b[|BoundaryPrefix| + 2 * i]) * 16 + HexValue(b[|BoundaryPrefix| + 2 * i + 1]) == random[i] as int
  {
    HexDecodes(random);
    BoundaryPrefix + Hex(random)
  }

  /** bcharsnospace of section 5.1.1 of RFC 2046. */
  predicate IsBCharNoSpace(c: char) {
    ('0' <= c <= '9') || ('a' <= c <= 'z') || ('A' <= c <= 'Z')
      || c in "'()+_,-./:=?"
  }

  /** The boundary grammar of section 5.1.1 of RFC 2046: 1 to 70 bchars, not ending in a space. */
  predicate ValidBoundary(b: string) {
    1 <= |b| <= 70
      && (forall i :: 0 <= i < |b| ==> IsBCharNoSpace(b[i]) || b[i] == ' ')
      && IsBCharNoSpace(b[|b| - 1])
  }

  lemma GeneratedBoundaryValid(random: seq<byte>)
    requires |random| <= 24
    ensures ValidBoundary(BoundaryFor(random))
    ensures IsAscii(BoundaryFor(random))
    ensures |BoundaryFor(random)| == 22 + 2 * |random|
  {
    var b := BoundaryFor(random);
    forall i | 0 <= i < |b|
      ensures IsBCharNoSpace(b[i]) && b[i] as int < 0x80
    {
      if i >= |BoundaryPrefix| {
        assert b[i] == Hex(random)[i - |BoundaryPrefix|];
      }
    }
  }

  // ---------------------------------------------------------------------
  // The source's construction: a list of string and buffer pieces
  // ---------------------------------------------------------------------

  /** An element of the source's bodyParts list: a string or a raw buffer. */
  datatype Piece = Text(text: string) | Bytes(data: seq<byte>)

  /** A string piece is converted with Buffer.from(piece, "utf8"); a buffer is used as is. */
  function PieceBytes(p: Piece): seq<byte> {
    match p
    case Text(t) => Encode(t)
    case Bytes(d) => d
  }

  /** Buffer.concat of the converted pieces. */
  function Concat(pieces: seq<Piece>): seq<byte> {
    if pieces == [] then [] else Concat(pieces[..|pieces| - 1]) + PieceBytes(pieces[|pieces| - 1])
  }

  lemma ConcatPush(pieces: seq<Piece>, p: Piece)
    ensures Concat(pieces + [p]) == Concat(pieces) + PieceBytes(p)
  {
    assert (pieces + [p])[..|pieces|] == pieces;
  }

  lemma HeaderBlockOne(h: string)
    ensures HeaderBlock([h]) == h + "\r\n\r\n"
  {
    assert [h][1..] == [];
  }

  lemma HeaderBlockTwo(h1: string, h2: string)
    ensures HeaderBlock([h1, h2]) == (h1 + "\r\n") + (h2 + "\r\n\r\n")
  {
    assert [h1, h2][1..] == [h2];
    HeaderBlockOne(h2);
  }

  /** The field part's bytes, in the pieces addField pushes. */
  lemma FieldPartPieces(boundary: string, name: string, value: string)
    ensures EncodePart(boundary, FieldPart(name, value))
         == ((Encode(Delimiter(boundary)) + Encode(Disposition(name, None) + "\r\n\r\n")) + Encode(value)) + Encode("\r\n")
  {
    var d := Delimiter(boundary);
    var h := Disposition(name, None) + "\r\n\r\n";
    HeaderBlockOne(Disposition(name, None));
    EncodeAppend(d, h);
  }

  /** The file part's bytes, in the pieces addFile pushes. */
  lemma FilePartPieces(boundary: string, name: string, filename: string, contentType: string, buffer: seq<byte>)
    ensures EncodePart(boundary, FilePart(name, filename, contentType, buffer))
         == (((Encode(Delimiter(boundary)) + Encode(Disposition(name, Some(filename)) + "\r\n"))
              + Encode("Content-Type: " + contentType + "\r\n\r\n")) + buffer) + Encode("\r\n")
  {
    var d := Delimiter(boundary);
    var h1 := Disposition(name, Some(filename)) + "\r\n";
    var h2 := "Content-Type: " + contentType + "\r\n\r\n";
    HeaderBlockTwo(Disposition(name, Some(filename)), "Content-Type: " + contentType);
    EncodeAppend(h1, h2);
    EncodeAppend(d, h1 + h2);
    Assoc3(Encode(d), Encode(h1), Encode(h2));
  }

  lemma Assoc3(a: seq<byte>, b: seq<byte>, c: seq<byte>)
    ensures a + (b + c) == (a + b) + c
  {
  }

  /** Buffer.concat distributes over joining two piece lists. */
  lemma {:induction false} ConcatAppend(ps: seq<Piece>, qs: seq<Piece>)
    ensures Concat(ps + qs) == Concat(ps) + Concat(qs)
    decreases |qs|
  {
    if qs == [] {
      assert ps + qs == ps;
    } else {
      var last := qs[|qs| - 1];
      var init := qs[..|qs| - 1];
      assert (ps + qs)[..|ps + qs| - 1] == ps + init;
      ConcatAppend(ps, init);
      Assoc3(Concat(ps), Concat(init), PieceBytes(last));
    }
  }

  lemma ConcatThree(a: Piece, b: Piece, c: Piece)
    ensures Concat([a, b, c]) == (PieceBytes(a) + PieceBytes(b)) + PieceBytes(c)
  {
    assert Concat([a]) == PieceBytes(a) by {
      assert [a][..0] == [];
    }
    assert Concat([a, b]) == PieceBytes(a) + PieceBytes(b) by {
      assert [a, b][..1] == [a];
    }
    assert [a, b, c][..2] == [a, b];
  }

  lemma ConcatFive(a: Piece, b: Piece, c: Piece, d: Piece, e: Piece)
    ensures Concat([a, b, c, d, e])
         == (((PieceBytes(a) + PieceBytes(b)) + PieceBytes(c)) + PieceBytes(d)) + PieceBytes(e)
  {
    assert [a, b, c, d, e][..4] == [a, b, c, d];
    assert [a, b, c, d][..3] == [a, b, c];
    ConcatThree(a, b, c);
  }

  /** The bodyParts list together with the boundary that addField and addFile close over. */
  class BodyParts {
    const boundary: string
    var pieces: seq<Piece>

    constructor (boundary: string)
      ensures this.boundary == boundary && pieces == []
    {
      this.boundary := boundary;
      pieces := [];
    }

    /** addField: a text field whose value is followed by CRLF. */
    method AddField(name: string, value: string)
      modifies this
      ensures pieces == old(pieces) + [Text(Delimiter(boundary)),
                                        Text(Disposition(name, None) + "\r\n\r\n"),
                                        Text(value + "\r\n")]
      ensures Concat(pieces) == old(Concat(pieces)) + EncodePart(boundary, FieldPart(name, value))
    {
      var d := Text(Delimiter(boundary));
      var h := Text(Disposition(name, None) + "\r\n\r\n");
      var v := Text(value + "\r\n");
      ghost var p0 := pieces;
      pieces := pieces + [d];
      pieces := pieces + [h];
      pieces := pieces + [v];
      assert pieces == p0 + [d, h, v];
      ConcatAppend(p0, [d, h, v]);
      ConcatThree(d, h, v);
      EncodeAppend(value, "\r\n");
      Assoc3(PieceBytes(d) + PieceBytes(h), Encode(value), Encode("\r\n"));
      FieldPartPieces(boundary, name, value);
    }

    /** addFile: a file part with a filename, a Content-Type header and the raw bytes. */
    method AddFile(name: string, filename: string, contentType: string, buffer: seq<byte>)
      modifies this
      ensures pieces == old(pieces) + [Text(Delimiter(boundary)),
                                        Text(Disposition(name, Some(filename)) + "\r\n"),
                                        Text("Content-Type: " + contentType + "\r\n\r\n"),
                                        Bytes(buffer),
                                        Text("\r\n")]
      ensures Concat(pieces) == old(Concat(pieces)) + EncodePart(boundary, FilePart(name, filename, contentType, buffer))
    {
      var d := Text(Delimiter(boundary));
      var h1 := Text(Disposition(name, Some(filename)) + "\r\n");
      var h2 := Text("Content-Type: " + contentType + "\r\n\r\n");
      var f := Bytes(buffer);
      var e := Text("\r\n");
      ghost var p0 := pieces;
      pieces := pieces + [d];
      pieces := pieces + [h1];
      pieces := pieces + [h2];
      pieces := pieces + [f];
      pieces := pieces + [e];
      assert pieces == p0 + [d, h1, h2, f, e];
      ConcatAppend(p0, [d, h1, h2, f, e]);
      ConcatFive(d, h1, h2, f, e);
      FilePartPieces(boundary, name, filename, contentType, buffer);
    }

    /** The close delimiter pushed after the last part. */
    method Close()
      modifies this
      ensures pieces == old(pieces) + [Text(CloseDelimiter(boundary))]
      ensures Concat(pieces) == old(Concat(pieces)) + Encode(CloseDelimiter(boundary))
    {
      ConcatPush(pieces, Text(CloseDelimiter(boundary)));
      pieces := pieces + [Text(CloseDelimiter(boundary))];
    }

    /** Buffer.concat over the pieces, each string converted to UTF-8 bytes. */
    method ToBuffer() returns (body: seq<byte>)
      ensures body == Concat(pieces)
    {
      body := [];
      var i := 0;
      while i < |pieces|
        invariant 0 <= i <= |pieces|
        invariant body == Concat(pieces[..i])
      {
        assert pieces[..i + 1] == pieces[..i] + [pieces[i]];
        ConcatPush(pieces[..i], pieces[i]);
        body := body + PieceBytes(pieces[i]);
        i := i + 1;
      }
      assert pieces[..i] == pieces;
    }
  }

  // ---------------------------------------------------------------------
  // The transcription request body
  // ---------------------------------------------------------------------

  const TranscriptionModel := "gpt-4o-transcribe"
  const AudioFilename := "audio.webm"
  const DefaultContentType := "audio/webm"

  /** `mimeType || "audio/webm"`: an absent or empty MIME type falls back to audio/webm. */
  function FileContentType(mimeType: Option<string>): (ct: string)
    ensures ct != ""
    ensures mimeType.Some? && mimeType.value != "" ==> ct == mimeType.value
    ensures mimeType.None? || mimeType.value == "" ==> ct == DefaultContentType
  {
    if mimeType.Some? && mimeType.value != "" then mimeType.value else DefaultContentType
  }

  /** The two parts the source sends, in order: the model field, then the audio file. */
  function TranscriptionParts(mimeType: Option<string>, audio: seq<byte>): seq<Part> {
    [FieldPart("model", TranscriptionModel),
     FilePart("file", AudioFilename, FileContentType(mimeType), audio)]
  }

  function TranscriptionBody(boundary: string, mimeType: Option<string>, audio: seq<byte>): seq<byte> {
    Body(boundary, TranscriptionParts(mimeType, audio))
  }

  lemma BodyOfTwoParts(boundary: string, p: Part, q: Part)
    ensures Body(boundary, [p, q])
         == EncodePart(boundary, p) + EncodePart(boundary, q) + Encode(CloseDelimiter(boundary))
  {
    assert [p, q][1..] == [q];
    assert [q][1..] == [];
    assert EncodeParts(boundary, [q]) == EncodePart(boundary, q) + [];
  }

  /** The body as transcribeWithOpenAI assembles it, proved equal to the reference encoding. */
  method BuildTranscriptionBody(boundary: string, mimeType: Option<string>, audio: seq<byte>)
    returns (body: seq<byte>)
    ensures body == TranscriptionBody(boundary, mimeType, audio)
  {
    var parts := new BodyParts(boundary);
    parts.AddField("model", TranscriptionModel);
    parts.AddFile("file", AudioFilename, FileContentType(mimeType), audio);
    parts.Close();
    body := parts.ToBuffer();
    ghost var ps := TranscriptionParts(mimeType, audio);
    BodyOfTwoParts(boundary, ps[0], ps[1]);
    assert [] + EncodePart(boundary, ps[0]) == EncodePart(boundary, ps[0]);
  }

  /** The whole model field part as text. */
  function ModelFieldText(boundary: string): string {
    Delimiter(boundary) + HeaderBlock([Disposition("model", None)]) + TranscriptionModel + "\r\n"
  }

  /** The file part's delimiter and headers, up to the blank line before the audio. */
  function FileHeadText(boundary: string, contentType: string): string {
    Delimiter(boundary) + HeaderBlock([Disposition("file", Some(AudioFilename)), "Content-Type: " + contentType])
  }

  /** Everything in the body before the audio bytes. */
  function FilePrefix(boundary: string, contentType: string): string {
    ModelFieldText(boundary) + FileHeadText(boundary, contentType)
  }

  /** Everything in the body after the audio bytes. */
  function FileSuffix(boundary: string): string {
    "\r\n" + CloseDelimiter(boundary)
  }

  /** The body regrouped around the audio bytes. */
  lemma AroundAudio(f: seq<byte>, h: seq<byte>, a: seq<byte>, e: seq<byte>, c: seq<byte>)
    ensures f + (h + a + e) + c == (f + h) + a + (e + c)
  {
  }

  /** The model field part is the UTF-8 encoding of one string. */
  lemma ModelPartText(boundary: string)
    ensures EncodePart(boundary, FieldPart("model", TranscriptionModel)) == Encode(ModelFieldText(boundary))
  {
    var head := Delimiter(boundary) + HeaderBlock([Disposition("model", None)]);
    EncodeAppend(head, TranscriptionModel);
    EncodeAppend(head + TranscriptionModel, "\r\n");
  }

  /** The two-part body as encoded strings around the audio bytes. */
  lemma TwoPartText(boundary: string, contentType: string, audio: seq<byte>)
    ensures Body(boundary, [FieldPart("model", TranscriptionModel), FilePart("file", AudioFilename, contentType, audio)])
         == Encode(ModelFieldText(boundary))
            + (Encode(FileHeadText(boundary, contentType)) + audio + Encode("\r\n"))
            + Encode(CloseDelimiter(boundary))
  {
    BodyOfTwoParts(boundary, FieldPart("model", TranscriptionModel), FilePart("file", AudioFilename, contentType, audio));
    ModelPartText(boundary);
  }

  /**
   * Layout of the transcription body: a prefix that does not depend on the
   * audio, the audio bytes verbatim and contiguous, then the CRLF and the
   * close delimiter.
   */
  lemma TranscriptionBodyLayout(boundary: string, mimeType: Option<string>, audio: seq<byte>)
    ensures TranscriptionBody(boundary, mimeType, audio)
         == Encode(FilePrefix(boundary, FileContentType(mimeType))) + audio + Encode(FileSuffix(boundary))
  {
    var ct := FileContentType(mimeType);
    TwoPartText(boundary, ct, audio);
    EncodeAppend(ModelFieldText(boundary), FileHeadText(boundary, ct));
    EncodeAppend("\r\n", CloseDelimiter(boundary));
    AroundAudio(Encode(ModelFieldText(boundary)), Encode(FileHeadText(boundary, ct)), audio,
             Encode("\r\n"), Encode(CloseDelimiter(boundary)));
  }

  /** Cuts the audio back out of a transcription body by its known prefix and suffix. */
  function AudioOf(body: seq<byte>, boundary: string, contentType: string): Option<seq<byte>> {
    var prefix := Encode(FilePrefix(boundary, contentType));
    var suffix := Encode(FileSuffix(boundary));
    if |prefix| + |suffix| <= |body| && body[..|prefix|] == prefix && body[|body| - |suffix|..] == suffix
    then Some(body[|prefix|..|body| - |suffix|])
    else None
  }

  lemma SliceMiddle(p: seq<byte>, a: seq<byte>, q: seq<byte>)
    ensures |p| + |q| <= |p + a + q|
    ensures (p + a + q)[..|p|] == p
    ensures (p + a + q)[|p + a + q| - |q|..] == q
    ensures (p + a + q)[|p|..|p + a + q| - |q|] == a
  {
  }

  /** The audio bytes survive the encoding unchanged. */
  lemma AudioRoundTrip(boundary: string, mimeType: Option<string>, audio: seq<byte>)
    ensures AudioOf(TranscriptionBody(boundary, mimeType, audio), boundary, FileContentType(mimeType)) == Some(audio)
  {
    TranscriptionBodyLayout(boundary, mimeType, audio);
    SliceMiddle(Encode(FilePrefix(boundary, FileContentType(mimeType))), audio, Encode(FileSuffix(boundary)));
  }

  lemma FramingLengths(boundary: string, contentType: string)
    ensures |FilePrefix(boundary, contentType)| == 161 + 2 * |boundary| + |contentType|
    ensures |FileSuffix(boundary)| == 8 + |boundary|
  {
    HeaderBlockOne(Disposition("model", None));
    HeaderBlockTwo(Disposition("file", Some(AudioFilename)), "Content-Type: " + contentType);
  }

  lemma DelimitersAscii(boundary: string)
    requires IsAscii(boundary)
    ensures IsAscii(Delimiter(boundary)) && IsAscii(FileSuffix(boundary))
  {
  }

  /** A disposition header built from ASCII names is ASCII. */
  lemma DispositionAscii(name: string, filename: Option<string>)
    requires IsAscii(name)
    requires filename.Some? ==> IsAscii(filename.value)
    ensures IsAscii(Disposition(name, filename))
  {
    var lead := "Content-Disposition: form-data; name=\"";
    AsciiAppend(lead, name);
    AsciiAppend(lead + name, "\"");
    if filename.Some? {
      AsciiAppend("; filename=\"", filename.value);
      AsciiAppend("; filename=\"" + filename.value, "\"");
      AsciiAppend(lead + name + "\"", "; filename=\"" + filename.value + "\"");
    } else {
      AsciiAppend(lead + name + "\"", "");
    }
  }

  lemma FieldHeadersAscii(boundary: string)
    requires IsAscii(boundary)
    ensures IsAscii(ModelFieldText(boundary))
  {
    var d := Delimiter(boundary);
    var h := Disposition("model", None);
    var block := HeaderBlock([h]);
    HeaderBlockOne(h);
    DispositionAscii("model", None);
    DelimitersAscii(boundary);
    AsciiAppend(h, "\r\n\r\n");
    AsciiAppend(d, block);
    AsciiAppend(d + block, TranscriptionModel);
    AsciiAppend(d + block + TranscriptionModel, "\r\n");
  }

  lemma FileHeadersAscii(boundary: string, contentType: string)
    requires IsAscii(boundary) && IsAscii(contentType)
    ensures IsAscii(FileHeadText(boundary, contentType))
  {
    var h1 := Disposition("file", Some(AudioFilename));
    var h2 := "Content-Type: " + contentType;
    HeaderBlockTwo(h1, h2);
    DispositionAscii("file", Some(AudioFilename));
    DelimitersAscii(boundary);
    AsciiAppend(h1, "\r\n");
    AsciiAppend("Content-Type: ", contentType);
    AsciiAppend(h2, "\r\n\r\n");
    AsciiAppend(h1 + "\r\n", h2 + "\r\n\r\n");
    AsciiAppend(Delimiter(boundary), HeaderBlock([h1, h2]));
  }

  lemma FramingAscii(boundary: string, contentType: string)
    requires IsAscii(boundary) && IsAscii(contentType)
    ensures IsAscii(FilePrefix(boundary, contentType)) && IsAscii(FileSuffix(boundary))
  {
    DelimitersAscii(boundary);
    FieldHeadersAscii(boundary);
    FileHeadersAscii(boundary, contentType);
    AsciiAppend(ModelFieldText(boundary), FileHeadText(boundary, contentType));
  }

  /**
   * With an ASCII boundary and content type, the framing adds exactly 169
   * bytes plus three copies of the boundary to the content type and audio.
   */
  lemma TranscriptionBodyLength(boundary: string, mimeType: Option<string>, audio: seq<byte>)
    requires IsAscii(boundary) && IsAscii(FileContentType(mimeType))
    ensures |TranscriptionBody(boundary, mimeType, audio)|
         == 169 + 3 * |boundary| + |FileContentType(mimeType)| + |audio|
  {
    var ct := FileContentType(mimeType);
    TranscriptionBodyLayout(boundary, mimeType, audio);
    FramingLengths(boundary, ct);
    FramingAscii(boundary, ct);
    EncodeAscii(FilePrefix(boundary, ct));
    EncodeAscii(FileSuffix(boundary));
  }
}
