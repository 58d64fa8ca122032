/**
  The image normaliser of `generateImage`: the MIME type is sniffed from the leading
  bytes of the Clipdrop reply (`FF D8 FF`: the JPEG start-of-image marker `FF D8` of
  Annex B of ITU-T T.81 followed by the first byte of the next marker; `89 50 4E 47`:
  the first four of the eight bytes of the PNG signature, section 5.2 of the PNG
  specification), and the buffer is wrapped in a `data:` URI (RFC 2397) whose payload is base64.
  `ParseDataUri` is the reading side of RFC 2397 for the `;base64` form, the partner
  against which the builder is proved.
*/
module ImageFormat {
  import opened Outcomes
  import opened Base64

  const Jpeg := "image/jpeg"
  const Png := "image/png"

  const JpegMarker: seq<Byte> := [0xFF, 0xD8, 0xFF]
  /** The first four bytes of the PNG signature; `generateImage` compares only these. */
  const PngSignature: seq<Byte> := [0x89, 0x50, 0x4E, 0x47]

  /** `buffer[i]` in JavaScript: `undefined` past the end, which equals no byte value. */
  function ByteAt(buf: seq<Byte>, i: nat): Option<Byte>
  {
    if i < |buf| then Some(buf[i]) else None
  }

  /**
    The magic-number classifier: JPEG exactly when the first three bytes are `FF D8 FF`
    (start-of-image and the next marker's prefix), PNG otherwise -- for a buffer opening
    with the PNG signature, for any other content and for buffers too short to hold
    either prefix.
  */
  function DetectMime(buf: seq<Byte>): (mime: string)
    ensures mime == Jpeg || mime == Png
    ensures mime == Jpeg <==> |buf| >= 3 && buf[..3] == JpegMarker
    ensures |buf| >= 4 && buf[..4] == PngSignature ==> mime == Png
    ensures |buf| < 3 ==> mime == Png
  {
    if ByteAt(buf, 0) == Some(0xFF) && ByteAt(buf, 1) == Some(0xD8) && ByteAt(buf, 2) == Some(0xFF) then
      Jpeg
    else if ByteAt(buf, 0) == Some(0x89) && ByteAt(buf, 1) == Some(0x50)
         && ByteAt(buf, 2) == Some(0x4E) && ByteAt(buf, 3) == Some(0x47) then
      Png
    else
      Png
  }

  const Scheme := "data:"
  const Base64Tag := ";base64"

  /** `data:<mime>;base64,<payload>`, the string handed to the asset host's upload. */
  function DataUri(mime: string, buf: seq<Byte>): (u: string)
    ensures |u| == |Scheme| + |mime| + |Base64Tag| + 1 + 4 * ((|buf| + 2) / 3)
    ensures u[..|Scheme|] == Scheme && u[|Scheme|..|Scheme| + |mime|] == mime
    ensures ',' !in mime ==> ',' !in u[..|Scheme| + |mime| + |Base64Tag|]
  {
    Scheme + mime + Base64Tag + "," + Encode(buf)
  }

  /** Position of the first comma, or the length when there is none. */
  function FirstComma(u: string): (k: nat)
    ensures k <= |u|
    ensures k < |u| ==> u[k] == ','
    ensures forall i :: 0 <= i < k ==> u[i] != ','
  {
    if u == [] || u[0] == ',' then 0 else 1 + FirstComma(u[1..])
  }

  /**
    Reads a `;base64` data URI back into its media type and bytes: the header runs up
    to the first comma and must be `data:` <mime> `;base64`; the rest must be base64.
  */
  function ParseDataUri(u: string): Option<(string, seq<Byte>)>
  {
    var k := FirstComma(u);
    if k == |u| then None
    else
      var header := u[..k];
      if |header| >= |Scheme| + |Base64Tag| && header[..|Scheme|] == Scheme
         && header[|header| - |Base64Tag|..] == Base64Tag then
        match Decode(u[k + 1..])
        case None => None
        case Some(bs) => Some((header[|Scheme|..|header| - |Base64Tag|], bs))
      else None
  }

  lemma {:induction false} FirstCommaAfter(p: string, rest: string)
    requires ',' !in p
    ensures FirstComma(p + "," + rest) == |p|
    decreases |p|
  {
    if p != [] {
      assert (p + "," + rest)[1..] == p[1..] + "," + rest;
      FirstCommaAfter(p[1..], rest);
    }
  }

  /** The builder's round trip: the URI names the given media type and its payload decodes to the original bytes. */
  lemma ParseDataUriOfDataUri(mime: string, buf: seq<Byte>)
    requires ',' !in mime
    ensures ParseDataUri(DataUri(mime, buf)) == Some((mime, buf))
  {
    var header := Scheme + mime + Base64Tag;
    var u := DataUri(mime, buf);
    assert u == header + "," + Encode(buf);
    FirstCommaAfter(header, Encode(buf));
    assert u[..|header|] == header;
    assert u[|header| + 1..] == Encode(buf);
    assert header[..|Scheme|] == Scheme;
    assert header[|header| - |Base64Tag|..] == Base64Tag;
    assert header[|Scheme|..|header| - |Base64Tag|] == mime;
    DecodeEncode(buf);
  }

  lemma Bracketed(h: string, a: string, b: string)
    requires |h| >= |a| + |b| && h[..|a|] == a && h[|h| - |b|..] == b
    ensures h == a + h[|a|..|h| - |b|] + b
  {
    assert h == h[..|a|] + h[|a|..|h| - |b|] + h[|h| - |b|..];
  }

  /** The converse: every URI the reader accepts is exactly what the builder makes of its parts. */
  lemma DataUriOfParseDataUri(u: string)
    requires ParseDataUri(u).Some?
    ensures DataUri(ParseDataUri(u).value.0, ParseDataUri(u).value.1) == u
  {
    var k := FirstComma(u);
    var header, payload := u[..k], u[k + 1..];
    var mime := header[|Scheme|..|header| - |Base64Tag|];
    Bracketed(header, Scheme, Base64Tag);
    EncodeDecode(payload);
    assert u == header + "," + payload;
  }

  /** What `generateImage` uploads carries the detected type and decodes back to the Clipdrop bytes. */
  lemma UploadedImageRoundTrip(buf: seq<Byte>)
    ensures ParseDataUri(DataUri(DetectMime(buf), buf)) == Some((DetectMime(buf), buf))
  {
    assert ',' !in Jpeg && ',' !in Png;
    ParseDataUriOfDataUri(DetectMime(buf), buf);
  }
}
