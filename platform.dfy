/** What the core takes from the JavaScript runtime without the model looking
    inside: `Buffer`'s base64 and UTF-8 conversions, `TextEncoder`, `Date`'s
    ISO rendering, and the outcome of a `fetch`. The conversions are the
    fields of a `Platform` value that every operation needing them receives;
    `Sound` states the few facts about them that the proofs use. */
module Platform {
  import opened JsText

  newtype byte = x: int | 0 <= x < 256

  datatype Platform = Platform(
    /** `Buffer.from(bytes).toString("base64")` */
    base64Encode: seq<byte> -> string,
    /** `Buffer.from(text, "base64")` */
    base64Decode: string -> seq<byte>,
    /** `Buffer.from(text)`, UTF-8 */
    utf8Encode: string -> seq<byte>,
    /** `buffer.toString("utf8")` */
    utf8Decode: seq<byte> -> string,
    /** `new Date(value).toISOString()` */
    toIsoString: string -> string)

  /** The base64 alphabet of RFC 4648, padding included. */
  predicate IsBase64Char(c: char) {
    ('A' <= c <= 'Z') || ('a' <= c <= 'z') || ('0' <= c <= '9') || c == '+' || c == '/' || c == '='
  }

  /** Base64 decoding undoes encoding, encodes non-empty input as non-empty
      text over its own alphabet; UTF-8 encoding has the width `TextEncoder`
      gives it and decoding undoes it. */
  ghost predicate Sound(p: Platform) {
    && (forall b :: p.base64Decode(p.base64Encode(b)) == b)
    && (forall b :: |b| > 0 ==> |p.base64Encode(b)| > 0)
    && (forall b, i :: 0 <= i < |p.base64Encode(b)| ==> IsBase64Char(p.base64Encode(b)[i]))
    && (forall s :: |p.utf8Encode(s)| == Utf8Length(s))
    && (forall s :: p.utf8Decode(p.utf8Encode(s)) == s)
  }

  /** What a `fetch` call settles to: a response with its HTTP status and
      the text of its body, or a rejected promise (transport failure,
      timeout). */
  datatype FetchOutcome = Responded(status: int, body: string) | Threw

  /** `response.ok`: a status in the range 200-299. */
  predicate IsOk(outcome: FetchOutcome)
    requires outcome.Responded?
  {
    200 <= outcome.status <= 299
  }
}
