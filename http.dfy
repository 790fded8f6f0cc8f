/**
 * The slice of HTTP the handlers produce: a status code, an ordered list of
 * header fields and a body of bytes (status codes as in section 15 of
 * RFC 9110, header fields as in section 5 of RFC 9110).
 */
module Http {

  newtype byte = b: int | 0 <= b < 256

  /** The `http` crate only admits three-digit status codes. */
  type StatusCode = s: int | 100 <= s <= 999 witness 200

  const StatusOk: StatusCode := 200
  const SeeOther: StatusCode := 303
  const BadRequest: StatusCode := 400
  const Unauthorized: StatusCode := 401
  const InternalServerError: StatusCode := 500

  type HeaderField = (string, seq<byte>)

  /** A complete response: status line, header fields in iteration order, body bytes. */
  datatype Response = Response(status: StatusCode, headers: seq<HeaderField>, body: seq<byte>)

  /** UTF-8 encoding of one Unicode scalar value. */
  function CharToUtf8(c: char): seq<byte> {
    var n := c as int;
    if n < 0x80 then [n as byte]
    else if n < 0x800 then [(0xC0 + n / 0x40) as byte, (0x80 + n % 0x40) as byte]
    else if n < 0x1_0000 then
      [(0xE0 + n / 0x1000) as byte, (0x80 + (n / 0x40) % 0x40) as byte, (0x80 + n % 0x40) as byte]
    else
      [(0xF0 + n / 0x4_0000) as byte, (0x80 + (n / 0x1000) % 0x40) as byte,
       (0x80 + (n / 0x40) % 0x40) as byte, (0x80 + n % 0x40) as byte]
  }

  /** The bytes of a Rust `String`. */
  function Utf8(s: string): seq<byte> {
    Flatten(seq(|s|, i requires 0 <= i < |s| => CharToUtf8(s[i])))
  }

  /** The chunks laid end to end. */
  function Flatten(chunks: seq<seq<byte>>): seq<byte> {
    if chunks == [] then [] else chunks[0] + Flatten(chunks[1..])
  }

  /** `(status, message).into_response()`: a plain-text body with its content type. */
  function TextResponse(status: StatusCode, message: string): Response {
    Response(status, [("content-type", Utf8("text/plain; charset=utf-8"))], Utf8(message))
  }

  /** `StatusCode::OK.into_response()` and friends: a bare status, no headers, empty body. */
  function StatusOnly(status: StatusCode): Response {
    Response(status, [], [])
  }

  /** `Redirect::to(uri).into_response()`: 303 See Other with a `location` header. */
  function RedirectTo(uri: string): Response {
    Response(SeeOther, [("location", Utf8(uri))], [])
  }
}
