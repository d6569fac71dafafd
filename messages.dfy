/** Values that cross the client's boundary: bytes, header entries, the
    HTTP/1.1-shaped request and response messages, and the decimal text that
    an integer header value (Content-Length) becomes when it is added. */
module HttpMessages {

  newtype byte = x: int | 0 <= x < 256

  datatype Option<+T> = None | Some(value: T)

  /** A call that either returns a value or throws `error`. */
  datatype Result<+T, +E> = Success(value: T) | Failure(error: E)

  /** A call that returns nothing or throws `error`. */
  datatype Outcome<+E> = Pass | Fail(error: E)

  /** One header entry, in the order it was added. */
  datatype Header = Header(name: string, value: string)

  /** The protocol-version text of an HTTP/1.1 message. */
  const HTTP_1_1_TEXT: string := "HTTP/1.1"

  /** A request with its whole body (Netty's DefaultFullHttpRequest). */
  datatype FullHttpRequest = FullHttpRequest(
    protocolVersion: string,
    httpMethod: string,
    uri: string,
    headers: seq<Header>,
    content: seq<byte>)

  /** A response with its whole body (Netty's FullHttpResponse). */
  datatype FullHttpResponse = FullHttpResponse(
    protocolVersion: string,
    status: int,
    headers: seq<Header>,
    content: seq<byte>)

  predicate IsDigit(c: char) {
    '0' as int <= c as int <= '9' as int
  }

  function DigitValue(c: char): (d: nat)
    requires IsDigit(c)
    ensures d < 10
  {
    c as int - '0' as int
  }

  function DigitChar(d: nat): (c: char)
    requires d < 10
    ensures IsDigit(c) && DigitValue(c) == d
  {
    (d + '0' as int) as char
  }

  /** The decimal text of `n`, as an integer header value is rendered:
      digits only, never empty, and no leading zero unless `n` is zero. */
  function DecimalString(n: nat): (s: string)
    ensures |s| >= 1
    ensures forall i :: 0 <= i < |s| ==> IsDigit(s[i])
    ensures s[0] == '0' <==> n == 0
    ensures n < 10 <==> |s| == 1
  {
    if n < 10 then [DigitChar(n)] else DecimalString(n / 10) + [DigitChar(n % 10)]
  }

  /** How a reader of the header takes decimal text back to a number. */
  function ParseDecimal(s: string): nat
    requires forall i :: 0 <= i < |s| ==> IsDigit(s[i])
  {
    if s == [] then 0
    else ParseDecimal(s[..|s| - 1]) * 10 + DigitValue(s[|s| - 1])
  }

  /** Reading a rendered length gives the length back. */
  lemma {:induction false} DecimalRoundTrip(n: nat)
    ensures ParseDecimal(DecimalString(n)) == n
  {
    var s := DecimalString(n);
    if n < 10 {
      assert s[..|s| - 1] == [];
    } else {
      assert s[..|s| - 1] == DecimalString(n / 10);
      DecimalRoundTrip(n / 10);
    }
  }

  /** Distinct lengths render to distinct texts. */
  lemma DecimalStringInjective(m: nat, n: nat)
    requires DecimalString(m) == DecimalString(n)
    ensures m == n
  {
    DecimalRoundTrip(m);
    DecimalRoundTrip(n);
  }

  // ---------------------------------------------------------------------
  // Header lookup (HttpHeaders.get / getAll)
  // ---------------------------------------------------------------------

  function LowerAscii(c: char): char {
    if 'A' <= c <= 'Z' then (c as int + 32) as char else c
  }

  /** Header names compare without regard to ASCII case. */
  predicate SameName(a: string, b: string) {
    |a| == |b| && forall i :: 0 <= i < |a| ==> LowerAscii(a[i]) == LowerAscii(b[i])
  }

  /** Every value stored under `name`, in the order the entries were added. */
  function GetAll(headers: seq<Header>, name: string): seq<string> {
    if headers == [] then []
    else (if SameName(headers[0].name, name) then [headers[0].value] else []) + GetAll(headers[1..], name)
  }

  /** The first value stored under `name`, if any. */
  function Get(headers: seq<Header>, name: string): Option<string> {
    if headers == [] then None
    else if SameName(headers[0].name, name) then Some(headers[0].value)
    else Get(headers[1..], name)
  }

  lemma {:induction false} GetAllAppend(a: seq<Header>, b: seq<Header>, name: string)
    ensures GetAll(a + b, name) == GetAll(a, name) + GetAll(b, name)
  {
    if a == [] {
      assert a + b == b;
    } else {
      assert (a + b)[1..] == a[1..] + b;
      GetAllAppend(a[1..], b, name);
    }
  }

  lemma GetAllSingle(h: Header, name: string)
    ensures GetAll([h], name) == if SameName(h.name, name) then [h.value] else []
  {
    assert [h][1..] == [];
  }

  /** `get` answers the first of what `getAll` lists. */
  lemma {:induction false} GetIsFirstOfGetAll(headers: seq<Header>, name: string)
    ensures Get(headers, name) == if GetAll(headers, name) == [] then None else Some(GetAll(headers, name)[0])
  {
    if headers != [] && !SameName(headers[0].name, name) {
      GetIsFirstOfGetAll(headers[1..], name);
    }
  }
}
