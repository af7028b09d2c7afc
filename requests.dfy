/**
  The replies of the upstream HTTP calls, as the `requests` library hands
  them to the core. The calls themselves are not modelled: a reply is an
  input.
*/
module Requests {
  import opened PyValues

  /** What `response.json()` yields: a parsed document, or the JSONDecodeError message. */
  datatype Body = Parsed(value: Json) | Unparsable(message: string)

  /** A completed HTTP exchange: status code, reason phrase and body. */
  datatype HttpReply = HttpReply(status: int, reason: string, body: Body)

  /** The outcome of `requests.get`: a reply, or the message of the exception it raised. */
  datatype Poll = Answered(reply: HttpReply) | TransportFailure(message: string)

  /** `response.raise_for_status()` raises exactly for client (4xx) and server (5xx) errors. */
  predicate RaisesForStatus(status: int) {
    400 <= status < 600
  }

  /** `response.ok`: true when `raise_for_status` would not raise. */
  predicate IsOk(status: int) {
    !RaisesForStatus(status)
  }

  /** The message of the HTTPError that `raise_for_status` raises. */
  function HttpErrorMessage(status: int, reason: string, url: string): (m: string)
    requires RaisesForStatus(status)
    ensures |m| >= 18 + |url| && m[..3] == Decimal(status)
    ensures m[3..18] == (if status < 500 then " Client Error: " else " Server Error: ")
    ensures m[|m| - |url|..] == url
  {
    var kind := if status < 500 then " Client Error: " else " Server Error: ";
    var digits := Decimal(status);
    DecimalLength(status);
    var m := digits + kind + reason + " for url: " + url;
    assert m == digits + (kind + (reason + " for url: " + url));
    assert m[..3] == digits && m[3..18] == kind;
    m
  }
}
