/**
  What the adapter does with an HTTP response before reading it (`_raise_on_error` and its async
  twin `_araise_on_error`), and which failures the retry decorator retries.
 */
module Http {
  import opened Wrappers
  import opened Errors
  import opened Strings

  /** A response: its status code, the URL fetched and its body, decoded as UTF-8 text. */
  datatype Response = Response(status: int, url: string, body: string)

  /** `httpx.codes.is_error`: a client error (4xx) or a server error (5xx). */
  predicate IsError(status: int)
    ensures IsError(status) <==> status / 100 == 4 || status / 100 == 5
  {
    400 <= status <= 599
  }

  const MessageLead := "Error response "
  const MessageMiddle := " while fetching "
  const MessageColon := ": "

  /** The text of the raised `HTTPStatusError`: status, URL and body, in that order. */
  function StatusMessage(status: nat, url: string, body: string): (m: string)
    ensures MessageLead <= m
    ensures |body| <= |m| && m[|m| - |body|..] == body
  {
    CutFive(MessageLead, Decimal(status), MessageMiddle, url, MessageColon, body);
    MessageLead + Decimal(status) + MessageMiddle + url + MessageColon + body
  }

  /**
    `_raise_on_error`: the error an error response raises, carrying its status, its URL and a
    message that ends with the body; a response that is not an error raises nothing.
   */
  function RaiseOnError(resp: Response): (r: Option<Error>)
    ensures r.Some? <==> IsError(resp.status)
    ensures r.Some? ==> && r.value.HttpStatusError?
                        && r.value.status == resp.status
                        && r.value.url == resp.url
                        && MessageLead <= r.value.message
                        && |resp.body| <= |r.value.message|
                        && r.value.message[|r.value.message| - |resp.body|..] == resp.body
  {
    if IsError(resp.status) then
      var message := StatusMessage(resp.status, resp.url, resp.body);
      MessageLayout(resp.status, resp.url, resp.body);
      Some(HttpStatusError(resp.status, resp.url, message))
    else None
  }

  /** The lengths of the fixed parts of the message. */
  lemma MessagePieceLengths()
    ensures |MessageLead| == 15 && |MessageMiddle| == 16 && |MessageColon| == 2
  {
  }

  /** Five consecutive pieces of a string can be cut back out at their running offsets. */
  lemma CutFive(a: string, b: string, c: string, d: string, e: string, f: string)
    ensures var m := a + b + c + d + e + f;
            var i, j, k, l, n := |a|, |a| + |b|, |a| + |b| + |c|, |a| + |b| + |c| + |d|, |a| + |b| + |c| + |d| + |e|;
            && |m| == n + |f|
            && m[..i] == a && m[i..j] == b && m[j..k] == c && m[k..l] == d && m[l..n] == e && m[n..] == f
  {
  }

  /**
    The message reads back as its parts: for an error status its decimal digits take the three
    characters after the lead, the URL follows the middle text, and the body is what comes
    after the colon.
   */
  lemma MessageLayout(status: nat, url: string, body: string)
    requires IsError(status)
    ensures var m := StatusMessage(status, url, body);
            && |m| == 36 + |url| + |body|
            && m[..15] == MessageLead
            && m[15..18] == Decimal(status)
            && DecimalValue(m[15..18]) == status
            && m[18..34] == MessageMiddle
            && m[34..34 + |url|] == url
            && m[34 + |url|..36 + |url|] == MessageColon
            && m[36 + |url|..] == body
  {
    MessagePieceLengths();
    DecimalOfThreeDigits(status);
    DecimalRoundTrip(status);
    CutFive(MessageLead, Decimal(status), MessageMiddle, url, MessageColon, body);
  }

  /** Two error responses that raise the same error have the same status, URL and body. */
  lemma RaiseOnErrorInjective(r1: Response, r2: Response)
    requires RaiseOnError(r1).Some? && RaiseOnError(r1) == RaiseOnError(r2)
    ensures r1 == r2
  {
    MessageLayout(r1.status, r1.url, r1.body);
    MessageLayout(r2.status, r2.url, r2.body);
  }

  /**
    The exceptions the retry decorator retries: `httpx.RequestError` and `httpx.StreamError`,
    the transport failures, and nothing else.
   */
  function Retryable(e: Error): (r: bool)
    ensures r <==> e.Transport?
  {
    match e
    case Transport(kind) => kind == RequestError || kind == StreamError
    case _ => false
  }

  /** An error status is never retried: the error it raises is not a transport failure. */
  lemma StatusErrorsAreFinal(resp: Response)
    requires IsError(resp.status)
    ensures RaiseOnError(resp).Some? && !Retryable(RaiseOnError(resp).value)
  {
  }
}
