/**
 * HTTP exchanges seen from the client: each request gets one reply, either a transport
 * failure (`send().await?` fails) or a response with a status, the status's reason phrase
 * as the HTTP library knows it, and a body.
 */
module Http {
  import opened Wrappers
  import opened Strings

  datatype HttpReply =
    | TransportError
    | Response(status: nat, reason: Option<string>, body: string)

  /** `StatusCode::is_success`: the 2xx range. */
  predicate IsSuccess(status: nat) {
    200 <= status <= 299
  }

  /** `Display` of a status code: the number, a space, and the reason or a placeholder. */
  function StatusDisplay(status: nat, reason: Option<string>): string {
    Decimal(status) + " " + reason.GetOr("<unknown status code>")
  }

  /** `HeaderValue::from_str`: visible ASCII, tab and bytes outside ASCII; no other control characters. */
  predicate HeaderValueValid(s: string) {
    forall i :: 0 <= i < |s| ==> (s[i] == '\t' || (' ' <= s[i] && s[i] as int != 127))
  }

  /** The reply at position `k` of a finite script of replies; past its end the network is gone. */
  function ReplyAt(replies: seq<HttpReply>, k: nat): HttpReply {
    if k < |replies| then replies[k] else TransportError
  }
}
