/**
 * The records the proxy works with: the policy document (`AppConfig`), the
 * audit record (`LogEntry`), the intercepted request as far as the handler
 * looks at it, and the two outcomes the handler hands back to the proxy.
 */
module Records {
  import opened Wrappers
  import opened Matching

  /** Rust's `u8`. */
  newtype byte = x: int | 0 <= x < 0x100

  const U64_MODULUS: int := 0x1_0000_0000_0000_0000

  /** Rust's `u64`, the type of the blocked-request counter. */
  newtype u64 = x: int | 0 <= x < U64_MODULUS

  /**
   * `stats_blocked_today += 1` as an optimised build runs it: the addition
   * wraps around at 2^64.
   */
  function Increment(c: u64): (r: u64)
    ensures c as int + 1 < U64_MODULUS ==> r as int == c as int + 1
    ensures c as int + 1 == U64_MODULUS ==> r == 0
  {
    if c as int == U64_MODULUS - 1 then 0 else c + 1
  }

  /** The counter after `n` increments. */
  function IncrementBy(c: u64, n: nat): (r: u64)
    decreases n
  {
    if n == 0 then c else IncrementBy(Increment(c), n - 1)
  }

  /** `n` increments that stay below 2^64 add exactly `n`. */
  lemma {:induction false} IncrementByAddsExactly(c: u64, n: nat)
    requires c as int + n < U64_MODULUS
    ensures IncrementBy(c, n) as int == c as int + n
    decreases n
  {
    if n > 0 {
      IncrementByAddsExactly(Increment(c), n - 1);
    }
  }

  /** In general `n` increments add `n` modulo 2^64. */
  lemma {:induction false} IncrementByWraps(c: u64, n: nat)
    ensures IncrementBy(c, n) as int == (c as int + n) % U64_MODULUS
    decreases n
  {
    if n == 0 {
      assert c as int % U64_MODULUS == c as int;
    } else {
      var c' := Increment(c);
      IncrementByWraps(c', n - 1);
      if c as int + 1 == U64_MODULUS {
        assert c as int + n == (n - 1) + U64_MODULUS;
        assert (c' as int + (n - 1)) % U64_MODULUS == (c as int + n) % U64_MODULUS;
      }
    }
  }

  /** The whole policy document: the blocklist and the blocked-request counter. */
  datatype AppConfig = AppConfig(blockedDomains: seq<string>, statsBlockedToday: u64)

  /** The policy the process starts with. */
  const DefaultConfig: AppConfig := AppConfig(["tiktok.com"], 0)

  /**
   * The audit record built once for every intercepted request. `action` is
   * written out as `Label()` of the decision, `"BLOCK"` or `"ALLOW"`.
   */
  datatype LogEntry = LogEntry(
    timestamp: string,
    srcIp: string,
    domain: string,
    action: Decision,
    httpMethod: string,
    urlPath: string,
    userAgent: Option<string>)

  /**
   * An intercepted request, as far as the handler reads it: the host of its
   * URI (absent for a URI without an authority), its method, the path of its
   * URI, the raw bytes of its first User-Agent header if there is one, and
   * everything else it carries (headers, body), which the handler never looks at.
   */
  datatype Request = Request(
    uriHost: Option<string>,
    httpMethod: string,
    uriPath: string,
    userAgentHeader: Option<seq<byte>>,
    rest: seq<byte>)

  /** A response made by the proxy itself. */
  datatype Response = Response(status: nat, body: string)

  /** What the handler returns: forward a request upstream, or answer it directly. */
  datatype Outcome = Forward(request: Request) | Respond(response: Response)

  /** The fixed answer to a blocked request. */
  const BlockedResponse: Response := Response(403, "Blocked by SASE Pro")

  /** The host used for classification and logging; `"unknown"` when the URI has none. */
  function HostOf(req: Request): (h: string)
    ensures req.uriHost.Some? ==> h == req.uriHost.value
    ensures req.uriHost.None? ==> h == "unknown"
  {
    req.uriHost.UnwrapOr("unknown")
  }

  /** A header byte that may appear in a header value read as text: visible ASCII or a tab. */
  predicate IsVisibleAscii(b: byte)
  {
    (32 <= b < 127) || b == 9
  }

  /**
   * The header value read as text (`HeaderValue::to_str().ok()`): the bytes as
   * characters when every byte is visible ASCII or a tab, nothing otherwise.
   */
  function HeaderText(raw: seq<byte>): (r: Option<string>)
    ensures r.Some? <==> forall i :: 0 <= i < |raw| ==> IsVisibleAscii(raw[i])
    ensures r.Some? ==> |r.value| == |raw| && forall i :: 0 <= i < |raw| ==> r.value[i] as int == raw[i] as int
  {
    if forall i :: 0 <= i < |raw| ==> IsVisibleAscii(raw[i])
    then Some(seq(|raw|, i requires 0 <= i < |raw| => raw[i] as char))
    else None
  }

  /** The User-Agent recorded in the log: absent when the header is absent or not text. */
  function UserAgentOf(req: Request): (ua: Option<string>)
    ensures ua.Some? <==> req.userAgentHeader.Some?
                          && forall i :: 0 <= i < |req.userAgentHeader.value| ==> IsVisibleAscii(req.userAgentHeader.value[i])
    ensures ua.Some? ==> && |ua.value| == |req.userAgentHeader.value|
                         && forall i :: 0 <= i < |ua.value| ==> ua.value[i] as int == req.userAgentHeader.value[i] as int
  {
    match req.userAgentHeader
    case None => None
    case Some(raw) => HeaderText(raw)
  }
}
