/**
 * The data-plane hook, `SaseHandler::handle_request`, as a function of the
 * policy it runs under: one intercepted request gives the new policy, the
 * outcome handed back to the proxy, and the one log entry it publishes.
 */
module Handler {
  import opened Wrappers
  import opened Matching
  import opened Records

  datatype Handled = Handled(config: AppConfig, outcome: Outcome, entry: LogEntry)

  /** The host the handler classifies is blocked under `conf`. */
  ghost predicate HostBlocked(conf: AppConfig, req: Request)
  {
    exists d :: d in conf.blockedDomains && Contains(HostOf(req), d)
  }

  /**
   * One request from client address `srcIp`, at wall-clock `timestamp`.
   * The counter moves only on a block, the blocklist never; the log entry
   * copies the request's fields and records the decision.
   */
  function Handle(conf: AppConfig, srcIp: string, timestamp: string, req: Request): (h: Handled)
    ensures h.entry.action == Block <==> HostBlocked(conf, req)
    ensures HostBlocked(conf, req) ==>
              && h.outcome == Respond(BlockedResponse)
              && h.config == conf.(statsBlockedToday := Increment(conf.statsBlockedToday))
    ensures !HostBlocked(conf, req) ==> h.outcome == Forward(req) && h.config == conf
    ensures h.config.blockedDomains == conf.blockedDomains
    ensures req.uriHost.Some? ==> h.entry.domain == req.uriHost.value
    ensures req.uriHost.None? ==> h.entry.domain == "unknown"
    ensures && h.entry.timestamp == timestamp && h.entry.srcIp == srcIp
            && h.entry.httpMethod == req.httpMethod && h.entry.urlPath == req.uriPath
            && h.entry.userAgent == UserAgentOf(req)
  {
    var host := HostOf(req);
    var decision := Classify(conf.blockedDomains, host);
    var entry := LogEntry(timestamp, srcIp, host, decision, req.httpMethod, req.uriPath, UserAgentOf(req));
    if decision == Block then
      Handled(conf.(statsBlockedToday := Increment(conf.statsBlockedToday)), Respond(BlockedResponse), entry)
    else
      Handled(conf, Forward(req), entry)
  }

  /** A request with no User-Agent header, or one whose value is not text, is logged without one. */
  lemma UserAgentAbsentOrNotText(conf: AppConfig, srcIp: string, timestamp: string, req: Request)
    requires req.userAgentHeader.None?
             || exists i :: 0 <= i < |req.userAgentHeader.value| && !IsVisibleAscii(req.userAgentHeader.value[i])
    ensures Handle(conf, srcIp, timestamp, req).entry.userAgent.None?
  {
  }

  /** A text User-Agent header, empty or with tabs included, is logged character for character. */
  lemma UserAgentTextCopied(conf: AppConfig, srcIp: string, timestamp: string, req: Request, ua: string)
    requires forall i :: 0 <= i < |ua| ==> 32 <= ua[i] as int < 127 || ua[i] == '\t'
    requires req.userAgentHeader == Some(seq(|ua|, i requires 0 <= i < |ua| => ua[i] as int as byte))
    ensures Handle(conf, srcIp, timestamp, req).entry.userAgent == Some(ua)
  {
    var raw := req.userAgentHeader.value;
    assert forall i :: 0 <= i < |raw| ==> IsVisibleAscii(raw[i]);
    var text := HeaderText(raw).value;
    assert |text| == |ua|;
    forall i | 0 <= i < |ua| ensures text[i] == ua[i] {
      assert text[i] as int == raw[i] as int == ua[i] as int;
    }
    assert text == ua;
  }

  /** Requests with no URI host are classified as the host `"unknown"`. */
  lemma MissingHostClassifiedAsUnknown(conf: AppConfig, srcIp: string, timestamp: string, req: Request)
    requires req.uriHost.None?
    ensures var h := Handle(conf, srcIp, timestamp, req);
            h.entry.domain == "unknown"
            && (h.entry.action == Block <==> exists d :: d in conf.blockedDomains && Contains("unknown", d))
  {
  }

  /** Under the start-up blocklist `www.tiktok.com` is answered with the 403 and counted. */
  lemma DefaultBlocklistBlocksTiktok(conf: AppConfig, srcIp: string, timestamp: string, req: Request)
    requires conf.blockedDomains == ["tiktok.com"]
    requires req.uriHost == Some("www.tiktok.com")
    ensures var h := Handle(conf, srcIp, timestamp, req);
            && h.entry.action.Label() == "BLOCK"
            && h.outcome == Respond(Response(403, "Blocked by SASE Pro"))
            && h.config == conf.(statsBlockedToday := Increment(conf.statsBlockedToday))
  {
    var host := "www.tiktok.com";
    assert host[4..14] == "tiktok.com";
    assert OccursAt(host, "tiktok.com", 4);
    ContainsIff(host, "tiktok.com");
    assert "tiktok.com" in conf.blockedDomains;
  }

  /** Under the start-up blocklist `example.com` is forwarded untouched and not counted. */
  lemma DefaultBlocklistAllowsExample(conf: AppConfig, srcIp: string, timestamp: string, req: Request)
    requires conf.blockedDomains == ["tiktok.com"]
    requires req.uriHost == Some("example.com")
    ensures var h := Handle(conf, srcIp, timestamp, req);
            && h.entry.action.Label() == "ALLOW"
            && h.outcome == Forward(req)
            && h.config == conf
  {
    var host := "example.com";
    forall i | 0 <= i && i + 10 <= |host| ensures !OccursAt(host, "tiktok.com", i) {
      assert host[i..i + 10][0] == host[i] != 't';
    }
    ContainsIff(host, "tiktok.com");
    assert forall d :: d in conf.blockedDomains ==> d == "tiktok.com";
  }

  /** Under the start-up policy a request without a host is forwarded. */
  lemma DefaultPolicyAllowsUnknown(srcIp: string, timestamp: string, req: Request)
    requires req.uriHost.None?
    ensures Handle(DefaultConfig, srcIp, timestamp, req).outcome == Forward(req)
  {
    LongerDomainNeverMatches(DefaultConfig.blockedDomains, "unknown");
  }
}
