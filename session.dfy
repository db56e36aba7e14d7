/**
 * The process as one sequential policy store: every intercepted request and
 * every control-plane call on `/api/config` is an event, applied in the order
 * the store's lock admits them. `Replay` folds a run of events over a
 * starting policy and collects the replies and the published log entries.
 */
module Session {
  import opened Wrappers
  import opened Matching
  import opened Records
  import opened Handler

  datatype Event =
    | Intercept(srcIp: string, timestamp: string, request: Request)  // handle_request
    | PostPolicy(newConfig: AppConfig)                                // POST /api/config
    | GetPolicy                                                       // GET /api/config

  datatype Reply =
    | Proxied(outcome: Outcome)
    | Acknowledged(status: nat, message: string)
    | Snapshot(config: AppConfig)

  /** The reply to a policy replacement: `200 OK` with the JSON string `"Success"`. */
  const PolicyUpdated: Reply := Acknowledged(200, "Success")

  datatype Step = Step(config: AppConfig, reply: Reply, published: seq<LogEntry>)

  /** One event: a request runs the handler, a POST overwrites the whole document, a GET copies it. */
  function Apply(conf: AppConfig, e: Event): (s: Step)
    ensures |s.published| == if e.Intercept? then 1 else 0
  {
    match e
    case Intercept(ip, ts, req) =>
      var h := Handle(conf, ip, ts, req);
      Step(h.config, Proxied(h.outcome), [h.entry])
    case PostPolicy(c) => Step(c, PolicyUpdated, [])
    case GetPolicy => Step(conf, Snapshot(conf), [])
  }

  /** A run of one event is that event's step. */
  lemma ReplayOne(conf: AppConfig, e: Event)
    ensures var s := Apply(conf, e);
            var t := Replay(conf, [e]);
            t.config == s.config && t.replies == [s.reply] && t.published == s.published
  {
    assert [e][1..] == [];
  }

  /** Every event is an intercepted request: a run with no control-plane call in it. */
  predicate AllIntercepts(events: seq<Event>)
  {
    forall i :: 0 <= i < |events| ==> events[i].Intercept?
  }

  /** How many of the events are intercepted requests. */
  function Intercepts(events: seq<Event>): (n: nat)
    ensures n <= |events|
    ensures AllIntercepts(events) ==> n == |events|
  {
    if |events| == 0 then 0
    else
      assert AllIntercepts(events) ==> AllIntercepts(events[1..]) by {
        if AllIntercepts(events) {
          forall i | 0 <= i < |events[1..]| ensures events[1..][i].Intercept? {
            assert events[1..][i] == events[i + 1];
          }
        }
      }
      (if events[0].Intercept? then 1 else 0) + Intercepts(events[1..])
  }

  datatype Trace = Trace(config: AppConfig, replies: seq<Reply>, published: seq<LogEntry>)

  /** The policy after the events, one reply per event and one log entry per request. */
  function Replay(conf: AppConfig, events: seq<Event>): (t: Trace)
    ensures |t.replies| == |events|
    decreases |events|
  {
    if |events| == 0 then Trace(conf, [], [])
    else
      var s := Apply(conf, events[0]);
      var t := Replay(s.config, events[1..]);
      Trace(t.config, [s.reply] + t.replies, s.published + t.published)
  }

  /** Running two runs back to back is running their concatenation. */
  lemma {:induction false} ReplayConcat(conf: AppConfig, a: seq<Event>, b: seq<Event>)
    ensures var ta := Replay(conf, a);
            var tb := Replay(ta.config, b);
            var t := Replay(conf, a + b);
            && t.config == tb.config
            && t.replies == ta.replies + tb.replies
            && t.published == ta.published + tb.published
    decreases |a|
  {
    if |a| == 0 {
      assert a + b == b;
    } else {
      var s := Apply(conf, a[0]);
      assert (a + b)[0] == a[0];
      assert (a + b)[1..] == a[1..] + b;
      ReplayConcat(s.config, a[1..], b);
      var ta := Replay(s.config, a[1..]);
      var tb := Replay(ta.config, b);
      assert [s.reply] + (ta.replies + tb.replies) == ([s.reply] + ta.replies) + tb.replies;
      assert s.published + (ta.published + tb.published) == (s.published + ta.published) + tb.published;
    }
  }

  /** The decision the blocklist `domains` takes on each intercepted request of the run. */
  function DecisionOf(domains: seq<string>, e: Event): (d: Decision)
    requires e.Intercept?
  {
    Classify(domains, HostOf(e.request))
  }

  /** How many intercepted requests of the run `domains` blocks. */
  function BlockedCount(domains: seq<string>, events: seq<Event>): (n: nat)
    ensures n <= Intercepts(events)
  {
    if |events| == 0 then 0
    else
      (if events[0].Intercept? && DecisionOf(domains, events[0]) == Block then 1 else 0)
      + BlockedCount(domains, events[1..])
  }

  /** No event of the run replaces the policy: it holds requests and reads only. */
  predicate NoPosts(events: seq<Event>)
  {
    forall i :: 0 <= i < |events| ==> !events[i].PostPolicy?
  }

  lemma NoPostsTail(events: seq<Event>)
    requires |events| > 0 && NoPosts(events)
    ensures NoPosts(events[1..])
  {
    forall i | 0 <= i < |events[1..]| ensures !events[1..][i].PostPolicy? {
      assert events[1..][i] == events[i + 1];
    }
  }

  /**
   * Without a policy replacement in between (reads of the policy allowed),
   * the blocklist does not change and the counter has been incremented once
   * per blocked request.
   */
  lemma {:induction false} CounterCountsBlocks(conf: AppConfig, events: seq<Event>)
    requires NoPosts(events)
    ensures var t := Replay(conf, events);
            && t.config.blockedDomains == conf.blockedDomains
            && t.config.statsBlockedToday
               == IncrementBy(conf.statsBlockedToday, BlockedCount(conf.blockedDomains, events))
    decreases |events|
  {
    if |events| > 0 {
      var e := events[0];
      var s := Apply(conf, e);
      var rest := events[1..];
      NoPostsTail(events);
      CounterCountsBlocks(s.config, rest);
      var k := BlockedCount(conf.blockedDomains, rest);
      assert Replay(conf, events).config == Replay(s.config, rest).config;
      assert !e.PostPolicy?;
      assert s.config.blockedDomains == conf.blockedDomains;
      if e.Intercept? && DecisionOf(conf.blockedDomains, e) == Block {
        assert s.config.statsBlockedToday == Increment(conf.statsBlockedToday);
        assert BlockedCount(conf.blockedDomains, events) == 1 + k;
      } else {
        assert s.config == conf;
        assert BlockedCount(conf.blockedDomains, events) == k;
      }
    }
  }

  /** A run publishes one log entry per intercepted request. */
  lemma {:induction false} ReplayLengths(conf: AppConfig, events: seq<Event>)
    ensures |Replay(conf, events).published| == Intercepts(events)
    decreases |events|
  {
    if |events| > 0 {
      ReplayLengths(Apply(conf, events[0]).config, events[1..]);
    }
  }

  lemma AllInterceptsTail(events: seq<Event>)
    requires |events| > 0 && AllIntercepts(events)
    ensures AllIntercepts(events[1..])
  {
    forall i | 0 <= i < |events[1..]| ensures events[1..][i].Intercept? {
      assert events[1..][i] == events[i + 1];
    }
  }

  /**
   * Request `i` of a run of requests only (no POST or GET) is decided by the
   * blocklist the run started with: it is logged under its own host with that
   * decision, and answered with the 403 or forwarded unchanged.
   */
  lemma {:induction false} RunDecidedAt(conf: AppConfig, events: seq<Event>, i: nat)
    requires AllIntercepts(events)
    requires i < |events|
    ensures var t := Replay(conf, events);
            var d := DecisionOf(conf.blockedDomains, events[i]);
            && |t.published| == |events|
            && t.published[i].domain == HostOf(events[i].request)
            && t.published[i].action == d
            && t.replies[i] == Proxied(if d == Block then Respond(BlockedResponse) else Forward(events[i].request))
    decreases i
  {
    ReplayLengths(conf, events);
    var s := Apply(conf, events[0]);
    var rest := events[1..];
    if i > 0 {
      AllInterceptsTail(events);
      RunDecidedAt(s.config, rest, i - 1);
      assert rest[i - 1] == events[i];
    }
  }

  /** Every request of a run of requests only (no POST or GET) is decided by the starting blocklist. */
  lemma RunDecidedByStartingBlocklist(conf: AppConfig, events: seq<Event>)
    requires AllIntercepts(events)
    ensures var t := Replay(conf, events);
            && |t.published| == |events|
            && forall i :: 0 <= i < |events| ==>
                 var d := DecisionOf(conf.blockedDomains, events[i]);
                 && t.published[i].domain == HostOf(events[i].request)
                 && t.published[i].action == d
                 && t.replies[i] == Proxied(if d == Block then Respond(BlockedResponse) else Forward(events[i].request))
  {
    ReplayLengths(conf, events);
    forall i | 0 <= i < |events|
      ensures var t := Replay(conf, events);
              var d := DecisionOf(conf.blockedDomains, events[i]);
              && t.published[i].domain == HostOf(events[i].request)
              && t.published[i].action == d
              && t.replies[i] == Proxied(if d == Block then Respond(BlockedResponse) else Forward(events[i].request))
    {
      RunDecidedAt(conf, events, i);
    }
  }

  lemma {:induction false} AllBlockedCount(domains: seq<string>, events: seq<Event>)
    requires AllIntercepts(events)
    requires forall i :: 0 <= i < |events| ==> DecisionOf(domains, events[i]) == Block
    ensures BlockedCount(domains, events) == |events|
    decreases |events|
  {
    if |events| > 0 {
      var rest := events[1..];
      AllInterceptsTail(events);
      forall i | 0 <= i < |rest| ensures DecisionOf(domains, rest[i]) == Block {
        assert rest[i] == events[i + 1];
      }
      AllBlockedCount(domains, rest);
    }
  }

  lemma {:induction false} NoneBlockedCount(domains: seq<string>, events: seq<Event>)
    requires AllIntercepts(events)
    requires forall i :: 0 <= i < |events| ==> DecisionOf(domains, events[i]) == Allow
    ensures BlockedCount(domains, events) == 0
    decreases |events|
  {
    if |events| > 0 {
      var rest := events[1..];
      AllInterceptsTail(events);
      forall i | 0 <= i < |rest| ensures DecisionOf(domains, rest[i]) == Allow {
        assert rest[i] == events[i + 1];
      }
      NoneBlockedCount(domains, rest);
    }
  }

  /**
   * A run of requests only (no POST or GET) that the blocklist blocks
   * throughout: each one is answered with the 403 and counted.
   */
  lemma BlockedRun(conf: AppConfig, events: seq<Event>)
    requires AllIntercepts(events)
    requires forall i :: 0 <= i < |events| ==> DecisionOf(conf.blockedDomains, events[i]) == Block
    ensures var t := Replay(conf, events);
            && t.config.blockedDomains == conf.blockedDomains
            && t.config.statsBlockedToday == IncrementBy(conf.statsBlockedToday, |events|)
            && forall i :: 0 <= i < |events| ==> t.replies[i] == Proxied(Respond(BlockedResponse))
  {
    AllBlockedCount(conf.blockedDomains, events);
    CounterCountsBlocks(conf, events);
    forall i | 0 <= i < |events| ensures Replay(conf, events).replies[i] == Proxied(Respond(BlockedResponse)) {
      RunDecidedAt(conf, events, i);
    }
  }

  /**
   * A run of requests only (no POST or GET) that the blocklist allows
   * throughout: each one is forwarded unchanged and the policy stays as it was.
   */
  lemma AllowedRun(conf: AppConfig, events: seq<Event>)
    requires AllIntercepts(events)
    requires forall i :: 0 <= i < |events| ==> DecisionOf(conf.blockedDomains, events[i]) == Allow
    ensures var t := Replay(conf, events);
            && t.config == conf
            && forall i :: 0 <= i < |events| ==> t.replies[i] == Proxied(Forward(events[i].request))
  {
    NoneBlockedCount(conf.blockedDomains, events);
    CounterCountsBlocks(conf, events);
    forall i | 0 <= i < |events| ensures Replay(conf, events).replies[i] == Proxied(Forward(events[i].request)) {
      RunDecidedAt(conf, events, i);
    }
  }

  /** N blocked requests in a row, with no replacement between them, raise the counter by exactly N. */
  lemma NBlockedRaiseCounterByN(conf: AppConfig, events: seq<Event>)
    requires AllIntercepts(events)
    requires forall i :: 0 <= i < |events| ==> DecisionOf(conf.blockedDomains, events[i]) == Block
    requires conf.statsBlockedToday as int + |events| < U64_MODULUS
    ensures Replay(conf, events).config.statsBlockedToday as int == conf.statsBlockedToday as int + |events|
  {
    BlockedRun(conf, events);
    IncrementByAddsExactly(conf.statsBlockedToday, |events|);
  }

  /** Under an empty blocklist every request of a run is forwarded unchanged and nothing is counted. */
  lemma EmptyBlocklistForwardsRun(conf: AppConfig, events: seq<Event>)
    requires conf.blockedDomains == []
    requires AllIntercepts(events)
    ensures var t := Replay(conf, events);
            && t.config == conf
            && forall i :: 0 <= i < |events| ==> t.replies[i] == Proxied(Forward(events[i].request))
  {
    forall i | 0 <= i < |events| ensures DecisionOf(conf.blockedDomains, events[i]) == Allow {
      EmptyBlocklistAllows(HostOf(events[i].request));
    }
    AllowedRun(conf, events);
  }

  /** A configured empty string answers every request of a run with the 403 and counts each one. */
  lemma EmptyStringBlocksRun(conf: AppConfig, events: seq<Event>)
    requires "" in conf.blockedDomains
    requires AllIntercepts(events)
    ensures var t := Replay(conf, events);
            && t.config.statsBlockedToday == IncrementBy(conf.statsBlockedToday, |events|)
            && forall i :: 0 <= i < |events| ==> t.replies[i] == Proxied(Respond(BlockedResponse))
  {
    forall i | 0 <= i < |events| ensures DecisionOf(conf.blockedDomains, events[i]) == Block {
      EmptyDomainBlocksEverything(conf.blockedDomains, HostOf(events[i].request));
    }
    BlockedRun(conf, events);
  }

  /** A GET right after a POST, whatever came before, returns the posted document. */
  lemma GetAfterPost(conf: AppConfig, before: seq<Event>, posted: AppConfig)
    ensures var t := Replay(conf, before + [PostPolicy(posted), GetPolicy]);
            && t.replies[|before|] == PolicyUpdated
            && t.replies[|before| + 1] == Snapshot(posted)
            && t.config == posted
  {
    var post := [PostPolicy(posted)];
    ReplayOne(Replay(conf, before).config, PostPolicy(posted));
    ReplayConcat(conf, before, post);
    ReplayOne(posted, GetPolicy);
    ReplayConcat(conf, before + post, [GetPolicy]);
    assert before + post + [GetPolicy] == before + [PostPolicy(posted), GetPolicy];
  }

  /**
   * A POST replaces the whole document, counter included: what happens after
   * it does not depend on anything before it.
   */
  lemma PostForgetsHistory(conf: AppConfig, before: seq<Event>, posted: AppConfig, after: seq<Event>)
    ensures var t := Replay(conf, before + [PostPolicy(posted)] + after);
            var earlier := Replay(conf, before);
            var later := Replay(posted, after);
            && t.config == later.config
            && t.replies == earlier.replies + [PolicyUpdated] + later.replies
            && t.published == earlier.published + later.published
  {
    var post := [PostPolicy(posted)];
    var earlier := Replay(conf, before);
    ReplayOne(earlier.config, PostPolicy(posted));

    ReplayConcat(conf, before, post);
    var middle := Replay(conf, before + post);
    assert middle.config == posted;
    assert middle.replies == earlier.replies + [PolicyUpdated];
    assert middle.published == earlier.published;
    ReplayConcat(conf, before + post, after);
  }

  /** The request right after a POST is decided by the posted blocklist alone. */
  lemma RequestAfterPost(conf: AppConfig, before: seq<Event>, posted: AppConfig, ip: string, ts: string, req: Request)
    ensures var t := Replay(conf, before + [PostPolicy(posted), Intercept(ip, ts, req)]);
            t.replies[|before| + 1]
              == Proxied(if Classify(posted.blockedDomains, HostOf(req)) == Block
                         then Respond(BlockedResponse) else Forward(req))
  {
    var post := [PostPolicy(posted)];
    ReplayOne(Replay(conf, before).config, PostPolicy(posted));
    ReplayConcat(conf, before, post);
    ReplayOne(posted, Intercept(ip, ts, req));
    ReplayConcat(conf, before + post, [Intercept(ip, ts, req)]);
    assert before + post + [Intercept(ip, ts, req)] == before + [PostPolicy(posted), Intercept(ip, ts, req)];
  }

  /** Posting an empty blocklist makes the next request go through, however it was treated before. */
  lemma PostEmptyThenForward(conf: AppConfig, before: seq<Event>, ip: string, ts: string, req: Request)
    ensures Replay(conf, before + [PostPolicy(AppConfig([], 0)), Intercept(ip, ts, req)]).replies[|before| + 1]
            == Proxied(Forward(req))
  {
    RequestAfterPost(conf, before, AppConfig([], 0), ip, ts, req);
  }

  /** An intercepted request alone: one reply, one log entry, the handler's new policy. */
  lemma ReplayIntercept(conf: AppConfig, ip: string, ts: string, req: Request)
    ensures var h := Handle(conf, ip, ts, req);
            var t := Replay(conf, [Intercept(ip, ts, req)]);
            t.config == h.config && t.replies == [Proxied(h.outcome)] && t.published == [h.entry]
  {
    ReplayOne(conf, Intercept(ip, ts, req));
  }

  /** A blocked request followed by an allowed one, with no replacement between them. */
  lemma BlockThenAllow(conf: AppConfig, first: Event, second: Event)
    requires first.Intercept? && second.Intercept?
    requires DecisionOf(conf.blockedDomains, first) == Block
    requires DecisionOf(conf.blockedDomains, second) == Allow
    ensures var t := Replay(conf, [first, second]);
            && |t.replies| == 2
            && t.replies[0] == Proxied(Respond(BlockedResponse))
            && t.replies[1] == Proxied(Forward(second.request))
            && t.config == conf.(statsBlockedToday := Increment(conf.statsBlockedToday))
            && |t.published| == 2 && t.published[0].action == Block && t.published[1].action == Allow
  {
    var events := [first, second];
    assert BlockedCount(conf.blockedDomains, events) == 1 by {
      assert events[1..] == [second];
      assert events[1..][1..] == [];
    }
    CounterCountsBlocks(conf, events);
    RunDecidedAt(conf, events, 0);
    RunDecidedAt(conf, events, 1);
  }

  /** From start-up: `www.tiktok.com` is refused and counted, then `example.com` is forwarded. */
  lemma DefaultScenario(ip: string, ts: string, blockedReq: Request, allowedReq: Request)
    requires blockedReq.uriHost == Some("www.tiktok.com")
    requires allowedReq.uriHost == Some("example.com")
    ensures var t := Replay(DefaultConfig, [Intercept(ip, ts, blockedReq), Intercept(ip, ts, allowedReq)]);
            && |t.replies| == 2
            && t.replies[0] == Proxied(Respond(BlockedResponse))
            && t.replies[1] == Proxied(Forward(allowedReq))
            && t.config == AppConfig(["tiktok.com"], 1)
            && |t.published| == 2 && t.published[0].action == Block && t.published[1].action == Allow
  {
    DefaultBlocklistBlocksTiktok(DefaultConfig, ip, ts, blockedReq);
    DefaultBlocklistAllowsExample(DefaultConfig, ip, ts, allowedReq);
    BlockThenAllow(DefaultConfig, Intercept(ip, ts, blockedReq), Intercept(ip, ts, allowedReq));
  }
}
