/**
 * The shared process state (`AppState`) as one sequential object: the policy
 * document that the handler and the control plane read and overwrite, and the
 * live log channel, modelled as the sequence of everything sent on it. The
 * lock around the policy is left out; each method runs as one critical section.
 */
module Gateway {
  import opened Wrappers
  import opened Matching
  import opened Records
  import opened Handler
  import opened Session

  class AppState {
    var blockedDomains: seq<string>
    var statsBlockedToday: u64
    /** Every log entry sent on the live channel, oldest first. */
    var published: seq<LogEntry>
    /** The requests and policy replacements served so far, and the reply to each. */
    ghost var history: seq<Event>
    ghost var replies: seq<Reply>

    /** The policy document held by the store. */
    function Config(): AppConfig
      reads this
    {
      AppConfig(blockedDomains, statsBlockedToday)
    }

    /** The state is what the served events make of the start-up policy. */
    ghost predicate Valid()
      reads this
    {
      var t := Replay(DefaultConfig, history);
      && t.config == Config()
      && t.replies == replies
      && t.published == published
    }

    /** The store as the process creates it at start-up. */
    constructor ()
      ensures Valid()
      ensures Config() == DefaultConfig
      ensures published == [] && history == []
    {
      blockedDomains := ["tiktok.com"];
      statsBlockedToday := 0;
      published := [];
      history := [];
      replies := [];
    }

    /** Record one more served event, keeping the state the replay of the history. */
    ghost method Served(e: Event, reply: Reply)
      requires Replay(DefaultConfig, history).replies == replies
      requires var s := Apply(Replay(DefaultConfig, history).config, e);
               && s.config == Config()
               && s.reply == reply
               && Replay(DefaultConfig, history).published + s.published == published
      modifies this`history, this`replies
      ensures Valid()
      ensures history == old(history) + [e] && replies == old(replies) + [reply]
    {
      var t := Replay(DefaultConfig, history);
      ReplayOne(t.config, e);
      ReplayConcat(DefaultConfig, history, [e]);
      history := history + [e];
      replies := replies + [reply];
    }

    /**
     * The data-plane hook for one intercepted request: classify its host,
     * publish the log entry, count a block and answer it with the 403, or
     * hand the request back to be forwarded.
     */
    method HandleRequest(srcIp: string, timestamp: string, req: Request) returns (outcome: Outcome)
      requires Valid()
      modifies this
      ensures Valid()
      ensures history == old(history) + [Intercept(srcIp, timestamp, req)]
      ensures var h := Handle(old(Config()), srcIp, timestamp, req);
              && Config() == h.config
              && outcome == h.outcome
              && published == old(published) + [h.entry]
      ensures blockedDomains == old(blockedDomains)
      ensures outcome.Respond? <==> Classify(old(blockedDomains), HostOf(req)) == Block
    {
      var host := HostOf(req);
      var blocked := AnyContained(blockedDomains, host);
      var action := if blocked then Block else Allow;
      var entry := LogEntry(timestamp, srcIp, host, action, req.httpMethod, req.uriPath, UserAgentOf(req));
      published := published + [entry];
      if blocked {
        statsBlockedToday := Increment(statsBlockedToday);
        outcome := Respond(BlockedResponse);
      } else {
        outcome := Forward(req);
      }
      Served(Intercept(srcIp, timestamp, req), Proxied(outcome));
    }

    /** `POST /api/config`: overwrite the whole document, counter included, without any check. */
    method UpdatePolicy(newConf: AppConfig) returns (status: nat, message: string)
      requires Valid()
      modifies this
      ensures Valid()
      ensures history == old(history) + [PostPolicy(newConf)]
      ensures Config() == newConf
      ensures published == old(published)
      ensures status == 200 && message == "Success"
    {
      blockedDomains := newConf.blockedDomains;
      statsBlockedToday := newConf.statsBlockedToday;
      status, message := 200, "Success";
      Served(PostPolicy(newConf), Acknowledged(status, message));
    }

    /** `GET /api/config`: a copy of the current document. */
    method GetConfig() returns (conf: AppConfig)
      ensures conf.blockedDomains == blockedDomains
      ensures conf.statsBlockedToday == statsBlockedToday
    {
      conf := AppConfig(blockedDomains, statsBlockedToday);
    }
  }
}
