/** The subscriber-count cache: a gate run on every request that decides whether
    the cached count is stale, and a refresh step that records the outcome of one
    poll of the mailing-list API in the options table. The HTTP exchange itself is
    an input (FetchResult); clock readings are parameters. */
module SubscriberCount {
  import opened WpOptions
  import opened PhpValues

  /** The plugin's configuration constants. The API key and list id only shape the
      HTTP request, which is not modelled, so they are not part of it. */
  datatype Config = Config(countKey: string, lastPollKey: string, cacheSeconds: int) {
    /** The count and the timestamp live under two different option names. */
    predicate Valid()
    {
      countKey != lastPollKey
    }
  }

  /** The configuration the plugin ships with. */
  const PluginConfig: Config := Config("cmcount_total", "cmcount_lastpoll_timestamp", 30)

  /** The field of the API's list statistics that holds the count. */
  const SubscribersField: string := "TotalActiveSubscribers"

  /** What one HTTP exchange with the API produced: either cURL reported an error,
      or a body arrived and was passed through json_decode (a body that is not JSON
      decodes to JNull). */
  datatype FetchResult = TransportError | Received(decoded: JsonValue)

  /** The three ways one poll can end. Only Success carries a count. */
  datatype PollResult = Success(count: int) | TransportFailure | PayloadInvalid

  /** Sorts a fetch outcome into the three ways a poll can end. */
  function Classify(f: FetchResult): (r: PollResult)
    ensures f.TransportError? <==> r.TransportFailure?
    ensures f.Received? && HasKey(f.decoded, SubscribersField) ==>
              r == Success(IntVal(f.decoded.members[SubscribersField]))
    ensures f.Received? && !HasKey(f.decoded, SubscribersField) ==> r.PayloadInvalid?
  {
    match f
    case TransportError => TransportFailure
    case Received(d) =>
      if HasKey(d, SubscribersField) then Success(IntVal(d.members[SubscribersField])) else PayloadInvalid
  }

  /** The options table after one refresh (attemptPollAPI) at clock reading now. */
  function RefreshStep(t: Table, cfg: Config, now: int, f: FetchResult): (r: Table)
    requires cfg.Valid()
    ensures r.Keys == t.Keys + {cfg.lastPollKey} + (if Classify(f).Success? then {cfg.countKey} else {})
    ensures r[cfg.lastPollKey] == now
    ensures Classify(f).Success? ==> r[cfg.countKey] == Classify(f).count
    ensures !Classify(f).Success? && cfg.countKey in t ==> r[cfg.countKey] == t[cfg.countKey]
    ensures forall k :: k in t && k != cfg.countKey && k != cfg.lastPollKey ==> r[k] == t[k]
  {
    match Classify(f)
    case Success(n) => Update(Update(t, cfg.countKey, n), cfg.lastPollKey, now)
    case _ => Update(t, cfg.lastPollKey, now)
  }

  /** The stored last-poll timestamp reads as 0: the options were never created. */
  predicate FirstRun(t: Table, cfg: Config)
    ensures cfg.lastPollKey !in t ==> FirstRun(t, cfg)
    ensures cfg.lastPollKey in t ==> (FirstRun(t, cfg) <==> t[cfg.lastPollKey] == 0)
  {
    Get(t, cfg.lastPollKey, 0) == 0
  }

  /** Whether a request whose clock reads now triggers a refresh: on the first run,
      or when strictly more than cacheSeconds have passed since the last poll. */
  predicate Due(t: Table, cfg: Config, now: int)
    ensures FirstRun(t, cfg) ==> Due(t, cfg, now)
    ensures !FirstRun(t, cfg) ==> cfg.lastPollKey in t && (Due(t, cfg, now) <==> now - t[cfg.lastPollKey] > cfg.cacheSeconds)
  {
    FirstRun(t, cfg) || now - Get(t, cfg.lastPollKey, 0) > cfg.cacheSeconds
  }

  /** The table as the first run leaves it just before polling: both options are
      created if absent, and an existing option is not overwritten. */
  function Initialised(t: Table, cfg: Config, now: int): (r: Table)
    requires cfg.Valid()
    ensures r.Keys == t.Keys + {cfg.countKey, cfg.lastPollKey}
    ensures r[cfg.lastPollKey] == Get(t, cfg.lastPollKey, now)
    ensures r[cfg.countKey] == Get(t, cfg.countKey, 0)
    ensures forall k :: k in t ==> r[k] == t[k]
  {
    Add(Add(t, cfg.lastPollKey, now), cfg.countKey, 0)
  }

  /** The options table after one request passes the gate (triggerPollIfCacheExpired).
      firstClock is the request's first time() reading (the expiry check, or the
      timestamp the first run creates); secondClock is the reading the refresh writes. */
  function GateStep(t: Table, cfg: Config, firstClock: int, secondClock: int, f: FetchResult): (r: Table)
    requires cfg.Valid()
    ensures !Due(t, cfg, firstClock) ==> r == t
    ensures Due(t, cfg, firstClock) ==> cfg.lastPollKey in r && r[cfg.lastPollKey] == secondClock
    ensures Due(t, cfg, firstClock) && Classify(f).Success? ==> cfg.countKey in r && r[cfg.countKey] == Classify(f).count
    ensures !Classify(f).Success? && cfg.countKey in t ==> cfg.countKey in r && r[cfg.countKey] == t[cfg.countKey]
    ensures FirstRun(t, cfg) ==> cfg.countKey in r
    ensures r.Keys <= t.Keys + {cfg.countKey, cfg.lastPollKey}
    ensures forall k :: k in t && k != cfg.countKey && k != cfg.lastPollKey ==> k in r && r[k] == t[k]
  {
    if FirstRun(t, cfg) then RefreshStep(Initialised(t, cfg, firstClock), cfg, secondClock, f)
    else if Due(t, cfg, firstClock) then RefreshStep(t, cfg, secondClock, f)
    else t
  }

  /** The plugin wired to the host's options table. */
  class Plugin {
    const cfg: Config
    const options: Options

    constructor (cfg: Config, options: Options)
      requires cfg.Valid()
      ensures this.cfg == cfg && this.options == options
    {
      this.cfg := cfg;
      this.options := options;
    }

    /** attemptPollAPI: record the outcome of one poll, always resetting the
        last-poll timestamp and writing the count only on success. */
    method AttemptPoll(now: int, f: FetchResult)
      requires cfg.Valid()
      modifies options
      ensures options.table == RefreshStep(old(options.table), cfg, now, f)
    {
      match f
      case TransportError =>
        options.UpdateOption(cfg.lastPollKey, now);
      case Received(decoded) =>
        if HasKey(decoded, SubscribersField) {
          var total := decoded.members[SubscribersField];
          options.UpdateOption(cfg.countKey, IntVal(total));
          options.UpdateOption(cfg.lastPollKey, now);
        } else {
          options.UpdateOption(cfg.lastPollKey, now);
        }
    }

    /** triggerPollIfCacheExpired: create the options on the first run and poll,
        otherwise poll only when the cache has expired. */
    method TriggerPollIfCacheExpired(firstClock: int, secondClock: int, f: FetchResult)
      requires cfg.Valid()
      modifies options
      ensures options.table == GateStep(old(options.table), cfg, firstClock, secondClock, f)
    {
      var last := options.GetOption(cfg.lastPollKey, 0);
      if last != 0 {
        if firstClock - last > cfg.cacheSeconds {
          AttemptPoll(secondClock, f);
        } else {
          return;
        }
      } else {
        options.AddOption(cfg.lastPollKey, firstClock);
        options.AddOption(cfg.countKey, 0);
        AttemptPoll(secondClock, f);
      }
    }

    /** The count a template displays: the cached count, or the template's fallback
        when the option does not exist. */
    method CachedCount(fallback: int) returns (v: int)
      ensures cfg.countKey in options.table ==> v == options.table[cfg.countKey]
      ensures cfg.countKey !in options.table ==> v == fallback
    {
      v := options.GetOption(cfg.countKey, fallback);
    }
  }
}
