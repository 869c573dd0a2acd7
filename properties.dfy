/** What one request does to the options table, stated case by case. */
module CacheProperties {
  import opened WpOptions
  import opened PhpValues
  import opened SubscriberCount

  /** While the cache is fresh the gate returns without touching the table. */
  lemma FreshCacheLeavesTableAlone(t: Table, cfg: Config, firstClock: int, secondClock: int, f: FetchResult)
    requires cfg.Valid()
    requires Get(t, cfg.lastPollKey, 0) != 0
    requires firstClock - Get(t, cfg.lastPollKey, 0) <= cfg.cacheSeconds
    ensures GateStep(t, cfg, firstClock, secondClock, f) == t
  {
  }

  /** Once the options exist, a request refreshes exactly when more than
      cacheSeconds have passed, and then the table is what one refresh makes of it. */
  lemma GateOnceInitialised(t: Table, cfg: Config, firstClock: int, secondClock: int, f: FetchResult)
    requires cfg.Valid()
    requires Get(t, cfg.lastPollKey, 0) != 0
    ensures firstClock - t[cfg.lastPollKey] > cfg.cacheSeconds ==>
              GateStep(t, cfg, firstClock, secondClock, f) == RefreshStep(t, cfg, secondClock, f)
    ensures firstClock - t[cfg.lastPollKey] <= cfg.cacheSeconds ==>
              GateStep(t, cfg, firstClock, secondClock, f) == t
  {
  }

  /** With the shipped 30-second window and a last poll at T, requests at T+29 and
      T+30 do not refresh and a request at T+31 refreshes once. */
  lemma StrictExpiryBoundary(t: Table, lastPoll: int, secondClock: int, f: FetchResult)
    requires PluginConfig.lastPollKey in t && t[PluginConfig.lastPollKey] == lastPoll && lastPoll != 0
    ensures GateStep(t, PluginConfig, lastPoll + 29, secondClock, f) == t
    ensures GateStep(t, PluginConfig, lastPoll + 30, secondClock, f) == t
    ensures GateStep(t, PluginConfig, lastPoll + 31, secondClock, f) == RefreshStep(t, PluginConfig, secondClock, f)
  {
  }

  /** A clock that reads earlier than the last poll never triggers a refresh for a
      non-negative window. */
  lemma ClockRolledBackNoRefresh(t: Table, cfg: Config, firstClock: int, secondClock: int, f: FetchResult)
    requires cfg.Valid() && cfg.cacheSeconds >= 0
    requires Get(t, cfg.lastPollKey, 0) != 0 && firstClock < Get(t, cfg.lastPollKey, 0)
    ensures !Due(t, cfg, firstClock)
    ensures GateStep(t, cfg, firstClock, secondClock, f) == t
  {
  }

  /** With a window of 0 seconds a repeat request in the same second does not
      refresh, and one a second later does. */
  lemma ZeroWindowSameSecond(t: Table, cfg: Config, secondClock: int, f: FetchResult)
    requires cfg.Valid() && cfg.cacheSeconds == 0
    requires Get(t, cfg.lastPollKey, 0) != 0
    ensures GateStep(t, cfg, t[cfg.lastPollKey], secondClock, f) == t
    ensures GateStep(t, cfg, t[cfg.lastPollKey] + 1, secondClock, f) == RefreshStep(t, cfg, secondClock, f)
  {
  }

  /** On the first run the gate initialises the options and polls exactly once. */
  lemma FirstRunPollsOnce(t: Table, cfg: Config, firstClock: int, secondClock: int, f: FetchResult)
    requires cfg.Valid() && FirstRun(t, cfg)
    ensures Due(t, cfg, firstClock)
    ensures GateStep(t, cfg, firstClock, secondClock, f) == RefreshStep(Initialised(t, cfg, firstClock), cfg, secondClock, f)
  {
  }

  /** A failed first poll leaves the count at 0 when it did not exist before (and as
      it was when it did), with the timestamp at the refresh's clock reading. */
  lemma FirstRunFailedPoll(t: Table, cfg: Config, firstClock: int, secondClock: int, f: FetchResult)
    requires cfg.Valid() && FirstRun(t, cfg) && !Classify(f).Success?
    ensures var r := GateStep(t, cfg, firstClock, secondClock, f);
            cfg.countKey in r && r[cfg.countKey] == Get(t, cfg.countKey, 0) && r[cfg.lastPollKey] == secondClock
    ensures cfg.countKey !in t ==> GateStep(t, cfg, firstClock, secondClock, f)[cfg.countKey] == 0
  {
  }

  /** A transport error resets the timestamp and leaves the count as it was. */
  lemma TransportErrorKeepsCount(t: Table, cfg: Config, now: int, default: int)
    requires cfg.Valid()
    ensures RefreshStep(t, cfg, now, TransportError)[cfg.lastPollKey] == now
    ensures Get(RefreshStep(t, cfg, now, TransportError), cfg.countKey, default) == Get(t, cfg.countKey, default)
  {
  }

  /** A payload with the field stores intval of it as the count, whatever its sign. */
  lemma PayloadWithCountStoresIt(t: Table, cfg: Config, now: int, members: map<string, JsonValue>)
    requires cfg.Valid() && SubscribersField in members
    ensures var r := RefreshStep(t, cfg, now, Received(JObject(members)));
            r[cfg.countKey] == IntVal(members[SubscribersField]) && r[cfg.lastPollKey] == now
  {
  }

  /** Sample payloads: 4821 is stored as 4821, a negative count as it is, a null count as 0. */
  lemma PayloadExamples(t: Table, now: int)
    ensures RefreshStep(t, PluginConfig, now, Received(JObject(map[SubscribersField := JInt(4821)])))[PluginConfig.countKey] == 4821
    ensures RefreshStep(t, PluginConfig, now, Received(JObject(map[SubscribersField := JInt(-3)])))[PluginConfig.countKey] < 0
    ensures RefreshStep(t, PluginConfig, now, Received(JObject(map[SubscribersField := JNull])))[PluginConfig.countKey] == 0
  {
  }

  /** A payload without the field (including a body that is not JSON) is treated
      exactly like a transport error. */
  lemma MissingFieldLikeTransportError(t: Table, cfg: Config, now: int, decoded: JsonValue)
    requires cfg.Valid() && !HasKey(decoded, SubscribersField)
    ensures RefreshStep(t, cfg, now, Received(decoded)) == RefreshStep(t, cfg, now, TransportError)
  {
  }

  /** A request changes the stored count only by refreshing with a successful poll. */
  lemma CountChangesOnlyOnSuccess(t: Table, cfg: Config, firstClock: int, secondClock: int, f: FetchResult)
    requires cfg.Valid() && cfg.countKey in t
    requires GateStep(t, cfg, firstClock, secondClock, f)[cfg.countKey] != t[cfg.countKey]
    ensures Due(t, cfg, firstClock) && Classify(f).Success?
  {
  }

  /** When the refresh's clock reading is not behind the stored timestamp, a request
      never moves the timestamp back. */
  lemma TimestampNeverMovesBack(t: Table, cfg: Config, firstClock: int, secondClock: int, f: FetchResult)
    requires cfg.Valid() && secondClock >= Get(t, cfg.lastPollKey, 0)
    ensures Get(GateStep(t, cfg, firstClock, secondClock, f), cfg.lastPollKey, 0) >= Get(t, cfg.lastPollKey, 0)
  {
  }
}
