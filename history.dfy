/** A sequence of requests, each passing through the gate in turn, and what holds
    over the whole history. */
module RequestHistory {
  import opened WpOptions
  import opened SubscriberCount

  /** One request: its two clock readings and what its poll would return if made. */
  datatype Request = Request(firstClock: int, secondClock: int, fetch: FetchResult)

  function Serve(t: Table, cfg: Config, q: Request): (r: Table)
    requires cfg.Valid()
  {
    GateStep(t, cfg, q.firstClock, q.secondClock, q.fetch)
  }

  /** The table after serving every request in order. Only the two options can change. */
  function Run(t: Table, cfg: Config, reqs: seq<Request>): (r: Table)
    requires cfg.Valid()
    ensures r.Keys <= t.Keys + {cfg.countKey, cfg.lastPollKey}
    ensures forall k :: k in t && k != cfg.countKey && k != cfg.lastPollKey ==> k in r && r[k] == t[k]
    decreases |reqs|
  {
    if reqs == [] then t else Run(Serve(t, cfg, reqs[0]), cfg, reqs[1..])
  }

  /** How many requests of the history take the first-run branch. */
  function FirstRuns(t: Table, cfg: Config, reqs: seq<Request>): (n: nat)
    requires cfg.Valid()
    decreases |reqs|
  {
    if reqs == [] then 0
    else (if FirstRun(t, cfg) then 1 else 0) + FirstRuns(Serve(t, cfg, reqs[0]), cfg, reqs[1..])
  }

  /** No request of the history both finds the cache due and polls successfully. */
  predicate NoSuccessfulPoll(t: Table, cfg: Config, reqs: seq<Request>)
    requires cfg.Valid()
  {
    forall i :: 0 <= i < |reqs| ==>
      !(Due(Run(t, cfg, reqs[..i]), cfg, reqs[i].firstClock) && Classify(reqs[i].fetch).Success?)
  }

  /** Without a successful poll anywhere in the history, the cached count never
      changes: not after any prefix, and not at the end. */
  lemma CountStableWithoutSuccess(t: Table, cfg: Config, reqs: seq<Request>)
    requires cfg.Valid() && cfg.countKey in t
    requires NoSuccessfulPoll(t, cfg, reqs)
    ensures forall k :: 0 <= k <= |reqs| ==>
              cfg.countKey in Run(t, cfg, reqs[..k]) && Run(t, cfg, reqs[..k])[cfg.countKey] == t[cfg.countKey]
    ensures cfg.countKey in Run(t, cfg, reqs) && Run(t, cfg, reqs)[cfg.countKey] == t[cfg.countKey]
  {
    forall k | 0 <= k <= |reqs|
      ensures cfg.countKey in Run(t, cfg, reqs[..k]) && Run(t, cfg, reqs[..k])[cfg.countKey] == t[cfg.countKey]
    {
      CountStablePrefix(t, cfg, reqs, k);
    }
    assert reqs[..|reqs|] == reqs;
  }

  lemma {:induction false} CountStablePrefix(t: Table, cfg: Config, reqs: seq<Request>, k: nat)
    requires cfg.Valid() && cfg.countKey in t
    requires NoSuccessfulPoll(t, cfg, reqs)
    requires k <= |reqs|
    ensures cfg.countKey in Run(t, cfg, reqs[..k]) && Run(t, cfg, reqs[..k])[cfg.countKey] == t[cfg.countKey]
  {
    if k == 0 {
      assert reqs[..0] == [];
    } else {
      CountStablePrefix(t, cfg, reqs, k - 1);
      assert reqs[..k] == reqs[..k - 1] + [reqs[k - 1]];
      RunAppend(t, cfg, reqs[..k - 1], reqs[k - 1]);
    }
  }

  /** Serving one more request extends the run by one gate step. */
  lemma {:induction false} RunAppend(t: Table, cfg: Config, reqs: seq<Request>, q: Request)
    requires cfg.Valid()
    ensures Run(t, cfg, reqs + [q]) == Serve(Run(t, cfg, reqs), cfg, q)
    decreases |reqs|
  {
    if reqs == [] {
      assert [] + [q] == [q];
      assert [q][1..] == [];
    } else {
      assert (reqs + [q])[1..] == reqs[1..] + [q];
      RunAppend(Serve(t, cfg, reqs[0]), cfg, reqs[1..], q);
    }
  }

  /** Refresh clock readings that never go back and are never behind the stored timestamp. */
  predicate MonotoneClock(t: Table, cfg: Config, reqs: seq<Request>)
  {
    (forall i :: 0 <= i < |reqs| ==> Get(t, cfg.lastPollKey, 0) <= reqs[i].secondClock) &&
    (forall i, j :: 0 <= i < j < |reqs| ==> reqs[i].secondClock <= reqs[j].secondClock)
  }

  /** Under such a clock, after the first k requests the timestamp is at most the
      k-th request's refresh reading. */
  lemma {:induction false} TimestampBoundedByClock(t: Table, cfg: Config, reqs: seq<Request>, k: nat)
    requires cfg.Valid() && MonotoneClock(t, cfg, reqs)
    requires 0 < k <= |reqs|
    ensures Get(Run(t, cfg, reqs[..k]), cfg.lastPollKey, 0) <= reqs[k - 1].secondClock
  {
    assert reqs[..k] == reqs[..k - 1] + [reqs[k - 1]];
    RunAppend(t, cfg, reqs[..k - 1], reqs[k - 1]);
    if k > 1 {
      TimestampBoundedByClock(t, cfg, reqs, k - 1);
    }
  }

  /** Under such a clock no request of the history lowers the timestamp, so it never
      ends below where it started. */
  lemma TimestampMonotone(t: Table, cfg: Config, reqs: seq<Request>)
    requires cfg.Valid() && MonotoneClock(t, cfg, reqs)
    ensures forall k :: 0 <= k < |reqs| ==>
              Get(Run(t, cfg, reqs[..k]), cfg.lastPollKey, 0) <= Get(Run(t, cfg, reqs[..k + 1]), cfg.lastPollKey, 0)
    ensures Get(Run(t, cfg, reqs), cfg.lastPollKey, 0) >= Get(t, cfg.lastPollKey, 0)
  {
    forall k | 0 <= k < |reqs|
      ensures Get(Run(t, cfg, reqs[..k]), cfg.lastPollKey, 0) <= Get(Run(t, cfg, reqs[..k + 1]), cfg.lastPollKey, 0)
    {
      assert reqs[..k + 1] == reqs[..k] + [reqs[k]];
      RunAppend(t, cfg, reqs[..k], reqs[k]);
      if k > 0 {
        TimestampBoundedByClock(t, cfg, reqs, k);
      } else {
        assert reqs[..0] == [];
      }
    }
    TimestampChain(t, cfg, reqs, |reqs|);
    assert reqs[..|reqs|] == reqs;
  }

  /** Chaining the single steps: after any prefix the timestamp is not below the initial one. */
  lemma {:induction false} TimestampChain(t: Table, cfg: Config, reqs: seq<Request>, k: nat)
    requires cfg.Valid() && MonotoneClock(t, cfg, reqs)
    requires k <= |reqs|
    ensures Get(Run(t, cfg, reqs[..k]), cfg.lastPollKey, 0) >= Get(t, cfg.lastPollKey, 0)
  {
    if k == 0 {
      assert reqs[..0] == [];
    } else {
      TimestampChain(t, cfg, reqs, k - 1);
      assert reqs[..k] == reqs[..k - 1] + [reqs[k - 1]];
      RunAppend(t, cfg, reqs[..k - 1], reqs[k - 1]);
      if k > 1 {
        TimestampBoundedByClock(t, cfg, reqs, k - 1);
      } else {
        assert reqs[..0] == [];
      }
    }
  }

  /** As long as no clock reading is 0, the first-run branch is taken at most once,
      and never once the options exist. */
  lemma {:induction false} FirstRunAtMostOnce(t: Table, cfg: Config, reqs: seq<Request>)
    requires cfg.Valid()
    requires forall i :: 0 <= i < |reqs| ==> reqs[i].secondClock != 0
    ensures FirstRuns(t, cfg, reqs) <= 1
    ensures !FirstRun(t, cfg) ==> FirstRuns(t, cfg, reqs) == 0
    decreases |reqs|
  {
    if reqs != [] {
      var t' := Serve(t, cfg, reqs[0]);
      assert !FirstRun(t', cfg);
      FirstRunAtMostOnce(t', cfg, reqs[1..]);
    }
  }
}
