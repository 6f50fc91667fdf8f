/** ATP timers never spin and always finish. */
module AtpTimers {
  import opened Words
  import opened MapSums
  import opened AtpSpec
  import opened AtpOnce

  /** Never spins: after `poll(now)` every retry and every cache expiry lies strictly after `now`. */
  lemma {:induction false} DeadlinesMoveOn(a: Atp, now: Micros)
    ensures forall d :: d in Deadlines(Poll(a, now)) ==> d > now
  {
    var cache := Unexpired(a.replyCache, now);
    forall i | 0 <= i < |cache| ensures cache[i].expiresAt > now {
      assert cache[i] in cache;
      UnexpiredStay(a.replyCache, now, cache[i]);
    }
  }

  function TriesLeft(s: PendingRequest): nat {
    if s.retries > MAX_RETRIES then 1 else MAX_RETRIES + 1 - s.retries
  }

  function Tries(pending: map<u16, PendingRequest>): map<u16, nat> {
    map t | t in pending :: TriesLeft(pending[t])
  }

  /** Timer turns left before an endpoint without input falls silent. */
  ghost function Budget(a: Atp): nat {
    Sum(Tries(a.pending)) + |a.replyCache|
  }

  lemma {:induction false} UnexpiredShrinks(cache: seq<CachedResponse>, now: Micros)
    ensures |Unexpired(cache, now)| <= |cache|
    ensures (exists i :: 0 <= i < |cache| && cache[i].expiresAt <= now) ==> |Unexpired(cache, now)| < |cache|
  {
    if cache != [] {
      UnexpiredShrinks(cache[1..], now);
      if i :| 0 < i < |cache| && cache[i].expiresAt <= now {
        assert cache[1..][i - 1].expiresAt <= now;
      }
    }
  }

  lemma {:induction false} TriesShrink(pending: map<u16, PendingRequest>, now: Micros)
    ensures Sum(Tries(PendingAfter(pending, now))) <= Sum(Tries(pending))
    ensures forall t: u16 :: t in pending && Due(pending[t], now) ==>
              Sum(Tries(PendingAfter(pending, now))) < Sum(Tries(pending))
  {
    var m, m' := Tries(pending), Tries(PendingAfter(pending, now));
    assert forall t: u16 :: t in m' ==> t in m && m'[t] <= m[t];
    SumMonotone(m, m');
    forall t: u16 | t in pending && Due(pending[t], now) ensures Sum(m') < Sum(m) {
      SumDrops(m, m', t);
    }
  }

  /** A wake-up at or after a deadline uses up budget. */
  lemma {:induction false} WakeupSpends(a: Atp, now: Micros, d: Micros)
    requires d in Deadlines(a) && d <= now
    ensures Budget(Poll(a, now)) < Budget(a)
  {
    TriesShrink(a.pending, now);
    UnexpiredShrinks(a.replyCache, now);
  }

  ghost predicate WakesUp(a: Atp, now: Micros, a': Atp) {
    (exists d :: d in Deadlines(a) && d <= now) && a' == Poll(a, now)
  }

  /** A driver that polls only when a deadline has passed and feeds no input. */
  ghost predicate IsDriverRun(states: seq<Atp>, times: seq<Micros>) {
    && |states| == |times| + 1
    && forall i :: 0 <= i < |times| ==> WakesUp(states[i], times[i], states[i + 1])
  }

  lemma {:induction false} DriverPolls(states: seq<Atp>, times: seq<Micros>, i: nat)
    requires IsDriverRun(states, times) && i < |times|
    ensures states[i + 1] == Poll(states[i], times[i])
    ensures exists d :: d in Deadlines(states[i]) && d <= times[i]
  {
    assert WakesUp(states[i], times[i], states[i + 1]);
  }

  /** Always finishes: the driver wakes up at most nine times for each request it started with, and
      once for each kept reply. */
  lemma {:induction false} DriverRunsEnd(states: seq<Atp>, times: seq<Micros>)
    requires IsDriverRun(states, times)
    ensures |times| <= (MAX_RETRIES + 1) * |states[0].pending| + |states[0].replyCache|
  {
    var budgets := seq(|states|, i requires 0 <= i < |states| => Budget(states[i]));
    forall i | 0 <= i < |times| ensures budgets[i + 1] < budgets[i] {
      DriverPolls(states, times, i);
      var d :| d in Deadlines(states[i]) && d <= times[i];
      WakeupSpends(states[i], times[i], d);
    }
    FallingEnds(budgets, |times|);
    var tries := Tries(states[0].pending);
    SumAtMost(tries, MAX_RETRIES + 1);
    assert tries.Keys == states[0].pending.Keys;
    assert |tries| == |tries.Keys| && |states[0].pending| == |states[0].pending.Keys|;
  }

  lemma {:induction false} FailuresTally(pending: map<u16, PendingRequest>, tids: seq<u16>, now: Micros, h: u16)
    requires forall t :: t in tids ==> t in pending
    requires forall i, j :: 0 <= i < j < |tids| ==> tids[i] != tids[j]
    ensures multiset(Failures(pending, tids, now))[RequestFailed(h)] ==
              if h in tids && GivesUp(pending[h], now) then 1 else 0
    decreases |tids|
  {
    if tids != [] {
      var front, t := tids[..|tids| - 1], tids[|tids| - 1];
      assert tids == front + [t] && t !in front;
      FailuresTally(pending, front, now, h);
    }
  }

  lemma {:induction false} PollTally(a: Atp, now: Micros, h: u16)
    ensures multiset(Poll(a, now).events)[RequestFailed(h)] == multiset(a.events)[RequestFailed(h)]
              + (if h in a.pending && h !in Poll(a, now).pending then 1 else 0)
    ensures h in Poll(a, now).pending ==> h in a.pending
  {
    FailuresTally(a.pending, Ascending(a.pending.Keys), now, h);
  }

  lemma {:induction false} TurnTally(states: seq<Atp>, times: seq<Micros>, i: nat, h: u16)
    requires IsDriverRun(states, times) && i < |times|
    ensures multiset(states[i + 1].events)[RequestFailed(h)] == multiset(states[i].events)[RequestFailed(h)]
              + (if h in states[i].pending && h !in states[i + 1].pending then 1 else 0)
    ensures h in states[i + 1].pending ==> h in states[i].pending
  {
    DriverPolls(states, times, i);
    PollTally(states[i], times[i], h);
  }

  lemma {:induction false} FailedSoFar(states: seq<Atp>, times: seq<Micros>, n: nat, h: u16)
    requires IsDriverRun(states, times) && n <= |times| && states[0].events == [] && h in states[0].pending
    ensures multiset(states[n].events)[RequestFailed(h)] == if h in states[n].pending then 0 else 1
  {
    if n > 0 {
      FailedSoFar(states, times, n - 1, h);
      TurnTally(states, times, n - 1, h);
    }
  }

  lemma {:induction false} EveryTimerIsADeadline(a: Atp, h: u16)
    ensures h in a.pending ==> Deadlines(a) != {}
    ensures a.replyCache != [] ==> Deadlines(a) != {}
  {
    if h in a.pending { assert a.pending[h].retryAt in Deadlines(a); }
    if a.replyCache != [] { assert a.replyCache[0].expiresAt in Deadlines(a); }
  }

  /** Exactly one failure each: when the driver has no deadline left, every request it started
      with has failed exactly once. */
  lemma {:induction false} EachRequestFailsOnce(states: seq<Atp>, times: seq<Micros>, h: u16)
    requires IsDriverRun(states, times) && states[0].events == [] && Deadlines(states[|times|]) == {}
    requires h in states[0].pending
    ensures multiset(states[|times|].events)[RequestFailed(h)] == 1
    ensures states[|times|].replyCache == []
  {
    FailedSoFar(states, times, |times|, h);
    EveryTimerIsADeadline(states[|times|], h);
  }

  /** The first retry of a request goes out when the interval has passed since it was made, and not
      before. */
  lemma {:induction false} RequestWaits(a: Atp, dest: Address, userBytes: UserBytes, data: seq<byte>, bitmap: u8,
      made: Micros, now: Micros)
    requires HasFreeTid(a.pending)
    ensures var tid, a' := AllocateTid(a.pending, a.nextTid), MakeRequest(a, dest, userBytes, data, bitmap, made);
            && tid in a'.pending
            && (Due(a'.pending[tid], now) <==> now >= made + RETRY_INTERVAL)
            && !GivesUp(a'.pending[tid], now)
  {
  }
}
