/** ADSP timers never spin and always finish. */
module AdspTimers {
  import opened Words
  import opened MapSums
  import opened AdspSpec

  predicate Distinct(keys: seq<u16>) {
    forall i, j :: 0 <= i < j < |keys| ==> keys[i] != keys[j]
  }

  predicate AttnGivesUp(c: Connection, now: Micros) {
    AttnDue(c, now) && c.attnInFlight.value.retries + 1 > MAX_ATTN_RETRIES
  }

  /** A connection after the attention timer's turn. */
  function AttnTicked(c: Connection, now: Micros): Connection {
    if !AttnDue(c, now) then c
    else if AttnGivesUp(c, now) then c.(attnInFlight := None)
    else c.(attnInFlight := Some(c.attnInFlight.value.(retries := c.attnInFlight.value.retries + 1, lastTx := now)))
  }

  predicate StreamGivesUp(c: Connection, now: Micros) {
    DataDue(c, now) && c.retries + 1 > MAX_RETRIES
  }

  /** A connection after the retransmission timer's turn, if it is still there. */
  function StreamTicked(c: Connection, now: Micros): Connection {
    if DataDue(c, now) then c.(retries := Min(c.retries + 1, 255), lastTx := now) else c
  }

  function Count(evs: seq<AdspEvent>, ev: AdspEvent): nat {
    multiset(evs)[ev]
  }

  lemma {:induction false} CountAppend(a: seq<AdspEvent>, x: AdspEvent, ev: AdspEvent)
    ensures Count(a + [x], ev) == Count(a, ev) + (if x == ev then 1 else 0)
  {
  }

  lemma {:induction false} PollAttentionAt(e: Endpoint, key: u16, now: Micros, k: u16, ev: AdspEvent)
    ensures var e' := PollAttention(e, key, now);
            && e'.pendingOpens == e.pendingOpens && e'.connections.Keys == e.connections.Keys
            && (k in e.connections ==>
                  e'.connections[k] == if k == key then AttnTicked(e.connections[k], now) else e.connections[k])
            && Count(e'.events, ev) == Count(e.events, ev)
                 + (if ev == AttentionFailed(key) && key in e.connections && AttnGivesUp(e.connections[key], now) then 1 else 0)
  {
    CountAppend(e.events, AttentionFailed(key), ev);
  }

  lemma {:induction false} PollAttentionsAt(e: Endpoint, keys: seq<u16>, now: Micros, k: u16, ev: AdspEvent)
    requires Distinct(keys)
    ensures var e' := PollAttentions(e, keys, now);
            && e'.pendingOpens == e.pendingOpens && e'.connections.Keys == e.connections.Keys
            && (k in e.connections ==>
                  e'.connections[k] == if k in keys then AttnTicked(e.connections[k], now) else e.connections[k])
            && Count(e'.events, ev) == Count(e.events, ev)
                 + (if ev.AttentionFailed? && ev.conn in keys && ev.conn in e.connections
                       && AttnGivesUp(e.connections[ev.conn], now) then 1 else 0)
    decreases |keys|
  {
    if keys != [] {
      var front, last := keys[..|keys| - 1], keys[|keys| - 1];
      assert keys == front + [last] && last !in front;
      PollAttentionsAt(e, front, now, k, ev);
      PollAttentionsAt(e, front, now, last, ev);
      PollAttentionAt(PollAttentions(e, front, now), last, now, k, ev);
    }
  }

  lemma {:induction false} PollStreamAt(e: Endpoint, key: u16, now: Micros, k: u16, ev: AdspEvent)
    ensures var e' := PollStream(e, key, now);
            var gone := key in e.connections && StreamGivesUp(e.connections[key], now);
            && e'.pendingOpens == e.pendingOpens
            && (k in e'.connections <==> k in e.connections && !(k == key && gone))
            && (k in e'.connections ==>
                  e'.connections[k] == if k == key then StreamTicked(e.connections[k], now) else e.connections[k])
            && Count(e'.events, ev) == Count(e.events, ev) + (if ev == Closed(key) && gone then 1 else 0)
  {
    CountAppend(e.events, Closed(key), ev);
  }

  lemma {:induction false} PollStreamsAt(e: Endpoint, keys: seq<u16>, now: Micros, k: u16, ev: AdspEvent)
    requires Distinct(keys)
    ensures var e' := PollStreams(e, keys, now);
            && e'.pendingOpens == e.pendingOpens
            && (k in e'.connections <==>
                  k in e.connections && !(k in keys && StreamGivesUp(e.connections[k], now)))
            && (k in e'.connections ==>
                  e'.connections[k] == if k in keys then StreamTicked(e.connections[k], now) else e.connections[k])
            && Count(e'.events, ev) == Count(e.events, ev)
                 + (if ev.Closed? && ev.conn in keys && ev.conn in e.connections
                       && StreamGivesUp(e.connections[ev.conn], now) then 1 else 0)
    decreases |keys|
  {
    if keys != [] {
      var front, last := keys[..|keys| - 1], keys[|keys| - 1];
      assert keys == front + [last] && last !in front;
      PollStreamsAt(e, front, now, k, ev);
      PollStreamsAt(e, front, now, last, ev);
      PollStreamAt(PollStreams(e, front, now), last, now, k, ev);
    }
  }

  lemma {:induction false} OpenFailuresCount(opens: map<u16, PendingOpen>, ids: seq<u16>, now: Micros, ev: AdspEvent)
    requires Distinct(ids) && forall id :: id in ids ==> id in opens
    ensures Count(OpenFailures(opens, ids, now), ev) ==
              if ev.OpenFailed? && ev.conn in ids && OpenGivesUp(opens[ev.conn], now) then 1 else 0
    decreases |ids|
  {
    if ids != [] {
      var front, last := ids[..|ids| - 1], ids[|ids| - 1];
      assert ids == front + [last] && last !in front;
      OpenFailuresCount(opens, front, now, ev);
      CountAppend(OpenFailures(opens, front, now), OpenFailed(last), ev);
    }
  }

  /** Whether a `poll` gives up on what the event is about. */
  ghost predicate GivesUpOn(e: Endpoint, now: Micros, ev: AdspEvent) {
    match ev
    case OpenFailed(id) => id in e.pendingOpens && OpenGivesUp(e.pendingOpens[id], now)
    case AttentionFailed(k) => k in e.connections && AttnGivesUp(e.connections[k], now)
    case Closed(k) => k in e.connections && StreamGivesUp(e.connections[k], now)
    case _ => false
  }

  lemma {:induction false} PollOpensCount(e: Endpoint, now: Micros, ev: AdspEvent)
    ensures Count(PollOpens(e, now).events, ev) == Count(e.events, ev)
              + (if ev.OpenFailed? && GivesUpOn(e, now, ev) then 1 else 0)
  {
    var ids := Ascending(e.pendingOpens.Keys);
    OpenFailuresCount(e.pendingOpens, ids, now, ev);
    assert Count(PollOpens(e, now).events, ev) ==
           Count(e.events, ev) + Count(OpenFailures(e.pendingOpens, ids, now), ev);
  }

  /** What one `poll` does to the timers under `k`, and how often it raises `ev`. */
  lemma {:induction false} PollAt(e: Endpoint, now: Micros, k: u16, ev: AdspEvent)
    ensures var e' := Poll(e, now);
            && e'.pendingOpens == OpensAfter(e.pendingOpens, now)
            && (k in e'.connections <==> k in e.connections && !StreamGivesUp(e.connections[k], now))
            && (k in e'.connections ==> e'.connections[k] == StreamTicked(AttnTicked(e.connections[k], now), now))
            && Count(e'.events, ev) == Count(e.events, ev) + (if GivesUpOn(e, now, ev) then 1 else 0)
  {
    PollOpensCount(e, now, ev);
    var e1 := PollOpens(e, now);
    var keys1 := Ascending(e1.connections.Keys);
    PollAttentionsAt(e1, keys1, now, k, ev);
    var e2 := PollAttentions(e1, keys1, now);
    var keys2 := Ascending(e2.connections.Keys);
    PollStreamsAt(e2, keys2, now, k, ev);
    if ev.Closed? { PollAttentionsAt(e1, keys1, now, ev.conn, ev); }
  }

  /** Each timer this connection runs is set for later than `now`. */
  predicate TimersAfter(c: Connection, now: Micros) {
    && (c.flightBuffer != [] ==> c.lastTx + RETRANSMIT_TIMEOUT > now)
    && (c.attnInFlight.Some? ==> c.attnInFlight.value.lastTx + ATTN_RETRY_INTERVAL > now)
  }

  lemma {:induction false} ConnTimersMoveOn(e: Endpoint, now: Micros, k: u16)
    requires k in Poll(e, now).connections
    ensures TimersAfter(Poll(e, now).connections[k], now)
  {
    PollAt(e, now, k, Closed(0));
  }

  lemma {:induction false} OpenTimersMoveOn(e: Endpoint, now: Micros, id: u16)
    requires id in Poll(e, now).pendingOpens
    ensures Poll(e, now).pendingOpens[id].lastTx + OPEN_RETRY_INTERVAL > now
  {
    PollAt(e, now, 0, Closed(0));
  }

  /** Never spins: after `poll(now)` every deadline lies strictly after `now`. */
  lemma {:induction false} DeadlinesMoveOn(e: Endpoint, now: Micros)
    ensures forall d :: d in Deadlines(Poll(e, now)) ==> d > now
  {
    var e' := Poll(e, now);
    forall k: u16 | k in e'.connections ensures TimersAfter(e'.connections[k], now) { ConnTimersMoveOn(e, now, k); }
    forall id: u16 | id in e'.pendingOpens ensures e'.pendingOpens[id].lastTx + OPEN_RETRY_INTERVAL > now {
      OpenTimersMoveOn(e, now, id);
    }
    LaterDeadlines(e', now);
  }

  lemma {:induction false} LaterDeadlines(e: Endpoint, now: Micros)
    requires forall k: u16 :: k in e.connections ==> TimersAfter(e.connections[k], now)
    requires forall id: u16 :: id in e.pendingOpens ==> e.pendingOpens[id].lastTx + OPEN_RETRY_INTERVAL > now
    ensures forall d :: d in Deadlines(e) ==> d > now
  {
  }

  // ---- timers finish --------------------------------------------------------------------------

  function Left(max: nat, retries: nat): nat {
    if retries > max then 1 else max + 1 - retries
  }

  /** Timer turns a connection has left before its timers fall silent. */
  function ConnBudget(c: Connection): nat {
    (if c.flightBuffer != [] then Left(MAX_RETRIES, c.retries) else 0)
    + (if c.attnInFlight.Some? then Left(MAX_ATTN_RETRIES, c.attnInFlight.value.retries) else 0)
  }

  function OpenBudgets(opens: map<u16, PendingOpen>): map<u16, nat> {
    map id | id in opens :: Left(MAX_OPEN_RETRIES, opens[id].retries)
  }

  function ConnBudgets(conns: map<u16, Connection>): map<u16, nat> {
    map k | k in conns :: ConnBudget(conns[k])
  }

  ghost function Budget(e: Endpoint): nat {
    Sum(OpenBudgets(e.pendingOpens)) + Sum(ConnBudgets(e.connections))
  }

  lemma {:induction false} ConnBudgetDrops(c: Connection, now: Micros)
    ensures var c' := StreamTicked(AttnTicked(c, now), now);
            && ConnBudget(c') <= ConnBudget(c)
            && (DataDue(c, now) && !StreamGivesUp(c, now) ==> ConnBudget(c') < ConnBudget(c))
            && (AttnDue(c, now) ==> ConnBudget(c') < ConnBudget(c))
    ensures DataDue(c, now) || AttnDue(c, now) ==> ConnBudget(c) > 0
  {
  }

  lemma {:induction false} BudgetsAfter(e: Endpoint, now: Micros, k: u16)
    ensures var b, b' := ConnBudgets(e.connections), ConnBudgets(Poll(e, now).connections);
            && (k in b' ==> k in b && b'[k] <= b[k])
            && (k in b && (DataDue(e.connections[k], now) || AttnDue(e.connections[k], now)) ==>
                  if k in b' then b'[k] < b[k] else 0 < b[k])
  {
    PollAt(e, now, k, Closed(0));
    if k in e.connections { ConnBudgetDrops(e.connections[k], now); }
  }

  lemma {:induction false} OpenBudgetsDrop(opens: map<u16, PendingOpen>, now: Micros)
    ensures var o, o' := OpenBudgets(opens), OpenBudgets(OpensAfter(opens, now));
            && Sum(o') <= Sum(o)
            && forall id: u16 :: id in opens && OpenDue(opens[id], now) ==> Sum(o') < Sum(o)
  {
    var o, o' := OpenBudgets(opens), OpenBudgets(OpensAfter(opens, now));
    forall id: u16 | id in o' ensures id in o && o'[id] <= o[id] {
      assert id in OpensAfter(opens, now);
    }
    SumMonotone(o, o');
    forall id: u16 | id in opens && OpenDue(opens[id], now)
      ensures Sum(o') < Sum(o)
    {
      SumDrops(o, o', id);
    }
  }

  lemma {:induction false} OpenBudgetsShrink(e: Endpoint, now: Micros)
    ensures var o, o' := OpenBudgets(e.pendingOpens), OpenBudgets(Poll(e, now).pendingOpens);
            && Sum(o') <= Sum(o)
            && forall id: u16 :: id in e.pendingOpens && OpenDue(e.pendingOpens[id], now) ==> Sum(o') < Sum(o)
  {
    PollAt(e, now, 0, Closed(0));
    OpenBudgetsDrop(e.pendingOpens, now);
  }

  lemma {:induction false} ConnBudgetsShrink(e: Endpoint, now: Micros)
    ensures var b, b' := ConnBudgets(e.connections), ConnBudgets(Poll(e, now).connections);
            && Sum(b') <= Sum(b)
            && forall k: u16 :: k in e.connections && (DataDue(e.connections[k], now) || AttnDue(e.connections[k], now)) ==>
                 Sum(b') < Sum(b)
  {
    var b, b' := ConnBudgets(e.connections), ConnBudgets(Poll(e, now).connections);
    forall k: u16 ensures k in b' ==> k in b && b'[k] <= b[k] { BudgetsAfter(e, now, k); }
    SumMonotone(b, b');
    forall k: u16 | k in e.connections && (DataDue(e.connections[k], now) || AttnDue(e.connections[k], now))
      ensures Sum(b') < Sum(b)
    {
      BudgetsAfter(e, now, k);
      SumDrops(b, b', k);
    }
  }

  /** A passed deadline is some timer's. */
  lemma {:induction false} DeadlineIsDue(e: Endpoint, now: Micros, d: Micros)
    requires d in Deadlines(e) && d <= now
    ensures || (exists id: u16 :: id in e.pendingOpens && OpenDue(e.pendingOpens[id], now))
            || (exists k: u16 :: k in e.connections && (DataDue(e.connections[k], now) || AttnDue(e.connections[k], now)))
  {
    if id: u16 :| id in e.pendingOpens && d == e.pendingOpens[id].lastTx + OPEN_RETRY_INTERVAL {
      assert OpenDue(e.pendingOpens[id], now);
    } else if k: u16 :| k in e.connections && e.connections[k].flightBuffer != []
                        && d == e.connections[k].lastTx + RETRANSMIT_TIMEOUT {
      assert DataDue(e.connections[k], now);
    } else {
      var k: u16 :| k in e.connections && e.connections[k].attnInFlight.Some?
                    && d == e.connections[k].attnInFlight.value.lastTx + ATTN_RETRY_INTERVAL;
      assert AttnDue(e.connections[k], now);
    }
  }

  /** A wake-up at or after a deadline uses up budget. */
  lemma {:induction false} WakeupSpends(e: Endpoint, now: Micros, d: Micros)
    requires d in Deadlines(e) && d <= now
    ensures Budget(Poll(e, now)) < Budget(e)
  {
    DeadlineIsDue(e, now, d);
    OpenBudgetsShrink(e, now);
    ConnBudgetsShrink(e, now);
  }

  /** A driver that polls only when some deadline has passed, and feeds no input. */
  ghost predicate WakesUp(e: Endpoint, now: Micros, e': Endpoint) {
    && (exists d :: d in Deadlines(e) && d <= now)
    && e' == Poll(e, now)
  }

  ghost predicate IsDriverRun(es: seq<Endpoint>, times: seq<Micros>) {
    && |es| == |times| + 1
    && forall i :: 0 <= i < |times| ==> WakesUp(es[i], times[i], es[i + 1])
  }

  lemma {:induction false} RunSpends(es: seq<Endpoint>, times: seq<Micros>, i: nat)
    requires IsDriverRun(es, times) && i < |times|
    ensures Budget(es[i + 1]) < Budget(es[i])
  {
    assert WakesUp(es[i], times[i], es[i + 1]);
    var d :| d in Deadlines(es[i]) && d <= times[i];
    WakeupSpends(es[i], times[i], d);
  }

  const OPEN_TURNS: nat := MAX_OPEN_RETRIES + 1
  const CONNECTION_TURNS: nat := MAX_RETRIES + 1 + MAX_ATTN_RETRIES + 1

  /** Always finishes: such a driver wakes up at most six times for each open and twelve for each
      connection it started with. */
  lemma {:induction false} DriverRunsEnd(es: seq<Endpoint>, times: seq<Micros>)
    requires IsDriverRun(es, times)
    ensures |times| <= OPEN_TURNS * |es[0].pendingOpens| + CONNECTION_TURNS * |es[0].connections|
  {
    var budgets := seq(|es|, i requires 0 <= i < |es| => Budget(es[i]));
    forall i | 0 <= i < |times| ensures budgets[i + 1] < budgets[i] { RunSpends(es, times, i); }
    FallingEnds(budgets, |times|);
    var opens, conns := OpenBudgets(es[0].pendingOpens), ConnBudgets(es[0].connections);
    SumAtMost(opens, OPEN_TURNS);
    SumAtMost(conns, CONNECTION_TURNS);
    assert opens.Keys == es[0].pendingOpens.Keys && conns.Keys == es[0].connections.Keys;
    assert |opens| == |opens.Keys| && |es[0].pendingOpens| == |es[0].pendingOpens.Keys|;
    assert |conns| == |conns.Keys| && |es[0].connections| == |es[0].connections.Keys|;
  }

  lemma {:induction false} TallyOpen(es: seq<Endpoint>, times: seq<Micros>, n: nat, id: u16)
    requires IsDriverRun(es, times) && es[0].events == [] && n <= |times| && id in es[0].pendingOpens
    ensures Count(es[n].events, OpenFailed(id)) == if id in es[n].pendingOpens then 0 else 1
  {
    if n > 0 {
      TallyOpen(es, times, n - 1, id);
      assert WakesUp(es[n - 1], times[n - 1], es[n]);
      PollAt(es[n - 1], times[n - 1], 0, OpenFailed(id));
    }
  }

  lemma {:induction false} TallyClosed(es: seq<Endpoint>, times: seq<Micros>, n: nat, k: u16)
    requires IsDriverRun(es, times) && es[0].events == [] && n <= |times| && k in es[0].connections
    ensures Count(es[n].events, Closed(k)) == if k in es[n].connections then 0 else 1
    ensures k in es[n].connections ==> es[n].connections[k].flightBuffer == es[0].connections[k].flightBuffer
    ensures es[0].connections[k].flightBuffer == [] ==> k in es[n].connections
  {
    if n > 0 {
      TallyClosed(es, times, n - 1, k);
      assert WakesUp(es[n - 1], times[n - 1], es[n]);
      PollAt(es[n - 1], times[n - 1], k, Closed(k));
    }
  }

  lemma {:induction false} TallyAttention(es: seq<Endpoint>, times: seq<Micros>, n: nat, k: u16)
    requires IsDriverRun(es, times) && es[0].events == [] && n <= |times| && k in es[0].connections
    requires es[0].connections[k].attnInFlight.Some?
    ensures Count(es[n].events, AttentionFailed(k)) <= 1
    ensures k in es[n].connections ==>
              Count(es[n].events, AttentionFailed(k)) == if es[n].connections[k].attnInFlight.Some? then 0 else 1
  {
    if n > 0 {
      TallyAttention(es, times, n - 1, k);
      assert WakesUp(es[n - 1], times[n - 1], es[n]);
      PollAt(es[n - 1], times[n - 1], k, AttentionFailed(k));
    }
  }

  /** Every open, attention and unacknowledged byte has a deadline. */
  lemma {:induction false} PendingHasDeadline(e: Endpoint, k: u16)
    ensures k in e.pendingOpens ==> Deadlines(e) != {}
    ensures k in e.connections && (e.connections[k].flightBuffer != [] || e.connections[k].attnInFlight.Some?) ==>
              Deadlines(e) != {}
  {
    if k in e.pendingOpens {
      assert e.pendingOpens[k].lastTx + OPEN_RETRY_INTERVAL in Deadlines(e);
    }
    if k in e.connections && e.connections[k].flightBuffer != [] {
      assert e.connections[k].lastTx + RETRANSMIT_TIMEOUT in Deadlines(e);
    }
    if k in e.connections && e.connections[k].attnInFlight.Some? {
      assert e.connections[k].attnInFlight.value.lastTx + ATTN_RETRY_INTERVAL in Deadlines(e);
    }
  }

  /** Exactly one failure each: when the driver has run out of deadlines, every open it
      started with has failed once, and a connection has closed once if it had unacknowledged data
      and not at all otherwise. An attention has failed once, or at most once if its connection
      went down. */
  lemma {:induction false} EachTimerFailsOnce(es: seq<Endpoint>, times: seq<Micros>, k: u16)
    requires IsDriverRun(es, times) && es[0].events == [] && Deadlines(es[|times|]) == {}
    ensures var e, evs := es[0], es[|times|].events;
            && (k in e.pendingOpens ==> Count(evs, OpenFailed(k)) == 1)
            && (k in e.connections ==>
                  Count(evs, Closed(k)) == if e.connections[k].flightBuffer != [] then 1 else 0)
            && (k in e.connections && e.connections[k].attnInFlight.Some? ==>
                  && Count(evs, AttentionFailed(k)) <= 1
                  && (e.connections[k].flightBuffer == [] ==> Count(evs, AttentionFailed(k)) == 1))
  {
    PendingHasDeadline(es[|times|], k);
    if k in es[0].pendingOpens { TallyOpen(es, times, |times|, k); }
    if k in es[0].connections {
      TallyClosed(es, times, |times|, k);
      if es[0].connections[k].attnInFlight.Some? { TallyAttention(es, times, |times|, k); }
    }
  }

  /** The first retry of an open comes when its interval has passed since the request went out. */
  lemma {:induction false} OpenWaits(e: Endpoint, remote: Address, sent: Micros, drawn: u16, now: Micros)
    requires drawn !in e.pendingOpens
    ensures var e' := Connect(e, remote, sent, drawn);
            && e'.pendingOpens.Keys == e.pendingOpens.Keys + {drawn}
            && (OpenDue(e'.pendingOpens[drawn], now) <==> now >= sent + OPEN_RETRY_INTERVAL)
            && !OpenGivesUp(e'.pendingOpens[drawn], now)
  {
  }

  /** And so does that of an attention. */
  lemma {:induction false} AttentionWaits(c: Connection, code: u16, data: seq<byte>, sent: Micros, now: Micros)
    ensures var c' := SendAttentionOn(c, code, data, sent).conn;
            && (AttnDue(c', now) <==> now >= sent + ATTN_RETRY_INTERVAL)
            && !AttnGivesUp(c', now)
  {
  }
}
