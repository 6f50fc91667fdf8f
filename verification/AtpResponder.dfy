/** What the responder's steps keep. */
module AtpResponder {
  import opened Words
  import opened AtpSpec
  import opened AtpReassembly
  import opened AtpOnce
  import opened AtpSystem

  // ---- the responder's steps ------------------------------------------------------------------------------

  lemma {:induction false} RaisedNone(evs: seq<AtpEvent>, src: Address)
    requires forall i :: 0 <= i < |evs| ==> !evs[i].RequestEvent?
    ensures RaisedFrom(evs, src) == Nobody
  {
    if evs != [] { RaisedNone(evs[..|evs| - 1], src); }
  }

  lemma {:induction false} RaisedOne(ev: AtpEvent, src: Address)
    requires ev.RequestEvent?
    ensures RaisedFrom([ev], src) == if ev.source == src then Just(ev.tid) else Nobody
  {
    assert [ev][..0] == [];
  }

  /** What the step raises from the requestor. */
  lemma {:induction false} RRaises(s: System, act: Action)
    requires Tidy(s.r) && RCan(s, act)
    ensures RaisedFrom(After(s.r, act).events, s.qa) ==
              if act.Receive? && act.src == s.qa && Raises(s.r, act.src, act.p) then Just(act.p.tid) else Nobody
  {
    match act
    case Tick(now) =>
      FailuresOnly(s.r.pending, Ascending(s.r.pending.Keys), now);
      RaisedNone(After(s.r, act).events, s.qa);
    case Receive(src, p) =>
      if p.function_ == Request {
        RequestKnows(s.r, src, p, src, p.tid);
        if Raises(s.r, src, p) {
          RaisedOne(RaisedEvent(src, p), s.qa);
          assert After(s.r, act).events == [RaisedEvent(src, p)];
        } else {
          RaisedNone(After(s.r, act).events, s.qa);
        }
      } else {
        RaisedNone(After(s.r, act).events, s.qa);
      }
    case _ => RaisedNone(After(s.r, act).events, s.qa);
  }

  /** New entries of the reply cache come from answers. */
  lemma {:induction false} CachedSource(s: System, act: Action, tid: u16)
    requires Tidy(s.r) && RCan(s, act)
    ensures HasCached(After(s.r, act).replyCache, s.qa, tid) ==>
              HasCached(s.r.replyCache, s.qa, tid) || (AnswersQ(s, act) && act.tid == tid)
  {
    var cache' := After(s.r, act).replyCache;
    if HasCached(cache', s.qa, tid) {
      var i :| 0 <= i < |cache'| && cache'[i].source == s.qa && cache'[i].tid == tid;
      TidyCacheKeeps(s.r, act, cache'[i]);
      HasCachedIn(s.r.replyCache, s.qa, tid);
    }
  }

  lemma {:induction false} InProgressSource(s: System, act: Action, tid: u16)
    requires Tidy(s.r) && RCan(s, act)
    ensures (s.qa, tid) in After(s.r, act).inProgress ==>
              || (s.qa, tid) in s.r.inProgress
              || (act.Receive? && act.src == s.qa && act.p.tid == tid && Raises(s.r, act.src, act.p) && act.p.xo)
    ensures AnswersQ(s, act) && act.tid == tid ==> (s.qa, tid) !in After(s.r, act).inProgress
  {
    if act.Answer? { RemovedKeys(s.r.inProgress, (act.source, act.tid), (s.qa, tid)); }
  }

  lemma {:induction false} RSendsOk(s: System, act: Action, tid: u16)
    requires Tidy(s.r) && RCan(s, act) && ResponsesOk(s.toQ, tid, AnswerTo(s, tid))
    requires forall c :: c in s.r.replyCache && c.source == s.qa && c.tid == tid ==>
               AnswerTo(s, tid).Some? && c.packets == Framed(tid, AnswerTo(s, tid).value)
    requires AnswersQ(s, act) && act.tid == tid ==> tid !in s.answer
    ensures ResponsesOk(RStep(s, act).toQ, tid, AnswerTo(RStep(s, act), tid))
  {
    var s' := RStep(s, act);
    forall p | p in s'.toQ && p.function_ == Response && p.tid == tid
      ensures AnswerTo(s', tid).Some? && p in Framed(tid, AnswerTo(s', tid).value)
    {
      if p !in s.toQ {
        var m :| m in After(s.r, act).outbox && m.0 == s.qa && m.1 == p;
        SentAccounted(s.r, act, m);
      }
    }
  }

  /** An answer puts the reply on record. */
  lemma {:induction false} AnswerRecorded(s: System, act: Action, tid: u16)
    requires Tidy(s.r) && RCan(s, act) && AnswersQ(s, act) && act.tid == tid && tid in s.used
    requires RecordOk(s.r, s.qa, tid, s.raised[tid], s.answered[tid], AnswerTo(s, tid))
    ensures tid !in s.answer
    ensures var s' := RStep(s, act);
            RecordOk(s'.r, s.qa, tid, s'.raised[tid], s'.answered[tid], AnswerTo(s', tid))
  {
    var s' := RStep(s, act);
    AnswerKnows(s.r, act.source, tid, act.chunks, act.now, s.qa, tid);
    InProgressSource(s, act, tid);
    RRaises(s, act);
    forall c | c in s'.r.replyCache && c.source == s.qa && c.tid == tid
      ensures c.packets == Framed(tid, act.chunks)
    {
      TidyCacheKeeps(s.r, act, c);
      if c in s.r.replyCache { HasCachedIn(s.r.replyCache, s.qa, tid); }
    }
  }

  /** Every other step leaves the record as it was, raises the request, or loses it. */
  lemma {:induction false} RecordKeeps(s: System, act: Action, tid: u16)
    requires Tidy(s.r) && RCan(s, act) && !(AnswersQ(s, act) && act.tid == tid) && tid in s.used
    requires RecordOk(s.r, s.qa, tid, s.raised[tid], s.answered[tid], AnswerTo(s, tid))
    requires RequestsOk(s.toR, tid) && tid !in RStep(s, act).lost
    ensures var s' := RStep(s, act);
            RecordOk(s'.r, s.qa, tid, s'.raised[tid], s'.answered[tid], AnswerTo(s', tid))
  {
    var s' := RStep(s, act);
    RRaises(s, act);
    CachedSource(s, act, tid);
    InProgressSource(s, act, tid);
    if act.Receive? && act.p.function_ == Request { RequestKnows(s.r, act.src, act.p, s.qa, tid); }
    if Known(s.r, s.qa, tid) && !Known(s'.r, s.qa, tid) {
      ForgottenOnlyBy(s.r, act, s.qa, tid);
      assert false;
    }
    forall c | c in s'.r.replyCache && c.source == s.qa && c.tid == tid
      ensures AnswerTo(s', tid).Some? && c.packets == Framed(tid, AnswerTo(s', tid).value)
    {
      TidyCacheKeeps(s.r, act, c);
    }
  }

  lemma {:induction false} RLive(s: System, act: Action, tid: u16)
    requires Tidy(s.r) && RCan(s, act) && tid in s.used && Live(s, tid) && LiveOk(s, tid)
    requires Live(RStep(s, act), tid)
    ensures LiveOk(RStep(s, act), tid)
  {
    if AnswersQ(s, act) && act.tid == tid {
      AnswerRecorded(s, act, tid);
    } else {
      RecordKeeps(s, act, tid);
    }
    RSendsOk(s, act, tid);
  }

  lemma {:induction false} RUnused(s: System, act: Action, tid: u16)
    requires Tidy(s.r) && RCan(s, act) && tid !in s.used && Unused(s, tid)
    ensures Unused(RStep(s, act), tid)
  {
    var s' := RStep(s, act);
    RRaises(s, act);
    CachedSource(s, act, tid);
    InProgressSource(s, act, tid);
    forall p | p in s'.toQ && p.tid == tid ensures p.function_ != Response {
      if p !in s.toQ {
        var m :| m in After(s.r, act).outbox && m.0 == s.qa && m.1 == p;
        SentAccounted(s.r, act, m);
        HasCachedIn(s.r.replyCache, s.qa, tid);
      }
    }
  }

  lemma {:induction false} RKeeps(s: System, act: Action, tid: u16)
    requires Tidy(s.r) && RCan(s, act) && TidOk(s, tid)
    ensures TidOk(RStep(s, act), tid)
  {
    if tid !in s.used {
      RUnused(s, act, tid);
    } else if Live(RStep(s, act), tid) {
      RLive(s, act, tid);
    }
  }
}
