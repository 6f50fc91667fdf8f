/** What the requestor's steps keep. */
module AtpRequestor {
  import opened Words
  import opened AtpSpec
  import opened AtpReassembly
  import opened AtpOnce
  import opened AtpSystem

  // ---- the requestor's steps ----------------------------------------------------------------------------

  lemma {:induction false} NotSent(s: System, act: Action, tid: u16)
    requires Tidy(s.q) && QCan(s, act)
    requires forall m :: m in After(s.q, act).outbox && m.0 == s.ra && m.1.tid == tid ==>
               (m.1.function_ == Request ==> m.1.xo) && m.1.function_ != Release
    requires RequestsOk(s.toR, tid)
    ensures RequestsOk(QStep(s, act).toR, tid)
  {
  }

  lemma {:induction false} QSendsOk(s: System, act: Action, tid: u16)
    requires Tidy(s.q) && QCan(s, act) && tid in s.used && RequestsOk(s.toR, tid)
    requires tid in s.asked && tid !in QStep(s, act).done
    ensures RequestsOk(QStep(s, act).toR, tid)
  {
    forall m | m in After(s.q, act).outbox && m.0 == s.ra && m.1.tid == tid
      ensures (m.1.function_ == Request ==> m.1.xo) && m.1.function_ != Release
    {
      SentAccounted(s.q, act, m);
    }
    NotSent(s, act, tid);
  }

  lemma {:induction false} QLeavesWaiting(s: System, act: Action, tid: u16)
    requires QCan(s, act) && tid in s.used && tid in QStep(s, act).q.pending
    requires !(act.Receive? && act.p.function_ == Response && act.p.tid == tid && tid in s.q.pending)
    ensures tid in s.q.pending
    ensures var w, w' := s.q.pending[tid], QStep(s, act).q.pending[tid];
            && w'.requestedBitmap == w.requestedBitmap && w'.received == w.received
            && w'.userBytes == w.userBytes && w'.eomSeq == w.eomSeq
  {
  }

  /** One packet of the answer: the request stays open and in order, or closes with a response the
      answer accounts for, or (when the reply does not fit) closes with nothing. */
  lemma {:induction false} TakesPacket(a: Atp, src: Address, p: AtpPacket, tid: u16, bitmap: u8, chunks: seq<Chunk>)
    requires tid in a.pending && WaitingOk(a.pending[tid], bitmap, Some(chunks)) && a.events == []
    requires p in Framed(tid, chunks)
    ensures var a' := HandleResponse(a, src, p);
            && (tid in a'.pending ==> WaitingOk(a'.pending[tid], bitmap, Some(chunks)) && a'.events == [])
            && (a'.events != [] ==>
                  && |a'.events| == 1 && a'.events[0].ResponseEvent? && a'.events[0].handle == tid
                  && CompletionOk(Completion(a'.events[0].userBytes, a'.events[0].data, true), bitmap, Some(chunks)))
  {
    var i: u8 :| i < |Framed(tid, chunks)| && p == Framed(tid, chunks)[i];
    FiledHolds(a.pending[tid], chunks, tid, i);
    if Fits(bitmap, Count(chunks)) { OnePacket(a, src, tid, chunks, i); }
  }

  lemma {:induction false} QTakesResponse(s: System, src: Address, p: AtpPacket, tid: u16)
    requires Tidy(s.q) && QCan(s, Receive(src, p)) && p.function_ == Response && p.tid == tid
    requires tid in s.used && Live(s, tid) && LiveOk(s, tid) && tid in s.q.pending
    ensures TidOk(QStep(s, Receive(src, p)), tid)
  {
    var s' := QStep(s, Receive(src, p));
    assert p in s.toQ;
    TakesPacket(s.q, src, p, tid, s.asked[tid], s.answer[tid]);
    if tid !in s'.done { QSendsOk(s, Receive(src, p), tid); }
  }

  /** Responses that close nothing here leave a request out of `pending` as it was. */
  lemma {:induction false} DoneOnlyByResponse(s: System, act: Action, tid: u16)
    requires Tidy(s.q) && QCan(s, act) && tid in s.used && tid !in s.done && tid in QStep(s, act).done
    ensures act.Receive? && act.p.function_ == Response && act.p.tid == tid && tid in s.q.pending && tid in s.asked
  {
    var evs := After(s.q, act).events;
    match act
    case Tick(now) => FailuresOnly(s.q.pending, Ascending(s.q.pending.Keys), now);
    case _ =>
  }

  lemma {:induction false} DoneStays(s: System, act: Action, tid: u16)
    requires Tidy(s.q) && QCan(s, act) && tid in s.done && tid in s.used && TidOk(s, tid)
    ensures TidOk(QStep(s, act), tid)
  {
    var s' := QStep(s, act);
    match act
    case Tick(now) => FailuresOnly(s.q.pending, Ascending(s.q.pending.Keys), now);
    case _ =>
  }

  lemma {:induction false} QStartsTid(s: System, act: Action, tid: u16)
    requires Tidy(s.q) && QCan(s, act) && tid !in s.used && TidOk(s, tid)
    ensures TidOk(QStep(s, act), tid)
  {
    var s' := QStep(s, act);
    forall m | m in After(s.q, act).outbox && m.0 == s.ra && m.1.tid == tid
      ensures m.1.function_ == Response
              || (m.1.function_ == Request && tid in s'.used && (act.Ask? ==> m.1.xo && act.dest == s.ra))
    {
      SentAccounted(s.q, act, m);
    }
    match act
    case Tick(now) => FailuresOnly(s.q.pending, Ascending(s.q.pending.Keys), now);
    case _ =>
  }

  lemma {:induction false} QTakesUntracked(s: System, src: Address, p: AtpPacket, tid: u16)
    requires Tidy(s.q) && QCan(s, Receive(src, p)) && p.function_ == Response && p.tid == tid
    requires tid in s.used && !Live(s, tid) && tid !in s.done && tid in s.q.pending
    ensures TidOk(QStep(s, Receive(src, p)), tid)
  {
  }

  lemma {:induction false} QLiveStays(s: System, act: Action, tid: u16)
    requires Tidy(s.q) && QCan(s, act) && tid in s.used && Live(s, tid) && LiveOk(s, tid)
    requires Live(QStep(s, act), tid)
    requires !(act.Receive? && act.p.function_ == Response && act.p.tid == tid && tid in s.q.pending)
    ensures LiveOk(QStep(s, act), tid)
  {
    var s' := QStep(s, act);
    QSendsOk(s, act, tid);
    QLeavesAlone(s, act, tid);
    if tid in s'.q.pending { QLeavesWaiting(s, act, tid); }
  }

  /** What a step of the requestor never touches. */
  lemma {:induction false} QLeavesAlone(s: System, act: Action, tid: u16)
    requires QCan(s, act) && tid in s.used && tid in s.asked
    ensures var s' := QStep(s, act);
            && s'.r == s.r && s'.qa == s.qa && s'.toQ == s.toQ && s'.raised == s.raised && s'.answered == s.answered
            && AnswerTo(s', tid) == AnswerTo(s, tid) && tid in s'.asked && s'.asked[tid] == s.asked[tid]
  {
  }

  /** A step that brings this request nothing. */
  lemma {:induction false} QElsewhere(s: System, act: Action, tid: u16)
    requires Tidy(s.q) && QCan(s, act) && TidOk(s, tid) && tid in s.used && tid !in s.done
    requires !(act.Receive? && act.p.function_ == Response && act.p.tid == tid && tid in s.q.pending)
    ensures TidOk(QStep(s, act), tid)
  {
    var s' := QStep(s, act);
    if tid in s'.done {
      DoneOnlyByResponse(s, act, tid);
      assert false;
    } else if Live(s', tid) {
      QLiveStays(s, act, tid);
    }
  }

  lemma {:induction false} QKeeps(s: System, act: Action, tid: u16)
    requires Tidy(s.q) && QCan(s, act) && TidOk(s, tid)
    ensures TidOk(QStep(s, act), tid)
  {
    if tid !in s.used {
      QStartsTid(s, act, tid);
    } else if tid in s.done {
      DoneStays(s, act, tid);
    } else if act.Receive? && act.p.function_ == Response && act.p.tid == tid && tid in s.q.pending {
      if Live(s, tid) {
        QTakesResponse(s, act.src, act.p, tid);
      } else {
        QTakesUntracked(s, act.src, act.p, tid);
      }
    } else {
      QElsewhere(s, act, tid);
    }
  }
}
