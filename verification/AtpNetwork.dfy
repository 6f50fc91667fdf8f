/** What holds between a requestor and a responder in every state of every run. */
module AtpNetwork {
  import opened Words
  import opened AtpSpec
  import opened AtpReassembly
  import opened AtpOnce
  import opened AtpSystem
  import opened AtpRequestor
  import opened AtpResponder

  lemma {:induction false} NextKeepsInv(s: System, e: Event, s': System)
    requires Inv(s) && Next(s, e, s')
    ensures Inv(s')
  {
    match e {
      case AtQ(act) =>
        TidyKeeps(s.q, act);
        forall tid: u16 ensures TidOk(s', tid) { QKeeps(s, act, tid); }
      case AtR(act) =>
        TidyKeeps(s.r, act);
        forall tid: u16 ensures TidOk(s', tid) { RKeeps(s, act, tid); }
    }
  }

  lemma {:induction false} RunKeepsInv(states: seq<System>, evs: seq<Event>, n: nat)
    requires IsSystemRun(states, evs) && n <= |evs|
    ensures Inv(states[n])
  {
    if n > 0 {
      RunKeepsInv(states, evs, n - 1);
      NextKeepsInv(states[n - 1], evs[n - 1], states[n]);
    }
  }

  /** Whatever the network does: a response raised for a request carries exactly the data of the
      first reply the responder gave to that request, and the user bytes of one of its packets,
      provided the reply fits the bitmap and the responder had not let the transaction expire or be
      evicted before. */
  lemma {:induction false} ResponseIsTheAnswer(states: seq<System>, evs: seq<Event>, n: nat, tid: u16)
    requires IsSystemRun(states, evs) && n <= |evs|
    requires tid in states[n].done && states[n].done[tid].inTime
    ensures tid in states[n].answer && tid in states[n].asked
    ensures var s := states[n];
            Fits(s.asked[tid], Count(s.answer[tid])) ==>
              && s.done[tid].data == Carried(s.answer[tid])
              && exists i :: 0 <= i < Count(s.answer[tid]) && s.answer[tid][i].userBytes == s.done[tid].userBytes
  {
    RunKeepsInv(states, evs, n);
    assert TidOk(states[n], tid);
  }

  /** Until the response is in, and while nothing is lost, the application is asked at most once. */
  lemma {:induction false} RaisedOnceUntilDone(states: seq<System>, evs: seq<Event>, n: nat, tid: u16)
    requires IsSystemRun(states, evs) && n <= |evs| && Live(states[n], tid)
    ensures states[n].answered[tid] <= states[n].raised[tid] <= 1
  {
    RunKeepsInv(states, evs, n);
    assert TidOk(states[n], tid);
  }

  /** The only packet of a reply nobody asked this address for. */
  function Foreign(tid: u16, userBytes: UserBytes, data: seq<byte>): AtpPacket {
    AtpPacket(Response, false, true, 0, tid, userBytes, data)
  }

  /** Why answers from elsewhere are left out: a single packet, from any address and with any data,
      closes a request to the responder as its answer, in time; the release goes to that address. */
  lemma {:induction false} ForeignAnswerIsTaken(s: System, src: Address, tid: u16, userBytes: UserBytes, data: seq<byte>)
    requires Tidy(s.q) && Untouched(s.q, tid) && tid in s.asked && tid !in s.lost
    ensures var act := Receive(src, Foreign(tid, userBytes, data));
            && Possible(s.q, act)
            && QStep(s, act).done == s.done[tid := Completion(userBytes, data, true)]
            && tid !in QStep(s, act).q.pending
            && After(s.q, act).outbox == [(src, ReleasePacket(tid))]
  {
    var p := Foreign(tid, userBytes, data);
    var w := Filed(s.q.pending[tid], p);
    assert Gather(w.received, 0) == Some([]);
    assert [] + data == data;
    assert Gather(w.received, 1) == Some(data);
    ResponseCloses(s.q, src, p, data);
    assert After(s.q, Receive(src, p)) == HandleResponse(s.q, src, p);
  }
}
