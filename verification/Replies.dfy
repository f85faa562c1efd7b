/** Replies in the control plane: if every reply that arrives is good, in whatever sense, every
    reply that a receive loop, a channel or a call holds is. */
module Replies {
  import opened Messages
  import C = Correlation
  import Pending
  import Streams

  predicate GoodReceiver(good: Reply -> bool, v: C.Receiver) {
    && (v.Handling? && v.event.Final? ==> good(v.event.reply))
    && (v.Delivering? ==> good(v.reply))
  }

  ghost predicate GoodReceivers(good: Reply -> bool, receivers: C.Receivers) {
    forall x :: x in receivers ==> GoodReceiver(good, receivers[x])
  }

  ghost predicate GoodBuffers(good: Reply -> bool, buffers: C.Buffers) {
    forall h, i :: h in buffers && 0 <= i < |buffers[h]| ==> good(buffers[h][i])
  }

  ghost predicate GoodPhases(good: Reply -> bool, phases: C.Phases) {
    forall r :: r in phases && C.AnswerOf(phases[r]).Some? ==> good(C.AnswerOf(phases[r]).value)
  }

  ghost predicate All(good: Reply -> bool, s: C.System) {
    GoodReceivers(good, s.receivers) && GoodBuffers(good, s.buffers) && GoodPhases(good, s.phases)
  }

  lemma ReceiveLoopStaysGood(good: Reply -> bool, s: C.System, w: C.Step)
    requires All(good, s) && C.Enabled(s, w)
    requires w.Handle? || w.Deliver? || w.CallbackReturns? || w.Arrive? || w.Leave?
    requires w.Arrive? && w.event.Final? ==> good(w.event.reply)
    ensures All(good, C.Do(s, w))
  {
    hide C.Lookup, Streams.Do, Streams.Enabled;
    assert GoodReceiver(good, s.receivers[w.x]);
  }

  lemma BeginStaysGood(good: Reply -> bool, s: C.System, r: RequestId, h: C.Handle, command: Command, onGuard: bool, onChallenge: bool)
    requires All(good, s)
    ensures All(good, C.BeginCall(s, r, h, command, onGuard, onChallenge))
  {
    hide Pending.AddLink;
  }

  lemma TakeStaysGood(good: Reply -> bool, s: C.System, r: RequestId)
    requires All(good, s) && C.InFlight(s, r) && C.Inbox(s, r) != []
    ensures All(good, C.TakeReply(s, r))
  {
    assert good(C.Inbox(s, r)[0]);
    forall i | 0 <= i < |C.Inbox(s, r)[1..]|
      ensures good(C.Inbox(s, r)[1..][i])
    {
      assert C.Inbox(s, r)[1..][i] == s.buffers[s.calls[r].handle][i + 1];
    }
  }

  lemma RemoveStaysGood(good: Reply -> bool, s: C.System, r: RequestId)
    requires All(good, s) && r in s.calls && r in s.phases && s.phases[r].Returning?
    ensures All(good, C.RemoveCall(s, r))
  {
    hide Pending.RemoveLink, GoodReceivers, GoodBuffers;
    var t := C.RemoveCall(s, r);
    assert t.receivers == s.receivers && t.buffers == s.buffers && t.phases == s.phases[r := C.Done(s.phases[r].outcome)];
    hide C.RemoveCall;
    assert C.AnswerOf(C.Done(s.phases[r].outcome)) == C.AnswerOf(s.phases[r]);
  }

  lemma QuietStaysGood(good: Reply -> bool, s: C.System, w: C.Step)
    requires All(good, s) && C.Enabled(s, w)
    requires w.Net? || w.EndSession? || w.ReadSlot? || w.Push? || w.Expire? || w.RelayReads? || w.RelayPushes?
    ensures All(good, C.Do(s, w))
  {
    hide Streams.Do, Streams.Enabled;
  }

  lemma StaysGood(good: Reply -> bool, s: C.System, w: C.Step)
    requires All(good, s) && C.Enabled(s, w)
    requires w.Arrive? && w.event.Final? ==> good(w.event.reply)
    ensures All(good, C.Do(s, w))
  {
    hide All, Streams.Enabled, C.BeginCall, C.TakeReply, C.RemoveCall, C.HandleEvent, C.DeliverReply, C.FinishCallback, C.PushCommand;
    match w {
      case Begin(r, h, command, onGuard, onChallenge) => BeginStaysGood(good, s, r, h, command, onGuard, onChallenge);
      case Take(r) => TakeStaysGood(good, s, r);
      case Remove(r) => RemoveStaysGood(good, s, r);
      case Handle(_) => ReceiveLoopStaysGood(good, s, w);
      case Deliver(_) => ReceiveLoopStaysGood(good, s, w);
      case CallbackReturns(_) => ReceiveLoopStaysGood(good, s, w);
      case Arrive(_, _) => ReceiveLoopStaysGood(good, s, w);
      case Leave(_) => ReceiveLoopStaysGood(good, s, w);
      case _ => QuietStaysGood(good, s, w);
    }
  }

  /** What is good in one sense and implies another is good in the other. */
  lemma Weaken(good: Reply -> bool, better: Reply -> bool, s: C.System)
    requires All(good, s) && forall reply :: good(reply) ==> better(reply)
    ensures All(better, s)
  {
  }
}
