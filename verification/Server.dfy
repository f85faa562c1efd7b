/** The control plane's worker server as an object (workers/server.go, link.go, friends.go): its
    handlers, each proved to do what the interleaved model in Correlation and Streams takes as
    its steps. Channels and callbacks are handles; what arrives while a call waits is a
    parameter. */
module Server {
  import opened Wrappers
  import opened Messages
  import opened Pending
  import C = Correlation

  type Handle = C.Handle

  /** How a call ends when run alone. Stuck: its command channel was full, so it never gets to
      watch its deadline. */
  datatype CallEnd = Ended(outcome: C.Outcome) | Stuck

  class Server {
    const registry: Registry
    const friends: PendingFriends<Handle>
    const links: PendingLinks<Handle>

    constructor ()
      ensures fresh(registry) && fresh(friends) && fresh(links)
      ensures registry.Slot() == None && friends.chans == map[] && links.Table() == EmptyLinks()
    {
      registry := new Registry();
      friends := new PendingFriends();
      links := new PendingLinks();
    }

    /** handle, up to the point where it leaves the mutex: what the receive loop does next is
        what the model's Handle step says, and only a Ready touches the registry. */
    method HandleEvent(w: Worker, workerId: string, ev: Event) returns (next: C.Receiver)
      modifies registry, w`id
      ensures next == C.AfterHandling(friends.chans, links.Table(), ev)
      ensures ev.Guard? ==> next == if ev.id in links.guards then C.Calling(ev, links.guards[ev.id]) else C.Listening
      ensures ev.Challenge? ==> next == if ev.id in links.challenges then C.Calling(ev, links.challenges[ev.id]) else C.Listening
      ensures registry.Slot() == if ev.Ready? then Register(old(registry.Slot()), w) else old(registry.Slot())
      ensures w.id == if ev.Ready? then workerId else old(w.id)
    {
      next := C.Listening;
      match ev {
        case Ready =>
          w.id := workerId;
          registry.RegisterWorker(w);
        case StatusUpdate(_) =>
        case Guard(r, _) =>
          if r in links.guards {
            next := C.Calling(ev, links.guards[r]);
          }
        case Challenge(r, _) =>
          if r in links.challenges {
            next := C.Calling(ev, links.challenges[r]);
          }
        case Final(FriendsReply(r, _)) =>
          if r in friends.chans {
            next := C.Delivering(ev.reply, friends.chans[r]);
          }
        case Final(LinkReply(r, _)) =>
          if r in links.chans {
            next := C.Delivering(ev.reply, links.chans[r]);
          }
      }
    }

    /** The pump with nobody else sending: it sends what is queued, in order, until the queue is
        empty or a send fails; the command of the failing send is lost, the rest stays queued. */
    method Pump(w: Worker, sendFails: nat -> bool) returns (sent: seq<Command>, lost: seq<Command>)
      modifies w`send
      ensures old(w.send) == sent + lost + w.send
      ensures lost == [] ==> w.send == [] && forall i: nat :: i < |sent| ==> !sendFails(i)
      ensures lost != [] ==> |lost| == 1 && sendFails(|sent|) && forall i: nat :: i < |sent| ==> !sendFails(i)
    {
      sent, lost := [], [];
      while w.send != []
        invariant old(w.send) == sent + w.send
        invariant forall i: nat :: i < |sent| ==> !sendFails(i)
        decreases |w.send|
      {
        var cmd := w.send[0];
        w.send := w.send[1..];
        if sendFails(|sent|) {
          lost := [cmd];
          return;
        }
        sent := sent + [cmd];
      }
    }

    /** Link: the request is in the table while the call waits, and the table is as before when
        it returns; a worker must be connected, and a reply counts only if it came in time. */
    method Link(r: RequestId, ch: Handle, username: string, password: string, onGuard: Option<Handle>, onChallenge: Option<Handle>,
                inTime: Option<Reply>) returns (end: CallEnd)
      requires r !in links.chans && r !in links.guards && r !in links.challenges
      requires registry.Slot().Some? ==> |registry.Slot().value.send| <= SEND_CAPACITY
      modifies links, registry.current
      ensures end == if old(registry.Slot()).None? then Ended(C.NoWorker)
                     else if |old(registry.Slot().value.send)| == SEND_CAPACITY then Stuck
                     else if inTime.None? then Ended(C.Deadline)
                     else Ended(C.Answer(inTime.value))
      ensures links.Table() == if end.Stuck? then AddLink(old(links.Table()), r, ch, onGuard, onChallenge) else old(links.Table())
      ensures end.Ended? && !end.outcome.NoWorker? ==>
                registry.Slot() == old(registry.Slot())
                && registry.Slot().value.send == old(registry.Slot().value.send) + [LinkAccount(r, username, password)]
    {
      AddThenRemove(links.Table(), r, ch, onGuard, onChallenge);
      links.Add(r, ch, onGuard, onChallenge);
      var pushed := registry.Send(LinkAccount(r, username, password));
      if pushed.Blocked? {
        return Stuck;
      }
      if pushed.Dropped? {
        end := Ended(C.NoWorker);
      } else if inTime.None? {
        end := Ended(C.Deadline);
      } else {
        end := Ended(C.Answer(inTime.value));
      }
      links.Remove(r);
    }

    method ListFriends(r: RequestId, ch: Handle, refreshToken: string, inTime: Option<Reply>) returns (end: CallEnd)
      requires r !in friends.chans
      requires registry.Slot().Some? ==> |registry.Slot().value.send| <= SEND_CAPACITY
      modifies friends, registry.current
      ensures end == if old(registry.Slot()).None? then Ended(C.NoWorker)
                     else if |old(registry.Slot().value.send)| == SEND_CAPACITY then Stuck
                     else if inTime.None? then Ended(C.Deadline)
                     else Ended(C.Answer(inTime.value))
      ensures friends.chans == if end.Stuck? then old(friends.chans)[r := ch] else old(friends.chans)
      ensures end.Ended? && !end.outcome.NoWorker? ==>
                registry.Slot() == old(registry.Slot())
                && registry.Slot().value.send == old(registry.Slot().value.send) + [Command.ListFriends(r, refreshToken)]
    {
      friends.Add(r, ch);
      var pushed := registry.Send(Command.ListFriends(r, refreshToken));
      if pushed.Blocked? {
        return Stuck;
      }
      if pushed.Dropped? {
        end := Ended(C.NoWorker);
      } else if inTime.None? {
        end := Ended(C.Deadline);
      } else {
        end := Ended(C.Answer(inTime.value));
      }
      friends.Remove(r);
    }
  }
}
